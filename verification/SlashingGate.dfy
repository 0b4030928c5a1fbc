// The anti-slashing start gate as a timed transition system.
//
// A step is one thing that can happen on the machine: time passes, Docker
// restarts a crashed container, the operator saves a new configuration, or the
// start command makes its next move. The moves are those of startService and
// checkForValidatorChange; Docker may act between any two of them. Times are
// nanoseconds since the year 1, the zero time of the source.
module SlashingGate {
  import opened ImageName

  const SECOND: int := 1_000_000_000
  const LOCKOUT: int := 15 * 60 * SECOND
  const NEVER: int := 0

  datatype Status = Created | Running | Restarting | Exited

  /** An image reference together with what the parser makes of it. */
  datatype Image = Image(text: string, client: Parsed)

  function ImageOf(text: string): Image {
    Image(text, GetDockerImageName(text))
  }

  datatype Container = Container(image: Image, status: Status, finishedAt: int)

  datatype Slot = Absent | Present(c: Container)

  datatype Unit = ValidatorUnit | BeaconUnit

  /** Where the start command stands. */
  datatype Phase =
    | Idle
    | Inspecting(unit: Unit)               // the clients differ; the finish time comes next
    | FinishRead(unit: Unit, finish: int)  // the status comes next
    | StopWanted(unit: Unit)
    | Stopped
    | Counting(safeStart: int)
    | Cleared                              // the gate is passed; docker compose up comes next
    | Refused                              // the gate failed; the operator is asked

  datatype World = World(now: int, configured: Image, checked: Image, phase: Phase, validator: Slot, beacon: Slot)
  {
    function Get(unit: Unit): Slot {
      match unit
      case ValidatorUnit => validator
      case BeaconUnit => beacon
    }

    function Put(unit: Unit, slot: Slot): World {
      match unit
      case ValidatorUnit => this.(validator := slot)
      case BeaconUnit => this.(beacon := slot)
    }
  }

  datatype Action =
    | Tick(elapsed: nat)
    | Crash(unit: Unit)
    | Revive(unit: Unit)
    | Configure(image: Image)
    | Pause
    | BeginStart
    | BeginIgnoring
    | ReadFinish
    | ReadStatus
    | Stop(confirmed: bool)
    | GateFails
    | ReadClock
    | CheckClock
    | Answer(yes: bool)
    | Up(recreate: bool, withBeacon: bool)
    | UpHalfway
    | UpFails

  /** The container the gate holds responsible for validator duties. */
  function ContainerForValidatorDuties(client: string): Unit {
    if client == "nimbus" then BeaconUnit else ValidatorUnit
  }

  /** The verdict of the first half of checkForValidatorChange. */
  function Compare(w: World): Phase {
    match w.validator
    case Absent => Refused
    case Present(c) =>
      var current := c.image.client;
      var pending := w.configured.client;
      if current.Unparsable? || pending.Unparsable? then Refused
      else if current.name == pending.name then Cleared
      else if current.name == "" then Cleared
      else Inspecting(ContainerForValidatorDuties(current.name))
  }

  predicate Has(slot: Slot, status: Status) {
    slot.Present? && slot.c.status == status
  }

  predicate Enabled(w: World, a: Action) {
    match a
    case Tick(_) => true
    case Crash(u) => Has(w.Get(u), Running)
    case Revive(u) => Has(w.Get(u), Restarting)
    case Configure(_) => true
    case Pause => w.phase.Idle?
    case BeginStart => w.phase.Idle?
    case BeginIgnoring => w.phase.Idle?
    case ReadFinish => w.phase.Inspecting?
    case ReadStatus => w.phase.FinishRead?
    case Stop(_) => w.phase.StopWanted? && w.Get(w.phase.unit).Present?
    case GateFails => w.phase.Inspecting? || w.phase.FinishRead? || w.phase.StopWanted?
    case ReadClock => w.phase.Stopped?
    case CheckClock => w.phase.Counting? && w.phase.safeStart <= w.now
    case Answer(_) => w.phase.Refused?
    case Up(_, _) => w.phase.Cleared?
    case UpHalfway => w.phase.Cleared?
    case UpFails => w.phase.Cleared?
  }

  /** docker stop: a running container exits now, one between restarts exits as it is. */
  function StopSlot(slot: Slot, now: int): Slot {
    match slot
    case Absent => Absent
    case Present(c) =>
      match c.status
      case Running => Present(c.(status := Exited, finishedAt := now))
      case Restarting => Present(c.(status := Exited))
      case Created => slot
      case Exited => slot
  }

  /** docker compose up: keep an unchanged container, replace a changed one. */
  function UpSlot(slot: Slot, image: Image, recreate: bool): Slot {
    if slot.Present? && slot.c.image == image && !recreate
    then Present(slot.c.(status := Running))
    else Present(Container(image, Running, NEVER))
  }

  function Apply(w: World, a: Action): World
    requires Enabled(w, a)
  {
    match a
    case Tick(d) => w.(now := w.now + d)
    case Crash(u) => w.Put(u, Present(w.Get(u).c.(status := Restarting, finishedAt := w.now)))
    case Revive(u) => w.Put(u, Present(w.Get(u).c.(status := Running)))
    case Configure(image) => w.(configured := image)
    case Pause => w.(validator := StopSlot(w.validator, w.now), beacon := StopSlot(w.beacon, w.now))
    case BeginStart => w.(checked := w.configured, phase := Compare(w))
    case BeginIgnoring => w.(checked := w.configured, phase := Cleared)
    case ReadFinish =>
      match w.Get(w.phase.unit) {
        case Absent => w.(phase := Refused)
        case Present(c) => w.(phase := FinishRead(w.phase.unit, c.finishedAt))
      }
    case ReadStatus =>
      match w.Get(w.phase.unit) {
        case Absent => w.(phase := Refused)
        case Present(c) =>
          if w.phase.finish == NEVER || c.status == Running
          then w.(phase := StopWanted(w.phase.unit))
          else w.(phase := Counting(w.phase.finish + LOCKOUT))
      }
    case Stop(confirmed) =>
      w.Put(w.phase.unit, StopSlot(w.Get(w.phase.unit), w.now)).(phase := if confirmed then Stopped else Refused)
    case GateFails => w.(phase := Refused)
    case ReadClock => w.(phase := Counting(w.now + LOCKOUT))
    case CheckClock => w.(phase := Cleared)
    case Answer(yes) => w.(phase := if yes then Cleared else Idle)
    case Up(recreate, withBeacon) =>
      w.(validator := UpSlot(w.validator, w.configured, recreate),
         beacon := if withBeacon then Present(Container(Image("", Name("")), Running, NEVER)) else Absent,
         phase := Idle)
    case UpHalfway => w.(validator := Present(Container(w.configured, Created, NEVER)), phase := Idle)
    case UpFails => w.(phase := Idle)
  }

  /** A client does validator duties while the validator container runs its image. */
  predicate IsActive(w: World, client: Parsed) {
    Has(w.validator, Running) && w.validator.c.image.client == client
  }

  ghost predicate IsRun(tr: seq<World>, acts: seq<Action>) {
    && |tr| == |acts| + 1
    && forall i :: 0 <= i < |acts| ==> Enabled(tr[i], acts[i]) && tr[i + 1] == Apply(tr[i], acts[i])
  }

  /** Differently named clients are never active less than fifteen minutes apart. */
  ghost predicate Safe(tr: seq<World>) {
    forall i, j, a, b :: 0 <= i <= j < |tr| && a != b && IsActive(tr[i], a) && IsActive(tr[j], b)
      ==> tr[i].now + LOCKOUT <= tr[j].now
  }

  // ---- What the gate relies on ----

  /** Nobody but client was active in the lockout before time t. */
  ghost predicate Quiet(tr: seq<World>, client: Parsed, t: int) {
    forall k, b :: 0 <= k < |tr| && b != client && IsActive(tr[k], b) ==> tr[k].now + LOCKOUT <= t
  }

  /** By time t, or by now, client has been inactive for the lockout. */
  ghost predicate Rested(tr: seq<World>, client: Parsed, t: int, now: int) {
    forall k :: 0 <= k < |tr| && IsActive(tr[k], client) ==> tr[k].now + LOCKOUT <= t || tr[k].now + LOCKOUT <= now
  }

  predicate IsDown(slot: Slot) {
    Has(slot, Created) || Has(slot, Exited)
  }

  /** Every client but the image's is down and has been for the lockout. */
  ghost predicate HasWaited(tr: seq<World>, image: Image)
    requires |tr| > 0
  {
    var w := tr[|tr| - 1];
    && Quiet(tr, image.client, w.now)
    && (w.validator.Present? && w.validator.c.image.client != image.client ==> IsDown(w.validator))
  }

  /** The validator container is down, and the beacon container's finish time is late enough to wait from. */
  ghost predicate BeaconWillDo(tr: seq<World>)
    requires |tr| > 0
  {
    var w := tr[|tr| - 1];
    && IsDown(w.validator) && w.beacon.Present?
    && (w.beacon.c.finishedAt == NEVER
        || Rested(tr, w.validator.c.image.client, w.beacon.c.finishedAt + LOCKOUT, w.now))
  }

  /** The comparison takes an active or recent client for none, or waits for the wrong container too shortly. */
  ghost predicate Misjudged(tr: seq<World>)
    requires |tr| > 0
  {
    var w := tr[|tr| - 1];
    match Compare(w)
    case Cleared => !HasWaited(tr, w.configured)
    case Inspecting(u) => u == BeaconUnit && w.beacon.Present? && !BeaconWillDo(tr)
    case _ => false
  }

  /** The status is read while Docker is about to restart a container that has exited before. */
  predicate BetweenRestarts(w: World) {
    && w.phase.FinishRead? && w.phase.unit == ValidatorUnit && w.phase.finish != NEVER
    && Has(w.validator, Restarting)
  }

  ghost predicate Hazard(tr: seq<World>, a: Action)
    requires |tr| > 0
  {
    (a.BeginStart? && Misjudged(tr)) || (a.ReadStatus? && BetweenRestarts(tr[|tr| - 1]))
  }

  /**
   * What the operator answers for: the gate is overridden only after waiting, and between its
   * passing and docker compose no settings are saved for a client that has not waited.
   */
  ghost predicate Cautious(tr: seq<World>, a: Action)
    requires |tr| > 0
  {
    var w := tr[|tr| - 1];
    && (a.Configure? && w.phase.Cleared? ==> HasWaited(tr, a.image))
    && (a == Answer(true) ==> HasWaited(tr, w.configured))
    && (a.BeginIgnoring? ==> HasWaited(tr, w.configured))
  }

  ghost predicate Disciplined(tr: seq<World>, a: Action)
    requires |tr| > 0
  {
    Cautious(tr, a) && !Hazard(tr, a)
  }

  ghost predicate DisciplinedFrom(tr: seq<World>, acts: seq<Action>, start: nat)
    requires |tr| == |acts| + 1
  {
    forall i :: start <= i < |acts| ==> Disciplined(tr[..i + 1], acts[i])
  }

  // ---- The inductive invariant ----

  ghost predicate SeenUntil(tr: seq<World>, client: Parsed, t: int) {
    forall k :: 0 <= k < |tr| && IsActive(tr[k], client) ==> tr[k].now <= t
  }

  /** The record on the validator container accounts for all past activity. */
  ghost predicate RecordInv(tr: seq<World>, w: World) {
    match w.validator
    case Absent => forall k, b :: 0 <= k < |tr| ==> !IsActive(tr[k], b)
    case Present(c) =>
      && Quiet(tr, c.image.client, w.now)
      && c.finishedAt <= w.now
      && (c.status == Created ==> c.finishedAt == NEVER)
      && (c.status == Exited || c.status == Restarting ==> SeenUntil(tr, c.image.client, c.finishedAt))
  }

  ghost predicate PhaseInv(tr: seq<World>, w: World)
    requires |tr| > 0 && tr[|tr| - 1] == w
  {
    match w.phase
    case Idle => true
    case Refused => true
    case Inspecting(u) => w.validator.Present? && (u == BeaconUnit ==> w.beacon.Absent? || BeaconWillDo(tr))
    case FinishRead(u, f) =>
      && w.validator.Present?
      && (u == ValidatorUnit ==> f <= w.now && (IsDown(w.validator) ==> w.validator.c.finishedAt == f))
      && (u == BeaconUnit ==>
            && IsDown(w.validator)
            && (f == NEVER || Rested(tr, w.validator.c.image.client, f + LOCKOUT, w.now)))
    case StopWanted(u) => w.validator.Present? && (u == BeaconUnit ==> IsDown(w.validator))
    case Stopped => IsDown(w.validator)
    case Counting(t) => IsDown(w.validator) && Rested(tr, w.validator.c.image.client, t, w.now)
    case Cleared => HasWaited(tr, w.configured)
  }

  ghost predicate Inv(tr: seq<World>) {
    && |tr| > 0
    && var w := tr[|tr| - 1];
       && 0 < w.now
       && (forall k :: 0 <= k < |tr| ==> tr[k].now <= w.now)
       && RecordInv(tr, w)
       && PhaseInv(tr, w)
  }

  /** Time only passes, and a step that leaves the validator slot alone keeps its record true. */
  lemma RecordKept(tr: seq<World>, w': World)
    requires Inv(tr)
    requires w'.validator == tr[|tr| - 1].validator && tr[|tr| - 1].now <= w'.now
    ensures RecordInv(tr + [w'], w')
  {
  }

  lemma ContainerStep(tr: seq<World>, a: Action)
    requires Inv(tr) && Enabled(tr[|tr| - 1], a) && (a.Crash? || a.Revive?)
    ensures Inv(tr + [Apply(tr[|tr| - 1], a)])
  {
  }

  lemma PauseStep(tr: seq<World>)
    requires Inv(tr) && Enabled(tr[|tr| - 1], Pause)
    ensures Inv(tr + [Apply(tr[|tr| - 1], Pause)])
  {
  }

  lemma EnvironmentStep(tr: seq<World>, a: Action)
    requires Inv(tr) && Enabled(tr[|tr| - 1], a) && Cautious(tr, a) && (a.Tick? || a.Configure?)
    ensures Inv(tr + [Apply(tr[|tr| - 1], a)])
  {
    RecordKept(tr, Apply(tr[|tr| - 1], a));
  }

  lemma GateStep(tr: seq<World>, a: Action)
    requires Inv(tr) && Enabled(tr[|tr| - 1], a) && Disciplined(tr, a)
    requires a.BeginStart? || a.BeginIgnoring? || a.ReadFinish? || a.ReadStatus? || a.Stop? || a.GateFails?
    ensures Inv(tr + [Apply(tr[|tr| - 1], a)])
  {
    var w := tr[|tr| - 1];
    var w' := Apply(w, a);
    if !a.Stop? { RecordKept(tr, w'); }
  }

  lemma StartStep(tr: seq<World>, a: Action)
    requires Inv(tr) && Enabled(tr[|tr| - 1], a) && Disciplined(tr, a)
    requires a.ReadClock? || a.CheckClock? || a.Answer? || a.Up? || a.UpHalfway? || a.UpFails?
    ensures Inv(tr + [Apply(tr[|tr| - 1], a)])
  {
  }

  lemma StepKeepsInv(tr: seq<World>, a: Action)
    requires Inv(tr) && Enabled(tr[|tr| - 1], a) && Disciplined(tr, a)
    ensures Inv(tr + [Apply(tr[|tr| - 1], a)])
  {
    match a {
      case Tick(_) => EnvironmentStep(tr, a);
      case Crash(_) => ContainerStep(tr, a);
      case Revive(_) => ContainerStep(tr, a);
      case Configure(_) => EnvironmentStep(tr, a);
      case Pause => PauseStep(tr);
      case BeginStart => GateStep(tr, a);
      case BeginIgnoring => GateStep(tr, a);
      case ReadFinish => GateStep(tr, a);
      case ReadStatus => GateStep(tr, a);
      case Stop(_) => GateStep(tr, a);
      case GateFails => GateStep(tr, a);
      case _ => StartStep(tr, a);
    }
  }

  lemma {:induction false} InvAlongRun(tr: seq<World>, acts: seq<Action>, n: nat)
    requires IsRun(tr, acts) && n <= |acts|
    requires Inv(tr[..1]) && DisciplinedFrom(tr, acts, 0)
    ensures Inv(tr[..n + 1])
  {
    if n > 0 {
      InvAlongRun(tr, acts, n - 1);
      var before := tr[..n];
      assert before[|before| - 1] == tr[n - 1];
      assert Disciplined(tr[..n - 1 + 1], acts[n - 1]);
      StepKeepsInv(before, acts[n - 1]);
      assert tr[..n + 1] == before + [tr[n]];
    }
  }

  /** A machine without validator containers is where histories can begin. */
  lemma FreshWorld(w: World)
    requires w.phase.Idle? && 0 < w.now && w.validator.Absent?
    ensures Inv([w]) && Safe([w])
  {
  }

  /** What the invariant says about safety: the client that is active now is a lockout after all others. */
  lemma InvSeparates(tr: seq<World>, i: nat, a: Parsed, b: Parsed)
    requires Inv(tr) && i < |tr| && a != b && IsActive(tr[i], a) && IsActive(tr[|tr| - 1], b)
    ensures tr[i].now + LOCKOUT <= tr[|tr| - 1].now
  {
  }

  /** Safety over whole histories: in a disciplined run the lockout separates different clients. */
  lemma DisciplinedRunIsSafe(tr: seq<World>, acts: seq<Action>)
    requires IsRun(tr, acts) && Inv(tr[..1]) && DisciplinedFrom(tr, acts, 0)
    ensures Safe(tr)
  {
    forall i, j, a, b | 0 <= i <= j < |tr| && a != b && IsActive(tr[i], a) && IsActive(tr[j], b)
      ensures tr[i].now + LOCKOUT <= tr[j].now
    {
      InvAlongRun(tr, acts, j);
      var before := tr[..j + 1];
      assert before[i] == tr[i] && before[|before| - 1] == tr[j];
      InvSeparates(before, i, a, b);
    }
  }

  // ---- Starts that need no look at what Docker does ----

  /** The recorded client is taken for no client, or its duties are looked for in the wrong container. */
  predicate Blind(w: World) {
    && w.validator.Present?
    && w.validator.c.image.client != w.configured.client
    && w.configured.client.Name?
    && (|| w.validator.c.image.client == Name("")
        || (w.validator.c.image.client == Name("nimbus") && w.beacon.Present?))
  }

  /** The gate is not blind, and a client that is to be replaced is down. */
  predicate ReadyToStart(w: World) {
    !Blind(w) && (Compare(w) == Inspecting(ValidatorUnit) ==> IsDown(w.validator))
  }

  /** The validator container is down wherever the gate is about to ask about it. */
  predicate Settled(w: World) {
    (w.phase.Inspecting? || w.phase.FinishRead?) && w.phase.unit == ValidatorUnit ==> IsDown(w.validator)
  }

  lemma ReadyIsNotMisjudged(tr: seq<World>)
    requires Inv(tr) && ReadyToStart(tr[|tr| - 1])
    ensures !Misjudged(tr)
  {
  }

  lemma StepKeepsSettled(w: World, a: Action)
    requires Enabled(w, a) && Settled(w) && (a.BeginStart? ==> ReadyToStart(w))
    ensures Settled(Apply(w, a))
  {
  }

  /** What a careful operator can see to alone: override after waiting, and start over what is ready. */
  ghost predicate Prepared(tr: seq<World>, a: Action)
    requires |tr| > 0
  {
    Cautious(tr, a) && (a.BeginStart? ==> ReadyToStart(tr[|tr| - 1]))
  }

  lemma {:induction false} PreparedKeepsInv(tr: seq<World>, acts: seq<Action>, n: nat)
    requires IsRun(tr, acts) && n <= |acts| && Inv(tr[..1]) && Settled(tr[0])
    requires forall i :: 0 <= i < |acts| ==> Prepared(tr[..i + 1], acts[i])
    ensures Inv(tr[..n + 1]) && Settled(tr[n])
  {
    if n > 0 {
      PreparedKeepsInv(tr, acts, n - 1);
      var before := tr[..n];
      assert before[|before| - 1] == tr[n - 1];
      assert Prepared(tr[..n - 1 + 1], acts[n - 1]);
      if acts[n - 1].BeginStart? { ReadyIsNotMisjudged(before); }
      StepKeepsInv(before, acts[n - 1]);
      StepKeepsSettled(tr[n - 1], acts[n - 1]);
      assert tr[..n + 1] == before + [tr[n]];
    }
  }

  /** Whatever Docker does and whenever it does it, prepared starts are safe. */
  lemma PreparedRunIsSafe(tr: seq<World>, acts: seq<Action>)
    requires IsRun(tr, acts) && Inv(tr[..1]) && Settled(tr[0])
    requires forall i :: 0 <= i < |acts| ==> Prepared(tr[..i + 1], acts[i])
    ensures Safe(tr)
  {
    forall i, j, a, b | 0 <= i <= j < |tr| && a != b && IsActive(tr[i], a) && IsActive(tr[j], b)
      ensures tr[i].now + LOCKOUT <= tr[j].now
    {
      PreparedKeepsInv(tr, acts, j);
      var before := tr[..j + 1];
      assert before[i] == tr[i] && before[|before| - 1] == tr[j];
      InvSeparates(before, i, a, b);
    }
  }

  // ---- Where a start fails, and only there ----

  /** A history followed by the first n steps of a run that begins in its last world. */
  ghost function Whole(hist: seq<World>, tr: seq<World>, n: nat): seq<World>
    requires |hist| > 0 && n < |tr|
  {
    hist[..|hist| - 1] + tr[..n + 1]
  }

  /** What may follow in the same start: anything that Docker, the clock and a cautious operator do. */
  ghost predicate RestOfStart(hist: seq<World>, first: Action, tr: seq<World>, acts: seq<Action>)
    requires |hist| > 0
  {
    && IsRun(tr, acts) && tr[0] == hist[|hist| - 1]
    && |acts| > 0 && acts[0] == first
    && forall i :: 1 <= i < |acts| ==> !tr[i].phase.Idle? && Cautious(Whole(hist, tr, i), acts[i])
  }

  /** Whatever happens after first until the start is over, the history stays safe. */
  ghost predicate AlwaysSafeAfter(hist: seq<World>, first: Action)
    requires |hist| > 0
  {
    forall tr, acts :: RestOfStart(hist, first, tr, acts) ==> Safe(Whole(hist, tr, |acts|))
  }

  lemma WholeStep(hist: seq<World>, tr: seq<World>, n: nat)
    requires |hist| > 0 && n + 1 < |tr| && tr[0] == hist[|hist| - 1]
    ensures Whole(hist, tr, 0) == hist
    ensures Whole(hist, tr, n + 1) == Whole(hist, tr, n) + [tr[n + 1]]
    ensures |Whole(hist, tr, n)| == |hist| + n && Whole(hist, tr, n)[|hist| + n - 1] == tr[n]
  {
  }

  lemma {:induction false} RestKeepsInv(hist: seq<World>, first: Action, tr: seq<World>, acts: seq<Action>, n: nat)
    requires |hist| > 0 && RestOfStart(hist, first, tr, acts) && 1 <= n <= |acts|
    requires Inv(hist + [tr[1]]) && Settled(tr[1])
    ensures Inv(Whole(hist, tr, n)) && Settled(tr[n])
  {
    WholeStep(hist, tr, n - 1);
    if n > 1 {
      RestKeepsInv(hist, first, tr, acts, n - 1);
      assert Enabled(tr[n - 1], acts[n - 1]) && tr[n - 1 + 1] == Apply(tr[n - 1], acts[n - 1]);
      StepKeepsInv(Whole(hist, tr, n - 1), acts[n - 1]);
      StepKeepsSettled(tr[n - 1], acts[n - 1]);
    }
  }

  /** A start that keeps the invariant with its first step, and is settled then, is safe to its end. */
  lemma SafeToTheEnd(hist: seq<World>, first: Action)
    requires Inv(hist) && Safe(hist) && Enabled(hist[|hist| - 1], first)
    requires Disciplined(hist, first) && Settled(Apply(hist[|hist| - 1], first))
    ensures AlwaysSafeAfter(hist, first)
  {
    forall tr, acts | RestOfStart(hist, first, tr, acts) ensures Safe(Whole(hist, tr, |acts|)) {
      assert tr[0 + 1] == Apply(tr[0], acts[0]);
      StepKeepsInv(hist, first);
      var all, h := Whole(hist, tr, |acts|), |hist|;
      forall i, j, a, b | 0 <= i <= j < |all| && a != b && IsActive(all[i], a) && IsActive(all[j], b)
        ensures all[i].now + LOCKOUT <= all[j].now
      {
        if j < h {
          assert all[i] == hist[i] && all[j] == hist[j];
        } else {
          var n := j - (h - 1);
          RestKeepsInv(hist, first, tr, acts, n);
          WholeStep(hist, tr, n - 1);
          assert Whole(hist, tr, n) == all[..j + 1];
          InvSeparates(all[..j + 1], i, a, b);
        }
      }
    }
  }

  /** A step that asks no caution of the operator. */
  predicate Careless(a: Action) {
    !a.Configure? && a != Answer(true) && !a.BeginIgnoring?
  }

  lemma OneStep(hist: seq<World>, first: Action) returns (tr: seq<World>, acts: seq<Action>)
    requires |hist| > 0 && Enabled(hist[|hist| - 1], first)
    ensures RestOfStart(hist, first, tr, acts) && tr == [hist[|hist| - 1], Apply(hist[|hist| - 1], first)]
  {
    tr, acts := [hist[|hist| - 1], Apply(hist[|hist| - 1], first)], [first];
  }

  /** A start goes on with one more step. */
  lemma OneMore(hist: seq<World>, first: Action, tr: seq<World>, acts: seq<Action>, a: Action)
    returns (tr': seq<World>, acts': seq<Action>)
    requires |hist| > 0 && RestOfStart(hist, first, tr, acts)
    requires !tr[|tr| - 1].phase.Idle? && Enabled(tr[|tr| - 1], a) && Careless(a)
    ensures RestOfStart(hist, first, tr', acts') && tr' == tr + [Apply(tr[|tr| - 1], a)]
  {
    tr', acts' := tr + [Apply(tr[|tr| - 1], a)], acts + [a];
    forall i | 1 <= i < |acts'| ensures !tr'[i].phase.Idle? && Cautious(Whole(hist, tr', i), acts'[i]) {
      assert tr'[..i + 1] == tr[..i + 1];
      assert Whole(hist, tr', i) == Whole(hist, tr, i);
    }
  }

  /** Passing the gate too early is unsafe: docker compose may come at once. */
  lemma UpTooEarly(hist: seq<World>, first: Action, tr: seq<World>, acts: seq<Action>)
    requires |hist| > 0 && RestOfStart(hist, first, tr, acts) && tr[|tr| - 1].phase.Cleared?
    requires !HasWaited(Whole(hist, tr, |acts|), tr[|tr| - 1].configured)
    ensures !AlwaysSafeAfter(hist, first)
  {
    var last := tr[|tr| - 1];
    var client := last.configured.client;
    var all := Whole(hist, tr, |acts|);
    assert all[|all| - 1] == last;
    if Quiet(all, client, last.now) {
      var tr', acts' := tr, acts;
      if Has(last.validator, Restarting) {
        tr', acts' := OneMore(hist, first, tr', acts', Revive(ValidatorUnit));
      }
      var n := |tr'| - 1;
      tr', acts' := OneMore(hist, first, tr', acts', Up(false, false));
      var all' := Whole(hist, tr', |acts'|);
      var k := |hist| - 1 + n;
      assert all'[k] == tr'[n] && all'[k + 1] == tr'[n + 1];
      assert IsActive(all'[k], last.validator.c.image.client) && IsActive(all'[k + 1], client);
      assert all'[k].now == all'[k + 1].now;
      assert !Safe(all');
    } else {
      var k, b :| 0 <= k < |all| && b != client && IsActive(all[k], b) && all[k].now + LOCKOUT > last.now;
      var tr', acts' := OneMore(hist, first, tr, acts, Up(false, false));
      var all' := Whole(hist, tr', |acts'|);
      assert all'[k] == all[k] && all'[|all'| - 1] == tr'[|tr'| - 1];
      assert IsActive(all'[|all'| - 1], client) && all'[|all'| - 1].now == last.now;
      assert !Safe(all');
    }
  }

  function WaitUntil(w: World, t: int): Action {
    Tick(if w.now < t then t - w.now else 0)
  }

  /** A countdown over a client that is up, or has not rested by its end, passes too early. */
  lemma CountdownTooShort(hist: seq<World>, first: Action, tr: seq<World>, acts: seq<Action>)
    requires |hist| > 0 && RestOfStart(hist, first, tr, acts)
    requires tr[|tr| - 1].phase.Counting? && tr[|tr| - 1].validator.Present?
    requires var w := tr[|tr| - 1];
      && w.validator.c.image.client != w.configured.client
      && (IsDown(w.validator) ==>
            !Rested(Whole(hist, tr, |acts|), w.validator.c.image.client, w.phase.safeStart, w.now))
    ensures !AlwaysSafeAfter(hist, first)
  {
    var w := tr[|tr| - 1];
    var tr', acts' := OneMore(hist, first, tr, acts, WaitUntil(w, w.phase.safeStart));
    tr', acts' := OneMore(hist, first, tr', acts', CheckClock);
    var all, all' := Whole(hist, tr, |acts|), Whole(hist, tr', |acts'|);
    assert forall k :: 0 <= k < |all| ==> all'[k] == all[k];
    assert all'[|all'| - 1] == tr'[|tr'| - 1];
    UpTooEarly(hist, first, tr', acts');
  }

  /**
   * From the status check on, a start is safe against everything that Docker, the clock and a
   * cautious operator do, exactly when the container is not between two restarts with an older
   * exit on record.
   */
  lemma StatusCheckIsExact(hist: seq<World>)
    requires Inv(hist) && Safe(hist) && hist[|hist| - 1].phase.FinishRead?
    requires var w := hist[|hist| - 1]; w.validator.c.image.client != w.configured.client
    ensures AlwaysSafeAfter(hist, ReadStatus) <==> !BetweenRestarts(hist[|hist| - 1])
  {
    if BetweenRestarts(hist[|hist| - 1]) {
      var tr, acts := OneStep(hist, ReadStatus);
      CountdownTooShort(hist, ReadStatus, tr, acts);
    } else {
      SafeToTheEnd(hist, ReadStatus);
    }
  }

  /** When a start is safe, in terms of the containers and of when clients were active. */
  ghost predicate MayStart(hist: seq<World>)
    requires |hist| > 0
  {
    var w := hist[|hist| - 1];
    match Compare(w)
    case Cleared => HasWaited(hist, w.configured)
    case Inspecting(u) =>
      if u == ValidatorUnit then IsDown(w.validator) else w.beacon.Absent? || BeaconWillDo(hist)
    case _ => true
  }

  /** A client that is up is not seen to be: it crashes before its status is read, and is restarted later. */
  lemma CrashesBehindTheGate(hist: seq<World>)
    requires Inv(hist) && hist[|hist| - 1].phase.Idle?
    requires Compare(hist[|hist| - 1]) == Inspecting(ValidatorUnit) && !IsDown(hist[|hist| - 1].validator)
    ensures !AlwaysSafeAfter(hist, BeginStart)
  {
    var tr, acts := OneStep(hist, BeginStart);
    if Has(tr[1].validator, Restarting) {
      tr, acts := OneMore(hist, BeginStart, tr, acts, Revive(ValidatorUnit));
    }
    tr, acts := OneMore(hist, BeginStart, tr, acts, Crash(ValidatorUnit));
    tr, acts := OneMore(hist, BeginStart, tr, acts, ReadFinish);
    tr, acts := OneMore(hist, BeginStart, tr, acts, ReadStatus);
    CountdownTooShort(hist, BeginStart, tr, acts);
  }

  /** The gate looks at an idle beacon container and counts down from its finish time. */
  lemma WaitsForIdleBeacon(hist: seq<World>) returns (tr: seq<World>, acts: seq<Action>)
    requires |hist| > 0 && hist[|hist| - 1].phase.Idle?
    requires Compare(hist[|hist| - 1]) == Inspecting(BeaconUnit) && hist[|hist| - 1].beacon.Present?
    requires hist[|hist| - 1].beacon.c.finishedAt != NEVER
    ensures RestOfStart(hist, BeginStart, tr, acts)
    ensures var w, end := hist[|hist| - 1], tr[|tr| - 1];
      && end.phase == Counting(w.beacon.c.finishedAt + LOCKOUT)
      && end.validator == w.validator && end.configured == w.configured && end.now == w.now
      && forall i :: 0 <= i < |tr| ==> tr[i].validator == w.validator && tr[i].now == w.now
  {
    tr, acts := OneStep(hist, BeginStart);
    tr, acts := OneMore(hist, BeginStart, tr, acts, ReadFinish);
    if Has(tr[2].beacon, Running) {
      tr, acts := OneMore(hist, BeginStart, tr, acts, Crash(BeaconUnit));
    }
    tr, acts := OneMore(hist, BeginStart, tr, acts, ReadStatus);
  }

  /** The gate stops the beacon container and counts down from then, with the validator container as it was. */
  lemma StopsTheBeacon(hist: seq<World>) returns (tr: seq<World>, acts: seq<Action>)
    requires |hist| > 0 && hist[|hist| - 1].phase.Idle?
    requires Compare(hist[|hist| - 1]) == Inspecting(BeaconUnit) && hist[|hist| - 1].beacon.Present?
    requires hist[|hist| - 1].beacon.c.finishedAt == NEVER
    ensures RestOfStart(hist, BeginStart, tr, acts)
    ensures var w, end := hist[|hist| - 1], tr[|tr| - 1];
      && end.phase == Counting(w.now + LOCKOUT) && IsDown(end.beacon)
      && end.validator == w.validator && end.configured == w.configured && end.now == w.now
  {
    tr, acts := OneStep(hist, BeginStart);
    tr, acts := OneMore(hist, BeginStart, tr, acts, ReadFinish);
    tr, acts := OneMore(hist, BeginStart, tr, acts, ReadStatus);
    tr, acts := OneMore(hist, BeginStart, tr, acts, Stop(true));
    tr, acts := OneMore(hist, BeginStart, tr, acts, ReadClock);
  }

  lemma BeaconMisleads(hist: seq<World>)
    requires Inv(hist) && hist[|hist| - 1].phase.Idle?
    requires Compare(hist[|hist| - 1]) == Inspecting(BeaconUnit)
    requires hist[|hist| - 1].beacon.Present? && !BeaconWillDo(hist)
    ensures !AlwaysSafeAfter(hist, BeginStart)
  {
    var w := hist[|hist| - 1];
    var tr, acts;
    if w.beacon.c.finishedAt == NEVER {
      tr, acts := StopsTheBeacon(hist);
    } else {
      tr, acts := WaitsForIdleBeacon(hist);
      var all := Whole(hist, tr, |acts|);
      assert forall k :: 0 <= k < |hist| ==> all[k] == hist[k];
    }
    CountdownTooShort(hist, BeginStart, tr, acts);
  }

  /**
   * A start, over any history the invariant holds of, is safe against everything that Docker,
   * the clock and a cautious operator do, exactly under this condition.
   */
  lemma StartIsExact(hist: seq<World>)
    requires Inv(hist) && Safe(hist) && hist[|hist| - 1].phase.Idle?
    ensures AlwaysSafeAfter(hist, BeginStart) <==> MayStart(hist)
  {
    var w := hist[|hist| - 1];
    if MayStart(hist) {
      SafeToTheEnd(hist, BeginStart);
    } else if Compare(w).Cleared? {
      var tr, acts := OneStep(hist, BeginStart);
      var all := Whole(hist, tr, 1);
      assert forall k :: 0 <= k < |hist| ==> all[k] == hist[k];
      UpTooEarly(hist, BeginStart, tr, acts);
    } else if Compare(w).unit == ValidatorUnit {
      CrashesBehindTheGate(hist);
    } else {
      BeaconMisleads(hist);
    }
  }

  /** To replace a client that the gate sees is safe exactly when its container is down beforehand. */
  lemma ReplacementIsExact(hist: seq<World>)
    requires Inv(hist) && Safe(hist) && hist[|hist| - 1].phase.Idle?
    requires Compare(hist[|hist| - 1]).Inspecting? && !Blind(hist[|hist| - 1])
    ensures AlwaysSafeAfter(hist, BeginStart)
       <==> IsDown(hist[|hist| - 1].validator) || Compare(hist[|hist| - 1]) == Inspecting(BeaconUnit)
  {
    StartIsExact(hist);
  }

  /**
   * Docker compose reads the settings again. Saving settings between the gate's passing and docker
   * compose is safe exactly when every other client has waited; over a running client, exactly
   * when they are for the same client.
   */
  lemma SettingsSavedDuringStart(hist: seq<World>, image: Image)
    requires Inv(hist) && Safe(hist) && hist[|hist| - 1].phase.Cleared?
    ensures AlwaysSafeAfter(hist, Configure(image)) <==> HasWaited(hist, image)
    ensures var w := hist[|hist| - 1];
      Has(w.validator, Running) ==> (HasWaited(hist, image) <==> image.client == w.validator.c.image.client)
  {
    if HasWaited(hist, image) {
      SafeToTheEnd(hist, Configure(image));
    } else {
      var tr, acts := OneStep(hist, Configure(image));
      var all := Whole(hist, tr, 1);
      assert forall k :: 0 <= k < |hist| ==> all[k] == hist[k];
      UpTooEarly(hist, Configure(image), tr, acts);
    }
  }

  /** Confirming a refused start, or skipping the gate, is safe exactly when every other client has waited. */
  lemma OverrideIsExact(hist: seq<World>, override: Action)
    requires Inv(hist) && Safe(hist)
    requires || (override == Answer(true) && hist[|hist| - 1].phase.Refused?)
             || (override == BeginIgnoring && hist[|hist| - 1].phase.Idle?)
    ensures AlwaysSafeAfter(hist, override) <==> HasWaited(hist, hist[|hist| - 1].configured)
  {
    if HasWaited(hist, hist[|hist| - 1].configured) {
      SafeToTheEnd(hist, override);
    } else {
      var tr, acts := OneStep(hist, override);
      var all := Whole(hist, tr, 1);
      assert forall k :: 0 <= k < |hist| ==> all[k] == hist[k];
      UpTooEarly(hist, override, tr, acts);
    }
  }

  // ---- Which images the gate is blind to ----

  /** A validator container that runs repo/name:tag. */
  predicate Runs(w: World, repo: string, name: string, tag: string) {
    w.validator.Present? && w.validator.c.image == ImageOf(Format(repo, name, tag))
  }

  /** The gate is blind to a validator image exactly for these two names, whatever the repository and the tag. */
  lemma BlindToTwoNames(w: World, repo: string, name: string, tag: string)
    requires '\n' !in repo && IsComponent(name) && IsComponent(tag) && Runs(w, repo, name, tag)
    ensures Blind(w) <==>
      && w.configured.client.Name? && w.configured.client != Name(name)
      && (name == "" || (name == "nimbus" && w.beacon.Present?))
  {
    ParseInvertsFormat(repo, name, tag);
  }

  datatype Shipped = Lighthouse | LighthouseModern | Nimbus | Prysm | Teku

  /** Repository, name and tag of the validator images that are configured by default. */
  function Parts(image: Shipped): (string, string, string) {
    match image
    case Lighthouse => ("sigp", "lighthouse", "v4.2.0")
    case LighthouseModern => ("sigp", "lighthouse", "v4.2.0-modern")
    case Nimbus => ("statusim", "nimbus-validator-client", "multiarch-v23.6.1")
    case Prysm => ("nethermindeth", "prysm-validator", "v4.0.6")
    case Teku => ("consensys", "teku", "23.6.0")
  }

  lemma NamesAreComponents(image: Shipped)
    ensures IsComponent(Parts(image).1) && |Parts(image).1| > 0 && |Parts(image).1| != 6
  {
    match image {
      case Nimbus => assert IsComponent("nimbus-validator-client");
      case Prysm => assert IsComponent("prysm-validator");
      case Teku => assert IsComponent("teku");
      case _ => assert IsComponent("lighthouse");
    }
  }

  lemma OthersAreComponents(image: Shipped)
    ensures '\n' !in Parts(image).0 && IsComponent(Parts(image).2)
  {
    match image {
      case Lighthouse => assert IsComponent("v4.2.0");
      case LighthouseModern => assert IsComponent("v4.2.0-modern");
      case Nimbus => assert IsComponent("multiarch-v23.6.1");
      case Prysm => assert IsComponent("v4.0.6");
      case Teku => assert IsComponent("23.6.0");
    }
  }

  /** With a shipped image on record the gate is not blind. */
  lemma ShippedImagesAreSeen(w: World, image: Shipped)
    requires Runs(w, Parts(image).0, Parts(image).1, Parts(image).2)
    ensures w.validator.c.image.client == Name(Parts(image).1) && !Blind(w)
    ensures Parts(image).1
         == match image
            case Lighthouse => "lighthouse"
            case LighthouseModern => "lighthouse"
            case Nimbus => "nimbus-validator-client"
            case Prysm => "prysm-validator"
            case Teku => "teku"
  {
    NamesAreComponents(image);
    OthersAreComponents(image);
    assert |"nimbus"| == 6;
    ParseInvertsFormat(Parts(image).0, Parts(image).1, Parts(image).2);
  }

  /** With a custom image named nimbus on record it is, when a shipped client is to follow. */
  lemma CustomNimbusIsNotSeen(w: World, image: Shipped)
    requires Runs(w, "registry.example.org:5000/own", "nimbus", "v1") && w.beacon.Present?
    requires w.configured == ImageOf(Format(Parts(image).0, Parts(image).1, Parts(image).2))
    ensures Blind(w)
  {
    NamesAreComponents(image);
    OthersAreComponents(image);
    ParseInvertsFormat(Parts(image).0, Parts(image).1, Parts(image).2);
    CustomIsComponent();
    BlindToTwoNames(w, "registry.example.org:5000/own", "nimbus", "v1");
  }

  lemma CustomIsComponent()
    ensures '\n' !in "registry.example.org:5000/own" && IsComponent("nimbus") && IsComponent("v1")
  {
  }
}
