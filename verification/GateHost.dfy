// The start command itself, as it runs on a Docker host.
//
// Host keeps the world the command acts on and, for the proofs, the history of
// what happened to it. Every method lets Docker and the clock act before each
// call it makes, and is proved to take only steps of the transition system, so
// the safety theorem of SlashingGate applies to any list of commands.
module GateHost {
  import opened ImageName
  import opened SlashingGate

  datatype Command = Start | PauseService | SaveSettings(image: string) | LetTimePass(elapsed: nat)

  /** Which of the gate's calls to Docker return an error or an unexpected answer. */
  datatype Docker = Docker(finishTimeFails: bool, statusFails: bool, stopFails: bool)
  {
    /** All calls made are answered. */
    predicate Answers(stopping: bool) {
      !finishTimeFails && !statusFails && !(stopping && stopFails)
    }
  }

  /** How docker compose up ends. */
  datatype Compose = Succeeds(recreate: bool, withBeacon: bool) | StopsHalfway | Fails

  /** There is no validator container, or one of the two images does not say which client it is. */
  predicate IsUnclear(w: World) {
    w.validator.Absent? || w.validator.c.image.client.Unparsable? || w.configured.client.Unparsable?
  }

  /** The configured client is the recorded one, or no client is on record. */
  predicate NeedsNoDelay(w: World) {
    && !IsUnclear(w)
    && (w.validator.c.image.client == w.configured.client || w.validator.c.image.client == Name(""))
  }

  /** The container that the recorded client's duties are looked for in. */
  function DutyUnit(w: World): Unit
    requires w.validator.Present?
  {
    if w.validator.c.image.client == Name("nimbus") then BeaconUnit else ValidatorUnit
  }

  /** Docker and the clock, as opposed to the commands. */
  predicate FromEnvironment(a: Action) {
    a.Tick? || a.Crash? || a.Revive?
  }

  /** What a start may do without an override: everything but skipping or overruling the gate. */
  predicate WithoutOverride(w: World, a: Action) {
    a != Answer(true) && !a.BeginIgnoring? && (a.Configure? ==> w.phase.Idle?)
  }

  predicate SaneClock(w: World) {
    && 0 <= w.now
    && (w.validator.Present? ==> w.validator.c.finishedAt <= w.now)
    && (w.beacon.Present? ==> w.beacon.c.finishedAt <= w.now)
  }

  /** The settings and the recorded validator image are the same. */
  predicate SameImages(w: World, w': World) {
    && w'.configured == w.configured && w'.validator.Present? == w.validator.Present?
    && (w.validator.Present? ==> w'.validator.c.image == w.validator.c.image)
  }

  /** A name that says which client it is and in which container it runs. */
  predicate IsPlain(client: Parsed) {
    client != Name("") && client != Name("nimbus")
  }

  predicate IsPlainWorld(w: World) {
    IsPlain(w.configured.client) && (w.validator.Present? ==> IsPlain(w.validator.c.image.client))
  }

  predicate IsPaused(w: World) {
    w.validator.Absent? || IsDown(w.validator)
  }

  /** Every start comes after a pause, with nothing but saving and waiting between them. */
  predicate StartsArePaused(commands: seq<Command>, paused: bool)
    decreases |commands|
  {
    commands == [] ||
      match commands[0]
      case Start => paused && StartsArePaused(commands[1..], false)
      case PauseService => StartsArePaused(commands[1..], true)
      case _ => StartsArePaused(commands[1..], paused)
  }

  predicate SavesPlainNames(commands: seq<Command>) {
    forall i :: 0 <= i < |commands| && commands[i].SaveSettings? ==> IsPlain(GetDockerImageName(commands[i].image))
  }

  /** What Docker and the clock cannot change: what is down stays down, what is not stays up or restarting. */
  predicate Undisturbed(w: World, w': World) {
    && w.now <= w'.now && w.checked == w'.checked && SameImages(w, w')
    && w.beacon.Present? == w'.beacon.Present?
    && (IsDown(w.validator) || IsDown(w'.validator) ==> w'.validator == w.validator)
    && (IsDown(w.beacon) || IsDown(w'.beacon) ==> w'.beacon == w.beacon)
    && (SaneClock(w) ==> SaneClock(w'))
  }

  /** The steps of a history that only a command takes. */
  predicate IsRequest(a: Action) {
    a.BeginStart? || a.BeginIgnoring? || a.Pause? || a.Configure?
  }

  /** The requests that a command stands for. */
  function RequestsOf(command: Command): seq<Action> {
    match command
    case Start => [BeginStart]
    case PauseService => [Pause]
    case SaveSettings(image) => [Configure(ImageOf(image))]
    case LetTimePass(_) => []
  }

  function AllRequests(commands: seq<Command>): seq<Action> {
    if commands == [] then []
    else AllRequests(commands[..|commands| - 1]) + RequestsOf(commands[|commands| - 1])
  }

  function WaitOf(command: Command): nat {
    if command.LetTimePass? then command.elapsed else 0
  }

  function AllWaits(commands: seq<Command>): nat {
    if commands == [] then 0 else AllWaits(commands[..|commands| - 1]) + WaitOf(commands[|commands| - 1])
  }

  /** The requests among the steps of a history. */
  function RequestsAmong(actions: seq<Action>): seq<Action> {
    if actions == [] then [] else RequestsAmong(actions[..|actions| - 1]) + Requested(actions[|actions| - 1])
  }

  function Requested(a: Action): seq<Action> {
    if IsRequest(a) then [a] else []
  }

  /** The requests up to each point of a history. */
  ghost predicate Counts(asked: seq<seq<Action>>, actions: seq<Action>) {
    && |asked| == |actions| + 1 && asked[0] == []
    && forall i :: 0 <= i < |actions| ==> asked[i + 1] == asked[i] + Requested(actions[i])
  }

  lemma CountsMore(asked: seq<seq<Action>>, actions: seq<Action>, a: Action)
    requires Counts(asked, actions)
    ensures Counts(asked + [asked[|actions|] + Requested(a)], actions + [a])
  {
  }

  lemma RunsMore(trace: seq<World>, actions: seq<Action>, a: Action)
    requires IsRun(trace, actions) && Enabled(trace[|trace| - 1], a)
    ensures IsRun(trace + [Apply(trace[|trace| - 1], a)], actions + [a])
  {
  }

  lemma {:induction false} CountsAll(asked: seq<seq<Action>>, actions: seq<Action>, n: nat)
    requires Counts(asked, actions) && n <= |actions|
    ensures asked[n] == RequestsAmong(actions[..n])
  {
    if n > 0 {
      CountsAll(asked, actions, n - 1);
      assert actions[..n][..n - 1] == actions[..n - 1];
    }
  }

  lemma StopPutsDown(w: World, unit: Unit, confirmed: bool)
    requires w.phase == StopWanted(unit) && w.Get(unit).Present? && SaneClock(w)
    ensures var w' := Apply(w, Stop(confirmed));
      && SaneClock(w') && SameImages(w, w') && w'.now == w.now && w'.checked == w.checked
      && IsDown(w'.Get(unit)) && w'.phase == if confirmed then Stopped else Refused
  {
  }

  /** What is to be remembered of a history. */
  datatype Log = Log(
    clean: bool,               // nothing was overridden so far
    ready: bool,               // every start so far was given when all was ready for it
    requests: seq<Action>)     // the requests so far

  class Host {
    var world: World
    ghost const origin: World
    ghost var trace: seq<World>
    ghost var actions: seq<Action>
    ghost var asked: seq<seq<Action>>
    ghost var log: Log

    ghost predicate Valid()
      reads this
    {
      && IsRun(trace, actions)
      && trace[0] == origin && trace[|trace| - 1] == world
      && Counts(asked, actions) && asked[|actions|] == log.requests
      && (log.clean ==> forall i :: 0 <= i < |actions| ==> WithoutOverride(trace[i], actions[i]))
      && (log.ready ==> forall i :: 0 <= i < |actions| && actions[i].BeginStart? ==> ReadyToStart(trace[i]))
    }

    constructor (w: World)
      ensures Valid() && log.clean && log.ready && log.requests == [] && world == origin == w
    {
      world := w;
      origin := w;
      trace := [w];
      actions := [];
      asked := [[]];
      log := Log(true, true, []);
    }

    /** One step of the transition system. */
    method Do(a: Action)
      requires Valid() && Enabled(world, a)
      modifies this
      ensures Valid() && world == Apply(old(world), a)
      ensures trace == old(trace) + [world] && actions == old(actions) + [a]
      ensures log.requests == old(log.requests) + Requested(a)
      ensures log.clean == (old(log.clean) && WithoutOverride(old(world), a))
      ensures log.ready == (old(log.ready) && (a.BeginStart? ==> ReadyToStart(old(world))))
    {
      CountsMore(asked, actions, a);
      RunsMore(trace, actions, a);
      log := Log(log.clean && WithoutOverride(world, a),
                 log.ready && (a.BeginStart? ==> ReadyToStart(world)),
                 log.requests + Requested(a));
      world := Apply(world, a);
      trace := trace + [world];
      actions := actions + [a];
      asked := asked + [log.requests];
    }

    /** Any amount of time passes; containers crash and are restarted. */
    method Interfere()
      requires Valid()
      modifies this
      ensures Valid() && log == old(log)
      ensures Undisturbed(old(world), world) && world.phase == old(world.phase)
    {
      var n: nat :| true;
      while n > 0
        invariant Valid() && log == old(log)
        invariant Undisturbed(old(world), world) && world.phase == old(world.phase)
      {
        var a := PickEvent();
        if FromEnvironment(a) && Enabled(world, a) {
          Do(a);
        }
        n := n - 1;
      }
    }

    method PickEvent() returns (a: Action)
    {
      var d: nat :| true;
      var u: Unit :| true;
      if
      case true => a := Tick(d);
      case true => a := Crash(u);
      case true => a := Revive(u);
    }

    /** time.Sleep: at least the given duration passes. */
    method Sleep(duration: nat)
      requires Valid()
      modifies this
      ensures Valid() && log == old(log)
      ensures Undisturbed(old(world), world) && world.phase == old(world.phase)
      ensures world.now >= old(world.now) + duration
    {
      var late: nat :| true;
      Do(Tick(duration + late));
      Interfere();
    }

    /** Docker answers the stop with an error, or with a name that is not the container's. */
    method FailToStop(unit: Unit)
      requires Valid() && world.phase == StopWanted(unit) && SaneClock(world)
      requires world.Get(unit).Present?
      modifies this
      ensures Valid() && log == old(log) && SaneClock(world)
      ensures world.checked == old(world.checked) && SameImages(old(world), world)
      ensures world.phase.Refused? && world.now == old(world.now)
    {
      var stopped: bool := *;
      if stopped {
        StopPutsDown(world, unit, false);
        Do(Stop(false));
      } else {
        Do(GateFails);
      }
    }

    /** Stops the container and takes the time afterwards as its finish time. */
    method StopContainer(unit: Unit, fails: bool) returns (finishTime: int)
      requires Valid() && world.phase == StopWanted(unit) && SaneClock(world)
      requires world.Get(unit).Present?
      modifies this
      ensures Valid() && log == old(log) && SaneClock(world)
      ensures world.checked == old(world.checked) && SameImages(old(world), world)
      ensures old(world.now) <= world.now
      ensures fails ==> world.phase.Refused?
      ensures !fails ==> world.phase == Counting(finishTime + LOCKOUT) && old(world.now) <= finishTime <= world.now
      ensures !fails ==> IsDown(world.Get(unit)) && world.Get(unit).c.finishedAt <= finishTime
    {
      finishTime := NEVER;
      Interfere();
      if fails {
        FailToStop(unit);
        return;
      }
      StopPutsDown(world, unit, true);
      Do(Stop(true));
      Interfere();
      finishTime := world.now;
      Do(ReadClock);
    }

    /** Reading the status after the finish time: a running or never finished container is stopped. */
    method CheckStatusOf(unit: Unit, docker: Docker)
      returns (ok: bool, finishTime: int, observed: Status, stopped: bool)
      requires Valid() && world.phase.FinishRead? && world.phase.unit == unit && SaneClock(world)
      requires world.Get(unit).Present? && world.phase.finish <= world.now
      requires IsDown(world.Get(unit)) ==> world.Get(unit).c.finishedAt == world.phase.finish
      modifies this
      ensures Valid() && log == old(log) && SaneClock(world)
      ensures world.checked == old(world.checked) && SameImages(old(world), world)
      ensures ok <==> !docker.statusFails && (stopped ==> !docker.stopFails)
      ensures stopped <==> !docker.statusFails && (old(world.phase).finish == NEVER || observed == Running)
      ensures !docker.statusFails && IsDown(old(world).Get(unit)) ==> observed == old(world).Get(unit).c.status
      ensures !stopped ==> Undisturbed(old(world), world)
      ensures !stopped ==> finishTime == old(world.phase).finish
      ensures !ok ==> world.phase.Refused?
      ensures ok ==> world.phase == Counting(finishTime + LOCKOUT) && finishTime <= world.now
      ensures old(world.now) <= world.now
      ensures ok && stopped ==> old(world.now) <= finishTime
      ensures ok && observed != Restarting ==>
        IsDown(world.Get(unit)) && world.Get(unit).c.finishedAt <= finishTime
    {
      observed, stopped := Created, false;
      finishTime := world.phase.finish;
      Interfere();
      if docker.statusFails { Do(GateFails); return false, finishTime, observed, stopped; }
      observed := world.Get(unit).c.status;
      Do(ReadStatus);
      ok := true;
      if world.phase.StopWanted? {
        stopped, ok := true, !docker.stopFails;
        finishTime := StopContainer(unit, docker.stopFails);
      }
    }

    /**
     * The duty container's finish time, read before its status; a running container, or one
     * that has never finished, is stopped and the finish time becomes the current time.
     */
    method FindFinishTime(unit: Unit, docker: Docker)
      returns (ok: bool, finishTime: int, observed: Status, stopped: bool)
      requires Valid() && world.phase == Inspecting(unit) && SaneClock(world)
      modifies this
      ensures Valid() && log == old(log) && SaneClock(world)
      ensures world.checked == old(world.checked) && SameImages(old(world), world)
      ensures ok <==> old(world).Get(unit).Present? && docker.Answers(stopped)
      ensures stopped ==> old(world).Get(unit).Present? && !docker.finishTimeFails && !docker.statusFails
      ensures ok && observed == Running ==> stopped
      ensures ok && IsDown(old(world).Get(unit)) ==>
        && (stopped <==> old(world).Get(unit).c.finishedAt == NEVER)
        && (!stopped ==> finishTime == old(world).Get(unit).c.finishedAt)
      ensures !stopped ==> Undisturbed(old(world), world)
      ensures !ok ==> world.phase.Refused?
      ensures ok ==> world.phase == Counting(finishTime + LOCKOUT) && finishTime <= world.now
      ensures old(world.now) <= world.now
      ensures ok && stopped ==> old(world.now) <= finishTime
      ensures ok && observed != Restarting ==>
        IsDown(world.Get(unit)) && world.Get(unit).c.finishedAt <= finishTime
    {
      observed, stopped := Created, false;
      finishTime := NEVER;
      Interfere();
      if docker.finishTimeFails { Do(GateFails); return false, finishTime, observed, stopped; }
      Do(ReadFinish);
      if world.phase.Refused? { return false, finishTime, observed, stopped; }
      ok, finishTime, observed, stopped := CheckStatusOf(unit, docker);
    }

    /** The countdown ends when the safe start time has come, and not a sleep later. */
    method Countdown(safeStart: int) returns (sleeps: nat)
      requires Valid() && world.phase == Counting(safeStart)
      requires safeStart <= world.now + LOCKOUT
      modifies this
      ensures Valid() && log == old(log) && world.phase.Cleared? && safeStart <= world.now
      ensures sleeps <= 900
      ensures sleeps > 0 ==> old(world.now) + (sleeps - 1) * SECOND < safeStart
      ensures old(world.now) < safeStart ==> sleeps > 0
      ensures Undisturbed(old(world), world)
    {
      sleeps := 0;
      var remaining := safeStart - world.now;
      while remaining > 0
        invariant Valid() && log == old(log) && world.phase == Counting(safeStart)
        invariant Undisturbed(old(world), world)
        invariant remaining == safeStart - world.now
        invariant sleeps * SECOND + remaining <= safeStart - old(world.now) && sleeps <= 900
        invariant sleeps > 0 ==> old(world.now) + (sleeps - 1) * SECOND < safeStart
        invariant sleeps == 0 ==> world.now == old(world.now)
        decreases remaining
      {
        Sleep(SECOND);
        sleeps := sleeps + 1;
        remaining := safeStart - world.now;
      }
      Do(CheckClock);
    }

    /**
     * The gate. The same client passes at once, and so does any client if none is on record. A
     * missing container or an unparsable image never passes. To replace another client, its duty
     * container must be there, it must be seen down or be stopped, and the lockout since its
     * finish time must be over.
     */
    method CheckForValidatorChange(docker: Docker)
      returns (ok: bool, finishTime: int, observed: Status, stopped: bool, sleeps: nat)
      requires Valid() && world.phase.Idle? && SaneClock(world)
      modifies this
      ensures Valid() && log.clean == old(log.clean) && SaneClock(world) && SameImages(old(world), world)
      ensures log.requests == old(log.requests) + [BeginStart] && old(world.now) <= world.now
      ensures log.ready == (old(log.ready) && ReadyToStart(old(world)))
      ensures world.phase == if ok then Cleared else Refused
      ensures world.checked == old(world.configured) == world.configured
      ensures IsUnclear(old(world)) ==> !ok
      ensures NeedsNoDelay(old(world)) ==> ok && sleeps == 0
      ensures IsUnclear(old(world)) || NeedsNoDelay(old(world)) ==>
        !stopped && world == old(world).(checked := world.checked, phase := world.phase)
      ensures !IsUnclear(old(world)) && !NeedsNoDelay(old(world)) ==>
        var before, after := old(world).Get(DutyUnit(old(world))), world.Get(DutyUnit(old(world)));
        && (ok <==> before.Present? && docker.Answers(stopped))
        && (stopped ==> before.Present? && !docker.finishTimeFails && !docker.statusFails)
        && (ok && observed == Running ==> stopped)
        && (ok && IsDown(before) ==>
              && (stopped <==> before.c.finishedAt == NEVER)
              && (!stopped ==> finishTime == before.c.finishedAt))
        && (!stopped ==> Undisturbed(old(world).(checked := world.checked), world))
        && (ok ==> finishTime + 15 * 60 * 1_000_000_000 <= world.now)
        && (ok && observed != Restarting ==> IsDown(after) && after.c.finishedAt <= finishTime)
        && (sleeps > 0 ==> old(world.now) + (sleeps - 1) * SECOND < finishTime + LOCKOUT)
      ensures sleeps <= 900
    {
      finishTime, observed, stopped, sleeps := NEVER, Created, false, 0;
      Do(BeginStart);
      ok := world.phase.Cleared?;
      if world.phase.Inspecting? {
        var unit := world.phase.unit;
        ok, finishTime, observed, stopped := FindFinishTime(unit, docker);
        if ok {
          sleeps := Countdown(finishTime + LOCKOUT);
        }
      }
    }

    /** docker compose up, behind the gate. */
    method ComposeUp(compose: Compose) returns (started: bool)
      requires Valid() && world.phase.Cleared? && SaneClock(world)
      modifies this
      ensures Valid() && log == old(log) && world.phase.Idle? && SaneClock(world) && old(world.now) <= world.now
      ensures IsPlainWorld(old(world)) ==> IsPlainWorld(world)
      ensures started == compose.Succeeds?
      ensures started ==> Has(world.validator, Running) && world.validator.c.image == world.configured
      ensures started ==> if compose.withBeacon then Has(world.beacon, Running) else world.beacon.Absent?
      ensures started && IsDown(old(world.validator)) ==>
        world.validator.c.finishedAt
          == if old(world.validator).c.image == old(world.configured) && !compose.recreate
             then old(world.validator).c.finishedAt else NEVER
      ensures compose.StopsHalfway? ==> world.validator == Present(Container(world.configured, Created, NEVER))
      ensures compose.Fails? ==> SameImages(old(world), world)
      ensures world.configured == old(world.configured)
    {
      Interfere();
      started := false;
      match compose {
        case Succeeds(recreate, withBeacon) =>
          Do(Up(recreate, withBeacon));
          started := true;
        case StopsHalfway => Do(UpHalfway);
        case Fails => Do(UpFails);
      }
    }

    /** startService after its checks, without the flag that skips the gate and without a confirmation. */
    method StartService(docker: Docker, compose: Compose) returns (passed: bool, started: bool)
      requires Valid() && world.phase.Idle? && SaneClock(world)
      modifies this
      ensures Valid() && log.clean == old(log.clean) && world.phase.Idle? && SaneClock(world)
      ensures log.requests == old(log.requests) + [BeginStart] && old(world.now) <= world.now
      ensures log.ready == (old(log.ready) && ReadyToStart(old(world)))
      ensures IsPlainWorld(old(world)) ==> IsPlainWorld(world)
      ensures IsUnclear(old(world)) ==> !passed
      ensures NeedsNoDelay(old(world)) ==> passed
      ensures !IsUnclear(old(world)) && !NeedsNoDelay(old(world)) && docker == Docker(false, false, false) ==>
        (passed <==> old(world).Get(DutyUnit(old(world))).Present?)
      ensures started <==> passed && compose.Succeeds?
      ensures started ==> Has(world.validator, Running) && world.validator.c.image == world.configured
      ensures started ==> world.configured == old(world.configured)
      ensures !passed ==> SameImages(old(world), world)
    {
      var finishTime, observed, stopped, sleeps;
      passed, finishTime, observed, stopped, sleeps := CheckForValidatorChange(docker);
      started := false;
      if !passed {
        Do(Answer(false));
        return;
      }
      started := ComposeUp(compose);
    }

    method Execute(command: Command)
      requires Valid() && world.phase.Idle? && SaneClock(world)
      modifies this
      ensures Valid() && log.clean == old(log.clean) && world.phase.Idle? && SaneClock(world)
      ensures log.requests == old(log.requests) + RequestsOf(command)
      ensures old(world.now) + WaitOf(command) <= world.now
      ensures IsPlainWorld(old(world)) && SavesPlainNames([command]) ==> IsPlainWorld(world)
      ensures old(log.ready) && (command.Start? ==> IsPlainWorld(old(world)) && IsPaused(old(world))) ==> log.ready
      ensures command.PauseService? || (!command.Start? && IsPaused(old(world))) ==> IsPaused(world)
      ensures command.PauseService? ==> world.beacon.Absent? || IsDown(world.beacon)
      ensures command.SaveSettings? ==> world.configured == ImageOf(command.image)
      ensures command.PauseService? || command.LetTimePass? ==> SameImages(old(world), world)
    {
      Interfere();
      match command
      case Start =>
        var docker: Docker, compose: Compose := *, *;
        var _, _ := StartService(docker, compose);
      case PauseService => Do(Pause);
      case SaveSettings(image) =>
        assert SavesPlainNames([command]) ==> IsPlain(GetDockerImageName([command][0].image));
        Do(Configure(ImageOf(image)));
      case LetTimePass(d) => Sleep(d);
    }

    lemma AllAsked(commands: seq<Command>)
      requires Valid() && log.requests == AllRequests(commands[..|commands|])
      ensures RequestsAmong(actions) == AllRequests(commands)
    {
      CountsAll(asked, actions, |actions|);
      assert actions[..|actions|] == actions && commands[..|commands|] == commands;
    }

    lemma CleanIsCautious(i: nat)
      requires Valid() && log.clean && i < |actions|
      ensures Cautious(trace[..i + 1], actions[i])
    {
      assert WithoutOverride(trace[i], actions[i]);
    }

    /** Commands given one after the other. */
    method ExecuteAll(commands: seq<Command>)
      requires Valid() && world.phase.Idle? && SaneClock(world) && log.clean && log.requests == []
      modifies this
      ensures Valid() && log.clean
      ensures RequestsAmong(actions) == AllRequests(commands)
      ensures old(world.now) + AllWaits(commands) <= world.now
    {
      for i := 0 to |commands|
        invariant Valid() && log.clean && world.phase.Idle? && SaneClock(world)
        invariant log.requests == AllRequests(commands[..i])
        invariant old(world.now) + AllWaits(commands[..i]) <= world.now
      {
        assert commands[..i + 1][..i] == commands[..i];
        Execute(commands[i]);
      }
      AllAsked(commands);
      assert commands[..|commands|] == commands;
    }

    /**
     * Any list of commands, given one after the other: unless one of the two hazards of the gate
     * occurs on the way, the clients that ran were always the lockout apart.
     */
    method Operate(commands: seq<Command>)
      requires Valid() && world.phase.Idle? && SaneClock(world)
      requires log.clean && log.ready && trace == [world] && Inv(trace)
      modifies this
      ensures Valid() && log.clean
      ensures RequestsAmong(actions) == AllRequests(commands)
      ensures old(world.now) + AllWaits(commands) <= world.now
      ensures (forall i :: 0 <= i < |actions| ==> !Hazard(trace[..i + 1], actions[i])) ==> Safe(trace)
      ensures (forall i :: 0 <= i < |actions| && actions[i].BeginStart? ==> ReadyToStart(trace[i])) ==> Safe(trace)
    {
      ExecuteAll(commands);
      assert trace[..1] == [origin];
      forall i | 0 <= i < |actions| ensures Cautious(trace[..i + 1], actions[i]) {
        CleanIsCautious(i);
      }
      if forall i :: 0 <= i < |actions| ==> !Hazard(trace[..i + 1], actions[i]) {
        DisciplinedRunIsSafe(trace, actions);
      }
      if forall i :: 0 <= i < |actions| && actions[i].BeginStart? ==> ReadyToStart(trace[i]) {
        forall i | 0 <= i < |actions| ensures Prepared(trace[..i + 1], actions[i]) {
          assert Cautious(trace[..i + 1], actions[i]);
        }
        PreparedRunIsSafe(trace, actions);
      }
    }

    /**
     * A list of commands that pauses before every start, with clients that go by plain names, is
     * safe whatever Docker and the clock do.
     */
    method OperatePaused(commands: seq<Command>)
      requires Valid() && world.phase.Idle? && SaneClock(world)
      requires log.clean && log.ready && trace == [world] && Inv(trace)
      requires IsPlainWorld(world) && SavesPlainNames(commands) && StartsArePaused(commands, IsPaused(world))
      modifies this
      ensures Valid() && log.clean && log.ready
      ensures RequestsAmong(actions) == AllRequests(commands)
      ensures Safe(trace)
    {
      ghost var paused := IsPaused(world);
      for i := 0 to |commands|
        invariant Valid() && log.clean && log.ready && world.phase.Idle? && SaneClock(world)
        invariant IsPlainWorld(world) && (paused ==> IsPaused(world)) && StartsArePaused(commands[i..], paused)
        invariant log.requests == AllRequests(commands[..i])
      {
        assert commands[..i + 1][..i] == commands[..i];
        assert commands[i..][0] == commands[i] && commands[i..][1..] == commands[i + 1..];
        Execute(commands[i]);
        paused := if commands[i].Start? then false else if commands[i].PauseService? then true else paused;
      }
      AllAsked(commands);
      assert trace[..1] == [origin];
      forall i | 0 <= i < |actions| ensures Prepared(trace[..i + 1], actions[i]) {
        CleanIsCautious(i);
      }
      PreparedRunIsSafe(trace, actions);
    }
  }
}
