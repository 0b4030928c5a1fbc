// The event iterator and the event watcher of the generated contract bindings, as machines
// driven by an arbitrary schedule of what the log source, the subscription and the user do.
module EventStream {

  datatype Log = Log(data: string)

  datatype Unpacked = Args(args: string) | Malformed(message: string)

  /** contract.UnpackLog */
  type Unpack = Log -> Unpacked

  datatype Approval = Approval(args: string, raw: Log)

  datatype Fault = NoError | Error(message: string)

  datatype Subscription = Active | Ended(err: Fault)

  datatype Channel = Channel(
    unsent: seq<Log>,       // what the source has yet to queue
    queue: seq<Log>,        // what is queued
    sub: Subscription,
    quit: bool)

  datatype Step =
    | Send                  // the source queues its next log
    | End(err: Fault)       // the subscription ends; its error channel becomes readable
    | Quit                  // the user unsubscribes
    | TakeLog               // select picks the log channel
    | TakeErr               // select picks the error channel
    | TakeQuit              // select picks the quit channel
    | Push                  // select picks the sink

  predicate FromOutside(step: Step) {
    step.Send? || step.End? || step.Quit?
  }

  /** A step of the source, the subscription or the user; nothing if it cannot happen. */
  function Advance(ch: Channel, step: Step): Channel
    requires FromOutside(step)
  {
    match step
    case Quit => ch.(quit := true)
    case End(err) => if ch.sub.Active? then ch.(sub := Ended(err)) else ch
    case Send =>
      if ch.unsent != [] && ch.sub.Active? then ch.(unsent := ch.unsent[1..], queue := ch.queue + [ch.unsent[0]])
      else ch
  }

  /** What comes from outside: one more log in the queue while the subscription is active, its first end, the quit. */
  lemma OutsideActs(ch: Channel, err: Fault)
    ensures Advance(ch, Quit) == ch.(quit := true)
    ensures ch.sub.Active? ==> Advance(ch, End(err)) == ch.(sub := Ended(err))
    ensures ch.sub.Ended? ==> Advance(ch, End(err)) == ch && Advance(ch, Send) == ch
    ensures ch.sub.Active? && ch.unsent != [] ==>
      var sent := Advance(ch, Send);
      && sent.queue == ch.queue + ch.unsent[..1] && sent.unsent == ch.unsent[1..]
      && sent.sub == ch.sub && sent.quit == ch.quit
  {
    if ch.unsent != [] { assert ch.unsent[..1] == [ch.unsent[0]]; }
  }

  /** Everything that has not been taken yet, in order. */
  function Pending(ch: Channel): seq<Log> {
    ch.queue + ch.unsent
  }

  function Approvals(unpack: Unpack, logs: seq<Log>): (events: seq<Approval>)
    requires forall l :: l in logs ==> unpack(l).Args?
    ensures |events| == |logs|
    ensures forall i :: 0 <= i < |logs| ==> events[i] == Approval(unpack(logs[i]).args, logs[i])
  {
    seq(|logs|, i requires 0 <= i < |logs| => Approval(unpack(logs[i]).args, logs[i]))
  }

  /** A call, or a run, took these logs off the front of what was pending. */
  predicate Took(before: Channel, logs: seq<Log>, after: Channel) {
    Pending(before) == logs + Pending(after)
  }

  lemma AdvanceTakesNothing(ch: Channel, step: Step)
    requires FromOutside(step)
    ensures Took(ch, [], Advance(ch, step))
  {
  }

  lemma TakenHead(ch: Channel)
    requires ch.queue != []
    ensures Took(ch, [ch.queue[0]], ch.(queue := ch.queue[1..]))
  {
  }

  lemma TookThenTook(a: Channel, first: seq<Log>, b: Channel, second: seq<Log>, c: Channel)
    requires Took(a, first, b) && Took(b, second, c)
    ensures Took(a, first + second, c)
  {
  }

  // ---- The iterator ----

  /** The iterator's fields; `event` is empty before the first event and after a failure. */
  datatype State = State(ch: Channel, event: seq<Approval>, done: bool, fail: Fault)

  datatype Answer = Yes | No | Waiting

  function Take(s: State, unpack: Unpack): (State, Answer)
    requires s.ch.queue != []
  {
    var log, rest := s.ch.queue[0], s.ch.(queue := s.ch.queue[1..]);
    match unpack(log)
    case Malformed(message) => (State(rest, [], s.done, Error(message)), No)
    case Args(args) => (State(rest, [Approval(args, log)], s.done, s.fail), Yes)
  }

  /** Next, and what it leaves of the schedule; a step that cannot happen passes by. */
  function Next(s: State, unpack: Unpack, schedule: seq<Step>): (r: (State, Answer, seq<Step>))
    ensures |r.2| <= |schedule|
    decreases |schedule|
  {
    if s.fail != NoError then (s, No, schedule)
    else if s.done then
      if s.ch.queue != [] then var (after, a) := Take(s, unpack); (after, a, schedule) else (s, No, schedule)
    else if schedule == [] then (s, Waiting, [])
    else
      var step, rest := schedule[0], schedule[1..];
      if FromOutside(step) then Next(s.(ch := Advance(s.ch, step)), unpack, rest)
      else if step.TakeLog? && s.ch.queue != [] then var (after, a) := Take(s, unpack); (after, a, rest)
      else if step.TakeErr? && s.ch.sub.Ended? then Next(s.(done := true, fail := s.ch.sub.err), unpack, rest)
      else Next(s, unpack, rest)
  }

  /** What one call of Next takes, and what it says about it. */
  ghost predicate NextLaw(s: State, unpack: Unpack, after: State, a: Answer) {
    match a
    case Yes =>
      && s.fail == NoError && after.fail == NoError && Pending(s.ch) != []
      && Took(s.ch, Pending(s.ch)[..1], after.ch)
      && unpack(Pending(s.ch)[0]).Args?
      && after.event == [Approval(unpack(Pending(s.ch)[0]).args, Pending(s.ch)[0])]
    case Waiting => Took(s.ch, [], after.ch) && after.fail == NoError
    case No =>
      if after.fail == NoError then
        && Took(s.ch, [], after.ch) && after.done && after.ch.queue == []
        && (!s.done ==> after.ch.sub == Ended(NoError))
      else
        || (Took(s.ch, [], after.ch) && (after.fail == s.fail || after.ch.sub == Ended(after.fail)))
        || (s.fail == NoError && Pending(s.ch) != [] && Took(s.ch, Pending(s.ch)[..1], after.ch)
            && unpack(Pending(s.ch)[0]) == Malformed(after.fail.message))
  }

  lemma {:induction false} NextIsLawful(s: State, unpack: Unpack, schedule: seq<Step>)
    ensures NextLaw(s, unpack, Next(s, unpack, schedule).0, Next(s, unpack, schedule).1)
    decreases |schedule|
  {
    if s.fail != NoError {
    } else if s.done {
      if s.ch.queue != [] { TakeIsLawful(s, unpack); }
    } else if schedule != [] {
      var step, rest := schedule[0], schedule[1..];
      if FromOutside(step) {
        AdvanceTakesNothing(s.ch, step);
        NextIsLawful(s.(ch := Advance(s.ch, step)), unpack, rest);
      } else if step.TakeLog? && s.ch.queue != [] {
        TakeIsLawful(s, unpack);
      } else if step.TakeErr? && s.ch.sub.Ended? {
        NextIsLawful(s.(done := true, fail := s.ch.sub.err), unpack, rest);
      } else {
        NextIsLawful(s, unpack, rest);
      }
    }
  }

  lemma TakeIsLawful(s: State, unpack: Unpack)
    requires s.ch.queue != [] && s.fail == NoError
    ensures NextLaw(s, unpack, Take(s, unpack).0, Take(s, unpack).1)
  {
    TakenHead(s.ch);
    assert Pending(s.ch)[..1] == [s.ch.queue[0]];
  }

  /** What the source, the subscription and the user do before a pick that the schedule makes. */
  function AdvanceAll(ch: Channel, steps: seq<Step>): Channel
    requires forall i :: 0 <= i < |steps| ==> FromOutside(steps[i])
    decreases |steps|
  {
    if steps == [] then ch else AdvanceAll(Advance(ch, steps[0]), steps[1..])
  }

  /** A call that is not done picks the log or the error that the schedule makes it pick, after what happens before. */
  lemma {:induction false} PickDecides(s: State, unpack: Unpack, before: seq<Step>, pick: Step, rest: seq<Step>)
    requires s.fail == NoError && !s.done
    requires forall i :: 0 <= i < |before| ==> FromOutside(before[i])
    ensures var ch, r := AdvanceAll(s.ch, before), Next(s, unpack, before + [pick] + rest);
      && ((pick.TakeLog? || (pick.TakeErr? && ch.sub == Ended(NoError))) && ch.queue != [] ==>
            var left, done := ch.(queue := ch.queue[1..]), pick.TakeErr?;
            match unpack(ch.queue[0])
            case Args(args) => r == (State(left, [Approval(args, ch.queue[0])], done, NoError), Yes, rest)
            case Malformed(message) => r == (State(left, [], done, Error(message)), No, rest))
      && (pick.TakeErr? && ch.sub.Ended? && ch.sub.err.Error? ==>
            r == (State(ch, s.event, true, ch.sub.err), No, rest))
      && (pick.TakeErr? && ch.sub == Ended(NoError) && ch.queue == [] ==>
            r == (State(ch, s.event, true, NoError), No, rest))
    decreases |before|
  {
    var schedule := before + [pick] + rest;
    if before == [] {
      assert schedule[0] == pick && schedule[1..] == rest;
    } else {
      assert schedule[0] == before[0] && schedule[1..] == before[1..] + [pick] + rest;
      PickDecides(s.(ch := Advance(s.ch, before[0])), unpack, before[1..], pick, rest);
    }
  }

  /** Once the subscription is over without an error, calls deliver what is queued, one log each. */
  lemma {:induction false} DrainsWhenDone(s: State, unpack: Unpack, schedule: seq<Step>)
    requires s.fail == NoError && s.done && forall l :: l in s.ch.queue ==> unpack(l).Args?
    ensures var n := |s.ch.queue|;
      n > 0 ==>
        && CallNext(s, unpack, schedule, n).events == Approvals(unpack, s.ch.queue)
        && CallNext(s, unpack, schedule, n).answer == Yes
    decreases |s.ch.queue|
  {
    var q := s.ch.queue;
    if |q| > 0 {
      var (after, a) := Take(s, unpack);
      assert q[0] in q && forall l :: l in after.ch.queue ==> l in q;
      assert Approvals(unpack, q) == after.event + Approvals(unpack, q[1..]);
      if |q| > 1 { DrainsWhenDone(after, unpack, schedule); }
    }
  }

  /** Several calls of Next: the state after them, the events they delivered and their last answer. */
  datatype Calls = Calls(after: State, events: seq<Approval>, answer: Answer)

  function CallNext(s: State, unpack: Unpack, schedule: seq<Step>, n: nat): Calls
    decreases n
  {
    var (after, a, rest) := Next(s, unpack, schedule);
    var events := if a == Yes then after.event else [];
    if n <= 1 then Calls(after, events, a)
    else
      var more := CallNext(after, unpack, rest, n - 1);
      Calls(more.after, events + more.events, more.answer)
  }

  /** A failed iterator stays as it is and answers no. */
  lemma {:induction false} FailureIsFinal(s: State, unpack: Unpack, schedule: seq<Step>, n: nat)
    requires s.fail != NoError
    ensures CallNext(s, unpack, schedule, n) == Calls(s, [], No)
    decreases n
  {
    if n > 1 { FailureIsFinal(s, unpack, schedule, n - 1); }
  }

  /** How calls account for the logs that they took: delivered, or lost to the failure they ended in. */
  ghost predicate Accounts(s: State, unpack: Unpack, calls: Calls, taken: seq<Log>, lost: seq<Log>) {
    && Took(s.ch, taken + lost, calls.after.ch)
    && (forall l :: l in taken ==> unpack(l).Args?)
    && calls.events == Approvals(unpack, taken)
    && |lost| <= 1
    && (lost != [] ==> calls.after.fail.Error? && unpack(lost[0]) == Malformed(calls.after.fail.message))
    && (calls.answer == No && calls.after.fail == NoError ==> calls.after.done && calls.after.ch.queue == [])
  }

  lemma OneCallAccounts(s: State, unpack: Unpack, schedule: seq<Step>) returns (taken: seq<Log>, lost: seq<Log>)
    requires s.fail == NoError
    ensures Accounts(s, unpack, CallNext(s, unpack, schedule, 1), taken, lost)
    ensures CallNext(s, unpack, schedule, 1).after.fail == NoError ==> lost == []
  {
    var (after, a, _) := Next(s, unpack, schedule);
    NextIsLawful(s, unpack, schedule);
    taken := if a == Yes then Pending(s.ch)[..1] else [];
    lost := if a == Yes || Took(s.ch, [], after.ch) then [] else Pending(s.ch)[..1];
    assert [] + lost == lost && taken + [] == taken;
  }

  lemma AccountsAdd(s: State, unpack: Unpack, one: Calls, first: seq<Log>, more: Calls, rest: seq<Log>, lost: seq<Log>)
    requires Accounts(s, unpack, one, first, []) && Accounts(one.after, unpack, more, rest, lost)
    ensures Accounts(s, unpack, Calls(more.after, one.events + more.events, more.answer), first + rest, lost)
  {
    assert first + [] == first;
    TookThenTook(s.ch, first, one.after.ch, rest + lost, more.after.ch);
    assert (first + rest) + lost == first + (rest + lost);
  }

  /** The logs that several calls delivered, and the one, if any, that they took and lost. */
  lemma {:induction false} CallsAccount(s: State, unpack: Unpack, schedule: seq<Step>, n: nat)
    returns (taken: seq<Log>, lost: seq<Log>)
    requires s.fail == NoError
    ensures Accounts(s, unpack, CallNext(s, unpack, schedule, n), taken, lost)
    decreases n
  {
    taken, lost := OneCallAccounts(s, unpack, schedule);
    if n > 1 {
      var one := CallNext(s, unpack, schedule, 1);
      var rest := Next(s, unpack, schedule).2;
      if one.after.fail != NoError {
        FailureIsFinal(one.after, unpack, rest, n - 1);
      } else {
        var more;
        more, lost := CallsAccount(one.after, unpack, rest, n - 1);
        AccountsAdd(s, unpack, one, taken, CallNext(one.after, unpack, rest, n - 1), more, lost);
        taken := taken + more;
      }
    }
  }

  /**
   * For every schedule and every number of calls, the events delivered are the logs in order from
   * the first, none skipped or repeated; at most one log is taken without being delivered, and
   * then it is malformed and the iterator has failed with its error.
   */
  lemma DeliversInOrder(s: State, unpack: Unpack, schedule: seq<Step>, n: nat)
    requires s.fail == NoError
    ensures var calls, source := CallNext(s, unpack, schedule, n), Pending(s.ch);
      var k := |calls.events|;
      && k <= |source|
      && (forall l :: l in source[..k] ==> unpack(l).Args?)
      && calls.events == Approvals(unpack, source[..k])
      && (|| Took(s.ch, source[..k], calls.after.ch)
          || (k < |source| && Took(s.ch, source[..k + 1], calls.after.ch)
              && calls.after.fail.Error? && unpack(source[k]) == Malformed(calls.after.fail.message)))
  {
    var taken, lost := CallsAccount(s, unpack, schedule, n);
    var source := Pending(s.ch);
    assert source[..|taken|] == taken;
    if lost != [] {
      assert source[..|taken| + 1] == taken + lost;
    }
  }

  /**
   * When Next has answered no without an error, everything was delivered if and only if the
   * source had queued everything before the subscription ended.
   */
  lemma CompleteWhenAllQueued(s: State, unpack: Unpack, schedule: seq<Step>, n: nat)
    requires s.fail == NoError
    requires CallNext(s, unpack, schedule, n).answer == No && CallNext(s, unpack, schedule, n).after.fail == NoError
    ensures |CallNext(s, unpack, schedule, n).events| == |Pending(s.ch)|
       <==> CallNext(s, unpack, schedule, n).after.ch.unsent == []
  {
    var taken, lost := CallsAccount(s, unpack, schedule, n);
    assert lost == [];
  }

  // ---- The watcher ----

  datatype Exit = Running | Returned(err: Fault)

  /** The watcher: the log it holds for the sink, what the sink received, and whether it returned. */
  datatype Watcher = Watcher(ch: Channel, holding: seq<Log>, sink: seq<Approval>, exit: Exit)

  function WatchStep(w: Watcher, unpack: Unpack, step: Step): Watcher {
    if FromOutside(step) then w.(ch := Advance(w.ch, step))
    else if step.TakeErr? && w.ch.sub.Ended? then w.(exit := Returned(w.ch.sub.err))
    else if step.TakeQuit? && w.ch.quit then w.(exit := Returned(NoError))
    else if step.TakeLog? && w.holding == [] && w.ch.queue != [] then
      var log := w.ch.queue[0];
      var held := w.(ch := w.ch.(queue := w.ch.queue[1..]), holding := [log]);
      if unpack(log).Malformed? then held.(exit := Returned(Error(unpack(log).message))) else held
    else if step.Push? && w.holding != [] && unpack(w.holding[0]).Args? then
      w.(holding := [], sink := w.sink + [Approval(unpack(w.holding[0]).args, w.holding[0])])
    else w
  }

  /** Each pick that can happen does what it is for. */
  lemma PicksAct(w: Watcher, unpack: Unpack)
    ensures w.ch.sub.Ended? ==> WatchStep(w, unpack, TakeErr).exit == Returned(w.ch.sub.err)
    ensures w.ch.quit ==> WatchStep(w, unpack, TakeQuit).exit == Returned(NoError)
    ensures w.holding == [] && w.ch.queue != [] ==>
      var next := WatchStep(w, unpack, TakeLog);
      && next.holding == [w.ch.queue[0]] && next.ch.queue == w.ch.queue[1..]
      && (unpack(w.ch.queue[0]).Args? ==> next.exit == w.exit)
      && (unpack(w.ch.queue[0]).Malformed? ==> next.exit == Returned(Error(unpack(w.ch.queue[0]).message)))
    ensures w.holding != [] && unpack(w.holding[0]).Args? ==>
      var next := WatchStep(w, unpack, Push);
      next.holding == [] && next.sink == w.sink + [Approval(unpack(w.holding[0]).args, w.holding[0])]
    ensures forall step :: FromOutside(step) ==> WatchStep(w, unpack, step) == w.(ch := Advance(w.ch, step))
    ensures w.holding == [] ==> WatchStep(w, unpack, Push) == w
    ensures w.holding != [] ==> WatchStep(w, unpack, TakeLog) == w
    ensures w.ch.sub.Active? ==> WatchStep(w, unpack, TakeErr) == w
    ensures !w.ch.quit ==> WatchStep(w, unpack, TakeQuit) == w
  {
  }

  /** Taking and pushing n times. */
  function Rounds(n: nat): seq<Step> {
    if n == 0 then [] else [TakeLog, Push] + Rounds(n - 1)
  }

  /** Taking a well-formed log and pushing it moves it from the queue to the sink. */
  lemma TakeThenPush(w: Watcher, unpack: Unpack, rest: seq<Step>)
    requires w.exit.Running? && w.holding == [] && w.ch.queue != [] && unpack(w.ch.queue[0]).Args?
    ensures var log := w.ch.queue[0];
      var moved := w.(ch := w.ch.(queue := w.ch.queue[1..]), sink := w.sink + [Approval(unpack(log).args, log)]);
      Watch(w, unpack, [TakeLog, Push] + rest) == Watch(moved, unpack, rest)
  {
    var schedule := [TakeLog, Push] + rest;
    assert schedule[0] == TakeLog && schedule[1..] == [Push] + rest && ([Push] + rest)[1..] == rest;
  }

  lemma FirstApproval(sink: seq<Approval>, unpack: Unpack, q: seq<Log>)
    requires q != [] && forall l :: l in q ==> unpack(l).Args?
    ensures sink + [Approval(unpack(q[0]).args, q[0])] + Approvals(unpack, q[1..]) == sink + Approvals(unpack, q)
  {
    assert q[0] in q && forall l :: l in q[1..] ==> l in q;
  }

  /** A watcher that may take and push as often as there are logs passes them all on. */
  lemma {:induction false} WatcherDrains(w: Watcher, unpack: Unpack)
    requires w.exit.Running? && w.holding == [] && forall l :: l in w.ch.queue ==> unpack(l).Args?
    ensures Watch(w, unpack, Rounds(|w.ch.queue|))
         == w.(ch := w.ch.(queue := []), sink := w.sink + Approvals(unpack, w.ch.queue))
    decreases |w.ch.queue|
  {
    var q := w.ch.queue;
    if |q| > 0 {
      var log, left := q[0], q[1..];
      assert log in q && forall l :: l in left ==> l in q;
      var event := Approval(unpack(log).args, log);
      TakeThenPush(w, unpack, Rounds(|q| - 1));
      WatcherDrains(w.(ch := w.ch.(queue := left), sink := w.sink + [event]), unpack);
      FirstApproval(w.sink, unpack, q);
    }
  }

  function Watch(w: Watcher, unpack: Unpack, schedule: seq<Step>): Watcher
    decreases |schedule|
  {
    if w.exit.Returned? || schedule == [] then w
    else Watch(WatchStep(w, unpack, schedule[0]), unpack, schedule[1..])
  }

  /** The sink received the first logs of the source; at most the next one is held. */
  ghost predicate WatchInv(w: Watcher, unpack: Unpack, source: seq<Log>) {
    var k := |w.sink|;
    && k + |w.holding| <= |source| && |w.holding| <= 1
    && (forall l :: l in source[..k] ==> unpack(l).Args?)
    && w.sink == Approvals(unpack, source[..k])
    && source == source[..k] + w.holding + Pending(w.ch)
    && (w.exit.Running? ==> forall l :: l in w.holding ==> unpack(l).Args?)
    && (w.holding != [] && unpack(w.holding[0]).Malformed? ==>
          w.exit == Returned(Error(unpack(w.holding[0]).message)))
  }

  lemma WatchStepKeepsInv(w: Watcher, unpack: Unpack, source: seq<Log>, step: Step)
    requires WatchInv(w, unpack, source) && w.exit.Running?
    ensures WatchInv(WatchStep(w, unpack, step), unpack, source)
  {
    var next := WatchStep(w, unpack, step);
    if FromOutside(step) {
      AdvanceTakesNothing(w.ch, step);
    } else if step.TakeLog? && w.holding == [] && w.ch.queue != [] {
      TakenHead(w.ch);
    } else if step.Push? && w.holding != [] {
      var k := |w.sink|;
      assert source[k] == w.holding[0];
      assert source[..k + 1] == source[..k] + [source[k]];
    }
  }

  /**
   * Whatever the schedule, the sink receives the logs in order from the first, none skipped or
   * repeated, and at most one log has been taken off the channel without reaching it.
   */
  lemma {:induction false} SinkInOrder(w: Watcher, unpack: Unpack, source: seq<Log>, schedule: seq<Step>)
    requires WatchInv(w, unpack, source)
    ensures WatchInv(Watch(w, unpack, schedule), unpack, source)
    decreases |schedule|
  {
    if w.exit.Running? && schedule != [] {
      WatchStepKeepsInv(w, unpack, source, schedule[0]);
      SinkInOrder(WatchStep(w, unpack, schedule[0]), unpack, source, schedule[1..]);
    }
  }

  /** The same of a watcher from its beginning. */
  lemma WatcherDelivers(ch: Channel, unpack: Unpack, schedule: seq<Step>)
    ensures var end, source := Watch(Watcher(ch, [], [], Running), unpack, schedule), Pending(ch);
      var k := |end.sink|;
      && k <= |source| && (forall l :: l in source[..k] ==> unpack(l).Args?)
      && end.sink == Approvals(unpack, source[..k])
      && |end.holding| <= 1 && source == source[..k] + end.holding + Pending(end.ch)
  {
    SinkInOrder(Watcher(ch, [], [], Running), unpack, Pending(ch), schedule);
  }

  /** A watcher returns no error only on quitting or after a subscription that ended without one. */
  lemma {:induction false} ReturnsForAReason(w: Watcher, unpack: Unpack, source: seq<Log>, schedule: seq<Step>)
    requires WatchInv(w, unpack, source) && w.exit.Running?
    ensures var end := Watch(w, unpack, schedule);
      end.exit.Returned? ==>
        || (end.exit == Returned(NoError) && end.ch.quit)
        || (end.ch.sub.Ended? && end.exit == Returned(end.ch.sub.err))
        || (end.holding != [] && end.exit.err.Error? && unpack(end.holding[0]) == Malformed(end.exit.err.message))
    decreases |schedule|
  {
    if schedule != [] {
      WatchStepKeepsInv(w, unpack, source, schedule[0]);
      var next := WatchStep(w, unpack, schedule[0]);
      if next.exit.Running? { ReturnsForAReason(next, unpack, source, schedule[1..]); }
    }
  }

  // ---- In place ----

  /** The channels that an iterator or a watcher shares with its source. */
  class Channels {
    var unsent: seq<Log>
    var queue: seq<Log>
    var sub: Subscription
    var quit: bool

    constructor (source: seq<Log>)
      ensures View() == Channel(source, [], Active, false)
    {
      unsent, queue, sub, quit := source, [], Active, false;
    }

    function View(): Channel
      reads this
    {
      Channel(unsent, queue, sub, quit)
    }

    method Outside(step: Step)
      requires FromOutside(step)
      modifies this
      ensures View() == Advance(old(View()), step)
    {
      match step {
        case Quit => quit := true;
        case End(err) => if sub.Active? { sub := Ended(err); }
        case Send => if unsent != [] && sub.Active? { unsent, queue := unsent[1..], queue + [unsent[0]]; }
      }
    }

    method Receive() returns (log: Log)
      requires queue != []
      modifies this`queue
      ensures log == old(queue[0]) && queue == old(queue[1..])
    {
      log := queue[0];
      queue := queue[1..];
    }
  }

  class ApprovalIterator {
    const logs: Channels
    const unpack: Unpack
    var event: seq<Approval>
    var done: bool
    var fail: Fault

    constructor (logs: Channels, unpack: Unpack)
      ensures this.logs == logs && this.unpack == unpack
      ensures View() == State(logs.View(), [], false, NoError)
    {
      this.logs, this.unpack := logs, unpack;
      event, done, fail := [], false, NoError;
    }

    function View(): State
      reads this, logs
    {
      State(logs.View(), event, done, fail)
    }

    /** Unpacking the next queued log into the iterator's event. */
    method Deliver() returns (more: bool)
      requires logs.queue != []
      modifies this`event, this`fail, logs`queue
      ensures View() == Take(old(View()), unpack).0
      ensures (if more then Yes else No) == Take(old(View()), unpack).1
    {
      var log := logs.Receive();
      match unpack(log) {
        case Malformed(message) =>
          event, fail := [], Error(message);
          more := false;
        case Args(args) =>
          event := [Approval(args, log)];
          more := true;
      }
    }

    method CallNext(schedule: seq<Step>) returns (a: Answer, rest: seq<Step>)
      modifies this, logs
      ensures (View(), a, rest) == Next(old(View()), unpack, schedule)
      decreases |schedule|
    {
      rest := schedule;
      if fail != NoError { return No, rest; }
      if done {
        if logs.queue == [] { return No, rest; }
        var more := Deliver();
        return if more then Yes else No, rest;
      }
      if rest == [] { return Waiting, rest; }
      var step := rest[0];
      rest := rest[1..];
      if FromOutside(step) {
        logs.Outside(step);
        a, rest := CallNext(rest);
      } else if step.TakeLog? && logs.queue != [] {
        var more := Deliver();
        a := if more then Yes else No;
      } else if step.TakeErr? && logs.sub.Ended? {
        done := true;
        fail := logs.sub.err;
        a, rest := CallNext(rest);
      } else {
        a, rest := CallNext(rest);
      }
    }
  }

  /** The goroutine of WatchApproval, until it returns or the schedule is over. */
  method WatchApproval(logs: Channels, unpack: Unpack, schedule: seq<Step>)
    returns (sink: seq<Approval>, holding: seq<Log>, exit: Exit)
    modifies logs
    ensures Watcher(logs.View(), holding, sink, exit)
         == Watch(Watcher(old(logs.View()), [], [], Running), unpack, schedule)
  {
    sink, holding, exit := [], [], Running;
    var left := schedule;
    while left != [] && exit.Running?
      invariant Watch(Watcher(logs.View(), holding, sink, exit), unpack, left)
             == Watch(Watcher(old(logs.View()), [], [], Running), unpack, schedule)
      decreases |left|
    {
      var step := left[0];
      left := left[1..];
      if FromOutside(step) {
        logs.Outside(step);
      } else if step.TakeErr? && logs.sub.Ended? {
        exit := Returned(logs.sub.err);
      } else if step.TakeQuit? && logs.quit {
        exit := Returned(NoError);
      } else if holding == [] {
        if step.TakeLog? && logs.queue != [] {
          var log := logs.Receive();
          holding := [log];
          if unpack(log).Malformed? { exit := Returned(Error(unpack(log).message)); }
        }
      } else if step.Push? && unpack(holding[0]).Args? {
        sink := sink + [Approval(unpack(holding[0]).args, holding[0])];
        holding := [];
      }
    }
  }
}
