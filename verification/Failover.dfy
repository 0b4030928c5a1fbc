// What the client managers' runFunction family is for: try the ready clients
// in order, stop at the first outcome that is not a disconnection, and mark
// every client that disconnected as not ready.
module Failover {
  import opened Text

  datatype Client = Primary | Fallback

  /** What a wrapped client function returns: a value, or an error with its text. */
  datatype Outcome<+T> = Value(value: T) | Fault(message: string)

  /** A wrapped function: what it would return on either client. */
  datatype Op<+T> = Op(onPrimary: Outcome<T>, onFallback: Outcome<T>)
  {
    function On(c: Client): Outcome<T> {
      match c
      case Primary => onPrimary
      case Fallback => onFallback
    }
  }

  datatype Flags = Flags(primary: bool, fallback: bool)
  {
    predicate Ready(c: Client) {
      match c
      case Primary => primary
      case Fallback => fallback
    }
  }

  /** isDisconnected */
  predicate IsDisconnected(message: string) {
    HasPart(message, "dial tcp")
  }

  /** An error is a disconnection exactly if its text mentions "dial tcp" anywhere. */
  lemma DisconnectionMeaning(message: string)
    ensures IsDisconnected(message) <==> Contains(message, "dial tcp")
  {
    HasPartIsContains(message, "dial tcp");
  }

  predicate Disconnects<T>(o: Outcome<T>) {
    o.Fault? && IsDisconnected(o.message)
  }

  datatype Reply<+T> = Answered(client: Client, outcome: Outcome<T>) | AllFailed | NoneReady

  datatype Run<+T> = Run(after: Flags, called: seq<Client>, reply: Reply<T>)

  function Candidates(f: Flags): seq<Client> {
    (if f.primary then [Primary] else []) + (if f.fallback then [Fallback] else [])
  }

  /** How many candidates disconnect before one answers. */
  function Disconnected<T>(candidates: seq<Client>, op: Op<T>): (n: nat)
    ensures n <= |candidates|
    ensures forall i :: 0 <= i < n ==> Disconnects(op.On(candidates[i]))
    ensures n < |candidates| ==> !Disconnects(op.On(candidates[n]))
  {
    if candidates == [] || !Disconnects(op.On(candidates[0])) then 0
    else 1 + Disconnected(candidates[1..], op)
  }

  /** The outcome of one operation on a manager. */
  function Attempt<T>(f: Flags, op: Op<T>): Run<T> {
    var candidates := Candidates(f);
    var n := Disconnected(candidates, op);
    var gone := candidates[..n];
    var after := Flags(f.primary && Primary !in gone, f.fallback && Fallback !in gone);
    if n < |candidates|
    then Run(after, candidates[..n + 1], Answered(candidates[n], op.On(candidates[n])))
    else Run(after, candidates, if f.fallback then AllFailed else NoneReady)
  }

  /** The same by cases: the primary first, and after its disconnection what is left without it. */
  lemma AttemptByCases<T>(f: Flags, op: Op<T>)
    ensures Attempt(f, op) ==
      if f.primary && !Disconnects(op.onPrimary) then Run(f, [Primary], Answered(Primary, op.onPrimary))
      else if f.primary then
        var r := Attempt(Flags(false, f.fallback), op);
        Run(r.after, [Primary] + r.called, r.reply)
      else if !f.fallback then Run(f, [], NoneReady)
      else if Disconnects(op.onFallback) then Run(Flags(false, false), [Fallback], AllFailed)
      else Run(f, [Fallback], Answered(Fallback, op.onFallback))
  {
    assert f.primary ==> Candidates(f)[1..] == Candidates(Flags(false, f.fallback));
    if f.primary && Disconnects(op.onPrimary) {
      var rest := Candidates(Flags(false, f.fallback));
      var n := Disconnected(rest, op);
      assert Candidates(f)[..n + 1] == [Primary] + rest[..n];
    }
  }

  /** The clients called all disconnected, except the last one if it answered; nothing else is retried. */
  lemma OneAnswer<T>(f: Flags, op: Op<T>)
    ensures var r := Attempt(f, op);
      && (forall i :: 0 <= i < |r.called| ==> f.Ready(r.called[i]))
      && (forall i :: 0 <= i < |r.called| && !Disconnects(op.On(r.called[i])) ==>
            i == |r.called| - 1 && r.reply == Answered(r.called[i], op.On(r.called[i])))
      && (r.reply.Answered? ==> r.called != [] && !Disconnects(r.reply.outcome))
      && (!r.reply.Answered? ==> r.after == Flags(false, false))
  {
    AttemptByCases(f, op);
    AttemptByCases(Flags(false, f.fallback), op);
  }

  /** An operation clears a flag exactly when it called the client and the client disconnected. */
  lemma FlagsAfter<T>(f: Flags, op: Op<T>, c: Client)
    ensures var r := Attempt(f, op);
      r.after.Ready(c) <==> f.Ready(c) && !(c in r.called && Disconnects(op.On(c)))
  {
    assert Candidates(f) == match f
      case Flags(true, true) => [Primary, Fallback]
      case Flags(true, false) => [Primary]
      case Flags(false, true) => [Fallback]
      case Flags(false, false) => [];
  }

  // ---- Histories ----

  /** An operation, or a status check that found these clients ready. */
  datatype Event<+T> = Operation(op: Op<T>) | StatusCheck(found: Flags)

  /** With the sync check ignored a status check leaves the flags as they are. */
  function Next<T>(f: Flags, e: Event<T>, ignoring: bool): Flags {
    match e
    case Operation(op) => Attempt(f, op).after
    case StatusCheck(found) => if ignoring then f else found
  }

  function FlagsAlong<T>(f: Flags, events: seq<Event<T>>, ignoring: bool): Flags
    decreases |events|
  {
    if events == [] then f else FlagsAlong(Next(f, events[0], ignoring), events[1..], ignoring)
  }

  function Calls<T>(f: Flags, events: seq<Event<T>>, ignoring: bool): nat
    decreases |events|
  {
    if events == [] then 0
    else
      (match events[0]
       case Operation(op) => |Attempt(f, op).called|
       case StatusCheck(_) => 0)
      + Calls(Next(f, events[0], ignoring), events[1..], ignoring)
  }

  function Operations<T>(events: seq<Event<T>>): nat
    decreases |events|
  {
    if events == [] then 0
    else (if events[0].Operation? then 1 else 0) + Operations(events[1..])
  }

  function Checks<T>(events: seq<Event<T>>): nat
    decreases |events|
  {
    if events == [] then 0
    else (if events[0].StatusCheck? then 1 else 0) + Checks(events[1..])
  }

  /** One more event: an operation leaves the flags as attempted, a status check sets them unless ignored. */
  lemma {:induction false} OneMoreEvent<T>(f: Flags, events: seq<Event<T>>, e: Event<T>, ignoring: bool)
    ensures FlagsAlong(f, events + [e], ignoring) ==
      match e
      case Operation(op) => Attempt(FlagsAlong(f, events, ignoring), op).after
      case StatusCheck(found) => if ignoring then FlagsAlong(f, events, ignoring) else found
    ensures Calls(f, events + [e], ignoring) == Calls(f, events, ignoring) +
      match e
      case Operation(op) => |Attempt(FlagsAlong(f, events, ignoring), op).called|
      case StatusCheck(_) => 0
    ensures Operations(events + [e]) == Operations(events) + (if e.Operation? then 1 else 0)
    ensures Checks(events + [e]) == Checks(events) + (if e.StatusCheck? then 1 else 0)
    decreases |events|
  {
    if events == [] {
      assert [e][1..] == [];
    } else {
      assert (events + [e])[1..] == events[1..] + [e];
      OneMoreEvent(Next(f, events[0], ignoring), events[1..], e, ignoring);
    }
  }

  /** Nothing has happened before the first event. */
  lemma NoEvents<T>(f: Flags, ignoring: bool)
    ensures var none: seq<Event<T>> := [];
      FlagsAlong(f, none, ignoring) == f && Calls(f, none, ignoring) == 0 && Operations(none) == 0 == Checks(none)
  {
  }

  /** One operation calls one client, and a second one only as the primary drops out. */
  lemma CallsOfOne<T>(f: Flags, op: Op<T>)
    ensures var r := Attempt(f, op);
      |r.called| <= 1 + (if f.primary && !r.after.primary then 1 else 0)
  {
  }

  /** n operations make at most n + 1 client calls, plus one for every status check that takes effect. */
  lemma {:induction false} CallsAreBounded<T>(f: Flags, events: seq<Event<T>>, ignoring: bool)
    ensures Calls(f, events, ignoring)
         <= Operations(events) + (if ignoring then 0 else Checks(events)) + (if f.primary then 1 else 0)
    decreases |events|
  {
    if events != [] {
      match events[0] {
        case Operation(op) => CallsOfOne(f, op);
        case StatusCheck(_) =>
      }
      CallsAreBounded(Next(f, events[0], ignoring), events[1..], ignoring);
    }
  }

  /** Without a status check that takes effect, flags only fall. */
  lemma {:induction false} FlagsOnlyFall<T>(f: Flags, events: seq<Event<T>>, ignoring: bool, c: Client)
    requires ignoring || Checks(events) == 0
    ensures FlagsAlong(f, events, ignoring).Ready(c) ==> f.Ready(c)
    decreases |events|
  {
    if events != [] {
      FlagsOnlyFall(Next(f, events[0], ignoring), events[1..], ignoring, c);
    }
  }

  /** A manager with no ready client stays so and calls nobody, forever if the sync check is ignored. */
  lemma {:induction false} NoneReadyIsFinal<T>(events: seq<Event<T>>, ignoring: bool)
    requires ignoring || Checks(events) == 0
    ensures FlagsAlong(Flags(false, false), events, ignoring) == Flags(false, false)
    ensures Calls(Flags(false, false), events, ignoring) == 0
    decreases |events|
  {
    if events != [] {
      NoneReadyIsFinal(events[1..], ignoring);
    }
  }

  /** Every operation of such a manager fails, whatever the clients would have answered. */
  lemma NoneReadyFails<T>(op: Op<T>)
    ensures Attempt(Flags(false, false), op) == Run(Flags(false, false), [], NoneReady)
  {
  }
}
