// Waiting for a client to sync: the status checks of requirements.go and the
// two polling loops on top of them.
//
// A wait is driven by a list of turns, one per round of its loop: what the
// clients would answer in that round and how much time passes in it. The list
// stands for any finite piece of the environment's behaviour; a wait that uses
// it up is still unfinished.
module SyncWait {
  import opened Failover
  import opened ClientStatus
  import opened Managers

  const POLL_INTERVAL: int := 5 * SECOND
  const STATUS_REFRESH_INTERVAL: int := 60 * SECOND
  const SYNC_TIMEOUT: nat := 16

  datatype Exit = ByStatusCheck | ByPolling

  /** Why a wait ends with an error. */
  datatype Cause =
    | Unavailable(hasFallback: bool)  // a status check found no client that is ready or can be waited for
    | Disconnected                    // every ready client disconnected at the poll
    | NoneLeft                        // the manager had no ready client to poll
    | Reported(message: string)       // the polled client's own error
    | StillSyncing

  datatype WaitEnd =
    | Synced(exit: Exit)
    | TimedOut
    | Failed(cause: Cause)
    | Unfinished

  /** A status check: what the clients answer to it, and when. */
  datatype Check = Check(primary: EcProbe, fallback: EcProbe, at: int)

  /** A check finds a client that can be used. */
  predicate FindsReady(hasFallback: bool, expectedChainId: nat, check: Check) {
    || Healthy(check.primary, check.at)
    || (hasFallback && Healthy(check.fallback, check.at) && ChainOf(check.fallback) == expectedChainId)
  }

  /** A check finds a client that can be waited for. */
  predicate FindsSyncing(hasFallback: bool, expectedChainId: nat, check: Check) {
    Syncing(check.primary) || (hasFallback && Syncing(check.fallback) && ChainOf(check.fallback) == expectedChainId)
  }

  /** The client to wait for: the primary if it reports progress, else the fallback. */
  function ClientToPoll(check: Check): Client {
    if Syncing(check.primary) then Primary else Fallback
  }

  /** A check leaves a client ready: it finds one, or sync checks are ignored and one was ready before. */
  predicate LeavesReady(m: ExecutionClientManager, expectedChainId: nat, check: Check)
    reads m
  {
    if m.ignoreSyncCheck then m.primaryReady || m.fallbackReady else FindsReady(m.hasFallback, expectedChainId, check)
  }

  /**
   * checkExecutionClientStatus: exactly one of synced, a client to wait for, and an error. The
   * client is one that answers and reports progress; a fallback on another chain is never it.
   */
  method CheckExecutionClientStatus(m: ExecutionClientManager, primary: EcProbe, fallback: EcProbe,
                                    expectedChainId: nat, now: int)
    returns (synced: bool, clientToCheck: Maybe<Client>, err: Maybe<Cause>)
    requires m.Valid()
    modifies m`primaryReady, m`fallbackReady, m`lastProbe, m`chainId
    ensures m.Valid()
    ensures synced <==> m.primaryReady || m.fallbackReady
    ensures synced <==> old(LeavesReady(m, expectedChainId, Check(primary, fallback, now)))
    ensures !synced && m.ignoreSyncCheck ==> err.Just?
    ensures err.Just? ==> err.value == Unavailable(m.hasFallback)
    ensures !synced && !m.ignoreSyncCheck ==>
      var check := Check(primary, fallback, now);
      clientToCheck ==
        if FindsSyncing(m.hasFallback, expectedChainId, check) then Just(ClientToPoll(check)) else Nothing
    ensures synced ==> clientToCheck == Nothing && err == Nothing
    ensures !synced ==> (clientToCheck.Just? <==> err == Nothing)
    ensures clientToCheck == Just(Primary) ==> !m.ignoreSyncCheck && Syncing(primary)
    ensures clientToCheck == Just(Fallback) ==>
      !m.ignoreSyncCheck && m.hasFallback && Syncing(fallback) && ChainOf(fallback) == expectedChainId
    ensures !synced && !m.ignoreSyncCheck && Syncing(primary) ==> clientToCheck == Just(Primary)
    ensures !synced && !m.ignoreSyncCheck && !Syncing(primary)
         && m.hasFallback && Syncing(fallback) && ChainOf(fallback) == expectedChainId
      ==> clientToCheck == Just(Fallback)
    ensures !m.ignoreSyncCheck ==> m.primaryReady == Healthy(primary, now)
    ensures !m.ignoreSyncCheck ==>
      m.fallbackReady == (m.hasFallback && Healthy(fallback, now) && ChainOf(fallback) == expectedChainId)
    ensures m.ignoreSyncCheck ==> m.CurrentFlags() == old(m.CurrentFlags())
  {
    var status := m.CheckStatus(primary, fallback, expectedChainId, now);
    if m.primaryReady {
      return true, Nothing, Nothing;
    }
    if m.fallbackReady {
      return true, Nothing, Nothing;
    }
    if status.primary.isWorking && status.primary.error == "" {
      return false, Just(Primary), Nothing;
    }
    if status.fallbackEnabled && status.fallback.isWorking && status.fallback.error == "" {
      return false, Just(Fallback), Nothing;
    }
    if status.fallbackEnabled {
      return false, Nothing, Just(Unavailable(true));
    }
    return false, Nothing, Just(Unavailable(false));
  }

  /** One round of the execution wait. */
  datatype EcTurn = EcTurn(
    idle: nat,                       // time that passes before the timeout is checked
    primary: EcProbe,                // answers to a status refresh
    fallback: EcProbe,
    syncing: Fallible<bool>,         // answers to the poll
    latestBlock: Fallible<int>,
    late: nat)                       // time the sleep takes beyond its duration

  // ---- The rounds of the execution wait ----

  /** A wait for an execution client: its configuration and the status check that it begins with. */
  datatype EcWait = EcWait(hasFallback: bool, expectedChainId: nat, timeout: nat, first: Check)

  /** When round i looks at the clock. */
  function RoundTime(w: EcWait, turns: seq<EcTurn>, i: nat): int
    requires i < |turns|
  {
    if i == 0 then w.first.at + turns[0].idle
    else RoundTime(w, turns, i - 1) + POLL_INTERVAL + turns[i - 1].late + turns[i].idle
  }

  /** The latest status check before round i. */
  function CheckBefore(w: EcWait, turns: seq<EcTurn>, i: nat): Check
    requires i <= |turns|
    decreases i, 0
  {
    if i == 0 then w.first else InForce(w, turns, i - 1)
  }

  /** Round i refreshes the status. */
  predicate IsDue(w: EcWait, turns: seq<EcTurn>, i: nat)
    requires i < |turns|
    decreases i, 1
  {
    RoundTime(w, turns, i) - CheckBefore(w, turns, i).at > STATUS_REFRESH_INTERVAL
  }

  function CheckOf(w: EcWait, turns: seq<EcTurn>, i: nat): Check
    requires i < |turns|
  {
    Check(turns[i].primary, turns[i].fallback, RoundTime(w, turns, i))
  }

  /** The status check that round i polls by. */
  function InForce(w: EcWait, turns: seq<EcTurn>, i: nat): Check
    requires i < |turns|
    decreases i, 2
  {
    if IsDue(w, turns, i) then CheckOf(w, turns, i) else CheckBefore(w, turns, i)
  }

  predicate IsLate(w: EcWait, turns: seq<EcTurn>, i: nat)
    requires i < |turns|
  {
    w.timeout > 0 && RoundTime(w, turns, i) - w.first.at > w.timeout * SECOND
  }

  /** A refresh settles the wait: a client is ready, or there is none left to wait for. */
  predicate IsSettling(w: EcWait, check: Check) {
    FindsReady(w.hasFallback, w.expectedChainId, check) || !FindsSyncing(w.hasFallback, w.expectedChainId, check)
  }

  /** Round i gets as far as polling. */
  predicate Polls(w: EcWait, turns: seq<EcTurn>, i: nat)
    requires i < |turns|
  {
    !IsLate(w, turns, i) && !(IsDue(w, turns, i) && IsSettling(w, CheckOf(w, turns, i)))
  }

  /** How a poll at time now ends the wait, if it does. */
  function PollEnd(turn: EcTurn, now: int): Maybe<WaitEnd> {
    match turn.syncing
    case Err(message) => Just(Failed(Reported(message)))
    case Ok(true) => Nothing
    case Ok(false) =>
      match turn.latestBlock
      case Err(message) => Just(Failed(Reported(message)))
      case Ok(blockTime) => if IsRecent(blockTime, now) then Just(Synced(ByPolling)) else Nothing
  }

  /** How round i ends the wait, if it does. */
  function RoundEnd(w: EcWait, turns: seq<EcTurn>, i: nat): Maybe<WaitEnd>
    requires i < |turns|
  {
    if IsLate(w, turns, i) then Just(TimedOut)
    else if Polls(w, turns, i) then PollEnd(turns[i], RoundTime(w, turns, i))
    else if FindsReady(w.hasFallback, w.expectedChainId, CheckOf(w, turns, i)) then Just(Synced(ByStatusCheck))
    else Just(Failed(Unavailable(w.hasFallback)))
  }

  lemma NextCheck(w: EcWait, turns: seq<EcTurn>, i: nat)
    requires i < |turns|
    ensures var before, now := CheckBefore(w, turns, i), RoundTime(w, turns, i);
      && IsDue(w, turns, i) == (now - before.at > STATUS_REFRESH_INTERVAL)
      && InForce(w, turns, i) == CheckBefore(w, turns, i + 1)
      && CheckBefore(w, turns, i + 1)
           == if IsDue(w, turns, i) then Check(turns[i].primary, turns[i].fallback, now) else before
  {
  }

  /** At every round the check in force is at most the refresh interval old, and was made in this wait. */
  lemma {:induction false} ChecksAreFresh(w: EcWait, turns: seq<EcTurn>, i: nat)
    requires i < |turns|
    ensures RoundTime(w, turns, i) - STATUS_REFRESH_INTERVAL <= InForce(w, turns, i).at <= RoundTime(w, turns, i)
    ensures InForce(w, turns, i) == w.first
         || exists j :: 0 <= j <= i && IsDue(w, turns, j) && InForce(w, turns, i) == CheckOf(w, turns, j)
  {
    if !IsDue(w, turns, i) && i > 0 { ChecksAreFresh(w, turns, i - 1); }
  }

  lemma {:induction false} RoundsAreApart(w: EcWait, turns: seq<EcTurn>, i: nat, j: nat)
    requires i <= j < |turns|
    ensures RoundTime(w, turns, j) - RoundTime(w, turns, i) >= (j - i) * POLL_INTERVAL
  {
    if i < j { RoundsAreApart(w, turns, i, j - 1); }
  }

  /** Rounds that nothing holds up are five seconds apart. */
  lemma {:induction false} RoundsOnTime(w: EcWait, turns: seq<EcTurn>, i: nat)
    requires i < |turns| && forall k :: 0 <= k <= i ==> turns[k].idle == 0 && turns[k].late == 0
    ensures RoundTime(w, turns, i) == w.first.at + i * 5_000_000_000
  {
    if i > 0 { RoundsOnTime(w, turns, i - 1); }
  }

  lemma {:induction false} NoneDue(w: EcWait, turns: seq<EcTurn>, i: nat, j: nat)
    requires i <= j < |turns| && forall k :: i < k <= j ==> !IsDue(w, turns, k)
    ensures InForce(w, turns, j) == InForce(w, turns, i)
  {
    if i < j {
      NoneDue(w, turns, i, j - 1);
      assert !IsDue(w, turns, j);
    }
  }

  /** A wait that goes on refreshes the status at least once in any thirteen rounds. */
  lemma RefreshIsSoonDue(w: EcWait, turns: seq<EcTurn>, i: nat)
    requires i + 13 < |turns|
    ensures exists k :: i < k <= i + 13 && IsDue(w, turns, k)
  {
    if forall k :: i < k <= i + 13 ==> !IsDue(w, turns, k) {
      NoneDue(w, turns, i, i + 12);
      ChecksAreFresh(w, turns, i);
      RoundsAreApart(w, turns, i, i + 13);
      assert CheckBefore(w, turns, i + 13) == InForce(w, turns, i);
      assert IsDue(w, turns, i + 13);
    }
  }

  /** The first due round whose answers show a ready client ends the wait with it, in time. */
  lemma ReadinessIsNoticed(w: EcWait, turns: seq<EcTurn>, i: nat)
    requires i < |turns|
    ensures var answers := Check(turns[i].primary, turns[i].fallback, RoundTime(w, turns, i));
      var due := answers.at - CheckBefore(w, turns, i).at > 60_000_000_000;
      var found := FindsReady(w.hasFallback, w.expectedChainId, answers);
      RoundEnd(w, turns, i) == Just(Synced(ByStatusCheck)) <==> !IsLate(w, turns, i) && due && found
  {
  }

  /** A wait fails only for a refresh that finds nobody ready or syncing, or for an error of a poll. */
  lemma FailureHasACause(w: EcWait, turns: seq<EcTurn>, i: nat, cause: Cause)
    requires i < |turns| && !IsLate(w, turns, i)
    ensures var check := CheckOf(w, turns, i);
      IsDue(w, turns, i) && IsSettling(w, check) ==>
        (RoundEnd(w, turns, i) == Just(Failed(cause))
         <==> !FindsReady(w.hasFallback, w.expectedChainId, check) && cause == Unavailable(w.hasFallback))
    ensures !(IsDue(w, turns, i) && IsSettling(w, CheckOf(w, turns, i))) ==>
      (RoundEnd(w, turns, i) == Just(Failed(cause))
       <==> || (turns[i].syncing.Err? && cause == Reported(turns[i].syncing.message))
            || (turns[i].syncing == Ok(false) && turns[i].latestBlock.Err?
                && cause == Reported(turns[i].latestBlock.message)))
  {
  }

  /** A wait times out in the first round that begins more than its timeout after it did. */
  lemma TimeoutIsExact(w: EcWait, turns: seq<EcTurn>, i: nat)
    requires i < |turns|
    ensures RoundEnd(w, turns, i) == Just(TimedOut) <==>
      w.timeout > 0 && RoundTime(w, turns, i) - w.first.at > w.timeout * 1_000_000_000
  {
  }

  /** A poll ends the wait with success exactly for a client that reports no progress and has a recent block. */
  lemma PollingIsExact(w: EcWait, turns: seq<EcTurn>, i: nat)
    requires i < |turns| && Polls(w, turns, i)
    ensures RoundEnd(w, turns, i) == Just(Synced(ByPolling)) <==>
      && turns[i].syncing == Ok(false) && turns[i].latestBlock.Ok?
      && RoundTime(w, turns, i) < (turns[i].latestBlock.value + 300) * 1_000_000_000
    ensures RoundEnd(w, turns, i) == Nothing <==>
      || turns[i].syncing == Ok(true)
      || (turns[i].syncing == Ok(false) && turns[i].latestBlock.Ok?
          && RoundTime(w, turns, i) >= (turns[i].latestBlock.value + 300) * 1_000_000_000)
  {
  }

  /** With a timeout within the refresh interval there is no refresh. */
  lemma {:induction false} NoRefreshInTime(w: EcWait, turns: seq<EcTurn>, i: nat)
    requires i < |turns| && 0 < w.timeout <= 60 && !IsLate(w, turns, i)
    ensures !IsDue(w, turns, i) && CheckBefore(w, turns, i) == w.first
  {
    if i > 0 {
      RoundsAreApart(w, turns, i - 1, i);
      NoRefreshInTime(w, turns, i - 1);
      assert CheckBefore(w, turns, i) == InForce(w, turns, i - 1);
    }
  }

  /** The only client to wait for is syncing when its status is checked and done at the first poll. */
  predicate DoneAtFirstPoll(m: ExecutionClientManager, expectedChainId: nat, now: int,
                            primary: EcProbe, fallback: EcProbe, turns: seq<EcTurn>)
    reads m
  {
    && !m.ignoreSyncCheck && Syncing(primary)
    && !FindsReady(m.hasFallback, expectedChainId, Check(primary, fallback, now))
    && |turns| > 0 && turns[0].idle == 0
    && turns[0].syncing == Ok(false) && turns[0].latestBlock.Ok? && IsRecent(turns[0].latestBlock.value, now)
  }

  /** One poll of the client to wait for. */
  method Poll(turn: EcTurn, now: int) returns (end: Maybe<WaitEnd>)
    ensures end == PollEnd(turn, now)
  {
    match turn.syncing
    case Err(message) => end := Just(Failed(Reported(message)));
    case Ok(true) => end := Nothing;
    case Ok(false) =>
      match turn.latestBlock
      case Err(message) => end := Just(Failed(Reported(message)));
      case Ok(blockTime) =>
        if IsRecent(blockTime, now) { end := Just(Synced(ByPolling)); } else { end := Nothing; }
  }

  /** How the rounds of a wait end: the first round that ends it does, and those before it poll. */
  predicate EndsBy(w: EcWait, turns: seq<EcTurn>, end: WaitEnd, polled: seq<Client>, rounds: nat) {
    && rounds <= |turns|
    && (forall i :: 0 <= i < rounds ==> RoundEnd(w, turns, i) == Nothing)
    && (if rounds < |turns| then RoundEnd(w, turns, rounds) == Just(end) else end == Unfinished)
    && |polled| == rounds + (if rounds < |turns| && Polls(w, turns, rounds) then 1 else 0)
    && forall i :: 0 <= i < |polled| ==> polled[i] == ClientToPoll(InForce(w, turns, i))
  }

  /** With a timeout T there are at most T/5 + 1 polls. */
  lemma PollsAreFew(w: EcWait, turns: seq<EcTurn>, end: WaitEnd, polled: seq<Client>, rounds: nat)
    requires EndsBy(w, turns, end, polled, rounds) && w.timeout > 0
    ensures |polled| <= w.timeout / 5 + 1
  {
    if |polled| > 0 {
      var last := |polled| - 1;
      assert Polls(w, turns, last) by {
        if last < rounds { assert RoundEnd(w, turns, last) == Nothing; }
      }
      RoundsAreApart(w, turns, 0, last);
    }
  }

  /** The loop of waitEthClientSynced, after a first status check that found a client to wait for. */
  method WaitRounds(m: ExecutionClientManager, ghost w: EcWait, timeout: nat, expectedChainId: nat, startTime: int,
                    selected: Client, turns: seq<EcTurn>)
    returns (end: WaitEnd, polled: seq<Client>, elapsed: int, rounds: nat)
    requires m.Valid() && m.CurrentFlags() == Flags(false, false) && !m.ignoreSyncCheck
    requires w == EcWait(m.hasFallback, expectedChainId, timeout, w.first) && w.first.at == startTime
    requires selected == ClientToPoll(w.first) && (selected == Fallback ==> m.hasFallback)
    modifies m`primaryReady, m`fallbackReady, m`lastProbe, m`chainId
    ensures m.Valid() && EndsBy(w, turns, end, polled, rounds)
    ensures end == Synced(ByStatusCheck) <==> m.primaryReady || m.fallbackReady
    ensures end == Synced(ByPolling) ==> polled != []
    ensures 0 < timeout <= 60 ==> end != Synced(ByStatusCheck)
    ensures end == TimedOut ==> timeout > 0 && elapsed > timeout * SECOND
    ensures timeout > 0 && end != TimedOut && end != Unfinished ==> elapsed <= timeout * SECOND
    ensures forall i :: 0 <= i < |polled| && polled[i] == Fallback ==> m.hasFallback
    ensures end == Unfinished ==> elapsed >= |turns| * POLL_INTERVAL
  {
    polled, elapsed, rounds := [], 0, 0;
    var now, refreshTime := startTime, startTime;
    var clientToCheck := Just(selected);
    while rounds < |turns|
      invariant m.Valid() && m.CurrentFlags() == Flags(false, false)
      invariant 0 <= rounds <= |turns| && |polled| == rounds && elapsed == now - startTime
      invariant rounds < |turns| ==> now + turns[rounds].idle == RoundTime(w, turns, rounds)
      invariant refreshTime == CheckBefore(w, turns, rounds).at
      invariant clientToCheck == Just(ClientToPoll(CheckBefore(w, turns, rounds)))
      invariant clientToCheck == Just(Fallback) ==> m.hasFallback
      invariant forall i :: 0 <= i < rounds ==> RoundEnd(w, turns, i) == Nothing
      invariant forall i :: 0 <= i < rounds ==> polled[i] == ClientToPoll(InForce(w, turns, i))
      invariant forall i :: 0 <= i < rounds && polled[i] == Fallback ==> m.hasFallback
      invariant now - startTime >= rounds * POLL_INTERVAL
    {
      var turn := turns[rounds];
      now := now + turn.idle;
      elapsed := now - startTime;
      if timeout > 0 && now - startTime > timeout * SECOND {
        return TimedOut, polled, elapsed, rounds;
      }
      if 0 < timeout <= 60 { NoRefreshInTime(w, turns, rounds); }
      NextCheck(w, turns, rounds);
      if now - refreshTime > STATUS_REFRESH_INTERVAL {
        refreshTime := now;
        var synced, err;
        synced, clientToCheck, err := CheckExecutionClientStatus(m, turn.primary, turn.fallback, expectedChainId, now);
        if err.Just? { return Failed(err.value), polled, elapsed, rounds; }
        if synced { return Synced(ByStatusCheck), polled, elapsed, rounds; }
      }
      polled := polled + [clientToCheck.value];
      var answer := Poll(turn, now);
      if answer.Just? { return answer.value, polled, elapsed, rounds; }
      now := now + POLL_INTERVAL + turn.late;
      elapsed := now - startTime;
      rounds := rounds + 1;
    }
    end := Unfinished;
  }

  /**
   * waitEthClientSynced. The first status check ends the wait if it leaves a client ready or finds
   * none to wait for; otherwise the rounds do. A true result comes with a ready client if a status
   * check gave it, and with no ready client at all if polling gave it.
   */
  method WaitEthClientSynced(m: ExecutionClientManager, timeout: nat, expectedChainId: nat, startNow: int,
                             primary: EcProbe, fallback: EcProbe, turns: seq<EcTurn>)
    returns (end: WaitEnd, polled: seq<Client>, elapsed: int, rounds: nat)
    requires m.Valid()
    modifies m`primaryReady, m`fallbackReady, m`lastProbe, m`chainId
    ensures m.Valid()
    ensures var w := EcWait(m.hasFallback, expectedChainId, timeout, Check(primary, fallback, startNow));
      if old(LeavesReady(m, expectedChainId, w.first)) then end == Synced(ByStatusCheck) && polled == []
      else if m.ignoreSyncCheck || !FindsSyncing(m.hasFallback, expectedChainId, w.first) then
        end == Failed(Unavailable(m.hasFallback)) && polled == []
      else EndsBy(w, turns, end, polled, rounds)
    ensures end == Synced(ByStatusCheck) <==> m.primaryReady || m.fallbackReady
    ensures end == Synced(ByPolling) ==> polled != []
    ensures 0 < timeout <= 60 ==>
      (end == Synced(ByStatusCheck) <==> old(LeavesReady(m, expectedChainId, Check(primary, fallback, startNow))))
    ensures end == TimedOut ==> timeout > 0 && elapsed > timeout * SECOND
    ensures timeout > 0 && end != TimedOut && end != Unfinished ==> elapsed <= timeout * SECOND
    ensures timeout > 0 ==> |polled| <= timeout / 5 + 1
    ensures forall i :: 0 <= i < |polled| && polled[i] == Fallback ==> m.hasFallback
    ensures end == Unfinished ==> |polled| == |turns| && elapsed >= |turns| * POLL_INTERVAL
    ensures old(DoneAtFirstPoll(m, expectedChainId, startNow, primary, fallback, turns)) ==> end == Synced(ByPolling)
  {
    ghost var w := EcWait(m.hasFallback, expectedChainId, timeout, Check(primary, fallback, startNow));
    ghost var doneAtFirst := DoneAtFirstPoll(m, expectedChainId, startNow, primary, fallback, turns);
    polled, elapsed, rounds := [], 0, 0;
    var synced, clientToCheck, err := CheckExecutionClientStatus(m, primary, fallback, expectedChainId, startNow);
    if err.Just? { return Failed(err.value), polled, elapsed, rounds; }
    if synced { return Synced(ByStatusCheck), polled, elapsed, rounds; }
    end, polled, elapsed, rounds :=
      WaitRounds(m, w, timeout, expectedChainId, startNow, clientToCheck.value, turns);
    if timeout > 0 { PollsAreFew(w, turns, end, polled, rounds); }
    assert doneAtFirst ==> RoundEnd(w, turns, 0) == Just(Synced(ByPolling));
  }

  /**
   * RequireEthClientSynced: no error means the wait ended with true. The next call finds a ready
   * client exactly when the status check at the beginning left one.
   */
  method RequireEthClientSynced(m: ExecutionClientManager, expectedChainId: nat, startNow: int,
                                primary: EcProbe, fallback: EcProbe, turns: seq<EcTurn>)
    returns (err: Maybe<Cause>, end: WaitEnd, polls: nat, elapsed: int)
    requires m.Valid()
    requires |turns| >= 5
    modifies m`primaryReady, m`fallbackReady, m`lastProbe, m`chainId
    ensures m.Valid()
    ensures end != Unfinished && polls <= 4
    ensures err == Nothing <==> end.Synced?
    ensures err.Just? ==> err == Just(if end.Failed? then end.cause else StillSyncing)
    ensures end == TimedOut <==> elapsed > 16_000_000_000
    ensures old(DoneAtFirstPoll(m, expectedChainId, startNow, primary, fallback, turns)) ==>
      err == Nothing && m.CurrentFlags() == Flags(false, false)
    ensures err == Nothing && (m.primaryReady || m.fallbackReady)
       <==> old(LeavesReady(m, expectedChainId, Check(primary, fallback, startNow)))
  {
    var polled, rounds;
    end, polled, elapsed, rounds :=
      WaitEthClientSynced(m, SYNC_TIMEOUT, expectedChainId, startNow, primary, fallback, turns);
    polls := |polled|;
    if end.Failed? {
      err := Just(end.cause);
    } else if end.Synced? {
      err := Nothing;
      assert end == Synced(if end.exit.ByPolling? then ByPolling else ByStatusCheck);
    } else {
      err := Just(StillSyncing);
    }
  }

  /** The flags that a status check of the beacon clients sets. */
  function FlagsFound(hasFallback: bool, primary: BcProbe, fallback: BcProbe): Flags {
    Flags(primary == Ok(false), hasFallback && fallback == Ok(false))
  }

  predicate SomeoneAnswers(hasFallback: bool, primary: BcProbe, fallback: BcProbe) {
    primary.Ok? || (hasFallback && fallback.Ok?)
  }

  /** checkBeaconClientStatus */
  method CheckBeaconClientStatus(m: BeaconClientManager, primary: BcProbe, fallback: BcProbe)
    returns (synced: bool, err: Maybe<Cause>)
    requires m.Valid()
    modifies m`primaryReady, m`fallbackReady
    ensures m.Valid()
    ensures synced <==> m.primaryReady || m.fallbackReady
    ensures synced ==> err == Nothing
    ensures err.Just? <==> !synced && (m.ignoreSyncCheck || (primary.Err? && !(m.hasFallback && fallback.Ok?)))
    ensures m.ignoreSyncCheck ==> m.CurrentFlags() == old(m.CurrentFlags())
    ensures !m.ignoreSyncCheck ==> m.CurrentFlags() == FlagsFound(m.hasFallback, primary, fallback)
    ensures err.Just? ==> err.value == Unavailable(m.hasFallback)
  {
    var status := m.CheckStatus(primary, fallback);
    if m.primaryReady {
      return true, Nothing;
    }
    if m.fallbackReady {
      return true, Nothing;
    }
    if status.primary.isWorking && status.primary.error == "" {
      return false, Nothing;
    }
    if status.fallbackEnabled && status.fallback.isWorking && status.fallback.error == "" {
      return false, Nothing;
    }
    if status.fallbackEnabled {
      return false, Just(Unavailable(true));
    }
    return false, Just(Unavailable(false));
  }

  /** One round of the beacon wait. */
  datatype BcTurn = BcTurn(
    idle: nat,
    primary: BcProbe,
    fallback: BcProbe,
    meanwhile: Maybe<(BcProbe, BcProbe)>,  // a status check by somebody else before the poll
    poll: Op<bool>,                        // whether the client is syncing
    late: nat)

  /** Nobody else checks the status of the clients during the wait. */
  predicate Undisturbed(turns: seq<BcTurn>) {
    forall i :: 0 <= i < |turns| ==> turns[i].meanwhile == Nothing
  }

  // ---- The rounds of the beacon wait ----

  datatype BcWait = BcWait(hasFallback: bool, timeout: nat, start: int)

  /** Where the beacon wait stands when a round begins: the manager's flags, and the two times. */
  datatype BcState = BcState(flags: Flags, now: int, checkedAt: int)

  /** What a round does: it ends the wait, or leaves the state that the next round begins in. */
  datatype BcStep = Ends(end: WaitEnd) | GoesOn(next: BcState)

  predicate BcIsDue(s: BcState, turn: BcTurn) {
    s.now + turn.idle - s.checkedAt > STATUS_REFRESH_INTERVAL
  }

  /** How a round ends the wait before its poll, by the timeout or by a refresh that is due, if it does. */
  function BcRefresh(w: BcWait, s: BcState, turn: BcTurn): Maybe<WaitEnd> {
    var found := FlagsFound(w.hasFallback, turn.primary, turn.fallback);
    if w.timeout > 0 && s.now + turn.idle - w.start > w.timeout * SECOND then Just(TimedOut)
    else if !BcIsDue(s, turn) then Nothing
    else if found.primary || found.fallback then Just(Synced(ByStatusCheck))
    else if SomeoneAnswers(w.hasFallback, turn.primary, turn.fallback) then Nothing
    else Just(Failed(Unavailable(w.hasFallback)))
  }

  /** The flags at the poll: those of a refresh that is due, and after it of somebody else's check. */
  function FlagsAtPoll(w: BcWait, s: BcState, turn: BcTurn): Flags {
    match turn.meanwhile
    case Just(answers) => FlagsFound(w.hasFallback, answers.0, answers.1)
    case Nothing => if BcIsDue(s, turn) then FlagsFound(w.hasFallback, turn.primary, turn.fallback) else s.flags
  }

  /** A poll through the manager: how it ends the wait, if it does, and the flags that it leaves. */
  datatype Polled = Polled(end: Maybe<WaitEnd>, flags: Flags)

  function BcPoll(flags: Flags, poll: Op<bool>): Polled {
    var run := Attempt(flags, poll);
    Polled(match run.reply
           case AllFailed => Just(Failed(Disconnected))
           case NoneReady => Just(Failed(NoneLeft))
           case Answered(_, Fault(message)) => Just(Failed(Reported(message)))
           case Answered(_, Value(syncing)) => if syncing then Nothing else Just(Synced(ByPolling)),
           run.after)
  }

  function AfterPoll(s: BcState, turn: BcTurn, polled: Polled): BcStep {
    var now := s.now + turn.idle;
    match polled.end
    case Just(end) => Ends(end)
    case Nothing =>
      GoesOn(BcState(polled.flags, now + POLL_INTERVAL + turn.late, if BcIsDue(s, turn) then now else s.checkedAt))
  }

  function BcRound(w: BcWait, s: BcState, turn: BcTurn): BcStep {
    match BcRefresh(w, s, turn)
    case Just(end) => Ends(end)
    case Nothing => AfterPoll(s, turn, BcPoll(FlagsAtPoll(w, s, turn), turn.poll))
  }

  predicate StepsTo(w: BcWait, s: BcState, turn: BcTurn, next: BcState) {
    BcRound(w, s, turn) == GoesOn(next)
  }

  predicate StopsWith(w: BcWait, s: BcState, turn: BcTurn, end: WaitEnd) {
    BcRound(w, s, turn) == Ends(end)
  }

  /** The states that the rounds pass through, up to the round that ends the wait. */
  predicate RunsThrough(w: BcWait, states: seq<BcState>, turns: seq<BcTurn>, end: WaitEnd, sleeps: nat) {
    && sleeps <= |turns| && |states| == sleeps + 1
    && states[0] == BcState(Flags(false, false), w.start, w.start)
    && (forall i :: 0 <= i < sleeps ==> StepsTo(w, states[i], turns[i], states[i + 1]))
    && (if sleeps < |turns| then StopsWith(w, states[sleeps], turns[sleeps], end) else end == Unfinished)
  }

  /** Whose answers count at the poll: somebody else's check, else a refresh that was due, else nobody's. */
  lemma FlagsAreTheLatest(w: BcWait, s: BcState, turn: BcTurn)
    ensures var answers := match turn.meanwhile
                           case Just(others) => others
                           case Nothing => (turn.primary, turn.fallback);
      var due := s.now + turn.idle - s.checkedAt > 60_000_000_000;
      FlagsAtPoll(w, s, turn) ==
        if turn.meanwhile.Just? || due
        then Flags(answers.0 == Ok(false), w.hasFallback && answers.1 == Ok(false)) else s.flags
  {
  }

  /** How a round ends at its poll, by the manager's reply. */
  lemma BeaconPollIsExact(w: BcWait, s: BcState, turn: BcTurn)
    requires BcRefresh(w, s, turn) == Nothing
    ensures var run, round := Attempt(FlagsAtPoll(w, s, turn), turn.poll), BcRound(w, s, turn);
      && (run.reply.NoneReady? ==> round == Ends(Failed(NoneLeft)))
      && (run.reply.AllFailed? ==> round == Ends(Failed(Disconnected)))
      && (run.reply.Answered? && run.reply.outcome.Fault? ==>
            round == Ends(Failed(Reported(run.reply.outcome.message))))
      && (run.reply.Answered? && run.reply.outcome == Value(false) ==> round == Ends(Synced(ByPolling)))
      && (run.reply.Answered? && run.reply.outcome == Value(true) ==>
            && round.GoesOn? && round.next.flags == run.after
            && round.next.now == s.now + turn.idle + 5_000_000_000 + turn.late
            && round.next.checkedAt
                 == if s.now + turn.idle - s.checkedAt > 60_000_000_000 then s.now + turn.idle else s.checkedAt)
  {
  }

  /** When a round ends before its poll: late, or with a refresh that finds a ready client, or nobody that answers. */
  lemma BeaconRefreshIsExact(w: BcWait, s: BcState, turn: BcTurn)
    ensures var time := s.now + turn.idle;
      var late := w.timeout > 0 && time - w.start > w.timeout * 1_000_000_000;
      var due := time - s.checkedAt > 60_000_000_000;
      && (late ==> BcRound(w, s, turn) == Ends(TimedOut))
      && (!late && due && turn.primary.Err? && !(w.hasFallback && turn.fallback.Ok?) ==>
            BcRound(w, s, turn) == Ends(Failed(Unavailable(w.hasFallback))))
      && (!late && (!due || turn.primary == Ok(true)) && !(w.hasFallback && turn.fallback == Ok(false)) ==>
            BcRefresh(w, s, turn) == Nothing)
      && (!late && !due ==> BcRefresh(w, s, turn) == Nothing)
  {
  }

  /** A due round that finds a ready client ends the wait with it, in time. */
  lemma BeaconReadinessIsNoticed(w: BcWait, s: BcState, turn: BcTurn)
    requires w.timeout == 0 || s.now + turn.idle - w.start <= w.timeout * SECOND
    ensures BcRound(w, s, turn) == Ends(Synced(ByStatusCheck))
       <==> && s.now + turn.idle - s.checkedAt > STATUS_REFRESH_INTERVAL
            && (turn.primary == Ok(false) || (w.hasFallback && turn.fallback == Ok(false)))
  {
    var found := FlagsFound(w.hasFallback, turn.primary, turn.fallback);
    assert found != Flags(false, false) <==> found.primary || found.fallback;
  }

  /** With no ready client, a round that nobody's check disturbs ends the wait: it times out, refreshes, or fails. */
  lemma BeaconNeverSleeps(w: BcWait, s: BcState, turn: BcTurn)
    requires s.flags == Flags(false, false) && turn.meanwhile == Nothing
    ensures BcRound(w, s, turn).Ends? && BcRound(w, s, turn).end != Synced(ByPolling)
    ensures var due := s.now + turn.idle - s.checkedAt > STATUS_REFRESH_INTERVAL;
      (w.timeout == 0 || s.now + turn.idle - w.start <= w.timeout * SECOND) && !due ==>
        BcRound(w, s, turn) == Ends(Failed(NoneLeft))
  {
    NoneReadyFails(turn.poll);
  }

  /** A round up to its poll: the timeout, and the refresh if it is due. */
  method RefreshBeacon(m: BeaconClientManager, w: BcWait, startNow: int, checkedAt: int, turn: BcTurn)
    returns (end: Maybe<WaitEnd>, refreshTime: int)
    requires m.Valid() && !m.ignoreSyncCheck && w.hasFallback == m.hasFallback
    modifies m`primaryReady, m`fallbackReady
    ensures m.Valid()
    ensures var state := BcState(old(m.CurrentFlags()), startNow, checkedAt);
      && end == BcRefresh(w, state, turn)
      && refreshTime == (if BcIsDue(state, turn) && end != Just(TimedOut) then startNow + turn.idle else checkedAt)
      && (end == Nothing ==>
            m.CurrentFlags() == if BcIsDue(state, turn) then FlagsFound(w.hasFallback, turn.primary, turn.fallback)
                                else old(m.CurrentFlags()))
    ensures end == Just(Synced(ByStatusCheck)) ==> m.primaryReady || m.fallbackReady
  {
    var now := startNow + turn.idle;
    refreshTime := checkedAt;
    if w.timeout > 0 && now - w.start > w.timeout * SECOND {
      return Just(TimedOut), refreshTime;
    }
    if now - refreshTime > STATUS_REFRESH_INTERVAL {
      refreshTime := now;
      var synced, err := CheckBeaconClientStatus(m, turn.primary, turn.fallback);
      if err.Just? { return Just(Failed(err.value)), refreshTime; }
      if synced { return Just(Synced(ByStatusCheck)), refreshTime; }
    }
    end := Nothing;
  }

  /** The sync status through the manager, after somebody else's status check if there is one. */
  method PollBeacon(m: BeaconClientManager, turn: BcTurn) returns (end: Maybe<WaitEnd>)
    requires m.Valid() && !m.ignoreSyncCheck
    modifies m`primaryReady, m`fallbackReady, m`called
    ensures m.Valid()
    ensures var flags := match turn.meanwhile
                         case Just(answers) => FlagsFound(m.hasFallback, answers.0, answers.1)
                         case Nothing => old(m.CurrentFlags());
      Polled(end, m.CurrentFlags()) == BcPoll(flags, turn.poll)
    ensures old(m.CurrentFlags()) == Flags(false, false) && turn.meanwhile == Nothing ==> m.called == old(m.called)
  {
    if turn.meanwhile.Just? {
      var _ := m.CheckStatus(turn.meanwhile.value.0, turn.meanwhile.value.1);
    }
    var reply := m.RunFunction(turn.poll);
    match reply
    case AllFailed => end := Just(Failed(Disconnected));
    case NoneReady => end := Just(Failed(NoneLeft));
    case Answered(_, Fault(message)) => end := Just(Failed(Reported(message)));
    case Answered(_, Value(syncing)) => if syncing { end := Nothing; } else { end := Just(Synced(ByPolling)); }
  }

  /** One round of the loop in waitBeaconClientSynced, with the sleep at its end. */
  method RunBeaconRound(m: BeaconClientManager, w: BcWait, startNow: int, checkedAt: int, turn: BcTurn)
    returns (end: Maybe<WaitEnd>, now: int, refreshTime: int)
    requires m.Valid() && !m.ignoreSyncCheck && w.hasFallback == m.hasFallback
    modifies m`primaryReady, m`fallbackReady, m`called
    ensures m.Valid()
    ensures var state := BcState(old(m.CurrentFlags()), startNow, checkedAt);
      match end
      case Just(e) => StopsWith(w, state, turn, e)
      case Nothing => StepsTo(w, state, turn, BcState(m.CurrentFlags(), now, refreshTime))
    ensures end == Just(Synced(ByStatusCheck)) ==> m.primaryReady || m.fallbackReady
    ensures old(m.CurrentFlags()) == Flags(false, false) && turn.meanwhile == Nothing ==> m.called == old(m.called)
  {
    now := startNow + turn.idle;
    end, refreshTime := RefreshBeacon(m, w, startNow, checkedAt, turn);
    if end.Just? { return; }
    end := PollBeacon(m, turn);
    if end == Nothing { now := now + POLL_INTERVAL + turn.late; }
  }

  /** The loop of waitBeaconClientSynced, after a first status check that found no client ready. */
  method BeaconRounds(m: BeaconClientManager, w: BcWait, turns: seq<BcTurn>)
    returns (end: WaitEnd, sleeps: nat, elapsed: int, ghost states: seq<BcState>)
    requires m.Valid() && !m.ignoreSyncCheck && w.hasFallback == m.hasFallback
    requires m.CurrentFlags() == Flags(false, false)
    modifies m`primaryReady, m`fallbackReady, m`called
    ensures m.Valid() && RunsThrough(w, states, turns, end, sleeps)
    ensures end == Synced(ByStatusCheck) ==> m.primaryReady || m.fallbackReady
    ensures sleeps < |turns| ==> elapsed == states[sleeps].now + turns[sleeps].idle - w.start
    ensures sleeps == 0 && (turns == [] || turns[0].meanwhile == Nothing) ==> m.called == old(m.called)
  {
    sleeps, elapsed := 0, 0;
    var now, refreshTime := w.start, w.start;
    states := [BcState(m.CurrentFlags(), now, refreshTime)];
    while sleeps < |turns|
      invariant m.Valid() && !m.ignoreSyncCheck && sleeps <= |turns|
      invariant |states| == sleeps + 1 && states[0] == BcState(Flags(false, false), w.start, w.start)
      invariant states[sleeps] == BcState(m.CurrentFlags(), now, refreshTime)
      invariant forall k :: 0 <= k < sleeps ==> StepsTo(w, states[k], turns[k], states[k + 1])
      invariant sleeps == 0 ==> m.called == old(m.called)
    {
      elapsed := now + turns[sleeps].idle - w.start;
      var stop;
      stop, now, refreshTime := RunBeaconRound(m, w, now, refreshTime, turns[sleeps]);
      if stop.Just? { return stop.value, sleeps, elapsed, states; }
      states := states + [BcState(m.CurrentFlags(), now, refreshTime)];
      sleeps := sleeps + 1;
    }
    end := Unfinished;
  }

  lemma BeaconTimesOut(w: BcWait, s: BcState, turn: BcTurn)
    requires StopsWith(w, s, turn, TimedOut)
    ensures w.timeout > 0 && s.now + turn.idle - w.start > w.timeout * SECOND
  {
  }

  lemma FirstStep(w: BcWait, states: seq<BcState>, turns: seq<BcTurn>, end: WaitEnd, sleeps: nat)
    requires RunsThrough(w, states, turns, end, sleeps) && sleeps > 0
    ensures BcRound(w, states[0], turns[0]).GoesOn?
  {
    assert StepsTo(w, states[0], turns[0], states[0 + 1]);
  }

  /** Rounds that nobody disturbs are over in the first one. */
  lemma UndisturbedRoundsEnd(w: BcWait, states: seq<BcState>, turns: seq<BcTurn>, end: WaitEnd, sleeps: nat)
    requires RunsThrough(w, states, turns, end, sleeps)
    ensures turns != [] && turns[0].meanwhile == Nothing ==>
      sleeps == 0 && end != Unfinished && end != Synced(ByPolling)
  {
    if turns != [] && turns[0].meanwhile == Nothing {
      BeaconNeverSleeps(w, states[0], turns[0]);
      if sleeps > 0 { FirstStep(w, states, turns, end, sleeps); }
    }
  }

  /**
   * waitBeaconClientSynced. The loop polls through the manager, which has no ready client when
   * the loop is entered: unless somebody else checks the status meanwhile, the wait never sleeps,
   * never reaches a client by polling, and ends in its first round.
   */
  method WaitBeaconClientSynced(m: BeaconClientManager, timeout: nat, startNow: int,
                                primary: BcProbe, fallback: BcProbe, turns: seq<BcTurn>)
    returns (end: WaitEnd, sleeps: nat, elapsed: int, ghost states: seq<BcState>)
    requires m.Valid()
    modifies m`primaryReady, m`fallbackReady, m`called
    ensures m.Valid()
    ensures var found := FlagsFound(m.hasFallback, primary, fallback);
      var flags := if m.ignoreSyncCheck then old(m.CurrentFlags()) else found;
      if flags.primary || flags.fallback then end == Synced(ByStatusCheck) && sleeps == elapsed == 0
      else if m.ignoreSyncCheck || !SomeoneAnswers(m.hasFallback, primary, fallback) then
        end == Failed(Unavailable(m.hasFallback)) && sleeps == elapsed == 0
      else
        && RunsThrough(BcWait(m.hasFallback, timeout, startNow), states, turns, end, sleeps)
        && (sleeps < |turns| ==> elapsed == states[sleeps].now + turns[sleeps].idle - startNow)
    ensures end == Synced(ByStatusCheck) ==> m.primaryReady || m.fallbackReady
    ensures end == TimedOut ==> timeout > 0 && elapsed > timeout * SECOND
    ensures Undisturbed(turns) ==> sleeps == 0 && m.called == old(m.called) && end != Synced(ByPolling)
    ensures Undisturbed(turns) && |turns| >= 1 ==> end != Unfinished
    ensures sleeps > 0 ==> exists i :: 0 <= i < |turns| && turns[i].meanwhile.Just?
  {
    sleeps, elapsed, states := 0, 0, [];
    var synced, err := CheckBeaconClientStatus(m, primary, fallback);
    if err.Just? { return Failed(err.value), sleeps, elapsed, states; }
    if synced { return Synced(ByStatusCheck), sleeps, elapsed, states; }
    var w := BcWait(m.hasFallback, timeout, startNow);
    end, sleeps, elapsed, states := BeaconRounds(m, w, turns);
    UndisturbedRoundsEnd(w, states, turns, end, sleeps);
    if end == TimedOut { BeaconTimesOut(w, states[sleeps], turns[sleeps]); }
  }
}
