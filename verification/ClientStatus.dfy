// What the managers learn about one client: checkEcStatus and checkBcStatus.
module ClientStatus {
  const SECOND: int := 1_000_000_000
  const RECENT_BLOCK_THRESHOLD: int := 5 * 60 * SECOND

  datatype Fallible<+T> = Ok(value: T) | Err(message: string)

  datatype Maybe<+T> = Nothing | Just(value: T)

  /** The answers of an execution client to the calls of one status check. */
  datatype EcProbe = EcProbe(
    networkId: Fallible<Maybe<nat>>,   // a big integer or nil
    syncing: Fallible<bool>,           // whether there is sync progress to report
    latestBlock: Fallible<int>)        // the time of the latest block, in seconds

  /** The answer of a consensus client: whether it is syncing. */
  type BcProbe = Fallible<bool>

  datatype Status = Status(isWorking: bool, isSynced: bool, networkId: nat, error: string)

  const UNCHECKED := Status(false, false, 0, "")

  datatype Report = Report(primary: Status, fallbackEnabled: bool, fallback: Status)

  /** uint(networkId.Uint64()): the low 64 bits, and 0 for nil. */
  function NetworkIdOf(id: Maybe<nat>): nat {
    match id
    case Nothing => 0
    case Just(n) => n % 0x1_0000_0000_0000_0000
  }

  /** Only the low 64 bits count, and a client that names no network is on network 0. */
  lemma NetworkIdWraps(n: nat)
    ensures n < 0x1_0000_0000_0000_0000 ==> NetworkIdOf(Just(n)) == n
    ensures NetworkIdOf(Just(n + 0x1_0000_0000_0000_0000)) == NetworkIdOf(Just(n))
    ensures NetworkIdOf(Nothing) == 0
  {
  }

  /** IsSyncWithinThreshold */
  predicate IsRecent(blockTime: int, now: int) {
    now - blockTime * SECOND < RECENT_BLOCK_THRESHOLD
  }

  /** A latest block is recent for just under five minutes after its time in seconds. */
  lemma RecentForFiveMinutes(blockTime: int, now: int)
    ensures IsRecent(blockTime, now) <==> now < (blockTime + 300) * 1_000_000_000
  {
  }

  function CheckEcStatus(p: EcProbe, now: int): Status {
    match p.networkId
    case Err(m) => Status(false, false, 0, "Sync progress check failed with [" + m + "]")
    case Ok(id) =>
      var n := NetworkIdOf(id);
      match p.syncing
      case Err(m) => Status(false, false, n, "Sync progress check failed with [" + m + "]")
      case Ok(true) => Status(true, false, n, "")
      case Ok(false) =>
        match p.latestBlock
        case Err(m) => Status(false, false, n, "Error checking if client's sync progress is up to date: [" + m + "]")
        case Ok(t) =>
          if IsRecent(t, now) then Status(true, true, n, "")
          else Status(true, false, n, "Client claims to have finished syncing, but its last block is old")
  }

  function CheckBcStatus(p: BcProbe): Status {
    match p
    case Err(m) => Status(false, false, 0, "Sync progress check failed with [" + m + "]")
    case Ok(syncing) => Status(true, !syncing, 0, "")
  }

  /** Every call succeeds, nothing is syncing and the latest block is recent. */
  predicate Healthy(p: EcProbe, now: int) {
    && p.networkId.Ok? && p.syncing == Ok(false)
    && p.latestBlock.Ok? && IsRecent(p.latestBlock.value, now)
  }

  /** The client answers and reports sync progress. */
  predicate Syncing(p: EcProbe) {
    p.networkId.Ok? && p.syncing == Ok(true)
  }

  /** The chain the client says it is on; a client that does not say is on chain 0. */
  function ChainOf(p: EcProbe): nat {
    if p.networkId.Ok? then NetworkIdOf(p.networkId.value) else 0
  }

  /** Every call that the check makes is answered. */
  predicate Answers(p: EcProbe) {
    p.networkId.Ok? && p.syncing.Ok? && (p.syncing == Ok(false) ==> p.latestBlock.Ok?)
  }

  /** What the status says about the client, in terms of its answers. */
  lemma EcStatusMeaning(p: EcProbe, now: int)
    ensures var s := CheckEcStatus(p, now);
      && (s.isWorking <==> Answers(p)) && (s.isSynced <==> Healthy(p, now))
      && (s.isWorking && !s.isSynced && s.error == "" <==> Syncing(p))
      && (s.error == "" <==> Healthy(p, now) || Syncing(p))
      && s.networkId == ChainOf(p)
  {
    var prefix := "Sync progress check failed with [";
    var stale := "Error checking if client's sync progress is up to date: [";
    assert forall m: string :: |prefix + m + "]"| > 0 && |stale + m + "]"| > 0;
  }

  /** The same for a consensus client, which has no network. */
  lemma BcStatusMeaning(p: BcProbe)
    ensures var s := CheckBcStatus(p);
      && (s.isWorking <==> p.Ok?) && (s.isSynced <==> p == Ok(false)) && (s.error == "" <==> p.Ok?) && s.networkId == 0
  {
    assert forall m: string :: |"Sync progress check failed with [" + m + "]"| > 0;
  }
}
