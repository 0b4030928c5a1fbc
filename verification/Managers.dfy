// The two client managers. Each keeps which of its clients are ready, asks the
// clients for their status, and runs operations with failover.
module Managers {
  import opened Failover
  import opened ClientStatus

  class ExecutionClientManager {
    const hasFallback: bool
    var primaryReady: bool
    var fallbackReady: bool
    var ignoreSyncCheck: bool
    ghost var called: seq<Client>       // clients that operations ran on, oldest first
    ghost var lastProbe: Maybe<EcProbe> // the fallback's answers to the last effective status check
    ghost var chainId: nat              // the chain that check expected

    /** No flag promises a client that does not exist, or a fallback on another chain. */
    ghost predicate Valid()
      reads this
    {
      && (fallbackReady ==> hasFallback)
      && (lastProbe.Just? && fallbackReady ==> ChainOf(lastProbe.value) == chainId)
    }

    function CurrentFlags(): Flags
      reads this
    {
      Flags(primaryReady, fallbackReady)
    }

    /** NewExecutionClientManager with the global flags that getEthClient applies to it. */
    constructor (hasFallback: bool, ignoreSyncCheck: bool, forceFallbacks: bool)
      ensures Valid()
      ensures this.hasFallback == hasFallback && this.ignoreSyncCheck == ignoreSyncCheck
      ensures CurrentFlags() == Flags(!forceFallbacks, hasFallback)
      ensures called == [] && lastProbe == Nothing
    {
      this.hasFallback := hasFallback;
      this.primaryReady := true;
      this.fallbackReady := hasFallback;
      this.ignoreSyncCheck := false;
      this.called := [];
      this.lastProbe := Nothing;
      new;
      if ignoreSyncCheck {
        this.ignoreSyncCheck := true;
      }
      if forceFallbacks {
        primaryReady := false;
      }
    }

    method CheckStatus(primary: EcProbe, fallback: EcProbe, expectedChainId: nat, now: int) returns (report: Report)
      requires Valid()
      modifies this`primaryReady, this`fallbackReady, this`lastProbe, this`chainId
      ensures Valid()
      ensures report.fallbackEnabled == hasFallback
      ensures ignoreSyncCheck ==> CurrentFlags() == old(CurrentFlags()) && lastProbe == old(lastProbe)
      ensures ignoreSyncCheck ==> report.primary == Status(primaryReady, primaryReady, 0, "")
      ensures ignoreSyncCheck ==>
        report.fallback == Status(hasFallback && fallbackReady, hasFallback && fallbackReady, 0, "")
      ensures !ignoreSyncCheck ==> primaryReady == Healthy(primary, now)
      ensures !ignoreSyncCheck ==>
        fallbackReady == (hasFallback && Healthy(fallback, now) && ChainOf(fallback) == expectedChainId)
      ensures !ignoreSyncCheck && hasFallback ==> lastProbe == Just(fallback) && chainId == expectedChainId
      ensures !ignoreSyncCheck ==>
        report.primary.isWorking == Answers(primary) && report.primary.isSynced == Healthy(primary, now)
      ensures !ignoreSyncCheck && hasFallback ==>
        && report.fallback.isWorking == Answers(fallback) && report.fallback.isSynced == Healthy(fallback, now)
        && (ChainOf(fallback) != expectedChainId ==> report.fallback.error != "")
      ensures !hasFallback ==> report.fallback == Status(false, false, 0, "")
      ensures !ignoreSyncCheck && !primaryReady ==>
        (report.primary.isWorking && report.primary.error == "" <==> Syncing(primary))
      ensures !ignoreSyncCheck && !fallbackReady && hasFallback ==>
        (report.fallback.isWorking && report.fallback.error == ""
         <==> Syncing(fallback) && ChainOf(fallback) == expectedChainId)
    {
      report := Report(UNCHECKED, hasFallback, UNCHECKED);
      if ignoreSyncCheck {
        report := report.(primary := Status(primaryReady, primaryReady, 0, ""));
        if report.fallbackEnabled {
          report := report.(fallback := Status(fallbackReady, fallbackReady, 0, ""));
        }
        return;
      }
      EcStatusMeaning(primary, now);
      EcStatusMeaning(fallback, now);
      report := report.(primary := CheckEcStatus(primary, now));
      primaryReady := report.primary.isWorking && report.primary.isSynced;
      if report.fallbackEnabled {
        report := report.(fallback := CheckEcStatus(fallback, now));
        lastProbe, chainId := Just(fallback), expectedChainId;
        if report.fallback.networkId != expectedChainId {
          fallbackReady := false;
          report := report.(fallback := report.fallback.(error := "The fallback client is using a different chain"));
          return;
        }
      }
      fallbackReady := report.fallbackEnabled && report.fallback.isWorking && report.fallback.isSynced;
    }

    /** runFunction: the recursion ends because every round has one ready client less. */
    method RunFunction<T>(op: Op<T>) returns (reply: Reply<T>)
      requires Valid()
      modifies this`primaryReady, this`fallbackReady, this`called
      ensures Valid()
      ensures var r := Attempt(old(CurrentFlags()), op);
        CurrentFlags() == r.after && called == old(called) + r.called && reply == r.reply
      decreases primaryReady
    {
      AttemptByCases(CurrentFlags(), op);
      if primaryReady {
        called := called + [Primary];
        var result := op.On(Primary);
        if result.Fault? {
          if IsDisconnected(result.message) {
            primaryReady := false;
            reply := RunFunction(op);
            return;
          }
        }
        return Answered(Primary, result);
      }
      if fallbackReady {
        assert hasFallback;
        called := called + [Fallback];
        var result := op.On(Fallback);
        if result.Fault? {
          if IsDisconnected(result.message) {
            fallbackReady := false;
            return AllFailed;
          }
        }
        return Answered(Fallback, result);
      }
      return NoneReady;
    }
  }

  class BeaconClientManager {
    const hasFallback: bool
    var primaryReady: bool
    var fallbackReady: bool
    var ignoreSyncCheck: bool
    ghost var called: seq<Client>

    ghost predicate Valid()
      reads this
    {
      fallbackReady ==> hasFallback
    }

    function CurrentFlags(): Flags
      reads this
    {
      Flags(primaryReady, fallbackReady)
    }

    /** NewBeaconClientManager with the global flags that getBeaconClient applies to it. */
    constructor (hasFallback: bool, ignoreSyncCheck: bool, forceFallbacks: bool)
      ensures Valid()
      ensures this.hasFallback == hasFallback && this.ignoreSyncCheck == ignoreSyncCheck
      ensures CurrentFlags() == Flags(!forceFallbacks, hasFallback)
      ensures called == []
    {
      this.hasFallback := hasFallback;
      this.primaryReady := true;
      this.fallbackReady := hasFallback;
      this.ignoreSyncCheck := false;
      this.called := [];
      new;
      if ignoreSyncCheck {
        this.ignoreSyncCheck := true;
      }
      if forceFallbacks {
        primaryReady := false;
      }
    }

    method CheckStatus(primary: BcProbe, fallback: BcProbe) returns (report: Report)
      requires Valid()
      modifies this`primaryReady, this`fallbackReady
      ensures Valid()
      ensures report.fallbackEnabled == hasFallback
      ensures ignoreSyncCheck ==> CurrentFlags() == old(CurrentFlags())
      ensures ignoreSyncCheck ==> report.primary == Status(primaryReady, primaryReady, 0, "")
      ensures ignoreSyncCheck ==>
        report.fallback == Status(hasFallback && fallbackReady, hasFallback && fallbackReady, 0, "")
      ensures !ignoreSyncCheck ==> primaryReady == (primary == Ok(false))
      ensures !ignoreSyncCheck ==> fallbackReady == (hasFallback && fallback == Ok(false))
      ensures !ignoreSyncCheck ==> report.primary.isSynced == (primary == Ok(false))
      ensures !ignoreSyncCheck && hasFallback ==> report.fallback.isSynced == (fallback == Ok(false))
      ensures !hasFallback ==> report.fallback == Status(false, false, 0, "")
      ensures !ignoreSyncCheck ==> (report.primary.isWorking && report.primary.error == "" <==> primary.Ok?)
      ensures !ignoreSyncCheck && hasFallback ==>
        (report.fallback.isWorking && report.fallback.error == "" <==> fallback.Ok?)
    {
      report := Report(UNCHECKED, hasFallback, UNCHECKED);
      if ignoreSyncCheck {
        report := report.(primary := Status(primaryReady, primaryReady, 0, ""));
        if report.fallbackEnabled {
          report := report.(fallback := Status(fallbackReady, fallbackReady, 0, ""));
        }
        return;
      }
      report := report.(primary := CheckBcStatus(primary));
      if report.fallbackEnabled {
        report := report.(fallback := CheckBcStatus(fallback));
      }
      primaryReady := report.primary.isWorking && report.primary.isSynced;
      fallbackReady := report.fallbackEnabled && report.fallback.isWorking && report.fallback.isSynced;
    }

    /** runFunction0, runFunction1 and runFunction2 differ only in the type of the value: (), T and (S, T). */
    method RunFunction<T>(op: Op<T>) returns (reply: Reply<T>)
      requires Valid()
      modifies this`primaryReady, this`fallbackReady, this`called
      ensures Valid()
      ensures var r := Attempt(old(CurrentFlags()), op);
        CurrentFlags() == r.after && called == old(called) + r.called && reply == r.reply
      decreases primaryReady
    {
      AttemptByCases(CurrentFlags(), op);
      if primaryReady {
        called := called + [Primary];
        var result := op.On(Primary);
        if result.Fault? {
          if IsDisconnected(result.message) {
            primaryReady := false;
            reply := RunFunction(op);
            return;
          }
        }
        return Answered(Primary, result);
      }
      if fallbackReady {
        assert hasFallback;
        called := called + [Fallback];
        var result := op.On(Fallback);
        if result.Fault? {
          if IsDisconnected(result.message) {
            fallbackReady := false;
            return AllFailed;
          }
        }
        return Answered(Fallback, result);
      }
      return NoneReady;
    }
  }
}
