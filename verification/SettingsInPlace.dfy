// The same updates as they happen in memory. A configuration holds its own parameters by value
// and its sections by reference, so the copy that an update starts from shares the sections with
// the original, and an update that stops half way leaves what it has written in them.
module SettingsInPlace {
  import opened SettingsModel
  import opened EditorScreen
  import opened WizardScreen

  const LAST := 13

  /** The position of a field's assignment between the checks that can stop an update. */
  function Stage(f: Field): (n: nat)
    ensures 1 <= n <= LAST
    ensures n == 1 <==> f == Network
  {
    match f
    case Network => 1
    case ExecutionClientMode => 3
    case ExecutionClient => 4
    case ExternalConsensusClient | ConsensusClientMode => 5
    case ConsensusClient => 6
    case UseFallbackClients => 7
    case Fallback(_) => 8
    case EnableMevBoost => 9
    case MevMode => 10
    case MevSelectionMode | MevContainer(_) => 11
    case EnableMetrics => 12
    case MetricsText(_) | MetricsNumber(_) | MetricsSwitch(_) => 13
    case Text(t) =>
      (match t
       case ProjectName | DataPath | ArchiveEcUrl => 2
       case ExternalEcWsUrl | ExternalEcHttpUrl => 3
       case EcOpenRpcPorts | EthstatsLabel | EthstatsLogin | GethContainerTag | GethAdditionalFlags
         | NethermindContainerTag | NethermindAdditionalFlags | NethermindAdditionalModules | NethermindAdditionalUrls
         | BesuContainerTag | BesuAdditionalFlags => 4
       case LighthouseContainerTag | LighthouseBnFlags | LighthouseVcFlags | NimbusBnContainerTag | NimbusBnFlags
         | PrysmOpenRpcPort | PrysmBnContainerTag | PrysmVcContainerTag | PrysmBnFlags | PrysmVcFlags
         | TekuContainerTag | TekuBnFlags | TekuVcFlags => 6
       case MevExternalUrl => 10
       case _ => 5)
    case Number(n) =>
      (match n
       case ManualMaxFee | PriorityFee => 2
       case CommonP2pPort | CommonApiPort => 5
       case LighthouseMaxPeers | NimbusMaxPeers | PrysmMaxPeers | PrysmRpcPort | TekuMaxPeers | TekuJvmHeapSize => 6
       case _ => 4)
    case Switch(b) =>
      (match b
       case TekuArchiveMode => 6
       case ExternalLighthouseDoppelganger | ExternalPrysmDoppelganger | CommonOpenApiPort | CommonDoppelganger => 5
       case _ => 11)
  }

  /** The stage after which an update stops: the last one if every check passes. */
  function StopsAfter(s: Settings): nat {
    if !s(Key(Network)).Str? then 0
    else if !s(Key(ExecutionClient)).Str? then 3
    else if !s(Key(ExternalConsensusClient)).Str? then 4
    else if !s(Key(ConsensusClient)).Str? then 5
    else if !s(Key(UseFallbackClients)).Bool? then 7
    else if !s(Key(MevMode)).Str? then 9
    else if !s(Key(MevSelectionMode)).Str? then 10
    else if !s(Key(EnableMetrics)).Bool? then 12
    else LAST
  }

  /** What has been written once a stage is over. */
  function Reached(c: Config, s: Settings, d: Defaults, stage: nat): Config {
    var base := if stage == 0 then c else TargetNetwork(c, s, d);
    (f: Field) => if 2 <= Stage(f) <= stage && IsOpen(f, s) then Written(f, base, s) else base(f)
  }

  /** After the last stage everything is written. */
  lemma ReachedIsUpdated(c: Config, s: Settings, d: Defaults, f: Field)
    requires Accepted(s)
    ensures Reached(c, s, d, LAST)(f) == Updated(c, s, d)(f)
    ensures StopsAfter(s) == LAST
  {
    assert f != Network ==> Stage(f) >= 2;
    WrittenNetwork(TargetNetwork(c, s, d), s);
  }

  lemma WrittenNetwork(c: Config, s: Settings)
    ensures Written(Network, c, s) == c(Network)
  {
  }

  lemma StopsForItsOutcome(c: Config, s: Settings, d: Defaults)
    ensures EditorScreen.UpdateConfigFromUISetting(c, s, d).Done? <==> StopsAfter(s) == LAST
    ensures EditorScreen.UpdateConfigFromUISetting(c, s, d).Failed? <==> StopsAfter(s) == 5
    ensures EditorScreen.UpdateConfigFromUISetting(c, s, d).Panicked? <==> StopsAfter(s) != LAST && StopsAfter(s) != 5
  {
  }

  /** The parameters of the local execution client, which are written once its name has been asserted. */
  predicate OfLocalExecution(f: Field) {
    || f == ExecutionClient
    || (f.Text? && f.text in {EcOpenRpcPorts, EthstatsLabel, EthstatsLogin, GethContainerTag, GethAdditionalFlags,
          NethermindContainerTag, NethermindAdditionalFlags, NethermindAdditionalModules, NethermindAdditionalUrls,
          BesuContainerTag, BesuAdditionalFlags})
    || (f.Number? && f.number in {EcHttpPort, EcWsPort, EcP2pPort, EcEnginePort, GethCacheSize, GethMaxPeers,
          NethermindCacheSize, NethermindMaxPeers, NethermindPruneMemSize,
          BesuJvmHeapSize, BesuMaxPeers, BesuMaxBackLayers})
  }

  /** Those of the local consensus clients, which are written once the selected one's name has been checked. */
  predicate OfLocalConsensus(f: Field) {
    || f == ConsensusClient || f == Switch(TekuArchiveMode)
    || (f.Text? && f.text in {LighthouseContainerTag, LighthouseBnFlags, LighthouseVcFlags, NimbusBnContainerTag,
          NimbusBnFlags, PrysmOpenRpcPort, PrysmBnContainerTag, PrysmVcContainerTag, PrysmBnFlags, PrysmVcFlags,
          TekuContainerTag, TekuBnFlags, TekuVcFlags})
    || (f.Number? && f.number in {LighthouseMaxPeers, NimbusMaxPeers, PrysmMaxPeers, PrysmRpcPort, TekuMaxPeers,
          TekuJvmHeapSize})
  }

  /** Those of external and of all consensus clients, which come between the two checks. */
  predicate OfExternalConsensus(f: Field) {
    || f == ExternalConsensusClient || f == ConsensusClientMode
    || (f.Text? && f.text in {ExternalTekuGraffiti, ExternalTekuHttpUrl, ExternalTekuContainerTag,
          ExternalTekuVcFlags, ExternalLighthouseGraffiti, ExternalLighthouseHttpUrl, ExternalLighthouseContainerTag,
          ExternalLighthouseVcFlags, ExternalPrysmGraffiti, ExternalPrysmHttpUrl, ExternalPrysmContainerTag,
          ExternalPrysmVcFlags, ExternalPrysmJsonRpcUrl, CommonGraffiti, CommonCheckpointSync})
    || (f.Number? && f.number in {CommonP2pPort, CommonApiPort})
    || (f.Switch? && f.switch in {ExternalLighthouseDoppelganger, ExternalPrysmDoppelganger, CommonOpenApiPort,
          CommonDoppelganger})
  }

  /** The update comes to write a parameter: every assertion before it holds. */
  predicate IsComeTo(f: Field, s: Settings) {
    if !s(Key(Network)).Str? then false
    else if f in {ExecutionClientMode, Text(ExternalEcWsUrl), Text(ExternalEcHttpUrl), Text(ProjectName),
      Text(DataPath), Text(ArchiveEcUrl), Number(ManualMaxFee), Number(PriorityFee)} then true
    else if !s(Key(ExecutionClient)).Str? then false
    else if OfLocalExecution(f) then true
    else if !s(Key(ExternalConsensusClient)).Str? then false
    else if OfExternalConsensus(f) then true
    else if !s(Key(ConsensusClient)).Str? then false
    else if OfLocalConsensus(f) || f == UseFallbackClients then true
    else if !s(Key(UseFallbackClients)).Bool? then false
    else if f.Fallback? || f == EnableMevBoost then true
    else if !s(Key(MevMode)).Str? then false
    else if f == MevMode || f == Text(MevExternalUrl) then true
    else if !s(Key(MevSelectionMode)).Str? then false
    else !(f.MetricsText? || f.MetricsNumber? || f.MetricsSwitch?) || s(Key(EnableMetrics)).Bool?
  }

  /** Wherever an update stops, exactly the open parameters that it had come to have been written. */
  lemma StopsHalfway(c: Config, s: Settings, d: Defaults, f: Field)
    requires f != Network
    ensures Reached(c, s, d, StopsAfter(s))(f)
         == if !s(Key(Network)).Str? then c(f)
            else if IsComeTo(f, s) && IsOpen(f, s) then Written(f, c, s) else TargetNetwork(c, s, d)(f)
  {
    WrittenIgnoresConfig(f, c, TargetNetwork(c, s, d), s);
    ComesTo(f, s);
  }

  lemma ComesTo(f: Field, s: Settings)
    requires f != Network
    ensures Stage(f) <= StopsAfter(s) <==> IsComeTo(f, s)
  {
    if f.Text? { TextComesTo(f.text, s); }
    else if f.Number? { NumberComesTo(f.number, s); }
    else if f.Switch? { SwitchComesTo(f.switch, s); }
  }

  lemma SwitchComesTo(b: SwitchField, s: Settings)
    ensures Stage(Switch(b)) <= StopsAfter(s) <==> IsComeTo(Switch(b), s)
  {
  }

  lemma TextComesTo(t: TextField, s: Settings)
    ensures Stage(Text(t)) <= StopsAfter(s) <==> IsComeTo(Text(t), s)
  {
  }

  lemma NumberComesTo(n: NumberField, s: Settings)
    ensures Stage(Number(n)) <= StopsAfter(s) <==> IsComeTo(Number(n), s)
  {
  }

  lemma WrittenIgnoresConfig(f: Field, c: Config, c': Config, s: Settings)
    requires f != Network
    ensures Written(f, c, s) == Written(f, c', s)
  {
  }

  /** The section objects of a configuration. */
  class Sections {
    var values: Config

    constructor (values: Config)
      ensures this.values == values
    {
      this.values := values;
    }
  }

  class StaderConfig {
    var root: Config
    const sections: Sections

    constructor (root: Config, sections: Sections)
      ensures this.root == root && this.sections == sections
    {
      this.root, this.sections := root, sections;
    }

    function Get(f: Field): Value
      reads this, sections
    {
      if InRoot(f) then root(f) else sections.values(f)
    }

    function View(): Config
      reads this, sections
    {
      var own, shared := root, sections.values;
      (f: Field) => if InRoot(f) then own(f) else shared(f)
    }

    /** A run of assignments to parameters. */
    method Write(owned: Field -> bool, value: Config)
      modifies this`root, sections`values
      ensures forall f :: Get(f) == if owned(f) then value(f) else old(Get(f))
    {
      var own, shared := root, sections.values;
      root := f => if owned(f) then value(f) else own(f);
      sections.values := f => if owned(f) && !InRoot(f) then value(f) else shared(f);
    }

    /** Where an update from the configuration screen has got to. */
    ghost predicate Has(c: Config, s: Settings, d: Defaults, stage: nat)
      reads this, sections
    {
      forall f :: Get(f) == Reached(c, s, d, stage)(f)
    }

    method SetNetwork(s: Settings, d: Defaults, ghost c: Config)
      requires Has(c, s, d, 0)
      modifies this`root, sections`values
      ensures Has(c, s, d, 1)
    {
      var target := TargetNetwork(View(), s, d);
      forall f ensures View()(f) == c(f) {
        assert Get(f) == Reached(c, s, d, 0)(f);
      }
      Write(f => true, target);
      assert forall f :: target(f) == Reached(c, s, d, 1)(f);
    }

    /** The assignments between two checks. */
    method WriteStage(stage: nat, s: Settings, d: Defaults, ghost c: Config)
      requires stage >= 2 && Has(c, s, d, stage - 1)
      modifies this`root, sections`values
      ensures Has(c, s, d, stage)
    {
      var now := View();
      ghost var base := TargetNetwork(c, s, d);
      Write(f => Stage(f) == stage && IsOpen(f, s), f => Written(f, now, s));
      forall f ensures Get(f) == Reached(c, s, d, stage)(f) {
        if Stage(f) == stage { WrittenIgnoresConfig(f, now, base, s); }
      }
    }

    method UpdateExecutionClient(s: Settings, d: Defaults, ghost c: Config) returns (ok: bool)
      requires Has(c, s, d, 2)
      modifies this`root, sections`values
      ensures ok <==> s(Key(ExecutionClient)).Str?
      ensures Has(c, s, d, if ok then 4 else 3)
    {
      WriteStage(3, s, d, c);
      if !s(Key(ExecutionClient)).Str? { return false; }
      WriteStage(4, s, d, c);
      ok := true;
    }

    method UpdateConsensusClient(s: Settings, d: Defaults, ghost c: Config) returns (r: Result<()>)
      requires Has(c, s, d, 4)
      modifies this`root, sections`values
      ensures r.Panicked? <==> !s(Key(ExternalConsensusClient)).Str?
      ensures r.Failed? <==> s(Key(ExternalConsensusClient)).Str? && !s(Key(ConsensusClient)).Str?
      ensures Has(c, s, d, match r case Panicked => 4 case Failed(_) => 5 case Done(_) => 6)
    {
      if !s(Key(ExternalConsensusClient)).Str? { return Panicked; }
      WriteStage(5, s, d, c);
      if !s(Key(ConsensusClient)).Str? { return Failed("Invalid External client"); }
      WriteStage(6, s, d, c);
      r := Done(());
    }

    method UpdateFallbackClient(s: Settings, d: Defaults, ghost c: Config) returns (ok: bool)
      requires Has(c, s, d, 6)
      modifies this`root, sections`values
      ensures ok <==> s(Key(UseFallbackClients)).Bool?
      ensures Has(c, s, d, if ok then 8 else 7)
    {
      WriteStage(7, s, d, c);
      if !s(Key(UseFallbackClients)).Bool? { return false; }
      WriteStage(8, s, d, c);
      ok := true;
    }

    method UpdateMevBoost(s: Settings, d: Defaults, ghost c: Config) returns (ok: bool)
      requires Has(c, s, d, 8)
      modifies this`root, sections`values
      ensures ok <==> s(Key(MevMode)).Str? && s(Key(MevSelectionMode)).Str?
      ensures Has(c, s, d, if ok then 11 else if s(Key(MevMode)).Str? then 10 else 9)
    {
      WriteStage(9, s, d, c);
      if !s(Key(MevMode)).Str? { return false; }
      WriteStage(10, s, d, c);
      if !s(Key(MevSelectionMode)).Str? { return false; }
      WriteStage(11, s, d, c);
      ok := true;
    }

    method UpdateMonitoring(s: Settings, d: Defaults, ghost c: Config) returns (ok: bool)
      requires Has(c, s, d, 11)
      modifies this`root, sections`values
      ensures ok <==> s(Key(EnableMetrics)).Bool?
      ensures Has(c, s, d, if ok then LAST else 12)
    {
      WriteStage(12, s, d, c);
      if !s(Key(EnableMetrics)).Bool? { return false; }
      if s(Key(EnableMetrics)).b { WriteStage(13, s, d, c); }
      ok := true;
      assert s(Key(EnableMetrics)) == Bool(false) ==> forall f :: Stage(f) == 13 ==> !IsOpen(f, s);
    }

    /** All assignments in order, up to the first check that fails. */
    method Update(s: Settings, d: Defaults, ghost c: Config) returns (r: Result<()>)
      requires Has(c, s, d, 0)
      modifies this`root, sections`values
      ensures Has(c, s, d, StopsAfter(s))
      ensures r.Done? <==> StopsAfter(s) == LAST
      ensures r.Failed? <==> StopsAfter(s) == 5
    {
      if !s(Key(Network)).Str? { return Panicked; }
      SetNetwork(s, d, c);
      WriteStage(2, s, d, c);
      var ok := UpdateExecutionClient(s, d, c);
      if !ok { return Panicked; }
      r := UpdateConsensusClient(s, d, c);
      if !r.Done? { return r; }
      ok := UpdateFallbackClient(s, d, c);
      if !ok { return Panicked; }
      ok := UpdateMevBoost(s, d, c);
      if !ok { return Panicked; }
      ok := UpdateMonitoring(s, d, c);
      if !ok { return Panicked; }
    }
  }

  /**
   * updateConfigFromUISetting on objects. The result is the updated configuration. The original
   * keeps its own parameters, but its sections are those of the copy: they show every value that
   * was written before the update stopped, even when it stopped with an error.
   */
  method UpdateConfigFromUISetting(oldCfg: StaderConfig, s: Settings, d: Defaults) returns (r: Result<StaderConfig>)
    modifies oldCfg.sections`values
    ensures r.Done? <==> EditorScreen.UpdateConfigFromUISetting(old(oldCfg.View()), s, d).Done?
    ensures r.Failed? <==> EditorScreen.UpdateConfigFromUISetting(old(oldCfg.View()), s, d).Failed?
    ensures r.Done? ==>
      && fresh(r.value) && r.value.sections == oldCfg.sections
      && Accepted(s) && forall f :: r.value.Get(f) == Updated(old(oldCfg.View()), s, d)(f)
    ensures forall f ::
      oldCfg.Get(f) == (if InRoot(f) then old(oldCfg.Get(f)) else Reached(old(oldCfg.View()), s, d, StopsAfter(s))(f))
  {
    ghost var c := oldCfg.View();
    StopsForItsOutcome(c, s, d);
    var newCfg := new StaderConfig(oldCfg.root, oldCfg.sections);
    assert newCfg.Has(c, s, d, 0);
    var done := newCfg.Update(s, d, c);
    assert forall f :: !InRoot(f) ==> oldCfg.Get(f) == newCfg.Get(f);
    match done {
      case Panicked => r := Panicked;
      case Failed(message) => r := Failed(message);
      case Done(_) =>
        forall f ensures newCfg.Get(f) == Updated(c, s, d)(f) {
          ReachedIsUpdated(c, s, d, f);
        }
        r := Done(newCfg);
    }
  }

  /** UpdateConfig on objects: the wizard's answer is written into a copy that shares the sections. */
  method UpdateConfig(oldCfg: StaderConfig, w: Wizard, d: Defaults) returns (newCfg: StaderConfig)
    modifies oldCfg.sections`values
    ensures fresh(newCfg) && newCfg.sections == oldCfg.sections
    ensures forall f :: newCfg.Get(f) == WizardScreen.UpdateConfig(old(oldCfg.View()), w, d)(f)
    ensures forall f :: InRoot(f) ==> oldCfg.Get(f) == old(oldCfg.Get(f))
    ensures forall f :: !InRoot(f) ==> oldCfg.Get(f) == WizardScreen.UpdateConfig(old(oldCfg.View()), w, d)(f)
  {
    ghost var c := oldCfg.View();
    newCfg := new StaderConfig(oldCfg.root, oldCfg.sections);
    assert forall f :: newCfg.View()(f) == c(f);
    var base := ChangeNetwork(newCfg.View(), w.network, d);
    assert forall f :: base(f) == ChangeNetwork(c, w.network, d)(f);
    newCfg.Write(f => true, base);
    newCfg.Write(f => true, f => WriteWizard(w, f, base(f)));
    assert forall f :: !InRoot(f) ==> oldCfg.Get(f) == newCfg.Get(f);
  }

  /** Which parameters a copy owns: the modes, clients and switches, and what it counts as its own settings. */
  lemma CopyOwnsItsParameters(n: MetricsNumberField)
    ensures InRoot(ExecutionClientMode) && InRoot(ConsensusClientMode) && InRoot(ExecutionClient)
    ensures InRoot(ConsensusClient) && InRoot(ExternalConsensusClient)
    ensures InRoot(UseFallbackClients) && InRoot(EnableMetrics) && InRoot(EnableMevBoost)
    ensures InRoot(Fallback(ReconnectDelay)) && InRoot(MetricsSwitch(EnableBitflyNodeMetrics))
    ensures InRoot(MetricsNumber(n)) <==> n != GrafanaPort && n != PrometheusPort
  {
  }

  /** Which it shares with the original: all that is in a section. */
  lemma CopySharesSections(f: Field)
    requires f == Network || f == MevMode || f == MevSelectionMode || f.MevContainer? || f.MetricsText?
          || f.Text? || f.Number? || f.Switch?
          || f == MetricsSwitch(PrometheusOpenPort) || (f.Fallback? && f.fallback != ReconnectDelay)
    ensures !InRoot(f)
  {
  }
}
