// Configuration values and the fields that the two configuration screens edit.
//
// A parameter's value is dynamically typed in the source, and its type
// assertions decide whether a screen opens at all, so values carry their tags.
module SettingsModel {
  import opened Text

  datatype Value =
    | Nil
    | Str(s: string)
    | Bool(b: bool)
    | Num(n: nat)
    | Float(shown: string)        // a floating point number, by the text that %v prints
    | ModeV(mode: string)
    | ExecutionClientV(ec: string)
    | ConsensusClientV(cc: string)
    | NetworkV(network: string)
    | SelectionV(selection: string)

  datatype Tag = AnyTag | StrTag | BoolTag | ModeTag | ExecutionTag | ConsensusTag | NetworkTag | SelectionTag

  predicate HasTag(v: Value, t: Tag) {
    match t
    case AnyTag => true
    case StrTag => v.Str?
    case BoolTag => v.Bool?
    case ModeTag => v.ModeV?
    case ExecutionTag => v.ExecutionClientV?
    case ConsensusTag => v.ConsensusClientV?
    case NetworkTag => v.NetworkV?
    case SelectionTag => v.SelectionV?
  }

  /** Two values have the same dynamic type. */
  predicate SameTag(v: Value, w: Value) {
    && v.Nil? == w.Nil? && v.Str? == w.Str? && v.Bool? == w.Bool? && v.Num? == w.Num? && v.Float? == w.Float?
    && v.ModeV? == w.ModeV? && v.ExecutionClientV? == w.ExecutionClientV?
    && v.ConsensusClientV? == w.ConsensusClientV? && v.NetworkV? == w.NetworkV? && v.SelectionV? == w.SelectionV?
  }

  /** Values of the same dynamic type pass the same type assertions. */
  lemma SameTagMeaning(v: Value, w: Value)
    ensures SameTag(v, w) <==>
      && v.Nil? == w.Nil? && v.Num? == w.Num? && v.Float? == w.Float?
      && forall tag: Tag :: HasTag(v, tag) == HasTag(w, tag)
  {
    forall v: Value
      ensures HasTag(v, StrTag) == v.Str? && HasTag(v, BoolTag) == v.Bool? && HasTag(v, ModeTag) == v.ModeV?
      ensures HasTag(v, ExecutionTag) == v.ExecutionClientV? && HasTag(v, ConsensusTag) == v.ConsensusClientV?
      ensures HasTag(v, NetworkTag) == v.NetworkV? && HasTag(v, SelectionTag) == v.SelectionV?
    {
    }
  }

  /** fmt.Sprintf("%v", v) */
  function Format(v: Value): string {
    match v
    case Nil => "<nil>"
    case Str(s) => s
    case Bool(b) => if b then "true" else "false"
    case Num(n) => Decimal(n)
    case Float(shown) => shown
    case ModeV(s) => s
    case ExecutionClientV(s) => s
    case ConsensusClientV(s) => s
    case NetworkV(s) => s
    case SelectionV(s) => s
  }

  const LOCAL := "local"
  const EXTERNAL := "external"
  const PRATER := "prater"
  const MAINNET := "mainnet"
  const PROFILE := "profile"
  const RELAY := "relay"

  datatype Field =
    // Fields with a rule of their own
    | Network
    | ExecutionClientMode | ConsensusClientMode
    | ExecutionClient | ConsensusClient | ExternalConsensusClient
    | UseFallbackClients | EnableMetrics
    | EnableMevBoost | MevMode | MevSelectionMode
    // Fields written only while a switch of the settings is on
    | Fallback(fallback: FallbackField)
    | MevContainer(container: MevContainerField)
    | MetricsText(metricsText: MetricsTextField)
    | MetricsNumber(metricsNumber: MetricsNumberField)
    | MetricsSwitch(metricsSwitch: MetricsSwitchField)
    // Fields always written: shown as they are, as numerals, or asserted to be bools
    | Text(text: TextField)
    | Number(number: NumberField)
    | Switch(switch: SwitchField)

  datatype FallbackField = ReconnectDelay | NormalEc | NormalCc | PrysmEc | PrysmCc | PrysmJsonRpc

  datatype MevContainerField = Port | OpenRpcPort | ContainerTag | AdditionalFlags

  datatype MetricsTextField =
    | GrafanaContainerTag | PrometheusContainerTag | PrometheusFlags
    | ExporterContainerTag | ExporterFlags | BitflySecret | BitflyMachineName

  datatype MetricsNumberField =
    | EcMetricsPort | BnMetricsPort | VcMetricsPort | NodeMetricsPort | ExporterMetricsPort
    | GrafanaPort | PrometheusPort

  datatype MetricsSwitchField = PrometheusOpenPort | EnableBitflyNodeMetrics

  datatype TextField =
    | ProjectName | DataPath | ArchiveEcUrl
    | ExternalEcWsUrl | ExternalEcHttpUrl
    | EcOpenRpcPorts | EthstatsLabel | EthstatsLogin
    | GethContainerTag | GethAdditionalFlags
    | NethermindContainerTag | NethermindAdditionalFlags | NethermindAdditionalModules | NethermindAdditionalUrls
    | BesuContainerTag | BesuAdditionalFlags
    | ExternalTekuGraffiti | ExternalTekuHttpUrl | ExternalTekuContainerTag | ExternalTekuVcFlags
    | ExternalLighthouseGraffiti | ExternalLighthouseHttpUrl
    | ExternalLighthouseContainerTag | ExternalLighthouseVcFlags
    | ExternalPrysmGraffiti | ExternalPrysmHttpUrl | ExternalPrysmContainerTag | ExternalPrysmVcFlags
    | ExternalPrysmJsonRpcUrl
    | CommonGraffiti | CommonCheckpointSync
    | LighthouseContainerTag | LighthouseBnFlags | LighthouseVcFlags
    | NimbusBnContainerTag | NimbusBnFlags
    | PrysmOpenRpcPort | PrysmBnContainerTag | PrysmVcContainerTag | PrysmBnFlags | PrysmVcFlags
    | TekuContainerTag | TekuBnFlags | TekuVcFlags
    | MevExternalUrl

  datatype NumberField =
    | ManualMaxFee | PriorityFee
    | EcHttpPort | EcWsPort | EcP2pPort | EcEnginePort
    | GethCacheSize | GethMaxPeers
    | NethermindCacheSize | NethermindMaxPeers | NethermindPruneMemSize
    | BesuJvmHeapSize | BesuMaxPeers | BesuMaxBackLayers
    | CommonP2pPort | CommonApiPort
    | LighthouseMaxPeers | NimbusMaxPeers | PrysmMaxPeers | PrysmRpcPort | TekuMaxPeers | TekuJvmHeapSize

  datatype SwitchField =
    | TekuArchiveMode | ExternalLighthouseDoppelganger | ExternalPrysmDoppelganger
    | CommonOpenApiPort | CommonDoppelganger
    | MevUnregulated | MevRegulated | MevFlashbots | MevBloxrouteMaxProfit | MevBlocknative | MevEden
    | MevUltrasound | MevBloxrouteEthical | MevBloxrouteRegulated

  /** Parameters of the configuration itself; a copy has its own, while sections are shared with it. */
  predicate InRoot(f: Field) {
    match f
    case ExecutionClientMode | ConsensusClientMode | ExecutionClient | ConsensusClient
      | ExternalConsensusClient | UseFallbackClients | EnableMetrics | EnableMevBoost => true
    case Fallback(g) => g == ReconnectDelay
    case MetricsNumber(n) => n != GrafanaPort && n != PrometheusPort
    case MetricsSwitch(b) => b == EnableBitflyNodeMetrics
    case _ => false
  }

  /** The tag that the configuration screen asserts when it shows a field. */
  function EditorTag(f: Field): Tag {
    match f
    case Network => NetworkTag
    case ExecutionClientMode | MevMode => ModeTag
    case ExecutionClient => ExecutionTag
    case MevSelectionMode => SelectionTag
    case UseFallbackClients | EnableMetrics | EnableMevBoost | MetricsSwitch(_) | Switch(_) => BoolTag
    case MevContainer(m) => if m == OpenRpcPort then BoolTag else AnyTag
    case _ => AnyTag
  }

  /** The text fields that the wizard reads, and asserts to be strings. */
  predicate InWizard(t: TextField) {
    t in {ExternalEcHttpUrl, ExternalEcWsUrl, CommonGraffiti, CommonCheckpointSync, ExternalLighthouseHttpUrl,
      ExternalPrysmHttpUrl, ExternalPrysmJsonRpcUrl, ExternalTekuHttpUrl, MevExternalUrl}
  }

  /** The tag that the wizard asserts when it reads a field. */
  function WizardTag(f: Field): Tag {
    match f
    case Network => NetworkTag
    case ConsensusClientMode | MevMode => ModeTag
    case ExecutionClient => ExecutionTag
    case ConsensusClient | ExternalConsensusClient => ConsensusTag
    case EnableMetrics | UseFallbackClients => BoolTag
    case Fallback(g) => if g == ReconnectDelay then AnyTag else StrTag
    case Text(t) => if InWizard(t) then StrTag else AnyTag
    case Switch(b) => if b in {CommonDoppelganger, MevRegulated, MevUnregulated} then BoolTag else AnyTag
    case _ => AnyTag
  }

  type Config = Field -> Value

  /** The default of every parameter on every network. */
  type Defaults = (string, Field) -> Value

  predicate WizardTyped(c: Config, f: Field) {
    HasTag(c(f), WizardTag(f))
  }

  predicate EditorTyped(c: Config, f: Field) {
    HasTag(c(f), EditorTag(f))
  }

  ghost predicate WizardReadable(c: Config) {
    forall f: Field :: WizardTyped(c, f)
  }

  ghost predicate EditorReadable(c: Config) {
    forall f: Field :: EditorTyped(c, f)
  }

  /** Defaults have the type of their parameter. */
  ghost predicate DefaultsTyped(d: Defaults) {
    forall n: string, f: Field :: HasTag(d(n, f), WizardTag(f)) && HasTag(d(n, f), EditorTag(f))
  }

  /** ChangeNetwork: parameters that still have the old network's default get the new one's. */
  function ChangeNetwork(c: Config, network: string, d: Defaults): Config {
    if c(Network) == NetworkV(network) then c
    else
      var previous := if c(Network).NetworkV? then c(Network).network else "";
      (f: Field) =>
        if f == Network then NetworkV(network)
        else if c(f) == d(previous, f) then d(network, f)
        else c(f)
  }

  lemma ChangeNetworkKeepsTags(c: Config, network: string, d: Defaults, f: Field)
    requires DefaultsTyped(d)
    ensures WizardTyped(c, f) ==> WizardTyped(ChangeNetwork(c, network, d), f)
    ensures EditorTyped(c, f) ==> EditorTyped(ChangeNetwork(c, network, d), f)
  {
    assert HasTag(d(network, f), WizardTag(f)) && HasTag(d(network, f), EditorTag(f));
  }

  /** A network change moves what sits on the old network's default to the new one's, and nothing else. */
  lemma NetworkChangeMovesDefaults(c: Config, network: string, d: Defaults, f: Field)
    requires c(Network).NetworkV?
    ensures ChangeNetwork(c, network, d)(Network) == NetworkV(network)
    ensures f != Network && c(Network).network != network ==>
      ChangeNetwork(c, network, d)(f) == if c(f) == d(c(Network).network, f) then d(network, f) else c(f)
    ensures c(Network).network == network ==> ChangeNetwork(c, network, d)(f) == c(f)
  {
  }

  /**
   * Changing the network and changing it back restores a parameter exactly if it was on its default,
   * or set to something that is not the other network's default.
   */
  lemma NetworkChangedBack(c: Config, network: string, d: Defaults, f: Field)
    requires c(Network).NetworkV? && c(Network).network != network
    ensures var home := c(Network).network;
      var back := ChangeNetwork(ChangeNetwork(c, network, d), home, d);
      back(f) == c(f) <==> f == Network || c(f) == d(home, f) || c(f) != d(network, f)
  {
    var there := ChangeNetwork(c, network, d);
    NetworkChangeMovesDefaults(c, network, d, f);
    NetworkChangeMovesDefaults(there, c(Network).network, d, f);
  }
}
