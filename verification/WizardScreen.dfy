// The setup wizard: NewSettingsType reads a configuration into the wizard's settings,
// and UpdateConfig writes them back.
module WizardScreen {
  import opened Text
  import opened SettingsModel
  import opened EditorScreen

  datatype Urls = Urls(ec: string, cc: string)

  datatype ExecutionSettings = ExecutionSettings(selection: string, http: string, ws: string)

  datatype ExternalUrls = ExternalUrls(lighthouse: string, prysm: string, prysmJsonRpc: string, teku: string)

  datatype ConsensusSettings = ConsensusSettings(
    selection: string,
    external: string,
    graffiti: string,
    checkpoint: string,
    doppelganger: string,
    urls: ExternalUrls)

  datatype FallbackSettings = FallbackSettings(
    use: string, lighthouse: Urls, prysm: Urls, prysmJsonRpc: string, teku: Urls)

  datatype MevSettings = MevSettings(mode: string, url: string, regulated: bool, unregulated: bool)

  datatype Wizard = Wizard(
    network: string,
    ethClient: string,              // one mode for both clients
    execution: ExecutionSettings,
    consensus: ConsensusSettings,
    monitoring: string,
    mev: MevSettings,
    fallback: FallbackSettings)

  function YesNo(b: bool): string {
    if b then "Yes" else "No"
  }

  predicate IsYes(s: string) {
    s == "Yes"
  }

  /** The wizard's settings, if every assertion about the configuration's types holds. */
  ghost function NewSettings(c: Config): Result<Wizard> {
    if WizardReadable(c) then Done(Read(c)) else Panicked
  }

  ghost function TextOf(c: Config, t: TextField): string
    requires WizardReadable(c) && InWizard(t)
  {
    assert WizardTyped(c, Text(t));
    c(Text(t)).s
  }

  ghost function FallbackOf(c: Config, f: FallbackField): string
    requires WizardReadable(c) && f != ReconnectDelay
  {
    assert WizardTyped(c, Fallback(f));
    c(Fallback(f)).s
  }

  ghost function SwitchOf(c: Config, f: Field): bool
    requires WizardReadable(c) && WizardTag(f) == BoolTag
  {
    assert WizardTyped(c, f);
    c(f).b
  }

  ghost function NameOf(c: Config, f: Field): string
    requires WizardReadable(c)
    requires f == Network || f == ConsensusClientMode || f == MevMode || f == ExecutionClient || f == ConsensusClient
          || f == ExternalConsensusClient
  {
    assert WizardTyped(c, f);
    if f == Network then c(f).network
    else if f == ExecutionClient then c(f).ec
    else if f == ConsensusClient || f == ExternalConsensusClient then c(f).cc
    else c(f).mode
  }

  ghost function ReadExecution(c: Config): ExecutionSettings
    requires WizardReadable(c)
  {
    ExecutionSettings(NameOf(c, ExecutionClient), TextOf(c, ExternalEcHttpUrl), TextOf(c, ExternalEcWsUrl))
  }

  ghost function ReadConsensus(c: Config): ConsensusSettings
    requires WizardReadable(c)
  {
    ConsensusSettings(
      NameOf(c, ConsensusClient), NameOf(c, ExternalConsensusClient),
      TextOf(c, CommonGraffiti), TextOf(c, CommonCheckpointSync), YesNo(SwitchOf(c, Switch(CommonDoppelganger))),
      ExternalUrls(TextOf(c, ExternalLighthouseHttpUrl), TextOf(c, ExternalPrysmHttpUrl),
                   TextOf(c, ExternalPrysmJsonRpcUrl), TextOf(c, ExternalTekuHttpUrl)))
  }

  ghost function ReadFallback(c: Config): FallbackSettings
    requires WizardReadable(c)
  {
    var normal := Urls(FallbackOf(c, NormalEc), FallbackOf(c, NormalCc));
    FallbackSettings(
      YesNo(SwitchOf(c, UseFallbackClients)), normal,
      Urls(FallbackOf(c, PrysmEc), FallbackOf(c, PrysmCc)), FallbackOf(c, PrysmJsonRpc), normal)
  }

  ghost function ReadMev(c: Config): MevSettings
    requires WizardReadable(c)
  {
    MevSettings(NameOf(c, MevMode), TextOf(c, MevExternalUrl),
                SwitchOf(c, Switch(MevRegulated)), SwitchOf(c, Switch(MevUnregulated)))
  }

  ghost function Read(c: Config): Wizard
    requires WizardReadable(c)
  {
    Wizard(NameOf(c, Network), NameOf(c, ConsensusClientMode), ReadExecution(c), ReadConsensus(c),
           YesNo(SwitchOf(c, EnableMetrics)), ReadMev(c), ReadFallback(c))
  }

  /** The consensus client that decides which fallback URLs are written. */
  function FallbackClient(w: Wizard): string {
    if w.ethClient == EXTERNAL then w.consensus.external else w.consensus.selection
  }

  function WriteFallback(w: Wizard, f: FallbackField, before: Value): Value {
    match (FallbackClient(w), f)
    case ("prysm", PrysmEc) => Str(w.fallback.prysm.ec)
    case ("prysm", PrysmCc) => Str(w.fallback.prysm.cc)
    case ("prysm", PrysmJsonRpc) => Str(w.fallback.prysmJsonRpc)
    case ("lighthouse", NormalEc) => Str(w.fallback.lighthouse.ec)
    case ("lighthouse", NormalCc) => Str(w.fallback.lighthouse.cc)
    case ("teku", NormalEc) => Str(w.fallback.teku.ec)
    case ("teku", NormalCc) => Str(w.fallback.teku.cc)
    case _ => before
  }

  /** Texts of the external clients, written in external mode only. */
  function WriteExternal(w: Wizard, t: TextField, before: Value): Value {
    match t
    case ExternalEcWsUrl => Str(w.execution.ws)
    case ExternalEcHttpUrl => Str(w.execution.http)
    case ExternalPrysmHttpUrl => Str(w.consensus.urls.prysm)
    case ExternalPrysmJsonRpcUrl => Str(w.consensus.urls.prysmJsonRpc)
    case ExternalLighthouseHttpUrl => Str(w.consensus.urls.lighthouse)
    case ExternalTekuGraffiti => Str(w.consensus.graffiti)
    case ExternalTekuHttpUrl => Str(w.consensus.urls.teku)
    case _ => before
  }

  /** What one field becomes; `before` is its value after the network change. */
  function WriteWizard(w: Wizard, f: Field, before: Value): Value {
    match f
    case ExecutionClientMode | ConsensusClientMode => ModeV(w.ethClient)
    case ExecutionClient => if w.ethClient == LOCAL then ExecutionClientV(ToLower(w.execution.selection)) else before
    case ConsensusClient => if w.ethClient == LOCAL then ConsensusClientV(w.consensus.selection) else before
    // Not converted to a client type.
    case ExternalConsensusClient => if w.ethClient == EXTERNAL then Str(w.consensus.external) else before
    case UseFallbackClients => Bool(IsYes(w.fallback.use))
    case EnableMetrics => Bool(IsYes(w.monitoring))
    case EnableMevBoost => Bool(true)
    case MevMode =>
      if w.mev.mode == EXTERNAL then ModeV(EXTERNAL) else if w.mev.mode == LOCAL then ModeV(LOCAL) else before
    case Fallback(g) => WriteFallback(w, g, before)
    case Text(CommonGraffiti) => Str(w.consensus.graffiti)
    case Text(CommonCheckpointSync) => Str(w.consensus.checkpoint)
    case Text(MevExternalUrl) => if w.mev.mode == EXTERNAL then Str(w.mev.url) else before
    case Text(t) => if w.ethClient == EXTERNAL then WriteExternal(w, t, before) else before
    case Switch(CommonDoppelganger) => Bool(IsYes(w.consensus.doppelganger))
    case Switch(MevUnregulated) => if w.mev.mode == LOCAL then Bool(w.mev.unregulated) else before
    case Switch(MevRegulated) => if w.mev.mode == LOCAL then Bool(w.mev.regulated) else before
    case Switch(b) =>
      if w.ethClient == EXTERNAL && (b == ExternalPrysmDoppelganger || b == ExternalLighthouseDoppelganger)
      then Bool(IsYes(w.consensus.doppelganger)) else before
    case _ => before
  }

  function UpdateConfig(c: Config, w: Wizard, d: Defaults): Config {
    var base := ChangeNetwork(c, w.network, d);
    (f: Field) => WriteWizard(w, f, base(f))
  }

  // ---- Types ----

  /** What the wizard can read, except the external consensus client's type. */
  ghost predicate NearlyReadable(c: Config) {
    forall f: Field :: f != ExternalConsensusClient ==> WizardTyped(c, f)
  }

  lemma WizardWriteTags(w: Wizard, f: Field, before: Value)
    ensures HasTag(before, EditorTag(f)) ==> HasTag(WriteWizard(w, f, before), EditorTag(f))
    ensures f != ExternalConsensusClient && HasTag(before, WizardTag(f)) ==>
      HasTag(WriteWizard(w, f, before), WizardTag(f))
    ensures f == ExternalConsensusClient && w.ethClient != EXTERNAL ==> WriteWizard(w, f, before) == before
  {
  }

  /**
   * The wizard cannot read what it wrote itself if and only if it wrote external clients; the
   * other screen can read it either way.
   */
  lemma WizardReadsOwnWork(c: Config, w: Wizard, d: Defaults)
    requires WizardReadable(c) && EditorReadable(c) && DefaultsTyped(d)
    ensures NewSettings(UpdateConfig(c, w, d)).Panicked? <==> w.ethClient == EXTERNAL
    ensures EditorReadable(UpdateConfig(c, w, d)) && NearlyReadable(UpdateConfig(c, w, d))
  {
    var c' := UpdateConfig(c, w, d);
    forall f: Field
      ensures EditorTyped(c', f)
      ensures f != ExternalConsensusClient || w.ethClient != EXTERNAL ==> WizardTyped(c', f)
    {
      assert EditorTyped(c, f) && WizardTyped(c, f);
      ChangeNetworkKeepsTags(c, w.network, d, f);
      WizardWriteTags(w, f, ChangeNetwork(c, w.network, d)(f));
    }
    if w.ethClient == EXTERNAL {
      assert c'(ExternalConsensusClient) == Str(w.consensus.external);
      assert !WizardTyped(c', ExternalConsensusClient);
    }
  }

  // ---- Writing back ----

  /** The fields that confirming the wizard unchanged may alter. */
  predicate MayDrift(f: Field) {
    f == ExecutionClientMode || f == EnableMevBoost || f == ExecutionClient || f == ExternalConsensusClient
    || f == Switch(ExternalPrysmDoppelganger) || f == Switch(ExternalLighthouseDoppelganger)
    || f == Text(ExternalTekuGraffiti)
  }

  lemma SameNetwork(c: Config, d: Defaults)
    requires WizardReadable(c)
    ensures ChangeNetwork(c, Read(c).network, d) == c
  {
    assert WizardTyped(c, Network);
  }

  lemma ConfirmedFallback(c: Config, g: FallbackField)
    requires WizardReadable(c)
    ensures WriteFallback(Read(c), g, c(Fallback(g))) == c(Fallback(g))
  {
    assert WizardTyped(c, Fallback(g));
  }

  lemma ConfirmedText(c: Config, t: TextField)
    requires WizardReadable(c) && !MayDrift(Text(t))
    ensures WriteWizard(Read(c), Text(t), c(Text(t))) == c(Text(t))
  {
    assert WizardTyped(c, Text(t));
  }

  lemma ConfirmedOther(c: Config, f: Field)
    requires WizardReadable(c) && !MayDrift(f) && !f.Text? && !f.Fallback?
    ensures WriteWizard(Read(c), f, c(f)) == c(f)
  {
    assert WizardTyped(c, f);
  }

  /** Confirming the wizard without a change leaves every other field as it was. */
  lemma ConfirmedUnchanged(c: Config, d: Defaults, f: Field)
    requires WizardReadable(c) && !MayDrift(f)
    ensures UpdateConfig(c, Read(c), d)(f) == c(f)
  {
    SameNetwork(c, d);
    if f.Fallback? {
      ConfirmedFallback(c, f.fallback);
    } else if f.Text? {
      ConfirmedText(c, f.text);
    } else {
      ConfirmedOther(c, f);
    }
  }

  /** What confirming the wizard without a change does to the fields that may drift. */
  function Drifted(c: Config, f: Field): Value
    requires MayDrift(f) && c(ExecutionClient).ExecutionClientV? && c(ExternalConsensusClient).ConsensusClientV?
  {
    var local, external := c(ConsensusClientMode) == ModeV(LOCAL), c(ConsensusClientMode) == ModeV(EXTERNAL);
    match f
    case ExecutionClientMode => c(ConsensusClientMode)
    case EnableMevBoost => Bool(true)
    case ExecutionClient => if local then ExecutionClientV(ToLower(c(f).ec)) else c(f)
    case ExternalConsensusClient => if external then Str(c(f).cc) else c(f)
    case Switch(_) => if external then c(Switch(CommonDoppelganger)) else c(f)
    case _ => if external then c(Text(CommonGraffiti)) else c(f)
  }

  lemma DriftOf(c: Config, w: Wizard, f: Field)
    requires MayDrift(f) && c(ExecutionClient).ExecutionClientV? && c(ExternalConsensusClient).ConsensusClientV?
    requires c(ConsensusClientMode) == ModeV(w.ethClient)
    requires w.execution.selection == c(ExecutionClient).ec && w.consensus.external == c(ExternalConsensusClient).cc
    requires c(Text(CommonGraffiti)) == Str(w.consensus.graffiti)
    requires c(Switch(CommonDoppelganger)) == Bool(IsYes(w.consensus.doppelganger))
    ensures WriteWizard(w, f, c(f)) == Drifted(c, f)
  {
  }

  lemma NamesReadBack(c: Config)
    requires WizardReadable(c)
    ensures c(ConsensusClientMode) == ModeV(Read(c).ethClient)
    ensures c(ExecutionClient) == ExecutionClientV(ReadExecution(c).selection)
    ensures c(ExternalConsensusClient) == ConsensusClientV(ReadConsensus(c).external)
  {
    assert WizardTyped(c, ExecutionClient) && WizardTyped(c, ExternalConsensusClient);
    assert WizardTyped(c, ConsensusClientMode);
  }

  lemma CommonReadBack(c: Config)
    requires WizardReadable(c)
    ensures c(Text(CommonGraffiti)) == Str(ReadConsensus(c).graffiti)
    ensures c(Switch(CommonDoppelganger)) == Bool(IsYes(ReadConsensus(c).doppelganger))
  {
    assert WizardTyped(c, Text(CommonGraffiti)) && WizardTyped(c, Switch(CommonDoppelganger));
  }

  lemma ConfirmedDrift(c: Config, d: Defaults, f: Field)
    requires WizardReadable(c) && MayDrift(f)
    ensures c(ExecutionClient).ExecutionClientV? && c(ExternalConsensusClient).ConsensusClientV?
    ensures UpdateConfig(c, Read(c), d)(f) == Drifted(c, f)
  {
    NamesReadBack(c);
    CommonReadBack(c);
    SameNetwork(c, d);
    DriftOf(c, Read(c), f);
  }

  // ---- Reading back what was written ----

  /** The configuration with its external client given the type that the wizard left out. */
  function Retyped(c: Config): Config {
    (f: Field) => if f == ExternalConsensusClient && c(f).Str? then ConsensusClientV(c(f).s) else c(f)
  }

  lemma RetypedAt(c: Config, w: Wizard, d: Defaults, f: Field)
    requires NearlyReadable(UpdateConfig(c, w, d)) && WizardTyped(ChangeNetwork(c, w.network, d), f)
    ensures WizardTyped(Retyped(UpdateConfig(c, w, d)), f)
  {
    if f != ExternalConsensusClient { assert WizardTyped(UpdateConfig(c, w, d), f); }
  }

  lemma RetypedIsReadable(c: Config, w: Wizard, d: Defaults)
    requires WizardReadable(c) && EditorReadable(c) && DefaultsTyped(d)
    ensures WizardReadable(Retyped(UpdateConfig(c, w, d))) && WizardReadable(ChangeNetwork(c, w.network, d))
  {
    WizardReadsOwnWork(c, w, d);
    forall f: Field
      ensures WizardTyped(Retyped(UpdateConfig(c, w, d)), f) && WizardTyped(ChangeNetwork(c, w.network, d), f)
    {
      assert WizardTyped(c, f);
      ChangeNetworkKeepsTags(c, w.network, d, f);
      RetypedAt(c, w, d, f);
    }
  }

  /** The configurations before and after the wizard's writes, as far as the network is concerned. */
  ghost predicate Wrote(base: Config, w: Wizard, after: Config) {
    && WizardReadable(base) && WizardReadable(after)
    && forall f: Field :: WroteAt(base, w, after, f)
  }

  predicate WroteAt(base: Config, w: Wizard, after: Config, f: Field) {
    after(f) == WriteWizard(w, f, base(f))
    || (f == ExternalConsensusClient && WriteWizard(w, f, base(f)).Str?
        && after(f) == ConsensusClientV(WriteWizard(w, f, base(f)).s))
  }

  lemma UpdateWrote(c: Config, w: Wizard, d: Defaults)
    requires WizardReadable(c) && EditorReadable(c) && DefaultsTyped(d)
    ensures Wrote(ChangeNetwork(c, w.network, d), w, Retyped(UpdateConfig(c, w, d)))
  {
    RetypedIsReadable(c, w, d);
    forall f: Field
      ensures WroteAt(ChangeNetwork(c, w.network, d), w, Retyped(UpdateConfig(c, w, d)), f)
    {
    }
  }

  lemma TextReadsBack(base: Config, w: Wizard, after: Config, t: TextField)
    requires Wrote(base, w, after) && InWizard(t)
    ensures var now, was, external := TextOf(after, t), TextOf(base, t), w.ethClient == "external";
      match t
      case CommonGraffiti => now == w.consensus.graffiti
      case CommonCheckpointSync => now == w.consensus.checkpoint
      case MevExternalUrl => now == if w.mev.mode == "external" then w.mev.url else was
      case ExternalEcHttpUrl => now == if external then w.execution.http else was
      case ExternalEcWsUrl => now == if external then w.execution.ws else was
      case ExternalLighthouseHttpUrl => now == if external then w.consensus.urls.lighthouse else was
      case ExternalPrysmHttpUrl => now == if external then w.consensus.urls.prysm else was
      case ExternalPrysmJsonRpcUrl => now == if external then w.consensus.urls.prysmJsonRpc else was
      case _ => now == if external then w.consensus.urls.teku else was
  {
    assert WizardTyped(base, Text(t)) && WizardTyped(after, Text(t));
    assert WroteAt(base, w, after, Text(t));
  }

  lemma FallbackReadsBack(base: Config, w: Wizard, after: Config, g: FallbackField)
    requires Wrote(base, w, after) && g != ReconnectDelay
    ensures var now, was := FallbackOf(after, g), FallbackOf(base, g);
      var client := if w.ethClient == "external" then w.consensus.external else w.consensus.selection;
      match g
      case PrysmEc => now == if client == "prysm" then w.fallback.prysm.ec else was
      case PrysmCc => now == if client == "prysm" then w.fallback.prysm.cc else was
      case PrysmJsonRpc => now == if client == "prysm" then w.fallback.prysmJsonRpc else was
      case NormalEc =>
        now == if client == "lighthouse" then w.fallback.lighthouse.ec
               else if client == "teku" then w.fallback.teku.ec else was
      case _ =>
        now == if client == "lighthouse" then w.fallback.lighthouse.cc
               else if client == "teku" then w.fallback.teku.cc else was
  {
    assert WizardTyped(base, Fallback(g)) && WizardTyped(after, Fallback(g));
    assert WroteAt(base, w, after, Fallback(g));
  }

  lemma SwitchReadsBack(base: Config, w: Wizard, after: Config, f: Field)
    requires Wrote(base, w, after) && WizardTag(f) == BoolTag
    ensures var now, was, local := SwitchOf(after, f), SwitchOf(base, f), w.mev.mode == "local";
      match f
      case EnableMetrics => now == (w.monitoring == "Yes")
      case UseFallbackClients => now == (w.fallback.use == "Yes")
      case Switch(CommonDoppelganger) => now == (w.consensus.doppelganger == "Yes")
      case Switch(MevRegulated) => now == if local then w.mev.regulated else was
      case _ => now == if local then w.mev.unregulated else was
  {
    assert WizardTyped(base, f) && WizardTyped(after, f) && WroteAt(base, w, after, f);
  }

  lemma NameReadsBack(base: Config, w: Wizard, after: Config, f: Field)
    requires Wrote(base, w, after)
    requires f == ConsensusClientMode || f == MevMode || f == ExecutionClient || f == ConsensusClient
          || f == ExternalConsensusClient
    ensures var now, was := NameOf(after, f), NameOf(base, f);
      match f
      case ConsensusClientMode => now == w.ethClient
      case ExecutionClient => now == if w.ethClient == "local" then ToLower(w.execution.selection) else was
      case ConsensusClient => now == if w.ethClient == "local" then w.consensus.selection else was
      case ExternalConsensusClient => now == if w.ethClient == "external" then w.consensus.external else was
      case _ => now == if w.mev.mode == "local" || w.mev.mode == "external" then w.mev.mode else was
  {
    assert WizardTyped(base, f) && WizardTyped(after, f) && WroteAt(base, w, after, f);
  }

  /** What the wizard reads of its own answer: the mode, and the clients and URLs of that mode. */
  lemma ClientsReadBack(base: Config, w: Wizard, after: Config)
    requires Wrote(base, w, after)
    ensures var r, was, local, external := Read(after), Read(base), w.ethClient == "local", w.ethClient == "external";
      && r.ethClient == w.ethClient
      && r.execution.selection == (if local then ToLower(w.execution.selection) else was.execution.selection)
      && r.execution.http == (if external then w.execution.http else was.execution.http)
      && r.execution.ws == (if external then w.execution.ws else was.execution.ws)
      && r.consensus.selection == (if local then w.consensus.selection else was.consensus.selection)
      && r.consensus.external == (if external then w.consensus.external else was.consensus.external)
  {
    NameReadsBack(base, w, after, ConsensusClientMode);
    NameReadsBack(base, w, after, ExecutionClient);
    NameReadsBack(base, w, after, ConsensusClient);
    NameReadsBack(base, w, after, ExternalConsensusClient);
    TextReadsBack(base, w, after, ExternalEcHttpUrl);
    TextReadsBack(base, w, after, ExternalEcWsUrl);
  }

  lemma UrlsReadBack(base: Config, w: Wizard, after: Config)
    requires Wrote(base, w, after)
    ensures Read(after).consensus.urls
         == if w.ethClient == "external" then w.consensus.urls else Read(base).consensus.urls
  {
    TextReadsBack(base, w, after, ExternalLighthouseHttpUrl);
    TextReadsBack(base, w, after, ExternalPrysmHttpUrl);
    TextReadsBack(base, w, after, ExternalPrysmJsonRpcUrl);
    TextReadsBack(base, w, after, ExternalTekuHttpUrl);
  }

  /** The common settings, monitoring and the use of fallbacks are the answer's in every mode. */
  lemma CommonReadsBack(base: Config, w: Wizard, after: Config)
    requires Wrote(base, w, after)
    ensures var r := Read(after);
      && r.consensus.graffiti == w.consensus.graffiti && r.consensus.checkpoint == w.consensus.checkpoint
      && r.consensus.doppelganger == (if w.consensus.doppelganger == "Yes" then "Yes" else "No")
      && r.monitoring == (if w.monitoring == "Yes" then "Yes" else "No")
      && r.fallback.use == (if w.fallback.use == "Yes" then "Yes" else "No")
  {
    TextReadsBack(base, w, after, CommonGraffiti);
    TextReadsBack(base, w, after, CommonCheckpointSync);
    SwitchReadsBack(base, w, after, Switch(CommonDoppelganger));
    SwitchReadsBack(base, w, after, EnableMetrics);
    SwitchReadsBack(base, w, after, UseFallbackClients);
  }

  /** The fallback URLs are the answer's for the selected consensus client, and otherwise what they were. */
  lemma FallbacksReadBack(base: Config, w: Wizard, after: Config)
    requires Wrote(base, w, after)
    ensures var r, was := Read(after).fallback, Read(base).fallback;
      var client := if w.ethClient == "external" then w.consensus.external else w.consensus.selection;
      && r.prysm == (if client == "prysm" then w.fallback.prysm else was.prysm)
      && r.prysmJsonRpc == (if client == "prysm" then w.fallback.prysmJsonRpc else was.prysmJsonRpc)
      && r.lighthouse == r.teku
      && r.lighthouse == (if client == "lighthouse" then w.fallback.lighthouse
                          else if client == "teku" then w.fallback.teku else was.lighthouse)
  {
    FallbackReadsBack(base, w, after, PrysmEc);
    FallbackReadsBack(base, w, after, PrysmCc);
    FallbackReadsBack(base, w, after, PrysmJsonRpc);
    FallbackReadsBack(base, w, after, NormalEc);
    FallbackReadsBack(base, w, after, NormalCc);
  }

  /** The MEV-Boost settings are the answer's in its mode, and otherwise what they were. */
  lemma MevReadsBack(base: Config, w: Wizard, after: Config)
    requires Wrote(base, w, after)
    ensures var r, was := Read(after).mev, Read(base).mev;
      var local, external := w.mev.mode == "local", w.mev.mode == "external";
      && r.mode == (if local || external then w.mev.mode else was.mode)
      && r.url == (if external then w.mev.url else was.url)
      && r.regulated == (if local then w.mev.regulated else was.regulated)
      && r.unregulated == (if local then w.mev.unregulated else was.unregulated)
  {
    NameReadsBack(base, w, after, MevMode);
    TextReadsBack(base, w, after, MevExternalUrl);
    SwitchReadsBack(base, w, after, Switch(MevRegulated));
    SwitchReadsBack(base, w, after, Switch(MevUnregulated));
  }

  /** The network is the answer's, and the rest is written on top of a change to that network. */
  lemma NetworkReadsBack(c: Config, w: Wizard, d: Defaults)
    requires WizardReadable(c) && EditorReadable(c) && DefaultsTyped(d)
    ensures Wrote(ChangeNetwork(c, w.network, d), w, Retyped(UpdateConfig(c, w, d)))
    ensures Read(Retyped(UpdateConfig(c, w, d))).network == w.network
  {
    UpdateWrote(c, w, d);
    assert UpdateConfig(c, w, d)(Network) == NetworkV(w.network);
  }

  lemma AnsweredAt(c: Config, w: Wizard, d: Defaults, f: Field)
    ensures UpdateConfig(c, w, d)(f) == WriteWizard(w, f, ChangeNetwork(c, w.network, d)(f))
  {
  }

  /** The fields that the wizard writes in every mode and does not read. */
  lemma WrittenBesides(c: Config, w: Wizard, d: Defaults)
    ensures UpdateConfig(c, w, d)(EnableMevBoost) == Bool(true)
    ensures UpdateConfig(c, w, d)(ExecutionClientMode) == ModeV(w.ethClient)
  {
    AnsweredAt(c, w, d, EnableMevBoost);
    AnsweredAt(c, w, d, ExecutionClientMode);
  }

  /** The fields that the wizard writes in external mode and does not read. */
  lemma WrittenExternally(c: Config, w: Wizard, d: Defaults, f: Field)
    requires f == Switch(ExternalPrysmDoppelganger) || f == Switch(ExternalLighthouseDoppelganger)
          || f == Text(ExternalTekuGraffiti)
    ensures UpdateConfig(c, w, d)(f)
         == if w.ethClient != "external" then ChangeNetwork(c, w.network, d)(f)
            else if f.Text? then Str(w.consensus.graffiti) else Bool(w.consensus.doppelganger == "Yes")
  {
    AnsweredAt(c, w, d, f);
  }

  /** Nothing else is written, whatever the answer: the rest changes with the network only. */
  lemma RestIsLeft(c: Config, w: Wizard, d: Defaults, f: Field)
    requires WizardTag(f) == AnyTag && f != ExecutionClientMode && f != EnableMevBoost
    requires f != Text(ExternalTekuGraffiti)
    requires f != Switch(ExternalPrysmDoppelganger) && f != Switch(ExternalLighthouseDoppelganger)
    ensures UpdateConfig(c, w, d)(f) == ChangeNetwork(c, w.network, d)(f)
  {
  }
}
