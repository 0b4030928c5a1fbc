// The configuration file: every parameter is written as text and read back by its type.
module SavedConfig {
  import opened Text
  import opened Numerals
  import opened SettingsModel
  import opened EditorScreen
  import opened WizardScreen

  datatype Kind = UintKind(bits: nat) | FloatKind | BoolKind | StringKind | ChoiceKind(tag: Tag)

  /** The type that a parameter is declared with. */
  function KindOf(f: Field): Kind {
    match f
    case Network => ChoiceKind(NetworkTag)
    case ExecutionClientMode | ConsensusClientMode | MevMode => ChoiceKind(ModeTag)
    case ExecutionClient => ChoiceKind(ExecutionTag)
    case ConsensusClient | ExternalConsensusClient => ChoiceKind(ConsensusTag)
    case MevSelectionMode => ChoiceKind(SelectionTag)
    case UseFallbackClients | EnableMetrics | EnableMevBoost | MetricsSwitch(_) | Switch(_) => BoolKind
    case Fallback(_) | MetricsText(_) => StringKind
    case MetricsNumber(_) => UintKind(16)
    case MevContainer(m) =>
      (match m
       case Port => UintKind(16)
       case OpenRpcPort => BoolKind
       case _ => StringKind)
    case Text(t) => if t == EcOpenRpcPorts || t == PrysmOpenRpcPort then BoolKind else StringKind
    case Number(n) =>
      if n == ManualMaxFee || n == PriorityFee then FloatKind
      else if n in {GethCacheSize, NethermindCacheSize, NethermindPruneMemSize, BesuJvmHeapSize, BesuMaxBackLayers,
        TekuJvmHeapSize} then UintKind(64)
      else UintKind(16)
  }

  function Limit(bits: nat): int {
    if bits == 16 then 0x1_0000 else TWO_TO_THE_64
  }

  predicate HasKind(v: Value, k: Kind) {
    match k
    case UintKind(bits) => v.Num? && v.n < Limit(bits)
    case FloatKind => v.Float?
    case BoolKind => v.Bool?
    case StringKind => v.Str?
    case ChoiceKind(tag) => HasTag(v, tag)
  }

  /** What the parameters and the Go library add to reading a text. */
  datatype Rules = Rules(
    matches: (Field, string) -> bool,     // the parameter's regular expression; true if it has none
    fits: (Field, string) -> bool,        // its maximal length
    canBeBlank: Field -> bool,
    unusual: string -> Parsed,            // strconv.ParseUint on anything but decimal digits
    float: string -> Result<string>)      // strconv.ParseFloat, as the text that the result prints as

  ghost predicate Typed(c: Config) {
    forall f: Field :: HasKind(c(f), KindOf(f))
  }

  ghost predicate DefaultsOfKind(d: Defaults) {
    forall n: string, f: Field :: HasKind(d(n, f), KindOf(f))
  }

  /** Parameter.Serialize */
  function Serialize(v: Value): string {
    if v.Nil? then "" else Format(v)
  }

  function ParseWithin(text: string, bits: nat, rules: Rules): Result<Value> {
    var p := if text != "" && AllDigits(text) then ParseUint(text) else rules.unusual(text);
    if p.Ok? && p.value < Limit(bits) then Done(Num(p.value)) else Failed("cannot deserialize")
  }

  /** strconv.ParseBool */
  function ParseBool(text: string): Result<Value> {
    if text in {"1", "t", "T", "true", "TRUE", "True"} then Done(Bool(true))
    else if text in {"0", "f", "F", "false", "FALSE", "False"} then Done(Bool(false))
    else Failed("cannot deserialize")
  }

  function Convert(text: string, tag: Tag): Value {
    match tag
    case ModeTag => ModeV(text)
    case ExecutionTag => ExecutionClientV(text)
    case ConsensusTag => ConsensusClientV(text)
    case NetworkTag => NetworkV(text)
    case SelectionTag => SelectionV(text)
    case _ => Str(text)
  }

  /** Parameter.Deserialize on a text that is there; a new configuration holds mainnet's defaults. */
  function Deserialize(f: Field, text: string, network: string, rules: Rules, d: Defaults): Result<Value> {
    match KindOf(f)
    case UintKind(bits) => ParseWithin(text, bits, rules)
    case FloatKind =>
      (match rules.float(text)
       case Done(shown) => Done(Float(shown))
       case Failed(m) => Failed(m)
       case Panicked => Panicked)
    case BoolKind => ParseBool(text)
    case StringKind =>
      if d(MAINNET, f) != Str("") && !rules.matches(f, text) then Failed("did not match the expected format")
      else if !rules.fits(f, text) then Failed("is longer than the max length")
      else if !rules.canBeBlank(f) && text == "" then Done(d(network, f))
      else Done(Str(text))
    case ChoiceKind(tag) => Done(Convert(text, tag))
  }

  /** A file gives some parameters a text. */
  type File = Field -> Result<string>

  function LoadField(file: File, f: Field, rules: Rules, d: Defaults): Result<Value> {
    var network := match file(Network) case Done(text) => text case _ => MAINNET;
    match file(f)
    case Done(text) => Deserialize(f, text, network, rules, d)
    case _ => Done(d(network, f))
  }

  /** The file loads as this configuration. */
  ghost predicate Loads(file: File, c: Config, rules: Rules, d: Defaults) {
    forall f: Field :: LoadField(file, f, rules, d) == Done(c(f))
  }

  function FileOf(c: Config): File {
    f => Done(Serialize(c(f)))
  }

  // ---- Types ----

  lemma KindHasTags(v: Value, f: Field)
    requires HasKind(v, KindOf(f))
    ensures HasTag(v, WizardTag(f)) && HasTag(v, EditorTag(f))
  {
  }

  lemma DeserializedHasKind(f: Field, text: string, network: string, rules: Rules, d: Defaults)
    requires DefaultsOfKind(d)
    ensures var r := Deserialize(f, text, network, rules, d); r.Done? ==> HasKind(r.value, KindOf(f))
  {
    assert HasKind(d(network, f), KindOf(f));
  }

  /** Whatever the file says, a configuration that loads can be read by both screens. */
  lemma LoadedIsReadable(file: File, c: Config, rules: Rules, d: Defaults)
    requires DefaultsOfKind(d) && Loads(file, c, rules, d)
    ensures Typed(c) && WizardReadable(c) && EditorReadable(c)
  {
    forall f: Field ensures HasKind(c(f), KindOf(f)) && WizardTyped(c, f) && EditorTyped(c, f) {
      assert LoadField(file, f, rules, d) == Done(c(f));
      var network := match file(Network) case Done(text) => text case _ => MAINNET;
      if file(f).Done? {
        DeserializedHasKind(f, file(f).value, network, rules, d);
      } else {
        assert HasKind(d(network, f), KindOf(f));
      }
      KindHasTags(c(f), f);
    }
  }

  // ---- Saving and loading ----

  /**
   * Values that a parameter accepts from a file for a network: texts within its rules, blank only if
   * it may be or if that is its default, and numbers that print as they parse.
   */
  predicate IsAcceptable(f: Field, v: Value, network: string, rules: Rules, d: Defaults) {
    && HasKind(v, KindOf(f))
    && (v.Str? ==>
          && (d(MAINNET, f) == Str("") || rules.matches(f, v.s)) && rules.fits(f, v.s)
          && (v.s != "" || rules.canBeBlank(f) || d(network, f) == Str("")))
    && (v.Float? ==> rules.float(v.shown) == Done(v.shown))
  }

  /** Loading what was saved gives a value back, with its type, if and only if it is acceptable. */
  lemma LoadInvertsSave(f: Field, v: Value, network: string, rules: Rules, d: Defaults)
    requires DefaultsOfKind(d)
    ensures Deserialize(f, Serialize(v), network, rules, d) == Done(v) <==> IsAcceptable(f, v, network, rules, d)
  {
    if Deserialize(f, Serialize(v), network, rules, d) == Done(v) {
      DeserializedHasKind(f, Serialize(v), network, rules, d);
    }
    if v.Num? && HasKind(v, KindOf(f)) { ParseInvertsDecimal(v.n); }
  }

  /** So a whole configuration survives saving and loading if and only if all its values are acceptable. */
  lemma SavedLoads(c: Config, rules: Rules, d: Defaults)
    requires DefaultsOfKind(d)
    ensures Loads(FileOf(c), c, rules, d) <==> forall f: Field :: IsAcceptable(f, c(f), Serialize(c(Network)), rules, d)
  {
    forall f: Field
      ensures LoadField(FileOf(c), f, rules, d) == Done(c(f))
         <==> IsAcceptable(f, c(f), Serialize(c(Network)), rules, d)
    {
      LoadInvertsSave(f, c(f), Serialize(c(Network)), rules, d);
    }
  }

  /**
   * A numeral that the configuration screen left as text loads as the decimal number it shows if
   * and only if it is small enough and has no leading zero before more than one octal digit.
   */
  lemma NumeralLoads(f: Field, s: string, network: string, rules: Rules, d: Defaults)
    requires KindOf(f).UintKind? && s != "" && AllDigits(s)
    ensures Deserialize(f, Serialize(Str(s)), network, rules, d) == Done(Num(ValueOf(s, 10)))
       <==> if s[0] == '0' then ValueOf(s, 10) < 8 else ValueOf(s, 10) < Limit(KindOf(f).bits)
  {
    ReadsDecimal(s);
  }

  /** The external client that the wizard saved without its type loads with it. */
  lemma LoadRestoresType(c: Config, w: Wizard, network: string, rules: Rules, d: Defaults)
    requires w.ethClient == EXTERNAL
    ensures var saved := Serialize(UpdateConfig(c, w, d)(ExternalConsensusClient));
      Deserialize(ExternalConsensusClient, saved, network, rules, d) == Done(ConsensusClientV(w.consensus.external))
  {
  }

  // ---- Saving without a change ----

  predicate IsMode(m: string) {
    m == LOCAL || m == EXTERNAL || m == ""
  }

  predicate IsSelection(m: string) {
    m == PROFILE || m == RELAY || m == ""
  }

  /** The fields whose text survives a visit to the configuration screen that changes nothing. */
  predicate Survives(c: Config, f: Field)
    requires c(ExecutionClientMode).ModeV? && c(MevMode).ModeV? && c(MevSelectionMode).SelectionV?
  {
    match f
    case ExecutionClientMode | MevMode => IsMode(c(f).mode)
    case ConsensusClientMode =>
      Format(c(f)) == if IsMode(c(ExecutionClientMode).mode) then c(ExecutionClientMode).mode else ""
    case MevSelectionMode => IsSelection(c(f).selection)
    case ExecutionClient | ConsensusClient | ExternalConsensusClient => IsLower(Format(c(f)))
    case EnableMevBoost => Format(c(f)) == "true"
    case Fallback(PrysmEc) => c(UseFallbackClients) == Bool(true) ==> Format(c(f)) == Format(c(Fallback(NormalEc)))
    case Fallback(PrysmCc) => c(UseFallbackClients) == Bool(true) ==> Format(c(f)) == Format(c(Fallback(NormalCc)))
    case _ => true
  }

  /** Saving what the screen shows leaves the text of a parameter alone exactly if it survives. */
  lemma UntouchedSave(c: Config, d: Defaults, f: Field)
    requires EditorReadable(c) && OnShownNetwork(c) && Accepted(MakeUISetting(c))
    ensures c(ExecutionClientMode).ModeV? && c(MevMode).ModeV? && c(MevSelectionMode).SelectionV?
    ensures Format(Updated(c, MakeUISetting(c), d)(f)) == Format(c(f)) <==> Survives(c, f)
  {
    var s := MakeUISetting(c);
    ShownIsAccepted(c);
    UpdatedAt(c, s, d, f);
    ModesReadable(c);
    if IsClientName(f) {
      ClientText(c, d, f);
    } else if f.MevContainer? {
      ContainerText(c, f.container);
    } else if f == Fallback(PrysmEc) || f == Fallback(PrysmCc) {
      CopyText(c, f);
    } else if IsPlain(f) {
      PlainText(c, f);
    } else {
      ModeText(c, f);
    }
  }

  lemma ClientText(c: Config, d: Defaults, f: Field)
    requires EditorReadable(c) && OnShownNetwork(c) && Accepted(MakeUISetting(c)) && IsClientName(f)
    ensures Format(Updated(c, MakeUISetting(c), d)(f)) == Format(c(f)) <==> IsLower(Format(c(f)))
  {
    WrittenBackClient(c, d, f);
    LowerOfTitle(Format(c(f)));
  }

  lemma ModesReadable(c: Config)
    requires EditorReadable(c)
    ensures c(ExecutionClientMode).ModeV? && c(MevMode).ModeV? && c(MevSelectionMode).SelectionV?
  {
    assert EditorTyped(c, ExecutionClientMode);
    assert EditorTyped(c, MevMode);
    assert EditorTyped(c, MevSelectionMode);
  }

  lemma PlainText(c: Config, f: Field)
    requires EditorReadable(c) && Accepted(MakeUISetting(c))
    requires IsPlain(f) && f != Fallback(PrysmEc) && f != Fallback(PrysmCc)
    ensures Format(Written(f, c, MakeUISetting(c))) == Format(c(f))
  {
    WrittenAsIs(c, MakeUISetting(c), f);
    if f.Number? || f.MetricsNumber? { NumeralShown(c, f); } else { PlainShown(c, f); }
  }

  lemma ContainerText(c: Config, m: MevContainerField)
    requires EditorReadable(c) && Accepted(MakeUISetting(c))
    ensures Format(Written(MevContainer(m), c, MakeUISetting(c))) == Format(c(MevContainer(m)))
  {
    ContainerAsShown(c, m);
  }

  lemma CopyText(c: Config, f: Field)
    requires EditorReadable(c) && Accepted(MakeUISetting(c))
    requires c(ExecutionClientMode).ModeV? && c(MevMode).ModeV? && c(MevSelectionMode).SelectionV?
    requires f == Fallback(PrysmEc) || f == Fallback(PrysmCc)
    ensures IsOpen(f, MakeUISetting(c)) ==>
      (Format(Written(f, c, MakeUISetting(c))) == Format(c(f)) <==> Survives(c, f))
    ensures !IsOpen(f, MakeUISetting(c)) ==> Survives(c, f)
  {
    CopyWritten(c, MakeUISetting(c));
    PlainText(c, Fallback(NormalEc));
    PlainText(c, Fallback(NormalCc));
    PlainShown(c, UseFallbackClients);
  }

  lemma RecognisedModes(m: string)
    ensures CfgMode(UiMode(m)) == if IsMode(m) then m else ""
    ensures CfgSelection(UiSelection(m)) == if IsSelection(m) then m else ""
  {
  }

  lemma ModeText(c: Config, f: Field)
    requires EditorReadable(c) && Accepted(MakeUISetting(c))
    requires c(ExecutionClientMode).ModeV? && c(MevMode).ModeV? && c(MevSelectionMode).SelectionV?
    requires !IsClientName(f) && !IsPlain(f) && !f.MevContainer?
    ensures Format(Written(f, c, MakeUISetting(c))) == Format(c(f)) <==> Survives(c, f)
  {
    ShownAt(c, ExecutionClientMode);
    ShownAt(c, MevMode);
    ShownAt(c, MevSelectionMode);
    RecognisedModes(c(ExecutionClientMode).mode);
    RecognisedModes(c(MevMode).mode);
    RecognisedModes(c(MevSelectionMode).selection);
    ModesWritten(c, MakeUISetting(c));
  }

  /** So a configuration whose fields all survive is loaded back exactly, types included. */
  lemma UntouchedSaveLoads(c: Config, f: Field, network: string, rules: Rules, d: Defaults)
    requires Typed(c) && EditorReadable(c) && OnShownNetwork(c) && Accepted(MakeUISetting(c))
    requires DefaultsOfKind(d) && IsAcceptable(f, c(f), network, rules, d)
    requires c(ExecutionClientMode).ModeV? && c(MevMode).ModeV? && c(MevSelectionMode).SelectionV? && Survives(c, f)
    ensures Deserialize(f, Serialize(Updated(c, MakeUISetting(c), d)(f)), network, rules, d) == Done(c(f))
  {
    UntouchedSave(c, d, f);
    NeverNil(c, d, f);
    SameTextLoads(f, c(f), Updated(c, MakeUISetting(c), d)(f), network, rules, d);
  }

  lemma SameTextLoads(f: Field, v: Value, w: Value, network: string, rules: Rules, d: Defaults)
    requires DefaultsOfKind(d) && IsAcceptable(f, v, network, rules, d) && Format(w) == Format(v) && !w.Nil?
    ensures Deserialize(f, Serialize(w), network, rules, d) == Done(v)
  {
    LoadInvertsSave(f, v, network, rules, d);
    KindNotNil(v, f);
  }

  lemma KindNotNil(v: Value, f: Field)
    requires HasKind(v, KindOf(f))
    ensures !v.Nil?
  {
  }

  lemma NeverNil(c: Config, d: Defaults, f: Field)
    requires Typed(c) && EditorReadable(c) && OnShownNetwork(c) && Accepted(MakeUISetting(c))
    ensures !Updated(c, MakeUISetting(c), d)(f).Nil?
  {
    ShownIsAccepted(c);
    UpdatedAt(c, MakeUISetting(c), d, f);
    TypedNotNil(c, f);
    if f.MevContainer? {
      ContainerAsShown(c, f.container);
    } else if f == Fallback(PrysmEc) || f == Fallback(PrysmCc) {
      CopyWritten(c, MakeUISetting(c));
      PlainNotNil(c, Fallback(NormalEc));
      PlainNotNil(c, Fallback(NormalCc));
    } else if IsPlain(f) {
      PlainNotNil(c, f);
    }
  }

  lemma TypedNotNil(c: Config, f: Field)
    requires Typed(c)
    ensures !c(f).Nil?
  {
    assert HasKind(c(f), KindOf(f));
    KindNotNil(c(f), f);
  }

  lemma PlainNotNil(c: Config, f: Field)
    requires Typed(c) && EditorReadable(c) && Accepted(MakeUISetting(c))
    requires IsPlain(f) && f != Fallback(PrysmEc) && f != Fallback(PrysmCc)
    ensures !Written(f, c, MakeUISetting(c)).Nil?
  {
    WrittenAsIs(c, MakeUISetting(c), f);
    TypedNotNil(c, f);
    if f.Number? || f.MetricsNumber? { NumeralShown(c, f); } else { PlainShown(c, f); }
  }

  // ---- Parameters that the file leaves out, and texts that parameters refuse ----

  /** A parameter that the file leaves out has the default of the file's network, or of mainnet if it names none. */
  lemma MissingLoadsDefault(file: File, f: Field, rules: Rules, d: Defaults)
    requires !file(f).Done?
    ensures LoadField(file, f, rules, d)
         == Done(d(if file(Network).Done? then file(Network).value else "mainnet", f))
  {
  }

  /** When a text loads, and as what: within its rules as itself, and blank where it must not be as the default. */
  lemma TextLoads(f: Field, text: string, network: string, rules: Rules, d: Defaults)
    requires KindOf(f) == StringKind
    ensures var r := Deserialize(f, text, network, rules, d);
      && (r.Done? <==> (d("mainnet", f) == Str("") || rules.matches(f, text)) && rules.fits(f, text))
      && (r.Done? ==> r.value == if text == "" && !rules.canBeBlank(f) then d(network, f) else Str(text))
  {
  }

  /** A number in the file loads exactly if it fits, where a flag would wrap a port around. */
  lemma NumberLoads(f: Field, n: nat, network: string, rules: Rules, d: Defaults)
    requires f.MetricsNumber? || f == MevContainer(Port)
          || (f.Number? && f != Number(ManualMaxFee) && f != Number(PriorityFee))
    ensures var size := f in {Number(GethCacheSize), Number(NethermindCacheSize), Number(NethermindPruneMemSize),
                              Number(BesuJvmHeapSize), Number(BesuMaxBackLayers), Number(TekuJvmHeapSize)};
      Deserialize(f, Decimal(n), network, rules, d)
        == if n < (if size then 0x1_0000_0000_0000_0000 else 65536) then Done(Num(n)) else Failed("cannot deserialize")
  {
    if n < TWO_TO_THE_64 { ParseInvertsDecimal(n); } else { ParseRefusesLarge(n); }
  }

  /** The two fees are read as floating point numbers. */
  lemma FeeLoads(f: Field, text: string, network: string, rules: Rules, d: Defaults)
    requires f == Number(ManualMaxFee) || f == Number(PriorityFee)
    ensures var r, read := Deserialize(f, text, network, rules, d), rules.float(text);
      r.Done? == read.Done? && (r.Done? ==> r.value == Float(read.value))
  {
  }

  /** A switch is read from twelve texts, and from no other. */
  lemma SwitchLoads(f: Field, text: string, network: string, rules: Rules, d: Defaults)
    requires f.Switch? || f.MetricsSwitch? || f == EnableMetrics || f == UseFallbackClients || f == EnableMevBoost
          || f == MevContainer(OpenRpcPort) || f == Text(EcOpenRpcPorts) || f == Text(PrysmOpenRpcPort)
    ensures var r := Deserialize(f, text, network, rules, d);
      && (r == Done(Bool(true)) <==> text in ["1", "t", "T", "true", "TRUE", "True"])
      && (r == Done(Bool(false)) <==> text in ["0", "f", "F", "false", "FALSE", "False"])
      && (r.Done? ==> r.value.Bool?)
  {
  }

  /** A parameter without a value is saved as a blank. */
  lemma NothingIsSavedBlank()
    ensures Serialize(Nil) == ""
  {
  }
}
