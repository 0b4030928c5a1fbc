// The configuration screen: makeUISettingFromConfig and updateConfigFromUISetting
// with the set and update functions of the six sections.
module EditorScreen {
  import opened Text
  import opened SettingsModel

  /** The keys of the settings map. Several fields can share a key, and a field can have two. */
  datatype Key =
    | Key(field: Field)
    | ProfileKey(container: MevContainerField)  // the MEV-Boost container group in profile mode
    | RelayKey(container: MevContainerField)    // the same group in relay mode
    | GuardianPort

  /** The settings map; a key that is not in it reads as nil, as in Go. */
  type Settings = Key -> Value

  datatype Result<+T> = Done(value: T) | Failed(message: string) | Panicked

  function UiMode(mode: string): string {
    if mode == LOCAL then "Locally Managed" else if mode == EXTERNAL then "Externally Managed" else ""
  }

  function CfgMode(shown: string): string {
    if shown == "Locally Managed" then LOCAL else if shown == "Externally Managed" then EXTERNAL else ""
  }

  function UiSelection(selection: string): string {
    if selection == PROFILE then "Standard Mode" else if selection == RELAY then "Custom Mode" else ""
  }

  function CfgSelection(shown: string): string {
    if shown == "Standard Mode" then PROFILE else if shown == "Custom Mode" then RELAY else ""
  }

  function UiNetwork(network: string): Value {
    if network == PRATER then Str("Goerli Testnet")
    else if network == MAINNET then Str("Ethereum Mainnet")
    else Nil
  }

  function ShowContainer(m: MevContainerField, v: Value): Value {
    if m == Port then Str(Format(v)) else v
  }

  /** What the screen shows for a field of its own key; nil if the field has no such key. */
  function ShowField(f: Field, v: Value): Value
    requires HasTag(v, EditorTag(f))
  {
    match f
    case Network => UiNetwork(v.network)
    case ExecutionClientMode => Str(UiMode(v.mode))
    case ConsensusClientMode => Nil
    case ExecutionClient => Str(Title(v.ec))
    case ConsensusClient => Str(Title(Format(v)))
    case ExternalConsensusClient => Str(Title(Format(v)))
    case MevMode => Str(UiMode(v.mode))
    case MevSelectionMode => Str(UiSelection(v.selection))
    case Fallback(g) => if g == PrysmEc || g == PrysmCc then Nil else v
    case MevContainer(_) => Nil
    case MetricsNumber(_) => Str(Format(v))
    case Number(_) => Str(Format(v))
    case UseFallbackClients | EnableMetrics | EnableMevBoost
      | MetricsText(_) | MetricsSwitch(_) | Text(_) | Switch(_) => v
  }

  /** makeUISettingFromConfig, key by key. */
  function Show(c: Config, k: Key): Value
    requires EditorReadable(c)
  {
    match k
    case GuardianPort => Str("9104")
    case ProfileKey(m) => ShowContainer(m, c(MevContainer(m)))
    case RelayKey(m) => ShowContainer(m, c(MevContainer(m)))
    case Key(f) =>
      assert EditorTyped(c, f);
      ShowField(f, c(f))
  }

  function MakeUISetting(c: Config): Settings
    requires EditorReadable(c)
  {
    k => Show(c, k)
  }

  /** The network that the settings ask for, if they name one of the two known ones. */
  function TargetNetwork(c: Config, s: Settings, d: Defaults): Config {
    if s(Key(Network)) == Str("Goerli Testnet") then ChangeNetwork(c, PRATER, d)
    else if s(Key(Network)) == Str("Ethereum Mainnet") then ChangeNetwork(c, MAINNET, d)
    else c
  }

  /** A setting that has been asserted to be a string. */
  function AsString(v: Value): string {
    if v.Str? then v.s else ""
  }

  /** The selection mode that decides which key group the MEV-Boost container is written from. */
  function SelectedGroup(s: Settings): string {
    CfgSelection(AsString(s(Key(MevSelectionMode))))
  }

  /** Whether the settings' switch lets a field be written. */
  predicate IsOpen(f: Field, s: Settings) {
    match f
    case Fallback(_) => s(Key(UseFallbackClients)) == Bool(true)
    case MetricsText(_) | MetricsNumber(_) | MetricsSwitch(_) => s(Key(EnableMetrics)) == Bool(true)
    case MevContainer(_) => SelectedGroup(s) != ""
    case _ => true
  }

  /** The assertions of updateConfigFromUISetting that panic. */
  predicate ClientsAsserted(s: Settings) {
    s(Key(Network)).Str? && s(Key(ExecutionClient)).Str? && s(Key(ExternalConsensusClient)).Str?
  }

  predicate SwitchesAsserted(s: Settings) {
    && s(Key(UseFallbackClients)).Bool? && s(Key(EnableMetrics)).Bool?
    && s(Key(MevMode)).Str? && s(Key(MevSelectionMode)).Str?
  }

  predicate Accepted(s: Settings) {
    ClientsAsserted(s) && s(Key(ConsensusClient)).Str? && SwitchesAsserted(s)
  }

  /** What an open field is set to. */
  function Written(f: Field, c: Config, s: Settings): Value {
    match f
    case Network => c(Network)
    case ExecutionClientMode => ModeV(CfgMode(Format(s(Key(ExecutionClientMode)))))
    case ConsensusClientMode => ModeV(CfgMode(Format(s(Key(ExecutionClientMode)))))
    case ExecutionClient => ExecutionClientV(ToLower(AsString(s(Key(f)))))
    case ConsensusClient => ConsensusClientV(ToLower(AsString(s(Key(f)))))
    case ExternalConsensusClient => ConsensusClientV(ToLower(AsString(s(Key(f)))))
    case EnableMevBoost => Bool(true)
    case MevMode => ModeV(CfgMode(AsString(s(Key(f)))))
    case MevSelectionMode => SelectionV(CfgSelection(AsString(s(Key(f)))))
    case Fallback(g) =>
      s(Key(Fallback(match g
                     case PrysmEc => NormalEc
                     case PrysmCc => NormalCc
                     case _ => g)))
    case MevContainer(m) => if SelectedGroup(s) == PROFILE then s(ProfileKey(m)) else s(RelayKey(m))
    case _ => s(Key(f))
  }

  /** The configuration that updateConfigFromUISetting returns when nothing goes wrong. */
  function Updated(c: Config, s: Settings, d: Defaults): Config
    requires Accepted(s)
  {
    var base := TargetNetwork(c, s, d);
    (f: Field) => if IsOpen(f, s) then Written(f, base, s) else base(f)
  }

  function UpdateConfigFromUISetting(c: Config, s: Settings, d: Defaults): Result<Config> {
    if !ClientsAsserted(s) then Panicked
    else if !s(Key(ConsensusClient)).Str? then Failed("Invalid External client")
    else if !SwitchesAsserted(s) then Panicked
    else Done(Updated(c, s, d))
  }

  // ---- Showing and writing back ----

  /** Settings that leave the network alone. */
  predicate KeepsNetwork(c: Config, s: Settings) {
    && (s(Key(Network)) == Str("Goerli Testnet") ==> c(Network) == NetworkV(PRATER))
    && (s(Key(Network)) == Str("Ethereum Mainnet") ==> c(Network) == NetworkV(MAINNET))
  }

  /** The network is one that the screen can show. */
  predicate OnShownNetwork(c: Config) {
    c(Network) == NetworkV(PRATER) || c(Network) == NetworkV(MAINNET)
  }

  lemma ModesAgree(m: string)
    ensures UiMode(CfgMode(UiMode(m))) == UiMode(m)
    ensures CfgMode(UiMode(CfgMode(m))) == CfgMode(m)
    ensures UiSelection(CfgSelection(UiSelection(m))) == UiSelection(m)
    ensures CfgSelection(UiSelection(CfgSelection(m))) == CfgSelection(m)
  {
  }

  /** What the screen shows under a field's own key. */
  lemma ShownAt(c: Config, f: Field)
    requires EditorReadable(c)
    ensures EditorTyped(c, f) && MakeUISetting(c)(Key(f)) == ShowField(f, c(f))
  {
    assert EditorTyped(c, f);
  }

  lemma NamesShown(c: Config)
    requires EditorReadable(c)
    ensures var s := MakeUISetting(c);
      s(Key(ExecutionClient)).Str? && s(Key(ConsensusClient)).Str? && s(Key(ExternalConsensusClient)).Str?
  {
    ShownAt(c, ExecutionClient);
    ShownAt(c, ConsensusClient);
    ShownAt(c, ExternalConsensusClient);
  }

  lemma SwitchesShown(c: Config)
    requires EditorReadable(c)
    ensures SwitchesAsserted(MakeUISetting(c))
  {
    ShownAt(c, UseFallbackClients);
    ShownAt(c, EnableMetrics);
    ShownAt(c, MevMode);
    ShownAt(c, MevSelectionMode);
  }

  lemma NetworkShown(c: Config)
    requires EditorReadable(c)
    ensures MakeUISetting(c)(Key(Network)).Str? <==> OnShownNetwork(c)
    ensures KeepsNetwork(c, MakeUISetting(c))
  {
    ShownAt(c, Network);
  }

  /** What the screen shows can be written back, if and only if the network is one it can show. */
  lemma ShownIsAccepted(c: Config)
    requires EditorReadable(c)
    ensures Accepted(MakeUISetting(c)) <==> OnShownNetwork(c)
    ensures KeepsNetwork(c, MakeUISetting(c))
  {
    NamesShown(c);
    SwitchesShown(c);
    NetworkShown(c);
  }

  lemma UpdatedIs(c: Config, s: Settings, d: Defaults, f: Field)
    requires Accepted(s)
    ensures var base := TargetNetwork(c, s, d);
      Updated(c, s, d)(f) == if IsOpen(f, s) then Written(f, base, s) else base(f)
  {
  }

  /** Without a network change an update writes the open fields and leaves the others. */
  lemma UpdatedAt(c: Config, s: Settings, d: Defaults, f: Field)
    requires Accepted(s) && KeepsNetwork(c, s)
    ensures Updated(c, s, d)(f) == if IsOpen(f, s) then Written(f, c, s) else c(f)
  {
  }

  predicate IsClientName(f: Field) {
    f == ExecutionClient || f == ConsensusClient || f == ExternalConsensusClient
  }

  /** The fields that the screen shows under a key of their own and as they are, or as text. */
  predicate IsPlain(f: Field) {
    f.Text? || f.Number? || f.Switch? || f.MetricsText? || f.MetricsNumber? || f.MetricsSwitch? || f.Fallback?
    || f == UseFallbackClients || f == EnableMetrics
  }

  /** Fields that are written as they come. */
  lemma WrittenAsIs(c: Config, s: Settings, f: Field)
    requires Accepted(s) && IsPlain(f) && f != Fallback(PrysmEc) && f != Fallback(PrysmCc)
    ensures Written(f, c, s) == s(Key(f))
  {
  }

  /** The Prysm copies of the fallback URLs are written like the normal ones. */
  lemma CopyWritten(c: Config, s: Settings)
    requires Accepted(s)
    ensures Written(Fallback(PrysmEc), c, s) == Written(Fallback(NormalEc), c, s)
    ensures Written(Fallback(PrysmCc), c, s) == Written(Fallback(NormalCc), c, s)
  {
  }

  lemma ContainerKeys(c: Config, m: MevContainerField)
    requires EditorReadable(c)
    ensures MakeUISetting(c)(ProfileKey(m)) == ShowContainer(m, c(MevContainer(m)))
    ensures MakeUISetting(c)(RelayKey(m)) == ShowContainer(m, c(MevContainer(m)))
  {
  }

  lemma ContainerFromEither(c: Config, s: Settings, m: MevContainerField, v: Value)
    requires s(ProfileKey(m)) == v && s(RelayKey(m)) == v
    ensures Written(MevContainer(m), c, s) == v
  {
  }

  lemma ContainerAsShown(c: Config, m: MevContainerField)
    requires EditorReadable(c)
    ensures Written(MevContainer(m), c, MakeUISetting(c)) == ShowContainer(m, c(MevContainer(m)))
  {
    ContainerKeys(c, m);
    ContainerFromEither(c, MakeUISetting(c), m, ShowContainer(m, c(MevContainer(m))));
  }

  /** Client names are shown titled, whatever their type. */
  lemma ClientShown(c: Config, f: Field)
    requires EditorReadable(c) && IsClientName(f)
    ensures MakeUISetting(c)(Key(f)) == Show(c, Key(f)) == Str(Title(Format(c(f))))
  {
    assert EditorTyped(c, f);
  }

  lemma ClientWritten(c: Config, s: Settings, f: Field, name: string)
    requires Accepted(s) && IsClientName(f) && s(Key(f)) == Str(name)
    ensures var v := Written(f, c, s); HasTag(v, EditorTag(f)) && Format(v) == ToLower(name)
  {
  }

  lemma WrittenBackClient(c: Config, d: Defaults, f: Field)
    requires EditorReadable(c) && OnShownNetwork(c) && Accepted(MakeUISetting(c))
    requires IsClientName(f)
    ensures var v := Updated(c, MakeUISetting(c), d)(f);
      HasTag(v, EditorTag(f)) && Format(v) == ToLower(Title(Format(c(f))))
  {
    ShownIsAccepted(c);
    UpdatedAt(c, MakeUISetting(c), d, f);
    ClientShown(c, f);
    ClientWritten(c, MakeUISetting(c), f, Title(Format(c(f))));
  }

  lemma PlainTwice(f: Field, v: Value)
    requires HasTag(v, EditorTag(f)) && IsPlain(f) && f != Fallback(PrysmEc) && f != Fallback(PrysmCc)
    ensures HasTag(ShowField(f, v), EditorTag(f)) && ShowField(f, ShowField(f, v)) == ShowField(f, v)
  {
  }

  lemma WrittenBackPlain(c: Config, d: Defaults, f: Field)
    requires EditorReadable(c) && OnShownNetwork(c) && Accepted(MakeUISetting(c))
    requires IsPlain(f)
    ensures EditorTyped(c, f)
    ensures var v := Updated(c, MakeUISetting(c), d)(f);
      HasTag(v, EditorTag(f)) && ShowField(f, v) == ShowField(f, c(f))
  {
    var s := MakeUISetting(c);
    ShownIsAccepted(c);
    UpdatedAt(c, s, d, f);
    ShownAt(c, f);
    if f != Fallback(PrysmEc) && f != Fallback(PrysmCc) {
      WrittenAsIs(c, s, f);
      PlainTwice(f, c(f));
    }
  }

  lemma ContainerTwice(m: MevContainerField, v: Value)
    requires HasTag(v, EditorTag(MevContainer(m)))
    ensures HasTag(ShowContainer(m, v), EditorTag(MevContainer(m)))
    ensures ShowContainer(m, ShowContainer(m, v)) == ShowContainer(m, v)
  {
  }

  lemma WrittenBackContainer(c: Config, d: Defaults, m: MevContainerField)
    requires EditorReadable(c) && OnShownNetwork(c) && Accepted(MakeUISetting(c))
    ensures var v := Updated(c, MakeUISetting(c), d)(MevContainer(m));
      HasTag(v, EditorTag(MevContainer(m))) && ShowContainer(m, v) == ShowContainer(m, c(MevContainer(m)))
  {
    var f := MevContainer(m);
    ShownIsAccepted(c);
    UpdatedAt(c, MakeUISetting(c), d, f);
    ContainerAsShown(c, m);
    ContainerTwice(m, c(f)) by {
      assert EditorTyped(c, f);
    }
  }

  /** Modes, in terms of the names that the screen shows for them. */
  lemma ModesWritten(c: Config, s: Settings)
    requires Accepted(s) && s(Key(ExecutionClientMode)).Str?
    ensures Written(ExecutionClientMode, c, s) == ModeV(CfgMode(s(Key(ExecutionClientMode)).s))
    ensures Written(ConsensusClientMode, c, s) == ModeV(CfgMode(s(Key(ExecutionClientMode)).s))
    ensures Written(MevMode, c, s) == ModeV(CfgMode(s(Key(MevMode)).s))
    ensures Written(MevSelectionMode, c, s) == SelectionV(CfgSelection(s(Key(MevSelectionMode)).s))
  {
  }

  lemma WrittenBackMode(c: Config, d: Defaults, f: Field)
    requires EditorReadable(c) && OnShownNetwork(c) && Accepted(MakeUISetting(c))
    requires !IsClientName(f) && !IsPlain(f) && !f.MevContainer?
    ensures EditorTyped(c, f)
    ensures var v := Updated(c, MakeUISetting(c), d)(f);
      && HasTag(v, EditorTag(f))
      && ShowField(f, v) == if f == EnableMevBoost then Bool(true) else ShowField(f, c(f))
  {
    var s := MakeUISetting(c);
    ShownIsAccepted(c);
    UpdatedAt(c, s, d, f);
    ShownAt(c, f);
    ShownAt(c, ExecutionClientMode);
    ModesWritten(c, s);
    if f == ExecutionClientMode || f == MevMode {
      ModesAgree(c(f).mode);
    } else if f == MevSelectionMode {
      ModesAgree(c(f).selection);
    }
  }

  /** What becomes of one field when the screen writes back what it shows. */
  lemma WrittenBackAt(c: Config, d: Defaults, f: Field)
    requires EditorReadable(c) && OnShownNetwork(c) && Accepted(MakeUISetting(c))
    ensures EditorTyped(Updated(c, MakeUISetting(c), d), f)
  {
    if IsClientName(f) { WrittenBackClient(c, d, f); }
    else if IsPlain(f) { WrittenBackPlain(c, d, f); }
    else if f.MevContainer? { WrittenBackContainer(c, d, f.container); }
    else { WrittenBackMode(c, d, f); }
  }

  /** Writing back what is shown leaves a configuration that the screen can show. */
  lemma WriteBackReadable(c: Config, d: Defaults)
    requires EditorReadable(c) && OnShownNetwork(c) && Accepted(MakeUISetting(c))
    ensures EditorReadable(Updated(c, MakeUISetting(c), d))
  {
    forall f: Field ensures EditorTyped(Updated(c, MakeUISetting(c), d), f) {
      WrittenBackAt(c, d, f);
    }
  }

  /** What the screen shows under a key after writing back what it showed. */
  function ShownAgain(c: Config, d: Defaults, k: Key): Value
    requires EditorReadable(c) && OnShownNetwork(c)
  {
    ShownIsAccepted(c);
    WriteBackReadable(c, d);
    Show(Updated(c, MakeUISetting(c), d), k)
  }

  lemma ClientShownAgain(c: Config, d: Defaults, f: Field)
    requires EditorReadable(c) && OnShownNetwork(c) && IsClientName(f)
    ensures ShownAgain(c, d, Key(f)) == Show(c, Key(f)) <==> PlainWords(Format(c(f)))
  {
    ShownIsAccepted(c);
    WriteBackReadable(c, d);
    ClientShown(c, f);
    ClientShown(Updated(c, MakeUISetting(c), d), f);
    WrittenBackClient(c, d, f);
    TitleOfLowerOfTitle(Format(c(f)));
  }

  /**
   * Showing is stable under writing back: every key shows the same value again, except that
   * MEV-Boost is switched on, and except a client name with a capital inside a word.
   */
  lemma ShowingIsStable(c: Config, d: Defaults, k: Key)
    requires EditorReadable(c) && OnShownNetwork(c)
    ensures ShownAgain(c, d, k) == (if k == Key(EnableMevBoost) then Bool(true) else Show(c, k))
       <==> (k.Key? && IsClientName(k.field) ==> PlainWords(Format(c(k.field))))
  {
    ShownIsAccepted(c);
    WriteBackReadable(c, d);
    match k {
      case GuardianPort =>
      case ProfileKey(m) => WrittenBackContainer(c, d, m);
      case RelayKey(m) => WrittenBackContainer(c, d, m);
      case Key(f) =>
        if IsClientName(f) {
          ClientShownAgain(c, d, f);
        } else if IsPlain(f) {
          WrittenBackPlain(c, d, f);
        } else if f.MevContainer? {
        } else {
          WrittenBackMode(c, d, f);
        }
    }
  }

  // ---- Saving twice ----

  predicate NamesNetwork(s: Settings) {
    s(Key(Network)) == Str("Goerli Testnet") || s(Key(Network)) == Str("Ethereum Mainnet")
  }

  function NetworkOf(c: Config): string {
    if c(Network).NetworkV? then c(Network).network else ""
  }

  /**
   * Saving s1 and then s2. A field whose switch is on in s2 is what saving s2 alone makes of it.
   * A field whose switch is off in s2 is what s1 left, unless s2 changes the network and s1 left
   * the old network's default there: then it is the new network's default.
   */
  lemma SecondSaveDecides(c: Config, s1: Settings, s2: Settings, d: Defaults, f: Field)
    requires Accepted(s1) && Accepted(s2)
    ensures IsOpen(f, s2) && (f == Network ==> NamesNetwork(s2)) ==>
      Updated(Updated(c, s1, d), s2, d)(f) == Updated(c, s2, d)(f)
    ensures var c1 := Updated(c, s1, d);
      !IsOpen(f, s2) ==>
        Updated(c1, s2, d)(f) ==
          if !KeepsNetwork(c1, s2) && c1(f) == d(NetworkOf(c1), f) then d(NetworkOf(Updated(c1, s2, d)), f) else c1(f)
  {
    var c1 := Updated(c, s1, d);
    if IsOpen(f, s2) {
      assert f != Network ==> Written(f, TargetNetwork(c1, s2, d), s2) == Written(f, TargetNetwork(c, s2, d), s2);
    }
  }

  /** The fields shown as text only: what comes back from the screen is a string. */
  predicate IsNumeral(f: Field) {
    f.Number? || f.MetricsNumber? || f == MevContainer(Port)
  }

  /** After saving, both key groups of the MEV-Boost container show what the selected group said. */
  lemma GroupsMerge(c: Config, s: Settings, d: Defaults, m: MevContainerField)
    requires Accepted(s) && IsOpen(MevContainer(m), s) && EditorReadable(Updated(c, s, d))
    ensures var standard := s(Key(MevSelectionMode)) == Str("Standard Mode");
      var selected := if standard then s(ProfileKey(m)) else s(RelayKey(m));
      && Show(Updated(c, s, d), ProfileKey(m)) == ShowContainer(m, selected)
      && Show(Updated(c, s, d), RelayKey(m)) == ShowContainer(m, selected)
  {
    var c' := Updated(c, s, d);
    assert c'(MevContainer(m)) == Written(MevContainer(m), TargetNetwork(c, s, d), s);
  }

  /** A saved value is the shown one exactly when its switch is on or it was shown already. */
  lemma SavedIsShown(c: Config, s: Settings, d: Defaults, f: Field)
    requires Accepted(s) && KeepsNetwork(c, s)
    requires EditorReadable(c) && EditorReadable(Updated(c, s, d))
    requires f.Text? || f.Switch? || f.MetricsText? || f.MetricsSwitch?
          || (f.Fallback? && f.fallback != PrysmEc && f.fallback != PrysmCc)
          || ((f.Number? || f.MetricsNumber?) && s(Key(f)).Str?)
    ensures Show(Updated(c, s, d), Key(f)) == s(Key(f)) <==> IsOpen(f, s) || Show(c, Key(f)) == s(Key(f))
  {
    UpdatedAt(c, s, d, f);
  }

  /** The switches and the selected group are shown as they were saved. */
  lemma SwitchShown(c: Config, s: Settings, d: Defaults, f: Field)
    requires Accepted(s) && EditorReadable(Updated(c, s, d))
    requires f == UseFallbackClients || f == EnableMetrics
    ensures MakeUISetting(Updated(c, s, d))(Key(f)) == s(Key(f))
  {
    UpdatedIs(c, s, d, f);
    WrittenAsIs(TargetNetwork(c, s, d), s, f);
    assert IsOpen(f, s);
    PlainShown(Updated(c, s, d), f);
  }

  lemma GroupShown(c: Config, s: Settings, d: Defaults)
    requires Accepted(s) && EditorReadable(Updated(c, s, d))
    ensures MakeUISetting(Updated(c, s, d))(Key(MevSelectionMode)) == Str(UiSelection(SelectedGroup(s)))
    ensures CfgSelection(UiSelection(SelectedGroup(s))) == SelectedGroup(s)
  {
    ModesAgree(s(Key(MevSelectionMode)).s);
  }

  lemma SavedSwitches(c: Config, s: Settings, d: Defaults, f: Field)
    requires Accepted(s) && EditorReadable(Updated(c, s, d)) && Accepted(MakeUISetting(Updated(c, s, d)))
    ensures IsOpen(f, MakeUISetting(Updated(c, s, d))) == IsOpen(f, s)
    ensures SelectedGroup(MakeUISetting(Updated(c, s, d))) == SelectedGroup(s)
  {
    SwitchShown(c, s, d, UseFallbackClients);
    SwitchShown(c, s, d, EnableMetrics);
    GroupShown(c, s, d);
  }

  lemma ClientKept(c: Config, s: Settings, d: Defaults, f: Field)
    requires Accepted(s) && EditorReadable(Updated(c, s, d)) && IsClientName(f)
    requires Accepted(MakeUISetting(Updated(c, s, d)))
    ensures var c' := Updated(c, s, d); Written(f, c', MakeUISetting(c')) == c'(f)
  {
    var c' := Updated(c, s, d);
    ClientShown(c', f);
    ClientWritten(c, s, f, s(Key(f)).s);
    ClientWritten(c', MakeUISetting(c'), f, Title(Format(c'(f))));
    LoweredIsLower(s(Key(f)).s);
    LowerOfTitle(Format(c'(f)));
  }

  lemma AsText(v: Value)
    ensures Str(Format(v)) == v <==> v.Str?
  {
  }

  lemma NumeralShown(c: Config, f: Field)
    requires EditorReadable(c) && (f.Number? || f.MetricsNumber?)
    ensures MakeUISetting(c)(Key(f)) == Str(Format(c(f)))
  {
    ShownAt(c, f);
  }

  lemma PlainShown(c: Config, f: Field)
    requires EditorReadable(c) && IsPlain(f) && !f.Number? && !f.MetricsNumber?
    requires f != Fallback(PrysmEc) && f != Fallback(PrysmCc)
    ensures MakeUISetting(c)(Key(f)) == c(f)
  {
    ShownAt(c, f);
  }

  /** An uncopied field that is written as it is shown keeps its value, unless it is a numeral that is not text. */
  lemma PlainKept(c: Config, f: Field)
    requires EditorReadable(c) && Accepted(MakeUISetting(c))
    requires IsPlain(f) && f != Fallback(PrysmEc) && f != Fallback(PrysmCc)
    ensures Written(f, c, MakeUISetting(c)) == c(f) <==> (IsNumeral(f) ==> c(f).Str?)
  {
    WrittenAsIs(c, MakeUISetting(c), f);
    if f.Number? || f.MetricsNumber? {
      NumeralShown(c, f);
      AsText(c(f));
    } else {
      PlainShown(c, f);
    }
  }

  lemma CopyKept(c: Config, s: Settings, d: Defaults)
    requires Accepted(s) && EditorReadable(Updated(c, s, d)) && IsOpen(Fallback(NormalEc), s)
    requires Accepted(MakeUISetting(Updated(c, s, d)))
    ensures var c' := Updated(c, s, d);
      && Written(Fallback(PrysmEc), c', MakeUISetting(c')) == c'(Fallback(PrysmEc))
      && Written(Fallback(PrysmCc), c', MakeUISetting(c')) == c'(Fallback(PrysmCc))
  {
    var c' := Updated(c, s, d);
    forall g: FallbackField
      ensures c'(Fallback(g)) == Written(Fallback(g), TargetNetwork(c, s, d), s)
    {
      UpdatedIs(c, s, d, Fallback(g));
    }
    CopyWritten(TargetNetwork(c, s, d), s);
    CopyWritten(c', MakeUISetting(c'));
    PlainKept(c', Fallback(NormalEc));
    PlainKept(c', Fallback(NormalCc));
  }

  lemma ContainerKept(c: Config, m: MevContainerField)
    requires EditorReadable(c) && Accepted(MakeUISetting(c))
    ensures Written(MevContainer(m), c, MakeUISetting(c)) == c(MevContainer(m))
       <==> (m == Port ==> c(MevContainer(m)).Str?)
  {
    AsText(c(MevContainer(m)));
    ContainerAsShown(c, m);
  }

  lemma SavedModes(c: Config, s: Settings, d: Defaults)
    requires Accepted(s)
    ensures var c' := Updated(c, s, d);
      && c'(ExecutionClientMode) == c'(ConsensusClientMode) == ModeV(CfgMode(Format(s(Key(ExecutionClientMode)))))
      && c'(MevMode) == ModeV(CfgMode(s(Key(MevMode)).s))
      && c'(MevSelectionMode) == SelectionV(SelectedGroup(s))
      && c'(EnableMevBoost) == Bool(true)
  {
    UpdatedIs(c, s, d, ExecutionClientMode);
    UpdatedIs(c, s, d, ConsensusClientMode);
    UpdatedIs(c, s, d, MevMode);
    UpdatedIs(c, s, d, MevSelectionMode);
    UpdatedIs(c, s, d, EnableMevBoost);
  }

  /** A configuration with modes that were saved shows them under names that stand for them. */
  lemma ModesShown(c: Config, mode: string, mev: string, group: string)
    requires EditorReadable(c)
    requires c(ExecutionClientMode) == ModeV(CfgMode(mode)) && c(MevMode) == ModeV(CfgMode(mev))
    requires c(MevSelectionMode) == SelectionV(CfgSelection(group))
    ensures var s := MakeUISetting(c);
      && s(Key(ExecutionClientMode)).Str? && CfgMode(s(Key(ExecutionClientMode)).s) == CfgMode(mode)
      && s(Key(MevMode)).Str? && CfgMode(s(Key(MevMode)).s) == CfgMode(mev)
      && s(Key(MevSelectionMode)).Str? && CfgSelection(s(Key(MevSelectionMode)).s) == CfgSelection(group)
  {
    ShownAt(c, ExecutionClientMode);
    ShownAt(c, MevMode);
    ShownAt(c, MevSelectionMode);
    ModesAgree(mode);
    ModesAgree(mev);
    ModesAgree(group);
  }

  lemma ModeKept(c: Config, s: Settings, d: Defaults, f: Field)
    requires Accepted(s) && EditorReadable(Updated(c, s, d)) && !IsClientName(f) && !IsPlain(f) && !f.MevContainer?
    requires Accepted(MakeUISetting(Updated(c, s, d)))
    ensures var c' := Updated(c, s, d); Written(f, c', MakeUISetting(c')) == c'(f)
  {
    var c' := Updated(c, s, d);
    if f != Network {
      assert f.ExecutionClientMode? || f.ConsensusClientMode? || f.MevMode? || f.MevSelectionMode? || f.EnableMevBoost?;
      SavedModes(c, s, d);
      ModesShown(c', Format(s(Key(ExecutionClientMode))), s(Key(MevMode)).s, s(Key(MevSelectionMode)).s);
      ModesWritten(c', MakeUISetting(c'));
    }
  }

  /**
   * Saving what is shown right after a save changes nothing at all, not even a type, exactly
   * where a written numeral is text.
   */
  lemma SavingAgainChangesNothing(c: Config, s: Settings, d: Defaults, f: Field)
    requires Accepted(s) && EditorReadable(Updated(c, s, d)) && OnShownNetwork(Updated(c, s, d))
    ensures Accepted(MakeUISetting(Updated(c, s, d)))
    ensures var c' := Updated(c, s, d);
      Updated(c', MakeUISetting(c'), d)(f) == c'(f) <==> (IsNumeral(f) && IsOpen(f, s) ==> c'(f).Str?)
  {
    var c' := Updated(c, s, d);
    ShownIsAccepted(c');
    SavedSwitches(c, s, d, f);
    UpdatedAt(c', MakeUISetting(c'), d, f);
    if IsOpen(f, s) {
      if IsClientName(f) { ClientKept(c, s, d, f); }
      else if f.MevContainer? { ContainerKept(c', f.container); }
      else if f == Fallback(PrysmEc) || f == Fallback(PrysmCc) { CopyKept(c, s, d); }
      else if IsPlain(f) { PlainKept(c', f); }
      else { ModeKept(c, s, d, f); }
    }
  }

  // ---- Which settings are saved where ----

  /** The network that is saved. */
  lemma NetworkSaved(c: Config, s: Settings, d: Defaults)
    requires Accepted(s) && c(Network).NetworkV?
    ensures Updated(c, s, d)(Network)
         == if s(Key(Network)) == Str("Goerli Testnet") then NetworkV("prater")
            else if s(Key(Network)) == Str("Ethereum Mainnet") then NetworkV("mainnet") else c(Network)
  {
    UpdatedIs(c, s, d, Network);
  }

  /** The fallback fields follow their switch, and one URL of each kind is saved for both. */
  lemma FallbackFollowsSwitch(c: Config, s: Settings, d: Defaults, g: FallbackField)
    requires Accepted(s)
    ensures var setting := if g == PrysmEc then NormalEc else if g == PrysmCc then NormalCc else g;
      var on := s(Key(UseFallbackClients)) == Bool(true);
      Updated(c, s, d)(Fallback(g)) == if on then s(Key(Fallback(setting))) else TargetNetwork(c, s, d)(Fallback(g))
  {
    UpdatedIs(c, s, d, Fallback(g));
  }

  /** The monitoring fields follow their switch. */
  lemma MetricsFollowSwitch(c: Config, s: Settings, d: Defaults, f: Field)
    requires Accepted(s) && (f.MetricsText? || f.MetricsNumber? || f.MetricsSwitch?)
    ensures Updated(c, s, d)(f) == if s(Key(EnableMetrics)) == Bool(true) then s(Key(f)) else TargetNetwork(c, s, d)(f)
  {
    UpdatedIs(c, s, d, f);
  }

  /** The MEV-Boost container's fields are saved from the group of the selected mode, and left for any other mode. */
  lemma ContainerFollowsMode(c: Config, s: Settings, d: Defaults, m: MevContainerField)
    requires Accepted(s)
    ensures Updated(c, s, d)(MevContainer(m))
         == if s(Key(MevSelectionMode)) == Str("Standard Mode") then s(ProfileKey(m))
            else if s(Key(MevSelectionMode)) == Str("Custom Mode") then s(RelayKey(m))
            else TargetNetwork(c, s, d)(MevContainer(m))
  {
    UpdatedIs(c, s, d, MevContainer(m));
  }

  /** The names of the modes. */
  lemma ModesHaveNames()
    ensures CfgMode("Locally Managed") == "local" && CfgMode("Externally Managed") == "external"
    ensures UiMode("local") == "Locally Managed" && UiMode("external") == "Externally Managed"
    ensures CfgSelection("Standard Mode") == "profile" && CfgSelection("Custom Mode") == "relay"
    ensures UiSelection("profile") == "Standard Mode" && UiSelection("relay") == "Custom Mode"
  {
  }

  /** Settings that differ in the guardian's port only. */
  ghost predicate SameButForGuardian(s: Settings, t: Settings) {
    forall k: Key :: k != GuardianPort ==> s(k) == t(k)
  }

  lemma GuardianNotWritten(f: Field, c: Config, s: Settings, t: Settings)
    requires SameButForGuardian(s, t)
    ensures Written(f, c, s) == Written(f, c, t) && IsOpen(f, s) == IsOpen(f, t)
  {
  }

  /** The guardian's port is always shown as the same, and what is entered for it is never saved. */
  lemma GuardianPortIsFixed(c: Config, s: Settings, t: Settings, d: Defaults, f: Field)
    requires EditorReadable(c) && Accepted(s) && SameButForGuardian(s, t)
    ensures MakeUISetting(c)(GuardianPort) == Str("9104")
    ensures Accepted(t) && Updated(c, t, d)(f) == Updated(c, s, d)(f)
  {
    UpdatedIs(c, s, d, f);
    UpdatedIs(c, t, d, f);
    GuardianNotWritten(f, TargetNetwork(c, s, d), s, t);
  }
}
