// One session of `stader-cli service config`: handleUI alternates between the wizard and the
// configuration screen until the user leaves one of them.
module ConfigSession {
  import opened SettingsModel
  import opened EditorScreen
  import opened WizardScreen
  import opened SavedConfig

  datatype Screen = OnWizard | OnConfiguration

  /** What the user does on a screen: whether to save, whether to go to the other screen, and the settings. */
  datatype Turn =
    | FromWizard(saved: bool, leave: bool, wizard: Wizard)
    | FromConfiguration(saved: bool, leave: bool, settings: Settings)

  datatype Outcome = Left(saved: bool, config: Config) | Stopped(message: string) | Crashed | StillOpen

  predicate Fits(screen: Screen, t: Turn) {
    screen.OnWizard? == t.FromWizard?
  }

  /** handleUI on the turns that the user takes; StillOpen if they have not left yet. */
  ghost function HandleUI(screen: Screen, c: Config, turns: seq<Turn>, d: Defaults): Outcome
    requires Alternating(screen, turns)
    decreases |turns|
  {
    match screen
    case OnWizard =>
      if NewSettings(c).Panicked? then Crashed
      else if turns == [] then StillOpen
      else
        var c' := UpdateConfig(c, turns[0].wizard, d);
        if turns[0].leave then HandleUI(OnConfiguration, c', turns[1..], d) else Left(turns[0].saved, c')
    case OnConfiguration =>
      if !EditorReadable(c) then Crashed
      else if turns == [] then StillOpen
      else
        match UpdateConfigFromUISetting(c, turns[0].settings, d)
        case Panicked => Crashed
        case Failed(message) => Stopped(message)
        case Done(c') =>
          if turns[0].leave then HandleUI(OnWizard, c', turns[1..], d) else Left(turns[0].saved, c')
  }

  /** Turns come from the screens in alternation, and none after a screen is left for good. */
  predicate Alternating(screen: Screen, turns: seq<Turn>)
    decreases |turns|
  {
    turns != [] ==>
      && Fits(screen, turns[0])
      && (!turns[0].leave ==> |turns| == 1)
      && Alternating(if screen.OnWizard? then OnConfiguration else OnWizard, turns[1..])
  }

  // ---- The screens of a session, one after the other ----

  function Other(screen: Screen): Screen {
    if screen.OnWizard? then OnConfiguration else OnWizard
  }

  /** The screen of turn i. */
  function ScreenAt(first: Screen, i: nat): Screen {
    if i % 2 == 0 then first else Other(first)
  }

  ghost predicate Opens(screen: Screen, c: Config) {
    if screen.OnWizard? then WizardReadable(c) else EditorReadable(c)
  }

  /** What a turn makes of a configuration. */
  function AfterTurn(c: Config, t: Turn, d: Defaults): Result<Config> {
    match t
    case FromWizard(_, _, w) => Done(UpdateConfig(c, w, d))
    case FromConfiguration(_, _, s) => UpdateConfigFromUISetting(c, s, d)
  }

  /** One turn: the screen opens, and its settings make the next configuration. */
  ghost predicate Passes(screen: Screen, c: Config, t: Turn, next: Config, d: Defaults) {
    Opens(screen, c) && AfterTurn(c, t, d) == Done(next)
  }

  /** Each visited configuration is what the screen before it made. */
  ghost predicate Visits(first: Screen, visited: seq<Config>, turns: seq<Turn>, d: Defaults) {
    && 1 <= |visited| <= |turns| + 1
    && forall i :: 0 <= i < |visited| - 1 ==> Passes(ScreenAt(first, i), visited[i], turns[i], visited[i + 1], d)
  }

  lemma VisitsMore(screen: Screen, c: Config, later: seq<Config>, turns: seq<Turn>, d: Defaults)
    requires turns != [] && Visits(Other(screen), later, turns[1..], d) && Passes(screen, c, turns[0], later[0], d)
    ensures Visits(screen, [c] + later, turns, d)
  {
    var visited := [c] + later;
    forall i | 0 <= i < |later| ensures Passes(ScreenAt(screen, i), visited[i], turns[i], visited[i + 1], d) {
      if i > 0 { assert Passes(ScreenAt(Other(screen), i - 1), later[i - 1], turns[1..][i - 1], later[i], d); }
    }
  }

  /** How settings that are not accepted end a session. */
  predicate EndsWith(result: Result<Config>, out: Outcome) {
    match result
    case Panicked => out == Crashed
    case Failed(message) => out == Stopped(message)
    case Done(_) => false
  }

  /** How a session ends that has come to this configuration after n turns. */
  ghost predicate EndsAt(screen: Screen, c: Config, turns: seq<Turn>, n: nat, d: Defaults, out: Outcome)
    requires n <= |turns|
  {
    if n > 0 && !turns[n - 1].leave then out == Left(turns[n - 1].saved, c)
    else if !Opens(screen, c) then out == Crashed
    else if n == |turns| then out == StillOpen
    else EndsWith(AfterTurn(c, turns[n], d), out)
  }

  lemma EndsLater(first: Screen, c: Config, turns: seq<Turn>, n: nat, d: Defaults, out: Outcome)
    requires turns != [] && turns[0].leave && n < |turns|
    requires EndsAt(ScreenAt(Other(first), n), c, turns[1..], n, d, out)
    ensures EndsAt(ScreenAt(first, n + 1), c, turns, n + 1, d, out)
  {
    assert ScreenAt(first, n + 1) == ScreenAt(Other(first), n);
    assert n > 0 ==> turns[1..][n - 1] == turns[n];
  }

  lemma NextScreen(screen: Screen, c: Config, turns: seq<Turn>, next: Config, d: Defaults)
    requires Alternating(screen, turns) && turns != [] && Passes(screen, c, turns[0], next, d)
    ensures HandleUI(screen, c, turns, d)
         == if turns[0].leave then HandleUI(Other(screen), next, turns[1..], d) else Left(turns[0].saved, next)
    ensures !turns[0].leave ==> EndsAt(ScreenAt(screen, 1), next, turns, 1, d, HandleUI(screen, c, turns, d))
  {
  }

  lemma LastScreen(screen: Screen, c: Config, turns: seq<Turn>, d: Defaults)
    requires Alternating(screen, turns)
    requires turns == [] || !Opens(screen, c) || !AfterTurn(c, turns[0], d).Done?
    ensures EndsAt(ScreenAt(screen, 0), c, turns, 0, d, HandleUI(screen, c, turns, d))
  {
  }

  /** The visited configurations account for how the session ends. */
  ghost predicate Explains(screen: Screen, visited: seq<Config>, turns: seq<Turn>, d: Defaults)
    requires Alternating(screen, turns)
  {
    && Visits(screen, visited, turns, d)
    && var n := |visited| - 1;
      EndsAt(ScreenAt(screen, n), visited[n], turns, n, d, HandleUI(screen, visited[0], turns, d))
  }

  lemma ExplainsOneMore(screen: Screen, c: Config, later: seq<Config>, turns: seq<Turn>, d: Defaults)
    requires turns != [] && turns[0].leave && Alternating(screen, turns)
    requires Explains(Other(screen), later, turns[1..], d) && Passes(screen, c, turns[0], later[0], d)
    ensures Explains(screen, [c] + later, turns, d)
  {
    var n := |later| - 1;
    NextScreen(screen, c, turns, later[0], d);
    VisitsMore(screen, c, later, turns, d);
    EndsLater(screen, later[n], turns, n, d, HandleUI(Other(screen), later[0], turns[1..], d));
    assert ([c] + later)[n + 1] == later[n];
  }

  lemma ExplainsLeft(screen: Screen, c: Config, next: Config, turns: seq<Turn>, d: Defaults)
    requires turns != [] && !turns[0].leave && Alternating(screen, turns) && Passes(screen, c, turns[0], next, d)
    ensures Explains(screen, [c] + [next], turns, d)
  {
    NextScreen(screen, c, turns, next, d);
    VisitsMore(screen, c, [next], turns, d);
  }

  /**
   * Every session passes from screen to screen, each on what the one before it made, up to the first
   * that is left for good, cannot be opened or does not accept its settings; that one decides.
   */
  lemma {:induction false} SessionIsItsScreens(screen: Screen, c: Config, turns: seq<Turn>, d: Defaults)
    returns (visited: seq<Config>)
    requires Alternating(screen, turns)
    ensures Explains(screen, visited, turns, d) && visited[0] == c
    decreases |turns|
  {
    if turns == [] || !Opens(screen, c) || !AfterTurn(c, turns[0], d).Done? {
      LastScreen(screen, c, turns, d);
      return [c];
    }
    var next := AfterTurn(c, turns[0], d).value;
    if turns[0].leave {
      var later := SessionIsItsScreens(Other(screen), next, turns[1..], d);
      ExplainsOneMore(screen, c, later, turns, d);
      visited := [c] + later;
    } else {
      ExplainsLeft(screen, c, next, turns, d);
      visited := [c] + [next];
    }
  }

  // ---- What leaves the session ----

  /** Neither warning of startService about hybrid client modes applies. */
  predicate NoHybridWarning(c: Config) {
    && !(c(ExecutionClientMode) == ModeV(LOCAL) && c(ConsensusClientMode) == ModeV(EXTERNAL))
    && !(c(ExecutionClientMode) == ModeV(EXTERNAL) && c(ConsensusClientMode) == ModeV(LOCAL))
  }

  /** With both clients in a known mode a start gives a warning exactly if the modes differ. */
  lemma WarnsOfHybridModes(c: Config, ec: string, cc: string)
    requires c(ExecutionClientMode) == ModeV(ec) && c(ConsensusClientMode) == ModeV(cc)
    requires ec in ["local", "external"] && cc in ["local", "external"]
    ensures NoHybridWarning(c) <==> ec == cc
  {
  }

  /** One mode for both clients, and MEV-Boost on. */
  predicate InOneMode(c: Config) {
    && c(ExecutionClientMode).ModeV? && c(ExecutionClientMode) == c(ConsensusClientMode)
    && c(EnableMevBoost) == Bool(true)
  }

  lemma OneModeAfterUpdate(c: Config, s: Settings, d: Defaults)
    requires Accepted(s)
    ensures InOneMode(Updated(c, s, d))
  {
  }

  lemma OneModeAfterWizard(c: Config, w: Wizard, d: Defaults)
    ensures InOneMode(UpdateConfig(c, w, d))
  {
  }

  /** Any configuration that leaves a session is in one mode, so it raises neither warning. */
  lemma {:induction false} LeavesInOneMode(screen: Screen, c: Config, turns: seq<Turn>, d: Defaults)
    requires Alternating(screen, turns)
    ensures var out := HandleUI(screen, c, turns, d);
      out.Left? ==>
        && InOneMode(out.config) && NoHybridWarning(out.config)
        && out.config(ExecutionClientMode) == out.config(ConsensusClientMode)
        && out.config(EnableMevBoost) == Bool(true)
    decreases |turns|
  {
    if turns != [] {
      var t, rest := turns[0], turns[1..];
      if screen.OnWizard? {
        OneModeAfterWizard(c, t.wizard, d);
        if t.leave { LeavesInOneMode(OnConfiguration, UpdateConfig(c, t.wizard, d), rest, d); }
      } else if Accepted(t.settings) {
        OneModeAfterUpdate(c, t.settings, d);
        if t.leave { LeavesInOneMode(OnWizard, Updated(c, t.settings, d), rest, d); }
      }
    }
  }

  /**
   * A start reads the configuration back from the file: what loads after such a session was saved
   * is in one mode too, so the start gives neither warning.
   */
  lemma StartGivesNoWarning(c: Config, turns: seq<Turn>, loaded: Config, rules: Rules, d: Defaults)
    requires Alternating(OnWizard, turns) && HandleUI(OnWizard, c, turns, d).Left?
    requires Loads(FileOf(HandleUI(OnWizard, c, turns, d).config), loaded, rules, d)
    ensures InOneMode(loaded) && NoHybridWarning(loaded)
  {
    var saved := HandleUI(OnWizard, c, turns, d).config;
    LeavesInOneMode(OnWizard, c, turns, d);
    OneModeLoads(saved, loaded, rules, d);
  }

  lemma OneModeLoads(saved: Config, loaded: Config, rules: Rules, d: Defaults)
    requires InOneMode(saved) && Loads(FileOf(saved), loaded, rules, d)
    ensures InOneMode(loaded)
  {
    var file := FileOf(saved);
    assert LoadField(file, ExecutionClientMode, rules, d) == Done(loaded(ExecutionClientMode));
    assert LoadField(file, ConsensusClientMode, rules, d) == Done(loaded(ConsensusClientMode));
    assert LoadField(file, EnableMevBoost, rules, d) == Done(loaded(EnableMevBoost));
  }

  /** The last screen decides whether the configuration is saved. */
  lemma {:induction false} LastScreenDecides(screen: Screen, c: Config, turns: seq<Turn>, d: Defaults)
    requires Alternating(screen, turns)
    ensures var out := HandleUI(screen, c, turns, d);
      out.Left? ==> turns != [] && out.saved == turns[|turns| - 1].saved
    decreases |turns|
  {
    if turns != [] {
      var t, rest := turns[0], turns[1..];
      assert rest != [] ==> rest[|rest| - 1] == turns[|turns| - 1];
      if t.leave {
        if screen.OnWizard? {
          LastScreenDecides(OnConfiguration, UpdateConfig(c, t.wizard, d), rest, d);
        } else if Accepted(t.settings) {
          LastScreenDecides(OnWizard, Updated(c, t.settings, d), rest, d);
        }
      }
    }
  }

  // ---- Type assertions ----

  /** The screen gives back every setting with the type it was shown with. */
  ghost predicate KeepsTypes(shown: Settings, s: Settings) {
    forall k: Key :: Kept(shown, s, k)
  }

  predicate Kept(shown: Settings, s: Settings, k: Key) {
    SameTag(shown(k), s(k))
  }

  /** On every configuration screen of the session, types are kept. */
  ghost predicate KeepsTypesThroughout(screen: Screen, c: Config, turns: seq<Turn>, d: Defaults)
    requires Alternating(screen, turns)
    decreases |turns|
  {
    turns != [] ==>
      if screen.OnWizard? then
        KeepsTypesThroughout(OnConfiguration, UpdateConfig(c, turns[0].wizard, d), turns[1..], d)
      else
        && (EditorReadable(c) ==> KeepsTypes(MakeUISetting(c), turns[0].settings))
        && (Accepted(turns[0].settings) ==>
              KeepsTypesThroughout(OnWizard, Updated(c, turns[0].settings, d), turns[1..], d))
  }

  /** A wizard answer for a network that the configuration screen cannot show, before that screen. */
  predicate HidesNetwork(turns: seq<Turn>, i: int) {
    && 0 <= i < |turns| - 1 && turns[i].FromWizard?
    && turns[i].wizard.network != PRATER && turns[i].wizard.network != MAINNET
  }

  /** Settings of the same types as shown are accepted just as the shown ones would be. */
  lemma AcceptedIfShown(c: Config, s: Settings)
    requires EditorReadable(c) && KeepsTypes(MakeUISetting(c), s)
    ensures Accepted(s) <==> OnShownNetwork(c)
    ensures !Accepted(s) ==> !ClientsAsserted(s)
  {
    var shown := MakeUISetting(c);
    NamesShown(c);
    SwitchesShown(c);
    NetworkShown(c);
    assert Kept(shown, s, Key(Network)) && Kept(shown, s, Key(ExecutionClient));
    assert Kept(shown, s, Key(ConsensusClient)) && Kept(shown, s, Key(ExternalConsensusClient));
    assert Kept(shown, s, Key(UseFallbackClients)) && Kept(shown, s, Key(EnableMetrics));
    assert Kept(shown, s, Key(MevMode)) && Kept(shown, s, Key(MevSelectionMode));
  }

  /** After a visit to the configuration screen both screens can read the configuration again. */
  lemma ConfigurationRestoresTypes(c: Config, s: Settings, d: Defaults)
    requires EditorReadable(c) && NearlyReadable(c) && DefaultsTyped(d)
    requires KeepsTypes(MakeUISetting(c), s) && Accepted(s)
    ensures EditorReadable(Updated(c, s, d)) && WizardReadable(Updated(c, s, d))
  {
    forall f: Field
      ensures EditorTyped(Updated(c, s, d), f) && WizardTyped(Updated(c, s, d), f)
    {
      FieldRestored(c, s, d, f);
    }
  }

  lemma FieldRestored(c: Config, s: Settings, d: Defaults, f: Field)
    requires EditorReadable(c) && NearlyReadable(c) && DefaultsTyped(d)
    requires KeepsTypes(MakeUISetting(c), s) && Accepted(s)
    ensures EditorTyped(Updated(c, s, d), f) && WizardTyped(Updated(c, s, d), f)
  {
    var base := TargetNetwork(c, s, d);
    assert EditorTyped(c, f);
    ChangeNetworkKeepsTags(c, PRATER, d, f);
    ChangeNetworkKeepsTags(c, MAINNET, d, f);
    assert EditorTyped(base, f);
    if f != ExternalConsensusClient {
      assert WizardTyped(c, f);
      assert WizardTyped(base, f);
    }
    if IsOpen(f, s) {
      WrittenTags(c, base, s, f);
    }
  }

  lemma WrittenTags(c: Config, base: Config, s: Settings, f: Field)
    requires EditorReadable(c) && NearlyReadable(c) && KeepsTypes(MakeUISetting(c), s) && Accepted(s)
    requires f == Network ==> base(f).NetworkV?
    ensures HasTag(Written(f, base, s), EditorTag(f)) && HasTag(Written(f, base, s), WizardTag(f))
  {
    if f == Fallback(PrysmEc) || f == Fallback(PrysmCc) {
      CopyWritten(base, s);
      PlainTags(c, base, s, if f == Fallback(PrysmEc) then Fallback(NormalEc) else Fallback(NormalCc));
    } else if IsPlain(f) {
      PlainTags(c, base, s, f);
    } else if f.MevContainer? {
      ContainerTags(c, base, s, f.container);
    }
  }

  lemma PlainTags(c: Config, base: Config, s: Settings, f: Field)
    requires EditorReadable(c) && NearlyReadable(c) && KeepsTypes(MakeUISetting(c), s) && Accepted(s)
    requires IsPlain(f) && f != Fallback(PrysmEc) && f != Fallback(PrysmCc)
    ensures HasTag(Written(f, base, s), EditorTag(f)) && HasTag(Written(f, base, s), WizardTag(f))
  {
    assert WizardTyped(c, f) && EditorTyped(c, f);
    assert Kept(MakeUISetting(c), s, Key(f));
    WrittenAsIs(base, s, f);
    if !f.Number? && !f.MetricsNumber? {
      PlainShown(c, f);
    }
  }

  lemma ContainerTags(c: Config, base: Config, s: Settings, m: MevContainerField)
    requires EditorReadable(c) && KeepsTypes(MakeUISetting(c), s) && Accepted(s)
    ensures HasTag(Written(MevContainer(m), base, s), EditorTag(MevContainer(m)))
  {
    if m == OpenRpcPort {
      ContainerShown(c, m);
      SwitchKept(MakeUISetting(c), s, ProfileKey(m));
      SwitchKept(MakeUISetting(c), s, RelayKey(m));
      ContainerWritten(base, s, m);
    }
  }

  lemma SwitchKept(shown: Settings, s: Settings, k: Key)
    requires KeepsTypes(shown, s) && shown(k).Bool?
    ensures s(k).Bool?
  {
    assert Kept(shown, s, k);
  }

  lemma ContainerWritten(base: Config, s: Settings, m: MevContainerField)
    requires Accepted(s) && s(ProfileKey(m)).Bool? && s(RelayKey(m)).Bool?
    ensures Written(MevContainer(m), base, s).Bool?
  {
  }

  lemma ContainerShown(c: Config, m: MevContainerField)
    requires EditorReadable(c) && m == OpenRpcPort
    ensures MakeUISetting(c)(ProfileKey(m)).Bool? && MakeUISetting(c)(RelayKey(m)).Bool?
  {
    assert EditorTyped(c, MevContainer(m));
  }

  lemma WizardPicksNetwork(c: Config, w: Wizard, d: Defaults)
    ensures UpdateConfig(c, w, d)(Network) == NetworkV(w.network)
  {
  }

  /** What holds of the configuration when a screen opens. */
  ghost predicate Ready(screen: Screen, c: Config) {
    EditorReadable(c) && NearlyReadable(c) && (screen.OnWizard? ==> WizardReadable(c))
  }

  /** A wizard turn leaves a configuration that the other screen can open. */
  lemma WizardTurn(c: Config, w: Wizard, d: Defaults)
    requires DefaultsTyped(d) && Ready(OnWizard, c)
    ensures Ready(OnConfiguration, UpdateConfig(c, w, d))
  {
    WizardReadsOwnWork(c, w, d);
  }

  lemma WizardShown(c: Config, w: Wizard, d: Defaults)
    ensures OnShownNetwork(UpdateConfig(c, w, d)) <==> w.network == PRATER || w.network == MAINNET
  {
    WizardPicksNetwork(c, w, d);
  }

  /** A configuration turn crashes on an unknown network, and else leaves what the wizard can open. */
  lemma ConfigurationTurn(c: Config, s: Settings, d: Defaults)
    requires DefaultsTyped(d) && Ready(OnConfiguration, c) && KeepsTypes(MakeUISetting(c), s)
    ensures UpdateConfigFromUISetting(c, s, d).Panicked? <==> !OnShownNetwork(c)
    ensures OnShownNetwork(c) ==>
      && Accepted(s) && UpdateConfigFromUISetting(c, s, d).Done? && Ready(OnWizard, Updated(c, s, d))
  {
    AcceptedIfShown(c, s);
    if OnShownNetwork(c) { ConfigurationRestoresTypes(c, s, d); }
  }

  /** Why a session crashes. */
  ghost predicate HitsHiddenNetwork(screen: Screen, c: Config, turns: seq<Turn>) {
    (screen.OnConfiguration? && turns != [] && !OnShownNetwork(c)) || exists i :: HidesNetwork(turns, i)
  }

  lemma HiddenLater(turns: seq<Turn>)
    requires turns != []
    ensures (exists i :: HidesNetwork(turns, i)) <==> HidesNetwork(turns, 0) || exists i :: HidesNetwork(turns[1..], i)
  {
    assert forall i :: HidesNetwork(turns[1..], i) ==> HidesNetwork(turns, i + 1);
    assert forall i :: i > 0 && HidesNetwork(turns, i) ==> HidesNetwork(turns[1..], i - 1);
  }

  /** The network that a wizard turn picks is the first one that the rest of the session can hit. */
  lemma HitsNext(c: Config, turns: seq<Turn>, d: Defaults)
    requires turns != [] && turns[0].FromWizard?
    ensures HitsHiddenNetwork(OnWizard, c, turns)
       <==> HitsHiddenNetwork(OnConfiguration, UpdateConfig(c, turns[0].wizard, d), turns[1..])
  {
    HiddenLater(turns);
    WizardShown(c, turns[0].wizard, d);
  }

  /**
   * From a well-typed configuration no type assertion fails, however often the screens alternate,
   * unless the wizard is left for the configuration screen with a network that screen cannot show;
   * then the session crashes.
   */
  lemma {:induction false} SessionIsSafe(screen: Screen, c: Config, turns: seq<Turn>, d: Defaults)
    requires Alternating(screen, turns) && DefaultsTyped(d) && Ready(screen, c)
    requires KeepsTypesThroughout(screen, c, turns, d)
    ensures HandleUI(screen, c, turns, d).Crashed? <==> HitsHiddenNetwork(screen, c, turns)
    ensures !HandleUI(screen, c, turns, d).Stopped?
    decreases |turns|
  {
    if turns != [] {
      var t, rest := turns[0], turns[1..];
      if screen.OnWizard? {
        WizardTurn(c, t.wizard, d);
        HitsNext(c, turns, d);
        if t.leave { SessionIsSafe(OnConfiguration, UpdateConfig(c, t.wizard, d), rest, d); }
      } else {
        HiddenLater(turns);
        ConfigurationTurn(c, t.settings, d);
        if OnShownNetwork(c) && t.leave { SessionIsSafe(OnWizard, Updated(c, t.settings, d), rest, d); }
      }
    }
  }

  /** So a session on any configuration that was loaded from a file is safe in the same sense. */
  lemma LoadedSessionIsSafe(file: File, c: Config, turns: seq<Turn>, rules: Rules, d: Defaults)
    requires DefaultsOfKind(d) && Loads(file, c, rules, d)
    requires Alternating(OnWizard, turns) && KeepsTypesThroughout(OnWizard, c, turns, d)
    ensures HandleUI(OnWizard, c, turns, d).Crashed? <==> exists i :: HidesNetwork(turns, i)
  {
    LoadedIsReadable(file, c, rules, d);
    forall n: string, f: Field ensures HasTag(d(n, f), WizardTag(f)) && HasTag(d(n, f), EditorTag(f)) {
      assert HasKind(d(n, f), KindOf(f));
      KindHasTags(d(n, f), f);
    }
    SessionIsSafe(OnWizard, c, turns, d);
  }

  /** Picking the Zhejiang network in the wizard and going on to the other screen crashes the session. */
  lemma ZhejiangCrashes(c: Config, w: Wizard, s: Settings, d: Defaults)
    requires WizardReadable(c) && EditorReadable(c) && DefaultsTyped(d) && w.network == "zhejiang"
    requires EditorReadable(UpdateConfig(c, w, d)) ==> KeepsTypes(MakeUISetting(UpdateConfig(c, w, d)), s)
    ensures Alternating(OnWizard, [FromWizard(true, true, w), FromConfiguration(true, false, s)])
    ensures HandleUI(OnWizard, c, [FromWizard(true, true, w), FromConfiguration(true, false, s)], d) == Crashed
  {
    var first, second := FromWizard(true, true, w), FromConfiguration(true, false, s);
    assert [first, second][1..] == [second] && [second][1..] == [];
    WizardTurn(c, w, d);
    WizardShown(c, w, d);
    ConfigurationTurn(UpdateConfig(c, w, d), s, d);
  }
}
