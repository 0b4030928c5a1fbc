// `stader-cli service config` with flags: the flags are written into the loaded configuration,
// which is saved at once.
module HeadlessConfig {
  import opened Numerals
  import opened SettingsModel
  import opened Text
  import opened EditorScreen
  import opened WizardScreen
  import opened SavedConfig
  import opened ConfigSession

  /** A command line flag, as the flag library delivers it for the parameter's type. */
  datatype Flag = Unset | BoolFlag(b: bool) | UintFlag(n: nat) | FloatFlag(shown: string) | TextFlag(text: string)

  type Flags = Field -> Flag

  /** The values that a choice parameter offers, as texts. */
  type Options = Field -> seq<string>

  predicate HasShape(flag: Flag, k: Kind) {
    match k
    case BoolKind => flag.Unset? || flag.BoolFlag?
    case UintKind(_) => flag.Unset? || flag.UintFlag?
    case FloatKind => flag.Unset? || flag.FloatFlag?
    case _ => flag.Unset? || flag.TextFlag?
  }

  ghost predicate Shaped(flags: Flags) {
    forall f: Field :: HasShape(flags(f), KindOf(f))
  }

  /** updateConfigParamFromCliArg: the value that a flag gives a parameter. */
  function FromFlag(f: Field, flag: Flag, current: Value, rules: Rules, options: Options): Result<Value> {
    match flag
    case Unset => Done(current)
    case BoolFlag(b) => Done(Bool(b))
    case UintFlag(n) => Done(Num(if KindOf(f) == UintKind(16) then n % 0x1_0000 else n))
    case FloatFlag(shown) => Done(Float(shown))
    case TextFlag(text) =>
      match KindOf(f) {
        case ChoiceKind(tag) =>
          if text in options(f) then Done(Convert(text, tag)) else Failed("is not one of the valid options")
        case _ =>
          if rules.fits(f, text) then Done(Str(text)) else Failed("is too long")
      }
  }

  predicate Accepts(f: Field, c: Config, flags: Flags, rules: Rules, options: Options) {
    FromFlag(f, flags(f), c(f), rules, options).Done?
  }

  /** The loop over a choice parameter's options. */
  method FindOption(options: seq<string>, selection: string) returns (found: bool)
    ensures found <==> selection in options
  {
    for i := 0 to |options|
      invariant selection !in options[..i]
    {
      if options[i] == selection { return true; }
    }
    found := false;
  }

  /** configureHeadless: the parameters in some order, up to the first flag that is refused. */
  method ConfigureHeadless(c: Config, params: seq<Field>, flags: Flags, rules: Rules, options: Options)
    returns (r: Result<Config>)
    requires Shaped(flags)
    requires forall i, j :: 0 <= i < j < |params| ==> params[i] != params[j]
    ensures r.Done? <==> forall f :: f in params ==> Accepts(f, c, flags, rules, options)
    ensures !r.Panicked?
    ensures r.Done? ==>
      forall f: Field :: r.value(f) == if f in params then FromFlag(f, flags(f), c(f), rules, options).value else c(f)
  {
    var cfg := c;
    for i := 0 to |params|
      invariant forall f :: f in params[..i] ==> Accepts(f, c, flags, rules, options)
      invariant forall f: Field ::
          cfg(f) == if f in params[..i] then FromFlag(f, flags(f), c(f), rules, options).value else c(f)
    {
      var param := params[i];
      assert params[..i + 1] == params[..i] + [param];
      assert HasShape(flags(param), KindOf(param));
      assert param in params;
      var value: Value;
      match flags(param) {
        case Unset => value := cfg(param);
        case BoolFlag(b) => value := Bool(b);
        case FloatFlag(shown) => value := Float(shown);
        case UintFlag(n) => value := Num(if KindOf(param) == UintKind(16) then n % 0x1_0000 else n);
        case TextFlag(text) =>
          if KindOf(param).ChoiceKind? {
            var found := FindOption(options(param), text);
            if !found {
              assert !Accepts(param, c, flags, rules, options);
              return Failed("is not one of the valid options");
            }
            value := Convert(text, KindOf(param).tag);
          } else {
            if !rules.fits(param, text) {
              assert !Accepts(param, c, flags, rules, options);
              return Failed("is too long");
            }
            value := Str(text);
          }
      }
      var before := cfg;
      cfg := f => if f == param then value else before(f);
    }
    assert params[..|params|] == params;
    r := Done(cfg);
  }

  /** A flag never changes the type of a parameter, and numbers stay in range. */
  lemma FlagKeepsKind(f: Field, flag: Flag, current: Value, rules: Rules, options: Options)
    requires HasKind(current, KindOf(f)) && HasShape(flag, KindOf(f))
    requires flag.UintFlag? ==> flag.n < Limit(64)
    ensures var r := FromFlag(f, flag, current, rules, options); r.Done? ==> HasKind(r.value, KindOf(f))
  {
  }

  /**
   * A flag sets the value it shows, so that saving prints the flag's text, if and only if it is no
   * port number beyond 16 bits: those wrap around without an error.
   */
  lemma FlagIsTaken(f: Field, n: nat, current: Value, rules: Rules, options: Options)
    requires KindOf(f).UintKind?
    ensures FromFlag(f, UintFlag(n), current, rules, options) == Done(Num(n))
       <==> (KindOf(f) == UintKind(16) ==> n < 0x1_0000)
  {
  }

  function FlagText(flag: Flag): string
    requires !flag.Unset?
  {
    match flag
    case BoolFlag(b) => if b then "true" else "false"
    case UintFlag(n) => Decimal(n)
    case FloatFlag(shown) => shown
    case TextFlag(text) => text
  }

  lemma DecimalsDiffer(m: nat, n: nat)
    requires Decimal(m) == Decimal(n)
    ensures m == n
  {
    DecimalDenotes(m);
    DecimalDenotes(n);
  }

  /** What is saved for an accepted flag is the flag's text, exactly unless it is a 16-bit number out of range. */
  lemma FlagIsSavedAsGiven(f: Field, flag: Flag, current: Value, rules: Rules, options: Options)
    requires !flag.Unset? && HasShape(flag, KindOf(f)) && FromFlag(f, flag, current, rules, options).Done?
    ensures Serialize(FromFlag(f, flag, current, rules, options).value) == FlagText(flag)
       <==> (flag.UintFlag? && KindOf(f) == UintKind(16) ==> flag.n < 0x1_0000)
  {
    if flag.UintFlag? && Decimal(flag.n % 0x1_0000) == Decimal(flag.n) {
      DecimalsDiffer(flag.n % 0x1_0000, flag.n);
    }
  }

  /** Which flags are refused: choices that are not offered, and texts that are too long. */
  lemma FlagsRefused(f: Field, flag: Flag, current: Value, rules: Rules, options: Options)
    requires HasShape(flag, KindOf(f))
    ensures FromFlag(f, flag, current, rules, options).Done? <==>
      (flag.TextFlag? ==> if KindOf(f).ChoiceKind? then flag.text in options(f) else rules.fits(f, flag.text))
  {
  }

  /** Unlike the wizard, a flag for another network leaves the old network's defaults in place. */
  lemma NetworkFlagKeepsDefaults(c: Config, flags: Flags, rules: Rules, options: Options, d: Defaults, f: Field)
    requires c(Network).NetworkV? && flags(Network).TextFlag? && flags(Network).text in options(Network)
    requires flags(f) == Unset && c(Network).network != flags(Network).text
    ensures FromFlag(Network, flags(Network), c(Network), rules, options) == Done(NetworkV(flags(Network).text))
    ensures FromFlag(f, flags(f), c(f), rules, options) == Done(ChangeNetwork(c, flags(Network).text, d)(f))
       <==> (c(f) == d(c(Network).network, f) ==> c(f) == d(flags(Network).text, f))
  {
  }

  // ---- The command ----

  /** What loadConfig returns beside an error: no configuration in headless mode, where it has saved one. */
  datatype Loaded = Loaded(config: Config) | Nothing

  datatype Ending = Refused | Crashes | Ends(outcome: Outcome)

  /** configureService after loadConfig: NewSettingsType reads through the configuration it is given. */
  ghost function ConfigureService(loaded: Result<Loaded>, turns: seq<Turn>, d: Defaults): Ending
    requires Alternating(OnWizard, turns)
  {
    match loaded
    case Done(Loaded(c)) => Ends(HandleUI(OnWizard, c, turns, d))
    case Done(Nothing) => Crashes
    case _ => Refused
  }

  /** Without flags the command is the session on the loaded file, and crashes only as that does. */
  lemma WithoutFlags(file: File, c: Config, turns: seq<Turn>, rules: Rules, d: Defaults)
    requires DefaultsOfKind(d) && Loads(file, c, rules, d)
    requires Alternating(OnWizard, turns) && KeepsTypesThroughout(OnWizard, c, turns, d)
    ensures var ending := ConfigureService(Done(Loaded(c)), turns, d);
      ending.Ends? && (ending.outcome.Crashed? <==> exists i :: HidesNetwork(turns, i))
  {
    LoadedSessionIsSafe(file, c, turns, rules, d);
  }

  /** loadConfig with the configuration that the file loaded as, and the file after it. */
  method LoadConfig(c: Config, params: seq<Field>, numFlags: nat, flags: Flags, rules: Rules, options: Options,
                    saveFails: bool)
    returns (loaded: Result<Loaded>, saved: Result<Config>)
    requires Shaped(flags)
    requires forall i, j :: 0 <= i < j < |params| ==> params[i] != params[j]
    ensures numFlags == 0 ==> loaded == Done(Loaded(c)) && !saved.Done?
    ensures numFlags > 0 ==> !(loaded.Done? && loaded.value.Loaded?)
    ensures numFlags > 0 ==> (saved.Done? <==> loaded == Done(Nothing))
    ensures numFlags > 0 ==>
      (saved.Done? <==> !saveFails && forall f :: f in params ==> Accepts(f, c, flags, rules, options))
    ensures numFlags > 0 && saved.Done? ==>
      forall f: Field ::
        saved.value(f) == if f in params then FromFlag(f, flags(f), c(f), rules, options).value else c(f)
  {
    saved := Failed("nothing saved");
    if numFlags > 0 {
      var r := ConfigureHeadless(c, params, flags, rules, options);
      if !r.Done? { return Failed("error updating config from provided arguments"), saved; }
      if saveFails { return Failed("save failed"), saved; }
      return Done(Nothing), r;
    }
    loaded := Done(Loaded(c));
  }

  /**
   * Headless mode is meant to exit after saving; as written it goes on to the wizard without a
   * configuration and crashes, exactly when the flags were accepted and saved.
   */
  method ConfigureWithFlags(c: Config, params: seq<Field>, flags: Flags, rules: Rules, options: Options,
                            saveFails: bool, ghost d: Defaults)
    returns (saved: Result<Config>, ghost ending: Ending)
    requires Shaped(flags)
    requires forall i, j :: 0 <= i < j < |params| ==> params[i] != params[j]
    ensures ending == Crashes <==> saved.Done?
    ensures ending == Refused <==> !saved.Done?
    ensures saved.Done? <==> !saveFails && forall f :: f in params ==> Accepts(f, c, flags, rules, options)
  {
    var loaded;
    loaded, saved := LoadConfig(c, params, 1, flags, rules, options, saveFails);
    ending := ConfigureService(loaded, [], d);
  }
}
