/**
 * Resolution and validation of the calculator's settings
 * (app/calculator_config.py). Each setting is taken from an explicit argument
 * when one is given, otherwise from an environment variable, otherwise from a
 * built-in default. The environment is a map from variable names to values.
 */
module Configuration {
  import opened Wrappers
  import opened Errors
  import opened Platform

  type Env = map<string, string>

  const MaxHistorySizeVar := "CALCULATOR_MAX_HISTORY_SIZE"
  const AutoSaveVar := "CALCULATOR_AUTO_SAVE"
  const PrecisionVar := "CALCULATOR_PRECISION"
  const MaxInputValueVar := "CALCULATOR_MAX_INPUT_VALUE"
  const DefaultEncodingVar := "CALCULATOR_DEFAULT_ENCODING"

  /** The resolved settings of a `CalculatorConfig`. */
  datatype Settings = Settings(
    maxHistorySize: int,
    autoSave: bool,
    precision: int,
    maxInputValue: real,
    defaultEncoding: string)

  /** The optional constructor arguments; None stands for Python's `None`. */
  datatype Args = Args(
    maxHistorySize: Option<int>,
    autoSave: Option<bool>,
    precision: Option<int>,
    maxInputValue: Option<real>,
    defaultEncoding: Option<string>)

  const NoArgs := Args(None, None, None, None, None)

  /** `os.getenv(key, default)` */
  function GetEnv(env: Env, key: string, default: string): string {
    if key in env then env[key] else default
  }

  /** `str.lower` on one character (ASCII letters only). */
  function LowerChar(c: char): char {
    if 'A' <= c <= 'Z' then (c as int + 32) as char else c
  }

  /** `str.lower`: the same length, each character lowered. */
  function Lower(s: string): (r: string)
    ensures |r| == |s|
    ensures forall i :: 0 <= i < |s| ==> r[i] == LowerChar(s[i])
  {
    if s == [] then [] else [LowerChar(s[0])] + Lower(s[1..])
  }

  /**
   * How the auto-save variable's text is read: lower-cased, then "true" or "1".
   * Saving is on exactly for "1" and the case variants of "true"; anything else,
   * the empty string included, turns it off.
   */
  function AutoSaveFlag(text: string): (on: bool)
    ensures on <==>
      text == "1" ||
      (|text| == 4 && (text[0] == 't' || text[0] == 'T') && (text[1] == 'r' || text[1] == 'R')
                   && (text[2] == 'u' || text[2] == 'U') && (text[3] == 'e' || text[3] == 'E'))
  {
    LowerIsTrue(text);
    LowerIsOne(text);
    var lowered := Lower(text);
    lowered == "true" || lowered == "1"
  }

  /**
   * `CalculatorConfig.__init__`, in its order of evaluation. Only `int` and
   * `Decimal` of an environment value may raise, so resolution cannot fail once
   * the three numeric arguments are given, and an explicit argument is kept
   * whatever its sign.
   */
  function Resolve(args: Args, env: Env, rt: Runtime): (r: Result<Settings, Error>)
    ensures r.Failure? ==> r.error.kind in {ValueError, InvalidOperation}
    ensures args.maxHistorySize.Some? && args.precision.Some? && args.maxInputValue.Some? ==> r.Success?
    ensures r.Success? && args.maxHistorySize.Some? ==> r.value.maxHistorySize == args.maxHistorySize.value
    ensures r.Success? && args.autoSave.Some? ==> r.value.autoSave == args.autoSave.value
    ensures r.Success? && args.precision.Some? ==> r.value.precision == args.precision.value
    ensures r.Success? && args.maxInputValue.Some? ==> r.value.maxInputValue == args.maxInputValue.value
  {
    var maxHistorySize :-
      if args.maxHistorySize.Some? then Success(args.maxHistorySize.value)
      else ParseInt(GetEnv(env, MaxHistorySizeVar, "1000"), rt);
    var autoSaveEnv := GetEnv(env, AutoSaveVar, "true");
    var autoSave := if args.autoSave.Some? then args.autoSave.value else AutoSaveFlag(autoSaveEnv);
    var precision :-
      if args.precision.Some? then Success(args.precision.value)
      else ParseInt(GetEnv(env, PrecisionVar, "10"), rt);
    var maxInputValue :-
      if args.maxInputValue.Some? then Success(args.maxInputValue.value)
      else ParseDecimal(GetEnv(env, MaxInputValueVar, "1e999"), rt);
    // `or`: an empty string is as good as None
    var encoding :=
      if args.defaultEncoding.Some? && args.defaultEncoding.value != "" then args.defaultEncoding.value
      else GetEnv(env, DefaultEncodingVar, "utf-8");
    Success(Settings(maxHistorySize, autoSave, precision, maxInputValue, encoding))
  }

  function ConfigError(message: string): Error {
    Error(ConfigurationError, message)
  }

  /**
   * `validate`: the three numeric settings are checked in a fixed order; it
   * passes exactly when all three are positive, and otherwise raises a
   * ConfigurationError.
   */
  function Validate(s: Settings): (r: Outcome<Error>)
    ensures r == Pass <==> s.maxHistorySize > 0 && s.precision > 0 && s.maxInputValue > 0.0
    ensures r.Fail? ==> r.error.kind == ConfigurationError
  {
    if s.maxHistorySize <= 0 then Fail(ConfigError("max_history_size must be positive"))
    else if s.precision <= 0 then Fail(ConfigError("precision must be positive"))
    else if s.maxInputValue <= 0.0 then Fail(ConfigError("max_input_value must be positive"))
    else Pass
  }

  // ---------------------------------------------------------------- properties

  /** Lower-casing a string gives "true" exactly when its letters spell true in any mix of cases. */
  lemma {:induction false} LowerIsTrue(s: string)
    ensures Lower(s) == "true" <==>
      |s| == 4 && (s[0] == 't' || s[0] == 'T') && (s[1] == 'r' || s[1] == 'R')
               && (s[2] == 'u' || s[2] == 'U') && (s[3] == 'e' || s[3] == 'E')
  {
    var l := Lower(s);
    if |s| == 4 && (s[0] == 't' || s[0] == 'T') && (s[1] == 'r' || s[1] == 'R')
                && (s[2] == 'u' || s[2] == 'U') && (s[3] == 'e' || s[3] == 'E') {
      assert l[0] == 't' && l[1] == 'r' && l[2] == 'u' && l[3] == 'e';
      assert l == "true";
    }
    if l == "true" {
      assert LowerChar(s[0]) == 't' && LowerChar(s[1]) == 'r';
      assert LowerChar(s[2]) == 'u' && LowerChar(s[3]) == 'e';
    }
  }

  /** Lower-casing a string gives "1" exactly when it is "1". */
  lemma {:induction false} LowerIsOne(s: string)
    ensures Lower(s) == "1" <==> s == "1"
  {
    if Lower(s) == "1" {
      assert LowerChar(s[0]) == '1';
    }
  }

  /** A few of the cases the source's tests exercise. */
  lemma AutoSaveExamples()
    ensures AutoSaveFlag("True") && AutoSaveFlag("1") && AutoSaveFlag("true")
    ensures !AutoSaveFlag("yes") && !AutoSaveFlag("0") && !AutoSaveFlag("") && !AutoSaveFlag("False")
  {
    assert AutoSaveFlag("True") && AutoSaveFlag("true") && !AutoSaveFlag("False");
  }

  /**
   * Each setting comes from its argument when one is given, otherwise from its
   * environment variable when that is set, otherwise from its default; the
   * encoding argument is skipped when empty as well as when absent.
   */
  lemma {:induction false} SettingSources(args: Args, env: Env, rt: Runtime)
    requires ParsesDefaults(rt) && Resolve(args, env, rt).Success?
    ensures Resolve(args, env, rt).value.maxHistorySize ==
      if args.maxHistorySize.Some? then args.maxHistorySize.value
      else if MaxHistorySizeVar in env then rt.parseInt(env[MaxHistorySizeVar]).value
      else 1000
    ensures Resolve(args, env, rt).value.autoSave ==
      if args.autoSave.Some? then args.autoSave.value
      else if AutoSaveVar in env then AutoSaveFlag(env[AutoSaveVar])
      else true
    ensures Resolve(args, env, rt).value.precision ==
      if args.precision.Some? then args.precision.value
      else if PrecisionVar in env then rt.parseInt(env[PrecisionVar]).value
      else 10
    ensures Resolve(args, env, rt).value.maxInputValue ==
      if args.maxInputValue.Some? then args.maxInputValue.value
      else if MaxInputValueVar in env then rt.parseDecimal(env[MaxInputValueVar]).value
      else rt.parseDecimal("1e999").value
    ensures Resolve(args, env, rt).value.defaultEncoding ==
      if args.defaultEncoding.Some? && args.defaultEncoding.value != "" then args.defaultEncoding.value
      else if DefaultEncodingVar in env then env[DefaultEncodingVar]
      else "utf-8"
  {
    assert AutoSaveFlag("true");
  }

  /**
   * Resolution succeeds exactly when every numeric setting that is taken from
   * the environment parses; absent variables fall back to defaults that parse.
   */
  lemma {:induction false} ResolveSucceeds(args: Args, env: Env, rt: Runtime)
    requires ParsesDefaults(rt)
    ensures Resolve(args, env, rt).Success? <==>
      && (args.maxHistorySize.None? && MaxHistorySizeVar in env ==> rt.parseInt(env[MaxHistorySizeVar]).Some?)
      && (args.precision.None? && PrecisionVar in env ==> rt.parseInt(env[PrecisionVar]).Some?)
      && (args.maxInputValue.None? && MaxInputValueVar in env ==> rt.parseDecimal(env[MaxInputValueVar]).Some?)
  {
  }

  /** A malformed history size in the environment, with no argument for it, makes construction raise ValueError. */
  lemma MalformedEnvironmentRaises(args: Args, env: Env, rt: Runtime)
    requires args.maxHistorySize.None?
    requires MaxHistorySizeVar in env && rt.parseInt(env[MaxHistorySizeVar]).None?
    ensures Resolve(args, env, rt).Failure?
    ensures Resolve(args, env, rt).error ==
      Error(ValueError, "invalid literal for int() with base 10: " + Quoted(env[MaxHistorySizeVar]))
  {
  }

  /** With no arguments and an empty environment: 1000, auto-save on, 10, Decimal('1e999') and 'utf-8'. */
  lemma {:induction false} Defaults(rt: Runtime)
    requires ParsesDefaults(rt)
    ensures Resolve(NoArgs, map[], rt) ==
      Success(Settings(1000, true, 10, rt.parseDecimal("1e999").value, "utf-8"))
  {
    assert AutoSaveFlag("true");
  }

  /**
   * The encoding is chosen with `or`: an empty-string argument falls back to
   * the environment or the default, while a zero history size is kept.
   */
  lemma EncodingFallsBackOnEmpty(env: Env, rt: Runtime)
    ensures Resolve(Args(Some(0), None, Some(0), Some(0.0), Some("")), env, rt) ==
      Success(Settings(0, AutoSaveFlag(GetEnv(env, AutoSaveVar, "true")), 0, 0.0,
                       GetEnv(env, DefaultEncodingVar, "utf-8")))
  {
  }

  /** Validation reports the first non-positive setting, in the order history size, precision, input bound. */
  lemma ValidateReportsFirstFailure(s: Settings)
    ensures s.maxHistorySize <= 0 ==>
      Validate(s) == Fail(Error(ConfigurationError, "max_history_size must be positive"))
    ensures s.maxHistorySize > 0 && s.precision <= 0 ==>
      Validate(s) == Fail(Error(ConfigurationError, "precision must be positive"))
    ensures s.maxHistorySize > 0 && s.precision > 0 && s.maxInputValue <= 0.0 ==>
      Validate(s) == Fail(Error(ConfigurationError, "max_input_value must be positive"))
  {
  }
}
