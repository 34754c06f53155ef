/** Application configuration (app/config.py): every setting is read once from the
    process environment, given here as a map; boolean flags accept a fixed set of truthy
    spellings; the port prefers `PORT` over `FLASK_PORT`; `validate` checks that the
    chosen authentication mode has what it needs. */
module Config {
  import opened Wrappers
  import opened Strings
  import opened ProviderBase

  /** The process environment. */
  type Env = map<string, string>

  /** `os.getenv(key)`. */
  function GetEnv(env: Env, key: string): Option<string> {
    if key in env then Some(env[key]) else None
  }

  /** `os.getenv(key, default)`: a variable that is set, even to the empty string, wins. */
  function GetEnvOr(env: Env, key: string, default: string): (v: string)
    ensures key in env ==> v == env[key]
    ensures key !in env ==> v == default
  {
    GetEnv(env, key).GetOr(default)
  }

  const TruthySpellings: seq<string> := ["true", "1", "yes", "on"]

  /** `os.getenv(key, default).lower() in ("true", "1", "yes", "on")`. */
  predicate Flag(env: Env, key: string, default: string) {
    Lower(GetEnvOr(env, key, default)) in TruthySpellings
  }

  /** A flag is on exactly when its value, lower-cased, is a truthy spelling, and an
      unset flag takes its default; a flag set to the empty string is off whatever the
      default. */
  lemma {:induction false} FlagMeaning(env: Env, key: string, default: string)
    ensures key in env ==> (Flag(env, key, default) <==> Lower(env[key]) in TruthySpellings)
    ensures key !in env ==> (Flag(env, key, default) <==> Lower(default) in TruthySpellings)
    ensures key in env && env[key] == "" ==> !Flag(env, key, default)
  {
    if key in env && env[key] == "" {
      assert Lower("") == "";
    }
  }

  /** Upper-case spellings are accepted too, because the value is lower-cased first. */
  lemma {:induction false} FlagIgnoresCase(env: Env, key: string, default: string, v: string)
    requires key in env
    requires Lower(env[key]) == Lower(v)
    ensures Flag(env, key, default) <==> Flag(env[key := v], key, default)
  {
  }

  // ---------------------------------------------------------------------------
  // int(...)

  function InvalidIntMessage(s: string): string {
    "invalid literal for int() with base 10: '" + s + "'"
  }

  /** Python's `int(s)` for base 10: surrounding whitespace is ignored, then an optional
      sign and at least one decimal digit. */
  function ParseInt(s: string): Result<int, Exc> {
    var t := Strip(s);
    if |t| > 1 && (t[0] == '-' || t[0] == '+') && AllDigits(t[1..]) then
      var v: int := DigitsValue(t[1..]);
      Ok(if t[0] == '-' then -v else v)
    else if |t| > 0 && AllDigits(t) then Ok(DigitsValue(t))
    else Err(ValueError(InvalidIntMessage(s)))
  }

  /** `int(str(i)) == i`. */
  lemma {:induction false} ParseIntToString(i: int)
    ensures ParseInt(IntToString(i)) == Ok(i)
  {
    var s := IntToString(i);
    if i < 0 {
      var d := NatToString(-i);
      assert s[1..] == d;
      assert s[|s| - 1] == d[|d| - 1];
      StripUnspaced(s);
    } else {
      StripUnspaced(s);
    }
  }

  /** The empty string, and a string of only whitespace, are not numbers. */
  lemma {:induction false} ParseIntRejectsBlank(s: string)
    requires forall i :: 0 <= i < |s| ==> IsSpace(s[i])
    ensures ParseInt(s) == Err(ValueError(InvalidIntMessage(s)))
  {
    BlankStripsAway(s);
  }

  lemma {:induction false} BlankStripsAway(s: string)
    requires forall i :: 0 <= i < |s| ==> IsSpace(s[i])
    ensures StripLeft(s) == []
    decreases |s|
  {
    if |s| > 0 {
      BlankStripsAway(s[1..]);
    }
  }

  // ---------------------------------------------------------------------------
  // The settings

  const DefaultPort: string := "8081"

  /** `int(os.getenv("PORT") or os.getenv("FLASK_PORT", "8081"))`. */
  function PortSetting(env: Env): string {
    if Truthy(GetEnv(env, "PORT")) then env["PORT"] else GetEnvOr(env, "FLASK_PORT", DefaultPort)
  }

  /** A non-empty `PORT` wins; an empty or missing one defers to `FLASK_PORT`, then to
      8081. */
  lemma {:induction false} PortPrecedence(env: Env)
    ensures "PORT" in env && env["PORT"] != "" ==> PortSetting(env) == env["PORT"]
    ensures ("PORT" !in env || env["PORT"] == "") && "FLASK_PORT" in env ==>
      PortSetting(env) == env["FLASK_PORT"]
    ensures ("PORT" !in env || env["PORT"] == "") && "FLASK_PORT" !in env ==>
      ParseInt(PortSetting(env)) == Ok(8081)
  {
    if ("PORT" !in env || env["PORT"] == "") && "FLASK_PORT" !in env {
      assert PortSetting(env) == DefaultPort;
      DefaultPortValue();
    }
  }

  lemma {:induction false} DefaultPortValue()
    ensures ParseInt(DefaultPort) == Ok(8081)
  {
    ParseUnsigned(DefaultPort);
    DefaultPortDigits();
  }

  lemma {:induction false} ParseUnsigned(s: string)
    requires |s| > 0 && AllDigits(s)
    ensures ParseInt(s) == Ok(DigitsValue(s))
  {
    StripUnspaced(s);
  }

  lemma {:induction false} DefaultPortDigits()
    ensures AllDigits(DefaultPort) && DigitsValue(DefaultPort) == 8081
  {
    assert DigitsValue("8") == 8 by { assert "8"[..0] == ""; }
    assert DigitsValue("80") == 80 by { assert "80"[..1] == "8"; }
    assert DigitsValue("808") == 808 by { assert "808"[..2] == "80"; }
    assert DefaultPort[..3] == "808";
  }

  datatype Settings = Settings(
    enableSecurityService: bool,
    securityServiceUrl: string,
    frontendSecurityServiceUrl: Option<string>,
    securityApplicationId: string,
    hardcodedApiKey: Option<string>,
    enableAnonymousAccess: bool,
    ollamaBaseUrl: string,
    geminiApiKey: Option<string>,
    flaskPort: int,
    defaultProvider: string)

  /** The class attributes of `Config`, evaluated at import; an unparsable port makes
      the import itself fail. */
  function Load(env: Env): (r: Result<Settings, Exc>)
    ensures r.Ok? <==> ParseInt(PortSetting(env)).Ok?
    ensures r.Ok? ==>
      && r.value.flaskPort == ParseInt(PortSetting(env)).value
      && r.value.enableSecurityService == Flag(env, "ENABLE_SECURITY_SERVICE", "true")
      && r.value.enableAnonymousAccess == Flag(env, "ENABLE_ANONYMOUS_ACCESS", "false")
    ensures r.Ok? ==>
      && r.value.securityServiceUrl == GetEnvOr(env, "SECURITY_SERVICE_URL", "http://localhost:8080")
      && r.value.frontendSecurityServiceUrl == GetEnv(env, "FRONTEND_SECURITY_SERVICE_URL")
      && r.value.securityApplicationId == GetEnvOr(env, "SECURITY_APPLICATION_ID", "ai-service")
      && r.value.hardcodedApiKey == GetEnv(env, "HARDCODED_API_KEY")
      && r.value.ollamaBaseUrl == GetEnvOr(env, "OLLAMA_BASE_URL", "http://localhost:11434")
      && r.value.geminiApiKey == GetEnv(env, "GEMINI_API_KEY")
      && r.value.defaultProvider == GetEnvOr(env, "DEFAULT_PROVIDER", "ollama")
  {
    match ParseInt(PortSetting(env))
    case Err(e) => Err(e)
    case Ok(port) =>
      Ok(Settings(
        Flag(env, "ENABLE_SECURITY_SERVICE", "true"),
        GetEnvOr(env, "SECURITY_SERVICE_URL", "http://localhost:8080"),
        GetEnv(env, "FRONTEND_SECURITY_SERVICE_URL"),
        GetEnvOr(env, "SECURITY_APPLICATION_ID", "ai-service"),
        GetEnv(env, "HARDCODED_API_KEY"),
        Flag(env, "ENABLE_ANONYMOUS_ACCESS", "false"),
        GetEnvOr(env, "OLLAMA_BASE_URL", "http://localhost:11434"),
        GetEnv(env, "GEMINI_API_KEY"),
        port,
        GetEnvOr(env, "DEFAULT_PROVIDER", "ollama")))
  }

  lemma {:induction false} LowerDefaults()
    ensures Lower("true") == "true" && Lower("false") == "false"
  {
    LowerFixed("true");
    LowerFixed("false");
  }

  /** With none of its variables set, the security service is on, anonymous access is
      off, the port is 8081 and the default provider is Ollama. */
  lemma {:induction false} UnsetEnvironmentDefaults(env: Env)
    requires "PORT" !in env && "FLASK_PORT" !in env && "DEFAULT_PROVIDER" !in env
    requires "ENABLE_SECURITY_SERVICE" !in env && "ENABLE_ANONYMOUS_ACCESS" !in env
    ensures Load(env).Ok?
    ensures Load(env).value.enableSecurityService
    ensures !Load(env).value.enableAnonymousAccess
    ensures Load(env).value.flaskPort == 8081
    ensures Load(env).value.defaultProvider == "ollama"
  {
    PortPrecedence(env);
    FlagDefaults(env);
  }

  lemma {:induction false} FlagDefaults(env: Env)
    requires "ENABLE_SECURITY_SERVICE" !in env && "ENABLE_ANONYMOUS_ACCESS" !in env
    ensures Flag(env, "ENABLE_SECURITY_SERVICE", "true")
    ensures !Flag(env, "ENABLE_ANONYMOUS_ACCESS", "false")
  {
    LowerDefaults();
    SpellingsDecided();
  }

  lemma {:induction false} SpellingsDecided()
    ensures "true" in TruthySpellings && "false" !in TruthySpellings
  {
    assert TruthySpellings[0] == "true";
  }

  const MissingHardcodedKeyMessage: string :=
    "HARDCODED_API_KEY must be set when ENABLE_SECURITY_SERVICE is false. "
    + "Set HARDCODED_API_KEY in your .env file for standalone mode."
  const MissingApplicationIdMessage: string :=
    "SECURITY_APPLICATION_ID must be set when security service is enabled"

  /** `Config.validate()`: `None` when it returns, else what it raises. */
  function Validate(c: Settings): (r: Option<Exc>)
    ensures r.None? <==>
      (if c.enableSecurityService then c.securityApplicationId != "" else Truthy(c.hardcodedApiKey))
    ensures r.Some? ==> r.value.ValueError?
  {
    if !c.enableSecurityService then
      if !Truthy(c.hardcodedApiKey) then Some(ValueError(MissingHardcodedKeyMessage)) else None
    else if c.securityApplicationId == "" then Some(ValueError(MissingApplicationIdMessage))
    else None
  }

  /** A missing Gemini key never fails validation (it is only reported). */
  lemma {:induction false} GeminiKeyNotRequired(c: Settings, key: Option<string>)
    ensures Validate(c) == Validate(c.(geminiApiKey := key))
  {
  }
}
