/** LLM configuration read from the environment: provider selection, the
    provider's API key, base URL, model and numeric settings, and the
    masked string form of a configuration. The environment is a map from
    variable names to values; a missing name is an unset variable. */
module LlmConfig {
  import opened Wrappers
  import opened Text
  import opened Json

  datatype Provider = OpenAI | Gemini

  /** The enum member's value. */
  function ProviderValue(p: Provider): string {
    match p
    case OpenAI => "openai"
    case Gemini => "gemini"
  }

  /** `LLMProvider.from_string`: lower-cases its argument and accepts exactly
      the two member values; otherwise ValueError listing them. */
  function FromString(value: string): (r: Result<Provider>)
    ensures r == Ok(OpenAI) <==> Lower(value) == "openai"
    ensures r == Ok(Gemini) <==> Lower(value) == "gemini"
    ensures r.Err? <==> Lower(value) != "openai" && Lower(value) != "gemini"
    ensures r.Err? ==> r.error == ValueError("Unsupported LLM provider: " + value + ". Must be one of: openai, gemini")
  {
    var v := Lower(value);
    if v == "openai" then Ok(OpenAI)
    else if v == "gemini" then Ok(Gemini)
    else Err(ValueError("Unsupported LLM provider: " + value + ". Must be one of: openai, gemini"))
  }

  /** Accepting a provider value is case-insensitive: `from_string` composed
      with the member value is the identity. */
  lemma FromStringValue(p: Provider)
    ensures FromString(ProviderValue(p)) == Ok(p)
  {
    assert Lower("openai") == "openai";
    assert Lower("gemini") == "gemini";
  }

  type Env = map<string, string>

  /** `os.getenv(name)`. */
  function GetEnv(env: Env, name: string): Option<string> {
    if name in env then Some(env[name]) else None
  }

  /** `_get_required_env`: unset or empty raises, otherwise the stripped value
      (which may be empty when the value is only whitespace). */
  function GetRequiredEnv(env: Env, name: string): (r: Result<string>)
    ensures r.Err? <==> name !in env || env[name] == ""
    ensures r.Err? ==> r.error == ValueError("Required environment variable '" + name + "' is not set")
    ensures r.Ok? ==> r.value == Strip(env[name])
  {
    match GetEnv(env, name)
    case Some(v) =>
      if v == "" then Err(ValueError("Required environment variable '" + name + "' is not set"))
      else Ok(Strip(v))
    case None => Err(ValueError("Required environment variable '" + name + "' is not set"))
  }

  /** `_get_optional_env`: the stripped value when set and non-empty, else the default. */
  function GetOptionalEnv(env: Env, name: string, default: string): (r: string)
    ensures name in env && env[name] != "" ==> r == Strip(env[name])
    ensures name !in env || env[name] == "" ==> r == default
  {
    match GetEnv(env, name)
    case Some(v) => if v != "" then Strip(v) else default
    case None => default
  }

  /** `_get_int_env`: the default when unset or empty; otherwise the parsed
      stripped value, raising ValueError on a non-integer or on a value
      below the minimum. */
  function GetIntEnv(env: Env, name: string, default: int, minVal: Option<int>): (r: Result<int>)
    ensures name !in env || env[name] == "" ==> r == Ok(default)
    ensures name in env && env[name] != "" ==>
              (r.Ok? <==> ParseInt(Strip(env[name])).Some?
                          && (minVal.None? || ParseInt(Strip(env[name])).value >= minVal.value))
    ensures r.Ok? && name in env && env[name] != "" ==> r.value == ParseInt(Strip(env[name])).value
    ensures r.Ok? && minVal.Some? && name in env && env[name] != "" ==> r.value >= minVal.value
  {
    match GetEnv(env, name)
    case None => Ok(default)
    case Some(v) =>
      if v == "" then Ok(default)
      else match ParseInt(Strip(v))
        case None => Err(ValueError("Environment variable '" + name + "' must be an integer, got '" + v + "'"))
        case Some(n) =>
          if minVal.Some? && n < minVal.value
          then Err(ValueError("Environment variable '" + name + "' must be >= " + IntToString(minVal.value)
                              + ", got " + IntToString(n)))
          else Ok(n)
  }

  /** Float settings are carried as their stripped text; Python's float parse
      and range checks are not part of this model. */
  function GetFloatEnv(env: Env, name: string, default: string): (r: Value)
    ensures r.Float?
    ensures name !in env || env[name] == "" ==> r == Float(default)
  {
    match GetEnv(env, name)
    case Some(v) => if v != "" then Float(Strip(v)) else Float(default)
    case None => Float(default)
  }

  /** A loaded configuration. `toolsEnabled` and `toolConverter` stand for
      the attributes the executor reads; the loader never sets them, so they
      are always `None` in a loaded configuration. */
  datatype Config = Config(
    provider: Provider,
    apiKey: string,
    baseUrl: Option<string>,
    model: string,
    temperature: Value,
    maxTokens: int,
    timeout: Value,
    toolsEnabled: Option<bool>,
    toolConverter: Option<bool>)

  const ProviderVar := "MCPBRIDGE_LLM_PROVIDER"
  const BaseUrlVar := "MCPBRIDGE_LLM_BASE_URL"
  const ModelVar := "MCPBRIDGE_LLM_MODEL"
  const TemperatureVar := "MCPBRIDGE_LLM_TEMPERATURE"
  const MaxTokensVar := "MCPBRIDGE_LLM_MAX_TOKENS"
  const TimeoutVar := "MCPBRIDGE_LLM_TIMEOUT"

  /** The provider-specific variable holding the API key. */
  function KeyVar(p: Provider): string {
    if p == OpenAI then "MCPBRIDGE_OPENAI_API_KEY" else "MCPBRIDGE_GEMINI_API_KEY"
  }

  /** The provider string the loader reads; "openai" when unset or empty. */
  function ProviderString(env: Env): string {
    GetOptionalEnv(env, ProviderVar, "openai")
  }

  /** `LLMConfig.__init__`: every step in source order, the first failure raised. */
  function Load(env: Env): (r: Result<Config>)
    ensures r.Ok? ==> FromString(ProviderString(env)) == Ok(r.value.provider)
    ensures r.Ok? ==> GetRequiredEnv(env, KeyVar(r.value.provider)) == Ok(r.value.apiKey)
    ensures r.Ok? && r.value.provider == OpenAI ==>
              r.value.baseUrl == Some(GetOptionalEnv(env, BaseUrlVar, "https://api.openai.com/v1"))
    ensures r.Ok? && r.value.provider == Gemini ==> r.value.baseUrl.None?
    ensures r.Ok? ==> r.value.model == GetOptionalEnv(env, ModelVar,
                                        if r.value.provider == OpenAI then "gpt-4" else "gemini-pro")
    ensures r.Ok? ==> r.value.temperature == GetFloatEnv(env, TemperatureVar, "1.0")
    ensures r.Ok? ==> GetIntEnv(env, MaxTokensVar, 4096, Some(1)) == Ok(r.value.maxTokens) && r.value.maxTokens >= 1
    ensures r.Ok? ==> r.value.timeout == GetFloatEnv(env, TimeoutVar, "120.0")
    ensures r.Ok? ==> r.value.toolsEnabled.None? && r.value.toolConverter.None?
    ensures FromString(ProviderString(env)).Err? ==> r == Err(FromString(ProviderString(env)).error)
    ensures FromString(ProviderString(env)).Ok? ==>
              var key := GetRequiredEnv(env, KeyVar(FromString(ProviderString(env)).value));
              var maxTokens := GetIntEnv(env, MaxTokensVar, 4096, Some(1));
              (key.Err? ==> r == Err(key.error))
              && (key.Ok? && maxTokens.Err? ==> r == Err(maxTokens.error))
              && (key.Ok? && maxTokens.Ok? ==> r.Ok?)
  {
    var provider :- FromString(ProviderString(env));
    var apiKey :- GetRequiredEnv(env, KeyVar(provider));
    var baseUrl := if provider == OpenAI
                   then Some(GetOptionalEnv(env, BaseUrlVar, "https://api.openai.com/v1"))
                   else None;
    var model := GetOptionalEnv(env, ModelVar, if provider == OpenAI then "gpt-4" else "gemini-pro");
    var temperature := GetFloatEnv(env, TemperatureVar, "1.0");
    var maxTokens :- GetIntEnv(env, MaxTokensVar, 4096, Some(1));
    var timeout := GetFloatEnv(env, TimeoutVar, "120.0");
    Ok(Config(provider, apiKey, baseUrl, model, temperature, maxTokens, timeout, None, None))
  }

  /** With only an OpenAI key set, the loader picks OpenAI with its
      defaults: the public base URL, "gpt-4" and 4096 tokens. */
  lemma LoadDefaultsOpenAI(key: string)
    requires key != ""
    ensures var r := Load(map["MCPBRIDGE_OPENAI_API_KEY" := key]);
            r.Ok? && r.value.provider == OpenAI && r.value.apiKey == Strip(key)
            && r.value.baseUrl == Some("https://api.openai.com/v1") && r.value.model == "gpt-4"
            && r.value.maxTokens == 4096
  {
    var env := map["MCPBRIDGE_OPENAI_API_KEY" := key];
    assert ProviderVar !in env && BaseUrlVar !in env && ModelVar !in env && MaxTokensVar !in env;
    assert ProviderString(env) == "openai";
    FromStringValue(OpenAI);
    assert FromString(ProviderString(env)) == Ok(OpenAI);
    assert GetRequiredEnv(env, KeyVar(OpenAI)) == Ok(Strip(key));
    assert GetIntEnv(env, MaxTokensVar, 4096, Some(1)) == Ok(4096);
  }

  /** Selecting Gemini (in any letter case) reads the Gemini key: when it is
      unset or empty, loading fails whatever else is set, an OpenAI key included. */
  lemma GeminiNeedsGeminiKey(env: Env)
    requires Lower(ProviderString(env)) == "gemini"
    requires KeyVar(Gemini) !in env || env[KeyVar(Gemini)] == ""
    ensures Load(env).Err?
  {
    assert FromString(ProviderString(env)) == Ok(Gemini);
    assert GetRequiredEnv(env, KeyVar(Gemini)).Err?;
  }

  /** The key as `__str__` shows it: the first 8 characters and "..." when
      it is longer than 8, otherwise "***". */
  function MaskKey(key: string): (r: string)
    ensures |key| <= 8 <==> r == "***"
    ensures |key| > 8 ==> |r| == 11 && r[..8] == key[..8] && r[8..] == "..."
  {
    if |key| > 8 then key[..8] + "..." else "***"
  }

  /** `LLMConfig.__str__`. */
  function ConfigString(c: Config): (r: string)
    ensures var head := "LLMConfig(provider=" + ProviderValue(c.provider) + ", model=" + c.model + ", ";
            |head| <= |r| && r[..|head|] == head
    ensures Contains(r, "api_key=" + MaskKey(c.apiKey) + ", ")
    ensures r[|r| - 1] == ')'
  {
    var baseUrlPart := if c.baseUrl.Some? && c.baseUrl.value != "" then "base_url=" + c.baseUrl.value + ", " else "";
    var prefix := "LLMConfig(provider=" + ProviderValue(c.provider) + ", model=" + c.model + ", " + baseUrlPart;
    var key := "api_key=" + MaskKey(c.apiKey) + ", ";
    var suffix := "temperature=" + Show(c.temperature) + ", max_tokens=" + IntToString(c.maxTokens)
                  + ", timeout=" + Show(c.timeout) + ")";
    ContainsMiddle(prefix, key, suffix);
    prefix + key + suffix
  }
}
