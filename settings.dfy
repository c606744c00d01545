/**
 * `Settings`: the application configuration with its defaults and its two
 * validators. Reading the environment and the `.env` file is not modelled:
 * a `Settings` value is what those sources produced.
 */
module Config {
  import opened Wrappers
  import opened Errors
  import OpenAI

  datatype Settings = Settings(
    apiTitle: string,
    apiDescription: string,
    apiVersion: string,
    debug: bool,
    openaiApiKey: Option<string>,
    openaiModel: string,
    aiProvider: string,
    aiTimeout: int,
    maxCodeLength: int,
    logLevel: string,
    requestTimeout: int,
    corsOrigins: seq<string>,
    corsAllowCredentials: bool,
    corsAllowMethods: seq<string>,
    corsAllowHeaders: seq<string>)

  /** The class defaults, before any environment value is applied. */
  function DefaultSettings(): (s: Settings)
    ensures s.aiProvider == "openai" && s.openaiApiKey.None?
    ensures s.aiTimeout == 30 && s.maxCodeLength == 50000 && s.openaiModel == "gpt-4o"
  {
    Settings(
      "AI Code Assistant",
      "AI-powered code explanation and analysis",
      "1.0.0",
      true,
      None,
      "gpt-4o",
      "openai",
      30,
      50000,
      "INFO",
      30,
      ["http://localhost:5173", "http://127.0.0.1:5173"],
      true,
      ["GET", "POST", "PUT", "DELETE", "OPTIONS"],
      ["*"])
  }

  const ALLOWED_PROVIDERS := ["fake", "openai"]
  const PROVIDER_NOT_ALLOWED := "ai_provider must be one of ['fake', 'openai']"
  const KEY_REQUIRED := "openai_api_key is required when ai_provider is 'openai'"

  /** `validate_ai_provider`: exact, case-sensitive membership. */
  function ValidateAiProvider(v: string): (r: Result<string>)
    ensures r.Ok? <==> v == "fake" || v == "openai"
    ensures r.Ok? ==> r.value == v
    ensures r.Err? ==> r.error == Other(PROVIDER_NOT_ALLOWED)
  {
    if v !in ALLOWED_PROVIDERS then Err(Other(PROVIDER_NOT_ALLOWED)) else Ok(v)
  }

  /** `validate_openai_key`: the OpenAI provider needs a non-empty key. */
  function ValidateOpenAIKey(s: Settings): (r: Result<Settings>)
    ensures r.Ok? <==> !(s.aiProvider == "openai" && !Truthy(s.openaiApiKey))
    ensures r.Ok? ==> r.value == s
    ensures r.Err? ==> r.error == Other(KEY_REQUIRED)
  {
    if s.aiProvider == "openai" && !Truthy(s.openaiApiKey) then Err(Other(KEY_REQUIRED)) else Ok(s)
  }

  /** Field validation, then the after-model validator, which runs only when
      every field passed. */
  function ValidateSettings(s: Settings): (r: Result<Settings>)
    ensures r.Ok? <==> (s.aiProvider == "fake" || (s.aiProvider == "openai" && Truthy(s.openaiApiKey)))
    ensures r.Ok? ==> r.value == s
    ensures s.aiProvider != "fake" && s.aiProvider != "openai" ==> r == Err(Other(PROVIDER_NOT_ALLOWED))
  {
    var _ :- ValidateAiProvider(s.aiProvider);
    ValidateOpenAIKey(s)
  }

  /** The defaults alone do not validate: they select OpenAI without a key.
      Any non-empty key makes them valid. */
  lemma DefaultsNeedKey(key: string)
    ensures ValidateSettings(DefaultSettings()) == Err(Other(KEY_REQUIRED))
    ensures key != "" ==> ValidateSettings(DefaultSettings().(openaiApiKey := Some(key))).Ok?
  {
  }

  /** The fake provider validates whatever the key. */
  lemma FakeNeedsNoKey(s: Settings)
    requires s.aiProvider == "fake"
    ensures ValidateSettings(s) == Ok(s)
  {
  }

  /** Validated settings that select OpenAI always construct the provider,
      as both wirings build it: the presentation wiring passes the key alone,
      the application wiring the key and `openai_model`. Neither passes
      `ai_timeout`, so the provider keeps its own default timeout. */
  lemma ValidSettingsBuildProvider(s: Settings)
    requires ValidateSettings(s).Ok? && s.aiProvider == "openai"
    ensures OpenAI.NewOpenAIProvider(s.openaiApiKey).Ok?
    ensures OpenAI.NewOpenAIProvider(s.openaiApiKey).value.model == OpenAI.DEFAULT_MODEL
    ensures OpenAI.NewOpenAIProvider(s.openaiApiKey).value.timeout == OpenAI.DEFAULT_TIMEOUT
    ensures OpenAI.NewOpenAIProvider(s.openaiApiKey, s.openaiModel).Ok?
    ensures OpenAI.NewOpenAIProvider(s.openaiApiKey, s.openaiModel).value.model == s.openaiModel
    ensures OpenAI.NewOpenAIProvider(s.openaiApiKey, s.openaiModel).value.timeout == OpenAI.DEFAULT_TIMEOUT
  {
  }
}
