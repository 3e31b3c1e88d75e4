/** `lib/config.ts`: settings read from the process environment, and the two
    accessors built on them. The environment is a map from variable names to
    values; a variable that is unset is absent from the map. */
module Config {
  import opened Basics

  type Env = map<string, string>

  /** `process.env[name]`. */
  function EnvVar(env: Env, name: string): (v: Option<string>)
    ensures v.Some? <==> name in env
    ensures v.Some? ==> v.value == env[name]
  {
    if name in env then Some(env[name]) else None
  }

  datatype OpenAISettings = OpenAISettings(apiKey: Option<string>, model: string, maxTokens: nat)
  datatype AppSettings = AppSettings(name: string, description: string)
  datatype Features = Features(streaming: bool, conversationHistory: bool, markdownSupport: bool, codeHighlighting: bool)
  datatype Settings = Settings(openai: OpenAISettings, app: AppSettings, features: Features)

  const DefaultOpenAIModel := "gpt-3.5-turbo"
  const DefaultAppName := "AI Chatbot"
  const DefaultAppDescription := "A modern AI chatbot built with Next.js"
  const OpenAIMaxTokens: nat := 1000
  const NotConfigured := "OpenAI API key not configured"

  /** The exported `config` object: the key as set, the model and the
      application texts taken from the environment when non-empty and from
      their defaults otherwise, a fixed token budget and every feature on. */
  function ConfigOf(env: Env): (c: Settings)
    ensures c.openai.apiKey == EnvVar(env, "OPENAI_API_KEY")
    ensures "OPENAI_MODEL" in env && env["OPENAI_MODEL"] != "" ==> c.openai.model == env["OPENAI_MODEL"]
    ensures !("OPENAI_MODEL" in env && env["OPENAI_MODEL"] != "") ==> c.openai.model == "gpt-3.5-turbo"
    ensures c.openai.maxTokens == 1000
    ensures "NEXT_PUBLIC_APP_NAME" in env && env["NEXT_PUBLIC_APP_NAME"] != "" ==> c.app.name == env["NEXT_PUBLIC_APP_NAME"]
    ensures !("NEXT_PUBLIC_APP_NAME" in env && env["NEXT_PUBLIC_APP_NAME"] != "") ==> c.app.name == "AI Chatbot"
    ensures "NEXT_PUBLIC_APP_DESCRIPTION" in env && env["NEXT_PUBLIC_APP_DESCRIPTION"] != "" ==>
              c.app.description == env["NEXT_PUBLIC_APP_DESCRIPTION"]
    ensures !("NEXT_PUBLIC_APP_DESCRIPTION" in env && env["NEXT_PUBLIC_APP_DESCRIPTION"] != "") ==>
              c.app.description == "A modern AI chatbot built with Next.js"
    ensures c.features == Features(true, true, true, true)
  {
    Settings(
      OpenAISettings(EnvVar(env, "OPENAI_API_KEY"),
                     OrElse(EnvVar(env, "OPENAI_MODEL"), DefaultOpenAIModel),
                     OpenAIMaxTokens),
      AppSettings(OrElse(EnvVar(env, "NEXT_PUBLIC_APP_NAME"), DefaultAppName),
                  OrElse(EnvVar(env, "NEXT_PUBLIC_APP_DESCRIPTION"), DefaultAppDescription)),
      Features(true, true, true, true))
  }

  /** `isOpenAIConfigured()`: the key is set and not empty. */
  function IsOpenAIConfigured(env: Env): (b: bool)
    ensures b <==> "OPENAI_API_KEY" in env && env["OPENAI_API_KEY"] != ""
  {
    Truthy(ConfigOf(env).openai.apiKey)
  }

  /** `getOpenAIConfig()`: the `openai` block, or the error when no key is set. */
  function GetOpenAIConfig(env: Env): (r: Result<OpenAISettings, string>)
    ensures r.Ok? <==> "OPENAI_API_KEY" in env && env["OPENAI_API_KEY"] != ""
    ensures r.Err? ==> r.error == NotConfigured
    ensures r.Ok? ==> r.value == ConfigOf(env).openai
  {
    if !IsOpenAIConfigured(env) then Err(NotConfigured) else Ok(ConfigOf(env).openai)
  }
}
