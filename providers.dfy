// The factory of evaluation providers: a closed choice among three names.
module Providers {
  import opened Wrappers

  const ClaudeDefaultModel := "claude-3-7-sonnet-20250219"
  const OpenAiDefaultModel := "gpt-4o"
  const OpenAiDefaultMaxTokens: int := 4096

  /** The provider objects `create_provider` can build, with the settings
      handed to their constructors. */
  datatype Provider =
    | Claude(model: string)
    | OpenAi(model: string, baseUrl: Option<string>, apiKey: Option<string>,
             temperature: Option<real>, maxTokens: int)
    | Emulation(scriptPath: string)

  /** Python `x or default` for an optional string. */
  function OrString(x: Option<string>, default: string): (r: string)
    ensures x.Some? && x.value != [] ==> r == x.value
    ensures x.None? || x.value == [] ==> r == default
  {
    if x.Some? && x.value != [] then x.value else default
  }

  /** `create_provider`. */
  function CreateProvider(name: string, model: Option<string>, baseUrl: Option<string>, apiKey: Option<string>,
                          temperature: Option<real>, maxTokens: Option<int>, scriptPath: Option<string>)
    : (r: Result<Provider>)
    ensures r.Ok? <==> name == "claude" || name == "openai" || (name == "emulation" && scriptPath.Some? && scriptPath.value != [])
    ensures name == "claude" ==> r == Ok(Claude(OrString(model, ClaudeDefaultModel)))
    ensures name == "openai" ==>
      r.Ok? && r.value.OpenAi? && r.value.model == OrString(model, OpenAiDefaultModel)
      && r.value.baseUrl == baseUrl && r.value.apiKey == apiKey && r.value.temperature == temperature
      && r.value.maxTokens == MaxTokensOr(maxTokens)
    ensures name == "emulation" && r.Ok? ==> r.value == Emulation(scriptPath.value)
  {
    if name == "claude" then Ok(Claude(OrString(model, ClaudeDefaultModel)))
    else if name == "openai" then
      Ok(OpenAi(OrString(model, OpenAiDefaultModel), baseUrl, apiKey, temperature, MaxTokensOr(maxTokens)))
    else if name == "emulation" then
      if scriptPath.None? || scriptPath.value == [] then Err("emulation_script_path is required for provider=emulation")
      else Ok(Emulation(scriptPath.value))
    else Err("Unknown provider: " + name + ". Use claude, openai, or emulation.")
  }

  /** `max_tokens or 4096`: None and 0 both fall back to the default. */
  function MaxTokensOr(maxTokens: Option<int>): (r: int)
    ensures maxTokens.Some? && maxTokens.value != 0 ==> r == maxTokens.value
    ensures maxTokens.None? || maxTokens.value == 0 ==> r == OpenAiDefaultMaxTokens
  {
    if maxTokens.Some? && maxTokens.value != 0 then maxTokens.value else OpenAiDefaultMaxTokens
  }
}
