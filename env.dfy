/**
 * The process environment as the two handlers see it. A credential counts as
 * configured only when its variable is set to a non-empty string: both handlers
 * test it with `if (!apiKey)` / `if (process.env.X)`, and the empty string is
 * falsy.
 */
module Env {
  import opened Wrappers

  /** Variable name to value; a name outside the map is unset. */
  type Environment = map<string, string>

  const DeepSeekKey: string := "DEEPSEEK_API_KEY"
  const OpenAIKey: string := "OPENAI_API_KEY"
  const GeminiKey: string := "GEMINI_API_KEY"
  const ClaudeKey: string := "CLAUDE_API_KEY"
  const NebiusKey: string := "NEBIUS_API_KEY"

  /** The credential stored under `name`, when it is truthy. */
  function ApiKey(env: Environment, name: string): (r: Option<string>)
    ensures r.Some? <==> name in env && env[name] != ""
    ensures r.Some? ==> r.value == env[name] && r.value != ""
  {
    if name in env && env[name] != "" then Some(env[name]) else None
  }

  predicate Present(env: Environment, name: string) {
    ApiKey(env, name).Some?
  }
}
