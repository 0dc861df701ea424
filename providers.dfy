/** Providers: the values the registry holds. A provider answers
    `analyze_code(code, task)` and lists the backend models it supports. The
    remote call itself is not modelled; its outcome, the returned text or the
    message of the exception raised, is part of the provider value. */
module Providers {
  import opened Wrappers
  import opened Prompts

  datatype Provider = Provider(
    supportedModels: seq<string>,
    /** The outcome of `analyze_code(code, task)`: `Ok(text)` or `Err(message)`. */
    analyzeCode: (string, string) -> Result<string, string>)

  /** The models the OpenAI provider lists. */
  const OpenAIModels := ["gpt-4o", "gpt-4o-mini"]

  /** `OpenAIProvider()`: it sends the system prompt built from the code and
      the task to the chat-completion service, whose answer for a given
      prompt is `chat(prompt)`. */
  function OpenAIProvider(chat: string -> Result<string, string>): Provider {
    Provider(OpenAIModels, (code, task) => chat(GetSystemPrompt(code, task)))
  }

  /** Every call the OpenAI provider makes carries the code and the task
      verbatim, and its answer is the service's answer unchanged. */
  lemma OpenAIForwardsPrompt(chat: string -> Result<string, string>, code: string, task: string)
    ensures var p := OpenAIProvider(chat);
      p.supportedModels == ["gpt-4o", "gpt-4o-mini"]
      && (exists prompt :: p.analyzeCode(code, task) == chat(prompt)
                          && Parse(prompt, |code|) == Some((code, task)))
  {
    ParseBuilt(code, task);
  }
}
