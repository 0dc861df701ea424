/** Application start-up: the registry is filled once, with the OpenAI
    provider under the name "openai", before any request is handled. */
module Startup {
  import opened Wrappers
  import opened Dicts
  import opened Manager
  import opened Config
  import opened Prompts
  import opened Providers
  import opened Endpoints

  /** `register_providers()` on the given registry. */
  method RegisterProviders(manager: ModelManager<Provider>, chat: string -> Result<string, string>)
    requires manager.Valid()
    modifies manager
    ensures manager.Valid()
    ensures manager.providers == old(manager.providers).Set("openai", OpenAIProvider(chat))
  {
    manager.RegisterProvider("openai", OpenAIProvider(chat));
  }

  /** A fresh registry after start-up lists "openai" alone. */
  method Start(chat: string -> Result<string, string>) returns (manager: ModelManager<Provider>)
    ensures fresh(manager) && manager.Valid()
    ensures manager.providers == Empty().Set("openai", OpenAIProvider(chat))
    ensures manager.providers.keys == ["openai"]
  {
    manager := new ModelManager();
    RegisterProviders(manager, chat);
  }

  /** With the start-up registry and a chat service that echoes the prompt it
      is sent, analysing `print(1)` with the default task and provider returns
      `{"result": prompt}` after exactly one provider call, for the prompt that
      holds the code and the task `explain`. */
  lemma EchoScenario(settings: Settings)
    requires settings.defaultModel == "openai"
    ensures var registry := Empty().Set("openai", OpenAIProvider(prompt => Ok(prompt)));
      var prompt := GetSystemPrompt("print(1)", "explain");
      && CodeAnalyze(registry, settings, CodePayload("print(1)"))
         == Handled(Respond(Singleton("result", prompt)), [Call("openai", "print(1)", "explain")])
      && OccursAt(prompt, CodeLabel + "print(1)" + CodeFence, |BeforeCode| - |CodeLabel|)
      && OccursAt(prompt, TaskLabel + "explain" + "\n", |BeforeCode| + |"print(1)"| + |BeforeTask| - |TaskLabel|)
  {
    CodeAndTaskVerbatim("print(1)", "explain");
  }

  /** The start-up registry lists the one provider and its two models. */
  lemma StartupListings(chat: string -> Result<string, string>)
    ensures var registry := Empty().Set("openai", OpenAIProvider(chat));
      && ListProviders(registry) == Respond(Singleton("llm_providers", ["openai"]))
      && ListModels(registry, None) == Respond(Singleton("openai", ["gpt-4o", "gpt-4o-mini"]))
  {
    var registry := Empty().Set("openai", OpenAIProvider(chat));
    assert registry.keys == ["openai"];
    ListAllModels(registry, None);
  }
}
