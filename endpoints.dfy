/** The JSON request handlers: dispatch of an analysis request to the
    registered provider, with lookup failures mapped to 404 and analysis
    failures to 500, and the two listing endpoints. The registry and the
    settings are passed in as values; each handler reads them and changes
    nothing. */
module Endpoints {
  import opened Wrappers
  import opened Dicts
  import opened Manager
  import opened Config
  import opened Providers

  /** The JSON body of `POST /api/code/analyze`; an omitted `task` is
      `"explain"` and an omitted `provider` is `None`. */
  datatype CodePayload = CodePayload(code: string, task: string := "explain", provider: Option<string> := None)

  /** What a handler ends with: the JSON body it returns, the `HTTPException`
      it raises, or another exception escaping it. */
  datatype Response<T> = Respond(body: T) | HttpError(status: nat, detail: string) | Escaped(message: string)

  /** One invocation of a provider's `analyze_code`. */
  datatype Call = Call(provider: string, code: string, task: string)

  /** A handler's response together with the provider calls it made, in order. */
  datatype Handled<T> = Handled(response: Response<T>, calls: seq<Call>)

  /** Python truthiness of an optional string: present and non-empty. */
  predicate Truthy(s: Option<string>) {
    s.Some? && s.value != ""
  }

  /** `requested or default_model`. */
  function EffectiveProvider(requested: Option<string>, defaultModel: string): string {
    if Truthy(requested) then requested.value else defaultModel
  }

  /** `POST /api/code/analyze`. An unknown provider is a 404 carrying the
      registry's message and no provider is called; otherwise the provider is
      called exactly once, with the code and task as given, and its failure
      becomes a 500 carrying the failure's message while its text comes back
      unchanged as `{"result": text}`. Nothing escapes. */
  function CodeAnalyze(registry: Dict<Provider>, settings: Settings, payload: CodePayload): (h: Handled<Dict<string>>)
    ensures var name := EffectiveProvider(payload.provider, settings.defaultModel);
      name !in registry.entries ==> h == Handled(HttpError(404, NotFoundMessage(name)), [])
    ensures var name := EffectiveProvider(payload.provider, settings.defaultModel);
      name in registry.entries ==> h.calls == [Call(name, payload.code, payload.task)]
    ensures var name := EffectiveProvider(payload.provider, settings.defaultModel);
      forall message :: name in registry.entries
        && registry.entries[name].analyzeCode(payload.code, payload.task) == Err(message)
        ==> h.response == HttpError(500, message)
    ensures var name := EffectiveProvider(payload.provider, settings.defaultModel);
      forall text :: name in registry.entries
        && registry.entries[name].analyzeCode(payload.code, payload.task) == Ok(text)
        ==> h.response == Respond(Singleton("result", text))
    ensures !h.response.Escaped? && |h.calls| <= 1
  {
    var name := EffectiveProvider(payload.provider, settings.defaultModel);
    match Lookup(registry, name)
    case Err(message) => Handled(HttpError(404, message), [])
    case Ok(provider) =>
      var call := Call(name, payload.code, payload.task);
      match provider.analyzeCode(payload.code, payload.task)
      case Err(message) => Handled(HttpError(500, message), [call])
      case Ok(text) => Handled(Respond(Singleton("result", text)), [call])
  }

  /** An omitted provider, an empty one and the configured default one are
      all served by the default provider. */
  lemma DefaultProviderFallback(registry: Dict<Provider>, settings: Settings, code: string, task: string)
    ensures CodeAnalyze(registry, settings, CodePayload(code, task))
         == CodeAnalyze(registry, settings, CodePayload(code, task, Some("")))
    ensures CodeAnalyze(registry, settings, CodePayload(code, task))
         == CodeAnalyze(registry, settings, CodePayload(code, task, Some(settings.defaultModel)))
  {
  }

  /** `{prov: get_provider(prov).supported_models for prov in names}`, built
      left to right onto `acc`; the first failing lookup raises. */
  function ModelsByProvider(registry: Dict<Provider>, names: seq<string>, acc: Dict<seq<string>>): Result<Dict<seq<string>>, string>
    decreases |names|
  {
    if names == [] then Ok(acc)
    else match Lookup(registry, names[0])
      case Err(message) => Err(message)
      case Ok(provider) => ModelsByProvider(registry, names[1..], acc.Set(names[0], provider.supportedModels))
  }

  /** The entries the comprehension adds for `names`. */
  function ModelsOf(registry: Dict<Provider>, names: seq<string>): map<string, seq<string>>
    requires forall n :: n in names ==> n in registry.entries
  {
    map k | k in names :: registry.entries[k].supportedModels
  }

  /** One step of the comprehension when the first name resolves. */
  lemma ModelsByProviderStep(registry: Dict<Provider>, names: seq<string>, acc: Dict<seq<string>>)
    requires names != [] && names[0] in registry.entries
    ensures ModelsByProvider(registry, names, acc)
         == ModelsByProvider(registry, names[1..], acc.Set(names[0], registry.entries[names[0]].supportedModels))
  {
  }

  /** The entries for `names` are those for its tail plus its first name's. */
  lemma ModelsOfFirst(registry: Dict<Provider>, names: seq<string>)
    requires names != [] && forall n :: n in names ==> n in registry.entries
    ensures ModelsOf(registry, names) == ModelsOf(registry, names[1..])[names[0] := registry.entries[names[0]].supportedModels]
  {
  }

  /** When every name resolves, occurs once and is not yet in `acc`, the
      comprehension succeeds and appends one entry per name, in order. */
  lemma {:induction false} ModelsByProviderSucceeds(registry: Dict<Provider>, names: seq<string>, acc: Dict<seq<string>>)
    requires acc.Valid() && NoDuplicates(names)
    requires forall n :: n in names ==> n in registry.entries && n !in acc.entries
    ensures var r := ModelsByProvider(registry, names, acc);
      r.Ok? && r.value.Valid() && r.value.keys == acc.keys + names
      && r.value.entries == acc.entries + ModelsOf(registry, names)
  {
    if names != [] {
      var n, rest := names[0], names[1..];
      var models := registry.entries[n].supportedModels;
      var acc' := acc.Set(n, models);
      ModelsByProviderStep(registry, names, acc);
      SetValid(acc, n, models);
      assert acc'.keys == acc.keys + [n];
      assert names == [n] + rest;
      DropFirst(names);
      ModelsByProviderSucceeds(registry, rest, acc');
      var r' := ModelsByProvider(registry, rest, acc');
      SetThenAppend(acc, n, models, rest, ModelsOf(registry, rest), r'.value);
      ModelsOfFirst(registry, names);
    }
  }

  /** `GET /api/models`. A named provider that is unknown is a 404 carrying
      the registry's message; a known one yields `{name: supported_models}`.
      Without a name (or with an empty one) every registered provider is
      listed; see `ListAllModels`. */
  function ListModels(registry: Dict<Provider>, provider: Option<string>): (r: Response<Dict<seq<string>>>)
    ensures Truthy(provider) && provider.value !in registry.entries
      ==> r == HttpError(404, NotFoundMessage(provider.value))
    ensures Truthy(provider) && provider.value in registry.entries
      ==> r == Respond(Singleton(provider.value, registry.entries[provider.value].supportedModels))
  {
    if Truthy(provider) then
      match Lookup(registry, provider.value)
      case Err(message) => HttpError(404, message)
      case Ok(p) => Respond(Singleton(provider.value, p.supportedModels))
    else
      match ModelsByProvider(registry, registry.keys, Empty())
      case Err(message) => Escaped(message)
      case Ok(models) => Respond(models)
  }

  /** On a valid registry, the entries for its listed names are one per
      registered provider. */
  lemma ModelsOfAll(registry: Dict<Provider>)
    requires registry.Valid()
    ensures ModelsOf(registry, registry.keys) == map k | k in registry.entries :: registry.entries[k].supportedModels
  {
  }

  /** On a valid registry, listing all models never raises: its keys are
      exactly the registered names in registry order, each mapped to that
      provider's supported models. */
  lemma ListAllModels(registry: Dict<Provider>, provider: Option<string>)
    requires registry.Valid() && !Truthy(provider)
    ensures var r := ListModels(registry, provider);
      r.Respond? && r.body.Valid() && r.body.keys == registry.keys
      && r.body.entries == map k | k in registry.entries :: registry.entries[k].supportedModels
  {
    var empty := Empty<seq<string>>();
    ModelsByProviderSucceeds(registry, registry.keys, empty);
    var models := ModelsByProvider(registry, registry.keys, empty).value;
    assert ListModels(registry, provider) == Respond(models);
    assert empty.keys + registry.keys == registry.keys;
    UnionWithEmpty(ModelsOf(registry, registry.keys));
    ModelsOfAll(registry);
  }

  /** `GET /api/llm_providers`: `{"llm_providers": names}` with the names in
      registry order, each once, exactly the ones that resolve. */
  function ListProviders(registry: Dict<Provider>): (r: Response<Dict<seq<string>>>)
    ensures r.Respond? && r.body.Valid() && r.body.keys == ["llm_providers"] && "llm_providers" in r.body.entries
    ensures r.body.entries["llm_providers"] == registry.keys
    ensures registry.Valid() ==>
      NoDuplicates(r.body.entries["llm_providers"])
      && forall n :: n in r.body.entries["llm_providers"] <==> Lookup(registry, n).Ok?
  {
    Respond(Singleton("llm_providers", registry.keys))
  }
}
