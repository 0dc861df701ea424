# Code-analysis service: registry, dispatch, settings and prompt

A Dafny model of the core of a small web service. The service forwards a code
snippet and a task name to a registered large-language-model provider and
returns the provider's text. The model covers five parts:

- **The provider registry** (`ModelManager`) is a name-to-provider table
  filled by `register_provider`. It is read by `get_provider`, which raises a
  `ValueError` for an unknown name, and by `list_providers`, which returns the
  names in insertion order.
- **The JSON handlers** are `POST /api/code/analyze`, `GET /api/models` and
  `GET /api/llm_providers`.
  - `POST /api/code/analyze` falls back to the configured default provider
    when none is named. It turns a lookup failure into HTTP 404 and a
    provider failure into HTTP 500, each with the raw message.
  - `GET /api/models` with a name lists that provider's models, or gives
    HTTP 404 for an unknown name. Without a name it lists every registered
    provider's models.
  - `GET /api/llm_providers` lists the registered names and has no error
    path.
- **The settings** are validated once at construction. The API key must be
  present and not blank. `DEFAULT_MODEL` falls back to `"openai"` only when
  unset, and must not be blank.
- **The prompt builder** is a fixed template holding the code and the task
  verbatim.
- **Start-up** registers the OpenAI provider under `"openai"`.

Modules, one per file:

| file | module | models |
|---|---|---|
| wrappers.dfy | `Wrappers` | `Option` (Python `None`) and `Result` (a value or a raised exception's message) |
| dicts.dfy | `Dicts` | a Python `dict` value: entries plus key insertion order, `d[k] = v`, and what a history of assignments produces |
| manager.dfy | `Manager` | `ModelManager` as a class whose one field is its `_providers` dict; `Lookup` is `get_provider` on a registry value |
| config.dfy | `Config` | `str.strip`, `Settings.validate`, `Settings()` over the two environment values |
| prompts.dfy | `Prompts` | `get_system_prompt` and its inverse `Parse` |
| providers.dfy | `Providers` | a provider value: its supported models and the outcome of `analyze_code`; the OpenAI provider |
| endpoints.dfy | `Endpoints` | the three JSON handlers, over a registry value and a settings value |
| startup.dfy | `Startup` | `register_providers` and a start-up scenario |

The registry is a class because `register_provider` updates its dict in place.
The handlers only read the registry and the settings, so they are functions
over the registry's dict value and a `Settings` value. A `Settings` object is
never changed after `__init__`, so it is a datatype. `NewSettings` builds it
and returns either the settings or the raised `ValueError` message.

The remote model call is not modelled. A provider carries
`analyzeCode: (code, task) -> Result<string, string>`, which is the text it
returns or the message of the exception it raises. `CodeAnalyze` returns its
response together with the list of provider calls it made. This list is what
shows that a 404 makes no call and that the 500 path does not retry.

## Model

| member | source | states |
|---|---|---|
| `Dicts.SetValid` | app/core/manager.py:9 | assigning a name keeps the registry's invariant: every name listed once, and the listing equal to the set of registered names |
| `Dicts.ReplayOrder` | app/core/manager.py:8-17 | after any sequence of registrations from `{}`, the listing is the registered names in order of FIRST registration, each once (checked against the independent definition `FirstOccurrences`) |
| `Dicts.ReplayValues` | app/core/manager.py:8-9 | after any sequence of registrations, a name is present exactly when it was registered, and holds the provider registered LAST |
| `Manager.ModelManager.constructor` | app/core/manager.py:5-6 | a fresh registry is empty, so it lists nothing |
| `Manager.ModelManager.RegisterProvider` | app/core/manager.py:8-9 | insert-or-overwrite: the name now resolves to the new provider; every other name resolves as before; a new name is appended to the listing and an existing one keeps its place |
| `Manager.ModelManager.GetProvider` | app/core/manager.py:11-14 | succeeds exactly for listed names and returns the stored provider; otherwise fails with exactly `"Provider " + name + " not found"`; changes nothing |
| `Manager.ModelManager.ListProviders` | app/core/manager.py:16-17 | returns the registry order, without duplicates, holding exactly the names `GetProvider` resolves; changes nothing |
| `Manager.RegisterThenLookup` | app/core/manager.py:8-14 | after `register(n, p)` the lookup of `n` is `p` (last write wins) and every other name's lookup, including its not-found error, is unchanged |
| `Manager.ListedIffFound` | app/core/manager.py:11-17 | a name is listed if and only if its lookup succeeds; an unlisted name fails with the not-found message and no other error |
| `Manager.RegisterAll` | app/core/manager.py:5-17 | registering a history of pairs on a fresh `ModelManager` leaves the object holding the replayed dict: listing in first-registration order, and each lookup gives the last provider registered or the not-found error |
| `Manager.RegistrationHistory` | app/core/manager.py:8-17 | for any registration history: listing in first-registration order, each name once, and each lookup gives the last provider registered or the not-found error |
| `Config.StripEmptyIffBlank` | app/core/config.py:29 | `s.strip() == ""` exactly when every character of `s` is whitespace |
| `Config.Validate` | app/core/config.py:28-36 | passes exactly when the key is present and not blank and the default model is not blank; otherwise raises the API-key message if the key is bad (checked first), else the DEFAULT_MODEL message |
| `Config.NewSettings` | app/core/config.py:12-26 | construction succeeds exactly when the key is present and not blank and `DEFAULT_MODEL` is unset or not blank; the accessors then return the environment values unstripped, with `"openai"` only for an unset `DEFAULT_MODEL`; a missing or blank key gives the API-key error even when `DEFAULT_MODEL` is also bad; a set but blank `DEFAULT_MODEL` gives its own error |
| `Prompts.PromptShape` | app/prompts.py:1-17 | the prompt starts with the fixed header, ends with `Provide only the final result.\n`, and its length is the template's plus the code's plus the task's |
| `Prompts.CodeAndTaskVerbatim` | app/prompts.py:4-9 | for any code and task, the code stands verbatim between `CODE:\n` and the following line break and dashed separator, and `TASK: ` + task stands verbatim before a line break |
| `Prompts.ParseBuilt` | app/prompts.py:1-17 | parsing a built prompt back, given the code's length, yields the original code and task |
| `Prompts.BuiltFromParsed` | app/prompts.py:1-17 | any text that parses is exactly the prompt built from the parsed code and task |
| `Prompts.PromptInjective` | app/prompts.py:1-17 | distinct (code, task) pairs with codes of equal length give distinct prompts |
| `Providers.OpenAIForwardsPrompt` | app/models/openai.py:12-29 | the OpenAI provider lists `gpt-4o` and `gpt-4o-mini`; it sends the service a prompt from which the code and task parse back unchanged, and returns the service's answer unchanged |
| `Endpoints.CodeAnalyze` | app/api/endpoints.py:214-224 | unknown effective provider: 404 with the lookup message and no provider call; otherwise exactly one call with the code and task as given; a failure with message `m` gives 500 with detail `m`; text `r` gives `{"result": r}`; nothing else escapes |
| `Endpoints.DefaultProviderFallback` | app/api/endpoints.py:203-215 | an omitted provider, `""` and the configured default name give the same outcome |
| `Endpoints.ModelsByProviderSucceeds` | app/api/endpoints.py:240-243 | when every listed name resolves and none repeats, the comprehension succeeds and adds one entry per name, in listing order, each being that provider's supported models |
| `Endpoints.ListModels` | app/api/endpoints.py:232-238 | a named provider that is unknown gives 404 with the lookup message; a known one gives `{name: supported_models}` |
| `Endpoints.ListAllModels` | app/api/endpoints.py:239-243 | with no name or an empty one, on a valid registry, the handler never raises; its keys are exactly the registered names in registry order, each mapped to its supported models |
| `Endpoints.ListProviders` | app/api/endpoints.py:251-252 | exactly the one-entry dict `{"llm_providers": names}` with the names in registry order, without duplicates, exactly those that resolve |
| `Startup.RegisterProviders` | main.py:11-16 | registering at start-up adds the OpenAI provider under `"openai"` |
| `Startup.Start` | main.py:19-25 | after start-up a fresh registry lists `"openai"` alone |
| `Startup.EchoScenario` | app/api/endpoints.py:214-224 | with an echoing chat service, analysing `print(1)` with the default task and provider returns `{"result": prompt}` after one call, where the prompt holds the code and `explain` |
| `Startup.StartupListings` | app/api/endpoints.py:232-252 | after start-up the provider listing is `["openai"]` and the model listing is `{"openai": ["gpt-4o", "gpt-4o-mini"]}` |

## Left out

- `render_html` and `GET /` are HTML, CSS and client-side script: presentation only.
- `analyze_ui` (`POST /analyze`) is left out. It passes `error=` and `result=` to `render_html`, which accepts neither, so every path raises `TypeError`. Its name resolution is the same rule as `EffectiveProvider`.
- The remote chat-completion call, its client and the fixed `"gpt-4"` model name are not modelled. A provider's answer is a parameter of the model. Because `analyzeCode` is a function, a given provider value answers a given code and task the same way every time. The remote service's nondeterminism is not captured. Because `analyzeCode` is total, a remote call that does not return is not represented either. The source sets no timeout of its own, so such a request waits for as long as the client library lets it.
- `supported_tasks` in app/models/openai.py:23-25 is used by no handler and is not modelled.
- `load_dotenv` and `os.getenv` are I/O. The environment enters as two optional strings.
- Pydantic request parsing is reduced to the `CodePayload` defaults. FastAPI's exception plumbing and async scheduling are left out. `Escaped` stands for an exception that leaves a handler unhandled.
- The module-level singletons `model_manager` and `settings` are left out. The handlers take the registry and the settings as arguments.
- `IsSpace` lists the characters that Python's `str.isspace` accepts. It is assumed to match the set that `str.strip()` removes.
- Python's dict is one structure. Here it is a map plus a key sequence whose agreement is the invariant `Dict.Valid`.
- A Dafny `string` cannot hold the lone surrogates (U+D800 to U+DFFF) that a Python `str` can. Such strings can come from `\uD8xx` escapes in request JSON, or from undecodable environment bytes. Code, task, provider names and settings values holding them are outside the model. Nothing in the core treats them specially.
