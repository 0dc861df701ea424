/** Application settings: two environment variables read once when the
    settings object is built, then validated; construction fails with a
    `ValueError` when either value is unusable. The environment is passed in
    as the two optional strings `os.getenv` would return. */
module Config {
  import opened Wrappers

  const ApiKeyMessage := "OPENAI_API_KEY environment variable is empty or not set. Please set it in your .env file."
  const DefaultModelMessage := "DEFAULT_MODEL environment variable is empty. Please set it in your .env file."
  /** The value `DEFAULT_MODEL` takes when the variable is not set at all. */
  const FallbackModel := "openai"

  /** The characters Python's `str.isspace` accepts, and so the ones
      `str.strip()` removes. */
  predicate IsSpace(c: char) {
    var n := c as int;
    (0x09 <= n <= 0x0D) || (0x1C <= n <= 0x20) || n == 0x85 || n == 0xA0 || n == 0x1680
    || (0x2000 <= n <= 0x200A) || n == 0x2028 || n == 0x2029 || n == 0x202F || n == 0x205F || n == 0x3000
  }

  /** Every character of `s` is whitespace (vacuously so for ""). */
  ghost predicate IsBlank(s: string) {
    forall i :: 0 <= i < |s| ==> IsSpace(s[i])
  }

  /** `s` without its leading whitespace. */
  function TrimStart(s: string): string {
    if s != [] && IsSpace(s[0]) then TrimStart(s[1..]) else s
  }

  /** `s` without its trailing whitespace. */
  function TrimEnd(s: string): string {
    if s != [] && IsSpace(s[|s| - 1]) then TrimEnd(s[..|s| - 1]) else s
  }

  /** `s.strip()` */
  function Strip(s: string): string {
    TrimEnd(TrimStart(s))
  }

  lemma {:induction false} TrimStartEmptyIffBlank(s: string)
    ensures TrimStart(s) == "" <==> IsBlank(s)
    ensures TrimStart(s) != "" ==> !IsSpace(TrimStart(s)[0])
  {
    if s != [] && IsSpace(s[0]) {
      TrimStartEmptyIffBlank(s[1..]);
      assert forall i :: 1 <= i < |s| ==> s[i] == s[1..][i - 1];
    }
  }

  lemma {:induction false} TrimEndEmptyIffBlank(s: string)
    ensures TrimEnd(s) == "" <==> IsBlank(s)
  {
    if s != [] && IsSpace(s[|s| - 1]) {
      TrimEndEmptyIffBlank(s[..|s| - 1]);
    }
  }

  /** `s.strip() == ""` holds exactly when every character of `s` is
      whitespace. */
  lemma StripEmptyIffBlank(s: string)
    ensures Strip(s) == "" <==> IsBlank(s)
  {
    TrimStartEmptyIffBlank(s);
    TrimEndEmptyIffBlank(TrimStart(s));
    if TrimStart(s) != "" {
      assert !IsBlank(TrimStart(s));
    }
  }

  /** The settings of a successfully constructed `Settings` object; the two
      accessors `openai_api_key` and `default_model` return these fields. */
  datatype Settings = Settings(openaiApiKey: string, defaultModel: string)

  /** `validate()`: the message of the `ValueError` it raises, or `None` when
      both values are usable. The API key is checked first. */
  function Validate(openaiApiKey: Option<string>, defaultModel: string): (raised: Option<string>)
    ensures raised == None <==> openaiApiKey.Some? && !IsBlank(openaiApiKey.value) && !IsBlank(defaultModel)
    ensures raised != None ==> raised.value == if openaiApiKey.None? || IsBlank(openaiApiKey.value) then ApiKeyMessage else DefaultModelMessage
  {
    var key := if openaiApiKey.Some? then openaiApiKey.value else "";
    StripEmptyIffBlank(key);
    StripEmptyIffBlank(defaultModel);
    if openaiApiKey.None? || openaiApiKey.value == "" || Strip(openaiApiKey.value) == "" then Some(ApiKeyMessage)
    else if defaultModel == "" || Strip(defaultModel) == "" then Some(DefaultModelMessage)
    else None
  }

  /** `Settings()`: read `OPENAI_API_KEY` as is, `DEFAULT_MODEL` with the
      fallback `"openai"` when unset, then validate. The stored values are
      the environment's own, not stripped. */
  function NewSettings(apiKeyEnv: Option<string>, defaultModelEnv: Option<string>): (r: Result<Settings, string>)
    ensures r.Ok? <==> apiKeyEnv.Some? && !IsBlank(apiKeyEnv.value) && (defaultModelEnv.None? || !IsBlank(defaultModelEnv.value))
    ensures r.Ok? ==> r.value.openaiApiKey == apiKeyEnv.value
    ensures r.Ok? ==> r.value.defaultModel == if defaultModelEnv.Some? then defaultModelEnv.value else "openai"
    ensures apiKeyEnv.None? || IsBlank(apiKeyEnv.value) ==> r == Err(ApiKeyMessage)
    ensures apiKeyEnv.Some? && !IsBlank(apiKeyEnv.value) && defaultModelEnv.Some? && IsBlank(defaultModelEnv.value) ==> r == Err(DefaultModelMessage)
  {
    var openaiApiKey := apiKeyEnv;
    var defaultModel := if defaultModelEnv.Some? then defaultModelEnv.value else FallbackModel;
    match Validate(openaiApiKey, defaultModel)
    case Some(message) => Err(message)
    case None => Ok(Settings(openaiApiKey.value, defaultModel))
  }
}
