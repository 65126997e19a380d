/** Startup configuration: the environment schema and the initial session value. */
module Utils {
  import opened Wrappers
  import opened ChatTypes
  import opened Modes

  /** The ten variables the schema demands, in schema order. */
  const RequiredKeys: seq<string> := [
    "TELEGRAM_TOKEN", "OPEN_AI_PLATFORM_TOKEN", "NO_OAI_TOKEN_MESSAGE_LIMIT",
    "PG_HOST", "PG_USER", "PG_PASSWORD", "PG_PORT", "PG_DB",
    "WEBHOOK_DOMAIN", "WEBHOOK_PORT"]

  /** The parsed environment: the object schema keeps exactly the required variables and drops the rest. */
  type Env = map<string, string>

  /** `z.string().nonempty()` for one variable: defined and not the empty string. */
  predicate Present(env: map<string, string>, key: string)
  {
    key in env && env[key] != ""
  }

  /** The keys of `keys` that fail their check, in order. */
  function InvalidKeys(env: map<string, string>, keys: seq<string>): (r: seq<string>)
    ensures forall k :: k in r <==> k in keys && !Present(env, k)
    ensures |r| <= |keys|
  {
    if keys == [] then []
    else
      var rest := InvalidKeys(env, keys[1..]);
      assert forall k :: k in keys <==> k == keys[0] || k in keys[1..];
      if Present(env, keys[0]) then rest else [keys[0]] + rest
  }

  /**
   * `envSchema.parse(process.env)`: succeeds exactly when every required
   * variable is a non-empty string, and then carries exactly those variables
   * with their values; otherwise it fails (at load time) naming exactly the
   * offending variables.
   */
  function ParseEnv(env: map<string, string>): (r: Result<Env, seq<string>>)
    ensures r.Success? <==> forall k :: k in RequiredKeys ==> Present(env, k)
    ensures r.Failure? ==> r.error != [] && forall k :: k in r.error <==> k in RequiredKeys && !Present(env, k)
    ensures r.Success? ==> forall k :: k in r.value <==> k in RequiredKeys
    ensures r.Success? ==> forall k :: k in r.value ==> k in env && r.value[k] == env[k] && r.value[k] != ""
  {
    var invalid := InvalidKeys(env, RequiredKeys);
    if invalid != [] then
      assert invalid[0] in invalid;
      Failure(invalid)
    else
      Success(map k | k in RequiredKeys && k in env :: env[k])
  }

  /**
   * The message limit is only checked for being non-empty: with the other
   * variables valid, any non-empty value is accepted, numeric or not.
   */
  lemma LimitOnlyNonEmpty(env: map<string, string>, limit: string)
    requires forall k :: k in RequiredKeys ==> Present(env, k)
    ensures ParseEnv(env["NO_OAI_TOKEN_MESSAGE_LIMIT" := limit]).Success? <==> limit != ""
    ensures limit != "" ==> ParseEnv(env["NO_OAI_TOKEN_MESSAGE_LIMIT" := limit]).value["NO_OAI_TOKEN_MESSAGE_LIMIT"] == limit
  {
    var env' := env["NO_OAI_TOKEN_MESSAGE_LIMIT" := limit];
    assert "NO_OAI_TOKEN_MESSAGE_LIMIT" in RequiredKeys;
    assert forall k :: k in RequiredKeys && k != "NO_OAI_TOKEN_MESSAGE_LIMIT" ==> Present(env', k);
  }

  /** The mode a new conversation starts in: a code, not a display name. */
  const InitialMode := "ASSISTANT"

  /** The initial toggles: short replies off. */
  const InitialSettings: map<string, bool> := map["skipProse" := false]

  /** The initial transcript: the system entry of the mode whose code is the initial mode. */
  function InitialHistory(): seq<ChatHistoryItem>
  {
    [ChatHistoryItem(System, PromptStartOf(FindByCode(Some(InitialMode))))]
  }

  /** The initial transcript is one system entry holding the ASSISTANT prompt. */
  lemma InitialHistoryShape()
    ensures InitialHistory() == [ChatHistoryItem(System, Some(Assistant.promptStart))]
    ensures |Assistant.promptStart| > 0
    ensures SystemOnlyAtHead(InitialHistory())
  {
    LookupTable();
  }
}
