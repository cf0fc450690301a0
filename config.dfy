/** `load_env_variables`: the values read from the `.env` file become the API
    credentials and the tracking parameters (`ClientParams`). The file has
    already been read: `dotenv_values` yields a dictionary in which a key
    written without a value maps to `None`. */
module Config {
  import opened Wrappers
  import IdList

  /** The dictionary `dotenv_values(".env")` returns. */
  type Env = map<string, Option<string>>

  /** Pattern used when the file sets no `PATTERN`. */
  const DEFAULT_TRAINING_PATTERN: string := ".*сегодня.*тренировка.*"

  /** Tracking parameters. A `PATTERN` key written without a value leaves
      the pattern `None`. */
  datatype ClientParams = ClientParams(chats: seq<int>, users: seq<int>, pattern: Option<string>)

  /** The triple `load_env_variables` returns. */
  datatype Settings = Settings(apiId: int, apiHash: string, params: ClientParams)

  /** The exceptions `load_env_variables` raises. */
  datatype ConfigError =
    | ApiIdNotSet                             // int(None): TypeError
    | ApiIdInvalid(literal: string)           // int(text): ValueError
    | IdListNotSet(key: string)               // [].split / None.split: AttributeError
    | IdListInvalid(key: string, literal: string) // int(segment): ValueError
    | CredentialsNotSet                       // RuntimeError('API_ID or API_HASH must be set in .env')

  /** `env.get(key)` */
  function Get(env: Env, key: string): Option<string>
  {
    if key in env then env[key] else None
  }

  /** `[int(u) for u in env.get(key, []).split(',')[:-1]]` */
  function LoadIdList(env: Env, key: string): (r: Result<seq<int>, ConfigError>)
    ensures Get(env, key).None? ==> r == Err(IdListNotSet(key))
    ensures r.Ok? ==> Get(env, key).Some? && IdList.ParseIds(Get(env, key).value) == Ok(r.value)
    ensures r.Err? && Get(env, key).Some? ==>
      && IdList.ParseIds(Get(env, key).value).Err?
      && r.error == IdListInvalid(key, IdList.ParseIds(Get(env, key).value).error.literal)
  {
    match Get(env, key)
    case None => Err(IdListNotSet(key))
    case Some(text) =>
      match IdList.ParseIds(text)
      case Err(e) => Err(IdListInvalid(key, e.literal))
      case Ok(ids) => Ok(ids)
  }

  /** `load_env_variables`, with its exceptions in the order the statements
      raise them: `int(API_ID)` first, then the two id lists, and only then
      the check on `API_HASH`. */
  function LoadConfig(env: Env): (r: Result<Settings, ConfigError>)
    ensures Get(env, "API_ID").None? ==> r == Err(ApiIdNotSet)
    ensures r.Ok? <==>
      && Get(env, "API_ID").Some? && IdList.IsIntLiteral(Get(env, "API_ID").value)
      && LoadIdList(env, "CHAT_IDS").Ok? && LoadIdList(env, "USER_IDS").Ok?
      && Get(env, "API_HASH").Some?
    ensures r.Ok? ==>
      && IdList.ParseInt(Get(env, "API_ID").value) == Ok(r.value.apiId)
      && Some(r.value.apiHash) == Get(env, "API_HASH")
      && r.value.params.chats == LoadIdList(env, "CHAT_IDS").value
      && r.value.params.users == LoadIdList(env, "USER_IDS").value
    ensures r.Ok? ==>
      r.value.params.pattern == if "PATTERN" in env then env["PATTERN"] else Some(DEFAULT_TRAINING_PATTERN)
  {
    match Get(env, "API_ID")
    case None => Err(ApiIdNotSet)
    case Some(idText) =>
      match IdList.ParseInt(idText)
      case Err(_) => Err(ApiIdInvalid(idText))
      case Ok(apiId) =>
        var apiHash := Get(env, "API_HASH");
        match LoadIdList(env, "CHAT_IDS")
        case Err(e) => Err(e)
        case Ok(chats) =>
          match LoadIdList(env, "USER_IDS")
          case Err(e) => Err(e)
          case Ok(users) =>
            var pattern := if "PATTERN" in env then env["PATTERN"] else Some(DEFAULT_TRAINING_PATTERN);
            if apiHash.None? then Err(CredentialsNotSet)
            else Ok(Settings(apiId, apiHash.value, ClientParams(chats, users, pattern)))
  }

  /** The `RuntimeError` is raised exactly when everything before it
      succeeded and `API_HASH` is missing. A missing `API_ID` has already
      failed at `int(None)`, so the `api_id is None` half of the check never
      fires. */
  lemma CredentialCheck(env: Env)
    ensures LoadConfig(env) == Err(CredentialsNotSet) <==>
      && Get(env, "API_ID").Some? && IdList.IsIntLiteral(Get(env, "API_ID").value)
      && LoadIdList(env, "CHAT_IDS").Ok? && LoadIdList(env, "USER_IDS").Ok?
      && Get(env, "API_HASH").None?
    ensures LoadConfig(env) == Err(CredentialsNotSet) ==> Get(env, "API_ID").Some?
  {
  }

  /** `CHAT_IDS` and `USER_IDS` go through the same parser, and neither
      value affects the other list. */
  lemma IdListsIndependent(env: Env, text: string)
    requires LoadConfig(env).Ok?
    requires LoadConfig(env["USER_IDS" := Some(text)]).Ok?
    ensures LoadConfig(env["USER_IDS" := Some(text)]).value.params.chats == LoadConfig(env).value.params.chats
    ensures LoadConfig(env["USER_IDS" := Some(text)]).value.params.users == IdList.ParseIds(text).value
  {
  }

  /** The result of `load_env_variables` when both id lists and the
      credentials are present. */
  lemma LoadConfigFromParts(env: Env, apiId: int, apiHash: string, chats: seq<int>, users: seq<int>)
    requires Get(env, "API_ID").Some? && IdList.ParseInt(Get(env, "API_ID").value) == Ok(apiId)
    requires Get(env, "API_HASH") == Some(apiHash)
    requires LoadIdList(env, "CHAT_IDS") == Ok(chats) && LoadIdList(env, "USER_IDS") == Ok(users)
    requires "PATTERN" !in env
    ensures LoadConfig(env) == Ok(Settings(apiId, apiHash, ClientParams(chats, users, Some(DEFAULT_TRAINING_PATTERN))))
  {
  }

  /** A `.env` file written in the documented layout (the id, the hash,
      each id list as decimal literals each followed by a comma, no
      `PATTERN`) loads back as exactly those values and the default
      pattern. */
  lemma LoadConfigRoundTrip(env: Env, apiId: int, apiHash: string, chats: seq<int>, users: seq<int>)
    requires env == map["API_ID" := Some(IdList.IntLiteral(apiId)), "API_HASH" := Some(apiHash),
                        "CHAT_IDS" := Some(IdList.Format(chats)), "USER_IDS" := Some(IdList.Format(users))]
    ensures LoadConfig(env) == Ok(Settings(apiId, apiHash,
                                           ClientParams(chats, users, Some(DEFAULT_TRAINING_PATTERN))))
  {
    IdList.IntLiteralRoundTrip(apiId);
    IdList.ParseFormatRoundTrip(chats);
    IdList.ParseFormatRoundTrip(users);
    LoadConfigFromParts(env, apiId, apiHash, chats, users);
  }
}
