/** The database records of the gateway (app/models.py) with the fields the
    routes read and write, and the column defaults a fresh row receives.
    Timestamps are integer seconds; the creation time of a row is not kept. */
module Records {
  import opened Common

  /** An upstream provider key; a limit of 0 means "no limit". */
  datatype ProviderKey = ProviderKey(
    id: int,
    name: string,
    apiKey: string,
    enabled: bool,
    rateLimitPerMin: int,
    tokenLimitPerDay: int)

  /** An API key handed to a user. The `...Value`/`...Period` fields are the
      ones the chat and admin routes use; `rateLimitPerMin` and
      `tokenLimitPerDay` are the older per-minute/per-day columns. */
  datatype UserKey = UserKey(
    id: int,
    key: string,
    name: string,
    enabled: bool,
    rateLimitEnabled: bool,
    rateLimitValue: int,
    rateLimitPeriod: string,
    rateLimitPerMin: int,
    tokenLimitEnabled: bool,
    tokenLimitValue: int,
    tokenLimitPeriod: string,
    tokenLimitPerDay: int,
    lastUsedAt: Option<int>)

  /** One upstream call: which provider key served it, for which user key
      (absent for the public proxy), when, and the tokens it used. */
  datatype UsageLog = UsageLog(
    providerKeyId: int,
    userKeyId: Option<int>,
    ts: int,
    requestTokens: int,
    responseTokens: int,
    totalTokens: int)

  /** The single row of CORS settings. */
  datatype CorsSettings = CorsSettings(
    allowedOrigins: string,
    allowedMethods: string,
    allowedHeaders: string,
    allowCredentials: bool,
    maxAge: int)

  /** A provider key row created with only the required columns set. */
  function NewProviderKey(id: int, name: string, apiKey: string): ProviderKey {
    ProviderKey(id, name, apiKey, true, 0, 0)
  }

  /** A user key row created with only the required columns set. The
      value/period columns have no declared default; they start at 0 and
      the periods at `minute`/`day`, as `create_user_key` writes them. */
  function NewUserKey(id: int, key: string, name: string): UserKey {
    UserKey(id, key, name, true, false, 0, "minute", 0, false, 0, "day", 0, None)
  }

  /** A usage row created without token counts. */
  function NewUsageLog(providerKeyId: int, userKeyId: Option<int>, ts: int): UsageLog {
    UsageLog(providerKeyId, userKeyId, ts, 0, 0, 0)
  }

  /** The CORS row created when none exists. */
  function DefaultCors(): CorsSettings {
    CorsSettings("*", "GET,POST,PUT,DELETE,OPTIONS", "*", false, 3600)
  }

  /** The `key` column is unique, and so is the primary key. */
  predicate UniqueKeys(keys: seq<UserKey>) {
    forall i, j :: 0 <= i < j < |keys| ==> keys[i].key != keys[j].key && keys[i].id != keys[j].id
  }

  /** The position of the user key with primary key `id`, if any. */
  function FindKeyById(keys: seq<UserKey>, id: int): (r: Option<nat>)
    ensures r.Some? ==> r.value < |keys| && keys[r.value].id == id
    ensures r.None? <==> forall i :: 0 <= i < |keys| ==> keys[i].id != id
  {
    if |keys| == 0 then None
    else if keys[|keys| - 1].id == id then Some(|keys| - 1)
    else FindKeyById(keys[..|keys| - 1], id)
  }
}
