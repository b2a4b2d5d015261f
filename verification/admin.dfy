/** The admin routes of app/routes_admin.py that decide something: user-key
    creation defaults, partial updates of a user key and of the CORS row,
    the seven-day usage graph of a key, and the checks of the playground
    chat. Every one of them first requires the admin session flag. The
    request body is `request.get_json(silent=True) or {}`, here the decoded
    JSON object. */
module Admin {
  import opened Common
  import opened Text
  import opened Json
  import opened Records
  import opened Utils
  import opened Upstream

  /** The answer of `get_or_404` for a missing row. */
  const NotFound := HttpError(404, "Not Found")

  // ------------------------------------------------------ field coercions

  /** A text column set from the body: `data.get(name, default)` or, on an
      update, the current value. A non-string value cannot be stored in the
      text column, so the commit raises (`None`). */
  function TextField(data: map<string, Json>, name: string, current: string): (r: Option<string>)
    ensures name !in data ==> r == Some(current)
    ensures name in data ==> (r.Some? <==> data[name].JStr?)
    ensures name in data && r.Some? ==> r.value == data[name].s
  {
    if name !in data then Some(current)
    else if data[name].JStr? then Some(data[name].s)
    else None
  }

  /** `bool(data.get(name, current))`. */
  function BoolField(data: map<string, Json>, name: string, current: bool): (r: bool)
    ensures name !in data ==> r == current
    ensures name in data ==> (r <==> Truthy(data[name]))
  {
    if name in data then Truthy(data[name]) else current
  }

  /** `int(data.get(name) or 0)`, or the current value when absent on an
      update. `None` is the `ValueError`/`TypeError` of `int()`. */
  function IntField(data: map<string, Json>, name: string, current: int): (r: Option<int>)
    ensures name !in data ==> r == Some(current)
    ensures name in data ==> r == IntOrZero(data, name)
  {
    if name in data then IntOrZero(data, name) else Some(current)
  }

  // ------------------------------------------------ update_user_key fields

  /** The user key after the fields present in `data` are written over it;
      `None` when a value cannot be converted (nothing is committed then). */
  function UpdatedKey(k: UserKey, data: map<string, Json>): (r: Option<UserKey>)
    ensures r.Some? ==> r.value.id == k.id && r.value.key == k.key && r.value.lastUsedAt == k.lastUsedAt
    ensures r.Some? ==>
      var n := r.value;
      && ("name" !in data ==> n.name == k.name)
      && ("name" in data ==> data["name"] == JStr(n.name))
      && n.enabled == BoolField(data, "enabled", k.enabled)
      && n.rateLimitEnabled == BoolField(data, "rate_limit_enabled", k.rateLimitEnabled)
      && Some(n.rateLimitValue) == IntField(data, "rate_limit_value", k.rateLimitValue)
      && ("rate_limit_period" !in data ==> n.rateLimitPeriod == k.rateLimitPeriod)
      && ("rate_limit_period" in data ==> data["rate_limit_period"] == JStr(n.rateLimitPeriod))
      && Some(n.rateLimitPerMin) == IntField(data, "rate_limit_per_min", k.rateLimitPerMin)
      && n.tokenLimitEnabled == BoolField(data, "token_limit_enabled", k.tokenLimitEnabled)
      && Some(n.tokenLimitValue) == IntField(data, "token_limit_value", k.tokenLimitValue)
      && ("token_limit_period" !in data ==> n.tokenLimitPeriod == k.tokenLimitPeriod)
      && ("token_limit_period" in data ==> data["token_limit_period"] == JStr(n.tokenLimitPeriod))
      && Some(n.tokenLimitPerDay) == IntField(data, "token_limit_per_day", k.tokenLimitPerDay)
    ensures r.None? <==>
      || TextField(data, "name", k.name).None?
      || IntField(data, "rate_limit_value", k.rateLimitValue).None?
      || TextField(data, "rate_limit_period", k.rateLimitPeriod).None?
      || IntField(data, "rate_limit_per_min", k.rateLimitPerMin).None?
      || IntField(data, "token_limit_value", k.tokenLimitValue).None?
      || TextField(data, "token_limit_period", k.tokenLimitPeriod).None?
      || IntField(data, "token_limit_per_day", k.tokenLimitPerDay).None?
  {
    var name := TextField(data, "name", k.name);
    var rlv := IntField(data, "rate_limit_value", k.rateLimitValue);
    var rlp := TextField(data, "rate_limit_period", k.rateLimitPeriod);
    var rpm := IntField(data, "rate_limit_per_min", k.rateLimitPerMin);
    var tlv := IntField(data, "token_limit_value", k.tokenLimitValue);
    var tlp := TextField(data, "token_limit_period", k.tokenLimitPeriod);
    var tpd := IntField(data, "token_limit_per_day", k.tokenLimitPerDay);
    if name.None? || rlv.None? || rlp.None? || rpm.None? || tlv.None? || tlp.None? || tpd.None? then None
    else
      Some(k.(name := name.value,
              enabled := BoolField(data, "enabled", k.enabled),
              rateLimitEnabled := BoolField(data, "rate_limit_enabled", k.rateLimitEnabled),
              rateLimitValue := rlv.value,
              rateLimitPeriod := rlp.value,
              rateLimitPerMin := rpm.value,
              tokenLimitEnabled := BoolField(data, "token_limit_enabled", k.tokenLimitEnabled),
              tokenLimitValue := tlv.value,
              tokenLimitPeriod := tlp.value,
              tokenLimitPerDay := tpd.value))
  }

  /** An empty body changes nothing. */
  lemma UpdateEmptyKeepsKey(k: UserKey)
    ensures UpdatedKey(k, map[]) == Some(k)
  {
  }

  /** Sending the same update twice has the effect of sending it once. */
  lemma UpdateIdempotent(k: UserKey, data: map<string, Json>)
    requires UpdatedKey(k, data).Some?
    ensures UpdatedKey(UpdatedKey(k, data).value, data) == UpdatedKey(k, data)
  {
  }

  /** `update_user_key`: 401 without the admin flag, 404 for an unknown key,
      500 when a value does not convert (the store unchanged), otherwise
      the key with the present fields written over it; no other key changes. */
  function UpdateUserKey(isAdmin: bool, kid: int, data: map<string, Json>, keys: seq<UserKey>): (r: (seq<UserKey>, Reply<()>))
    ensures !isAdmin ==> r == (keys, Fail(Unauthorized))
    ensures isAdmin && FindKeyById(keys, kid).None? ==> r == (keys, Fail(NotFound))
    ensures r.1.Fail? ==> r.0 == keys
    ensures isAdmin && FindKeyById(keys, kid).Some? ==>
      var i := FindKeyById(keys, kid).value;
      && (UpdatedKey(keys[i], data).None? ==> r == (keys, Fail(InternalError)))
      && (UpdatedKey(keys[i], data).Some? ==> r == (keys[i := UpdatedKey(keys[i], data).value], Ok(())))
    ensures |r.0| == |keys| && forall j :: 0 <= j < |keys| && keys[j].id != kid ==> r.0[j] == keys[j]
  {
    if !isAdmin then (keys, Fail(Unauthorized))
    else
      match FindKeyById(keys, kid)
      case None => (keys, Fail(NotFound))
      case Some(i) =>
        match UpdatedKey(keys[i], data)
        case None => (keys, Fail(InternalError))
        case Some(k) => (keys[i := k], Ok(()))
  }

  /** An update never breaks the uniqueness of ids and key strings. */
  lemma UpdateKeepsUnique(isAdmin: bool, kid: int, data: map<string, Json>, keys: seq<UserKey>)
    requires UniqueKeys(keys)
    ensures UniqueKeys(UpdateUserKey(isAdmin, kid, data, keys).0)
  {
  }

  // ----------------------------------------------------- create_user_key

  /** `generate_api_key()`: `sk_` followed by random text, here a parameter. */
  function GeneratedKey(token: string): (k: string)
    ensures StartsWith(k, "sk_") && k[3..] == token
  {
    "sk_" + token
  }

  /** The row `create_user_key` builds from the body, given the generated
      key and the id the database assigns; `None` when a value does not
      convert. */
  function NewKeyFromBody(data: map<string, Json>, id: int, key: string): (r: Option<UserKey>)
    ensures r.Some? ==> r.value.id == id && r.value.key == key && r.value.lastUsedAt.None?
    ensures r.Some? ==>
      && r.value.enabled == ("enabled" !in data || Truthy(data["enabled"]))
      && r.value.rateLimitEnabled == ("rate_limit_enabled" in data && Truthy(data["rate_limit_enabled"]))
      && r.value.tokenLimitEnabled == ("token_limit_enabled" in data && Truthy(data["token_limit_enabled"]))
      && Some(r.value.rateLimitValue) == IntOrZero(data, "rate_limit_value")
      && Some(r.value.tokenLimitValue) == IntOrZero(data, "token_limit_value")
      && Some(r.value.rateLimitPerMin) == IntOrZero(data, "rate_limit_per_min")
      && Some(r.value.tokenLimitPerDay) == IntOrZero(data, "token_limit_per_day")
      && ("name" !in data ==> r.value.name == "")
      && ("rate_limit_period" !in data ==> r.value.rateLimitPeriod == "minute")
      && ("token_limit_period" !in data ==> r.value.tokenLimitPeriod == "day")
  {
    var name := TextField(data, "name", "");
    var rlp := TextField(data, "rate_limit_period", "minute");
    var tlp := TextField(data, "token_limit_period", "day");
    var rlv := IntOrZero(data, "rate_limit_value");
    var tlv := IntOrZero(data, "token_limit_value");
    var rpm := IntOrZero(data, "rate_limit_per_min");
    var tpd := IntOrZero(data, "token_limit_per_day");
    if name.None? || rlv.None? || rlp.None? || tlv.None? || tlp.None? || rpm.None? || tpd.None? then None
    else
      Some(UserKey(id, key, name.value,
                   BoolField(data, "enabled", true),
                   BoolField(data, "rate_limit_enabled", false),
                   rlv.value, rlp.value, rpm.value,
                   BoolField(data, "token_limit_enabled", false),
                   tlv.value, tlp.value, tpd.value, None))
  }

  /** Creating from a body is the same as updating a fresh default row with
      that body: the defaults of the create route are the column defaults. */
  lemma CreateIsUpdateOfDefaults(data: map<string, Json>, id: int, key: string)
    ensures NewKeyFromBody(data, id, key) == UpdatedKey(NewUserKey(id, key, ""), data)
  {
  }

  /** An empty body creates a key with every column at its default. */
  lemma CreateDefaults(id: int, key: string)
    ensures NewKeyFromBody(map[], id, key) == Some(NewUserKey(id, key, ""))
  {
    CreateIsUpdateOfDefaults(map[], id, key);
    UpdateEmptyKeepsKey(NewUserKey(id, key, ""));
  }

  /** `create_user_key`: 401 without the admin flag; otherwise the new row is
      appended and its id and full key returned, or 500 when a value does
      not convert. `token` is the random part of the key, `freshId` the id
      the database assigns. */
  function CreateUserKey(isAdmin: bool, data: map<string, Json>, keys: seq<UserKey>,
                         token: string, freshId: int): (r: (seq<UserKey>, Reply<(int, string)>))
    ensures !isAdmin ==> r == (keys, Fail(Unauthorized))
    ensures r.1.Fail? ==> r.0 == keys
    ensures isAdmin && NewKeyFromBody(data, freshId, GeneratedKey(token)).None? ==> r == (keys, Fail(InternalError))
    ensures r.1.Ok? ==>
      && NewKeyFromBody(data, freshId, GeneratedKey(token)).Some?
      && r.0 == keys + [NewKeyFromBody(data, freshId, GeneratedKey(token)).value]
      && r.1.value == (freshId, GeneratedKey(token))
  {
    if !isAdmin then (keys, Fail(Unauthorized))
    else
      match NewKeyFromBody(data, freshId, GeneratedKey(token))
      case None => (keys, Fail(InternalError))
      case Some(k) => (keys + [k], Ok((freshId, k.key)))
  }

  /** A fresh id and a fresh key string keep ids and keys unique. */
  lemma CreateKeepsUnique(isAdmin: bool, data: map<string, Json>, keys: seq<UserKey>, token: string, freshId: int)
    requires UniqueKeys(keys)
    requires forall i :: 0 <= i < |keys| ==> keys[i].id != freshId && keys[i].key != GeneratedKey(token)
    ensures UniqueKeys(CreateUserKey(isAdmin, data, keys, token, freshId).0)
  {
    var r := CreateUserKey(isAdmin, data, keys, token, freshId).0;
    if r != keys {
      var k := NewKeyFromBody(data, freshId, GeneratedKey(token)).value;
      assert r == keys + [k];
      forall i, j | 0 <= i < j < |r|
        ensures r[i].key != r[j].key && r[i].id != r[j].id
      {
        if j == |keys| {
          assert r[j] == k && r[i] == keys[i];
        }
      }
    }
  }

  // -------------------------------------------------- get_user_key_stats

  const SecondsPerDay := 86400

  /** The calendar day (days since the epoch) of a timestamp in seconds. */
  function DayOf(ts: int): int {
    ts / SecondsPerDay
  }

  /** A fetched `(ts, total_tokens)` row. */
  datatype LogRow = LogRow(ts: int, tokens: int)

  /** A day of the usage graph. */
  datatype DayUsage = DayUsage(day: int, requests: int, tokens: int)

  /** The fetched rows that fall on day `d`. */
  function RequestsOn(rows: seq<LogRow>, d: int): (n: nat)
    ensures n <= |rows|
  {
    if |rows| == 0 then 0
    else RequestsOn(rows[..|rows| - 1], d) + (if DayOf(rows[|rows| - 1].ts) == d then 1 else 0)
  }

  /** The positions of the fetched rows of day `d`. */
  function RowsOfDay(rows: seq<LogRow>, d: int): set<nat> {
    set i: nat | i < |rows| && DayOf(rows[i].ts) == d
  }

  /** The day's request count is the number of rows of that day. */
  lemma {:induction false} RequestsOnIsRowSet(rows: seq<LogRow>, d: int)
    ensures RequestsOn(rows, d) == |RowsOfDay(rows, d)|
  {
    if |rows| > 0 {
      var init := rows[..|rows| - 1];
      RequestsOnIsRowSet(init, d);
      var last := |rows| - 1;
      assert forall i: nat :: i < |init| ==> init[i] == rows[i];
      if DayOf(rows[last].ts) == d {
        assert RowsOfDay(rows, d) == RowsOfDay(init, d) + {last};
      } else {
        assert RowsOfDay(rows, d) == RowsOfDay(init, d);
      }
    }
  }

  /** The tokens of the fetched rows that fall on day `d`. */
  function TokensOn(rows: seq<LogRow>, d: int): int {
    if |rows| == 0 then 0
    else TokensOn(rows[..|rows| - 1], d) + (if DayOf(rows[|rows| - 1].ts) == d then rows[|rows| - 1].tokens else 0)
  }

  /** The graph: seven consecutive days ending `today`, each with the number
      and the tokens of the fetched rows of that day; a day without rows
      reads 0 and 0. Built as the route builds it, through a map from day
      to bucket filled row by row. */
  method BuildGraph(rows: seq<LogRow>, today: int) returns (graph: seq<DayUsage>)
    ensures |graph| == 7
    ensures forall i :: 0 <= i < 7 ==>
      graph[i] == DayUsage(today - 6 + i, RequestsOn(rows, today - 6 + i), TokensOn(rows, today - 6 + i))
  {
    var byDay: map<int, DayUsage> := map[];
    var k := 0;
    while k < |rows|
      invariant 0 <= k <= |rows|
      invariant forall d :: d in byDay ==> byDay[d] == DayUsage(d, RequestsOn(rows[..k], d), TokensOn(rows[..k], d))
      invariant forall d :: d !in byDay ==> RequestsOn(rows[..k], d) == 0 && TokensOn(rows[..k], d) == 0
    {
      var d := DayOf(rows[k].ts);
      var entry := if d in byDay then byDay[d] else DayUsage(d, 0, 0);
      byDay := byDay[d := entry.(requests := entry.requests + 1, tokens := entry.tokens + rows[k].tokens)];
      assert rows[..k + 1][..k] == rows[..k];
      k := k + 1;
    }
    assert rows[..|rows|] == rows;
    graph := [];
    var i := 0;
    while i < 7
      invariant 0 <= i <= 7 && |graph| == i
      invariant forall j :: 0 <= j < i ==>
        graph[j] == DayUsage(today - 6 + j, RequestsOn(rows, today - 6 + j), TokensOn(rows, today - 6 + j))
    {
      var d := today - 6 + i;
      graph := graph + [if d in byDay then byDay[d] else DayUsage(d, 0, 0)];
      i := i + 1;
    }
  }

  /** The fetched rows whose day lies in `[lo, lo + n)`. */
  function RowsInDays(rows: seq<LogRow>, lo: int, n: nat): (c: nat)
    ensures c <= |rows|
  {
    if |rows| == 0 then 0
    else RowsInDays(rows[..|rows| - 1], lo, n) + (if lo <= DayOf(rows[|rows| - 1].ts) < lo + n then 1 else 0)
  }

  /** The requests of the days `lo .. lo + n - 1` added up. */
  function SumRequests(rows: seq<LogRow>, lo: int, n: nat): nat {
    if n == 0 then 0 else SumRequests(rows, lo, n - 1) + RequestsOn(rows, lo + n - 1)
  }

  lemma {:induction false} SumRequestsStep(rows: seq<LogRow>, x: LogRow, lo: int, n: nat)
    ensures SumRequests(rows + [x], lo, n)
         == SumRequests(rows, lo, n) + (if lo <= DayOf(x.ts) < lo + n then 1 else 0)
  {
    assert (rows + [x])[..|rows|] == rows;
    if n > 0 {
      SumRequestsStep(rows, x, lo, n - 1);
    }
  }

  /** Every fetched row of the window is counted on exactly one day of the
      graph: the day bars add up to the number of rows in the window. */
  lemma {:induction false} GraphCountsEveryRow(rows: seq<LogRow>, lo: int, n: nat)
    ensures SumRequests(rows, lo, n) == RowsInDays(rows, lo, n)
  {
    if |rows| == 0 {
      SumOfNothing(lo, n);
    } else {
      var init := rows[..|rows| - 1];
      var x := rows[|rows| - 1];
      assert init + [x] == rows;
      GraphCountsEveryRow(init, lo, n);
      SumRequestsStep(init, x, lo, n);
    }
  }

  lemma {:induction false} SumOfNothing(lo: int, n: nat)
    ensures SumRequests([], lo, n) == 0
  {
    if n > 0 {
      SumOfNothing(lo, n - 1);
    }
  }

  /** The answer of `get_user_key_stats`. */
  datatype Stats = Stats(totalRequests: nat, totalTokens: int, graph: seq<DayUsage>, recent: seq<LogRow>)

  /** The usage rows of user key `kid`. */
  function KeyRequests(logs: seq<UsageLog>, kid: int): (n: nat)
    ensures n <= |logs|
  {
    if |logs| == 0 then 0
    else KeyRequests(logs[..|logs| - 1], kid) + (if logs[|logs| - 1].userKeyId == Some(kid) then 1 else 0)
  }

  /** The positions of the usage rows of key `kid`. */
  function RowsOfKey(logs: seq<UsageLog>, kid: int): set<nat> {
    set i: nat | i < |logs| && logs[i].userKeyId == Some(kid)
  }

  /** The total is the number of the key's rows (`func.count(UsageLog.id)`). */
  lemma {:induction false} KeyRequestsIsRowSet(logs: seq<UsageLog>, kid: int)
    ensures KeyRequests(logs, kid) == |RowsOfKey(logs, kid)|
  {
    if |logs| > 0 {
      var init := logs[..|logs| - 1];
      KeyRequestsIsRowSet(init, kid);
      var last := |logs| - 1;
      assert forall i: nat :: i < |init| ==> init[i] == logs[i];
      if logs[last].userKeyId == Some(kid) {
        assert RowsOfKey(logs, kid) == RowsOfKey(init, kid) + {last};
      } else {
        assert RowsOfKey(logs, kid) == RowsOfKey(init, kid);
      }
    }
  }

  /** Their total tokens (`coalesce(sum(total_tokens), 0)`). */
  function KeyTokens(logs: seq<UsageLog>, kid: int): int {
    if |logs| == 0 then 0
    else KeyTokens(logs[..|logs| - 1], kid) + (if logs[|logs| - 1].userKeyId == Some(kid) then logs[|logs| - 1].totalTokens else 0)
  }

  /** `get_user_key_stats`. `logs` is the whole usage table, `fetched` the
      rows the window query returns (at most 100, newest first) and `today`
      the current day number. */
  method GetUserKeyStats(isAdmin: bool, kid: int, keys: seq<UserKey>, logs: seq<UsageLog>,
                         fetched: seq<LogRow>, today: int) returns (r: Reply<Stats>)
    ensures !isAdmin ==> r == Fail(Unauthorized)
    ensures isAdmin && FindKeyById(keys, kid).None? ==> r == Fail(NotFound)
    ensures r.Ok? ==>
      && r.value.totalRequests == KeyRequests(logs, kid)
      && r.value.totalTokens == KeyTokens(logs, kid)
      && |r.value.graph| == 7
      && (forall i :: 0 <= i < 7 ==>
            r.value.graph[i] == DayUsage(today - 6 + i, RequestsOn(fetched, today - 6 + i), TokensOn(fetched, today - 6 + i)))
      && r.value.recent == Prefix(fetched, 20)
    ensures isAdmin && FindKeyById(keys, kid).Some? ==> r.Ok?
  {
    if !isAdmin {
      return Fail(Unauthorized);
    }
    if FindKeyById(keys, kid).None? {
      return Fail(NotFound);
    }
    var graph := BuildGraph(fetched, today);
    r := Ok(Stats(KeyRequests(logs, kid), KeyTokens(logs, kid), graph, Prefix(fetched, 20)));
  }

  /** Python `rows[:n]`. */
  function Prefix(rows: seq<LogRow>, n: nat): (r: seq<LogRow>)
    ensures |r| == if n < |rows| then n else |rows|
    ensures r == rows[..|r|]
  {
    if n < |rows| then rows[..n] else rows
  }

  // ------------------------------------------------------ CORS settings

  /** `get_cors_settings`: the settings row, created with its defaults if
      there is none. */
  function GetCors(isAdmin: bool, row: Option<CorsSettings>): (r: (Option<CorsSettings>, Reply<CorsSettings>))
    ensures !isAdmin ==> r == (row, Fail(Unauthorized))
    ensures isAdmin ==> r.0.Some? && r.1 == Ok(r.0.value)
    ensures isAdmin && row.Some? ==> r.0 == row
    ensures isAdmin && row.None? ==> r.0 == Some(DefaultCors())
  {
    if !isAdmin then (row, Fail(Unauthorized))
    else
      var st := row.GetOr(DefaultCors());
      (Some(st), Ok(st))
  }

  /** Reading the settings twice gives the same row, and an update with an
      empty body stores back exactly the row the read returned. */
  lemma GetCorsStable(row: Option<CorsSettings>)
    ensures var got := GetCors(true, row);
      && GetCors(true, got.0) == got
      && UpdateCors(true, got.0, map[]) == (got.0, Ok(()))
  {
    var got := GetCors(true, row);
    var e: map<string, Json> := map[];
    assert "allowed_origins" !in e && "allowed_methods" !in e && "allowed_headers" !in e && "max_age" !in e;
  }

  /** `data[name].strip()` for a present field; `None` when it is not a string. */
  function StrippedField(data: map<string, Json>, name: string, current: string): (r: Option<string>)
    ensures name !in data ==> r == Some(current)
    ensures name in data ==> (r.Some? <==> data[name].JStr?)
    ensures name in data && r.Some? ==> r.value == Strip(data[name].s) && Stripped(r.value)
  {
    if name !in data then Some(current)
    else if data[name].JStr? then Some(Strip(data[name].s))
    else None
  }

  /** `update_cors_settings`: the fields present are written (strings
      stripped, credentials by truthiness, max-age by `int()`); absent
      fields keep their value, starting from the default row when there is
      none. A value that does not convert raises before the commit, leaving
      the stored row as it was. */
  function UpdateCors(isAdmin: bool, row: Option<CorsSettings>, data: map<string, Json>): (r: (Option<CorsSettings>, Reply<()>))
    ensures !isAdmin ==> r == (row, Fail(Unauthorized))
    ensures r.1.Fail? ==> r.0 == row
    ensures r.1.Ok? ==> r.0.Some?
    ensures r.1.Ok? ==>
      var prev := row.GetOr(DefaultCors());
      var n := r.0.value;
      && ("allowed_origins" !in data ==> n.allowedOrigins == prev.allowedOrigins)
      && ("allowed_origins" in data ==> data["allowed_origins"].JStr? && n.allowedOrigins == Strip(data["allowed_origins"].s))
      && ("allowed_methods" !in data ==> n.allowedMethods == prev.allowedMethods)
      && ("allowed_methods" in data ==> data["allowed_methods"].JStr? && n.allowedMethods == Strip(data["allowed_methods"].s))
      && ("allowed_headers" !in data ==> n.allowedHeaders == prev.allowedHeaders)
      && ("allowed_headers" in data ==> data["allowed_headers"].JStr? && n.allowedHeaders == Strip(data["allowed_headers"].s))
      && n.allowCredentials == BoolField(data, "allow_credentials", prev.allowCredentials)
      && ("max_age" !in data ==> n.maxAge == prev.maxAge)
      && ("max_age" in data ==> PyInt(data["max_age"]) == Some(n.maxAge))
    ensures isAdmin && r.1.Fail? ==> r.1 == Fail(InternalError)
  {
    if !isAdmin then (row, Fail(Unauthorized))
    else
      var st := row.GetOr(DefaultCors());
      var origins := StrippedField(data, "allowed_origins", st.allowedOrigins);
      var methods := StrippedField(data, "allowed_methods", st.allowedMethods);
      var headers := StrippedField(data, "allowed_headers", st.allowedHeaders);
      var maxAge := if "max_age" in data then PyInt(data["max_age"]) else Some(st.maxAge);
      if origins.None? || methods.None? || headers.None? || maxAge.None? then (row, Fail(InternalError))
      else
        (Some(CorsSettings(origins.value, methods.value, headers.value,
                           BoolField(data, "allow_credentials", st.allowCredentials), maxAge.value)), Ok(()))
  }

  /** After an update that sets the origins, the stored text is already
      stripped, so the strip in `apply_cors_headers` changes nothing. */
  lemma StoredOriginsStripped(row: Option<CorsSettings>, data: map<string, Json>)
    requires "allowed_origins" in data
    requires UpdateCors(true, row, data).1.Ok?
    ensures var n := UpdateCors(true, row, data).0.value;
      Strip(n.allowedOrigins) == n.allowedOrigins
  {
    StripIdempotent(data["allowed_origins"].s);
  }

  /** A max-age sent as its decimal text is stored as that number. */
  lemma MaxAgeFromText(row: Option<CorsSettings>, text: string, n: int)
    requires text == IntToDecimal(n)
    ensures var r := UpdateCors(true, row, map["max_age" := JStr(text)]);
      r.1.Ok? && r.0.value.maxAge == n
  {
    DecimalRoundTrip(n);
    MaxAgeOnly(row, map["max_age" := JStr(text)], n);
  }

  lemma MaxAgeOnly(row: Option<CorsSettings>, data: map<string, Json>, n: int)
    requires data.Keys == {"max_age"} && PyInt(data["max_age"]) == Some(n)
    ensures var r := UpdateCors(true, row, data);
      r.1.Ok? && r.0.value.maxAge == n
  {
    assert "allowed_origins" !in data && "allowed_methods" !in data && "allowed_headers" !in data;
  }

  // ------------------------------------------------------ playground_chat

  const KeyIdRequired := HttpError(400, "key_id is required")
  const ModelRequired := HttpError(400, "model is required")
  const MessagesRequired := HttpError(400, "messages is required")
  const KeyNotFound := HttpError(404, "Key not found")
  const PlaygroundNoProvider := HttpError(500, "No upstream provider configured")
  const PlaygroundUpstreamFailed := "Upstream request failed"

  /** The key a `key_id` names (`UserKey.query.get`). SQLite compares the
      integer id column with a text value after converting the text to a
      number, so the decimal text the admin page sends names the same key as
      the number itself. */
  function KeyOfId(keys: seq<UserKey>, keyId: Json): (r: Option<nat>)
    ensures PyInt(keyId).None? ==> r.None?
    ensures PyInt(keyId).Some? ==> r == FindKeyById(keys, PyInt(keyId).value)
    ensures r.Some? ==> r.value < |keys| && keys[r.value].id == PyInt(keyId).value
  {
    match PyInt(keyId)
    case None => None
    case Some(n) => FindKeyById(keys, n)
  }

  /** The admin page sends the id of the key picked in its select box as
      decimal text; that text names the key with this id. */
  lemma PageKeyIdNamesKey(keys: seq<UserKey>, j: nat)
    requires j < |keys|
    ensures KeyOfId(keys, JStr(IntToDecimal(keys[j].id))) == FindKeyById(keys, keys[j].id)
    ensures KeyOfId(keys, JStr(IntToDecimal(keys[j].id))).Some?
  {
    DecimalRoundTrip(keys[j].id);
    assert FindKeyById(keys, keys[j].id).Some?;
  }

  /** What the playground stores and answers. */
  datatype PlaygroundOutcome = PlaygroundOutcome(keys: seq<UserKey>, logs: seq<UsageLog>, reply: Reply<Json>)

  /** `playground_chat`. The three required fields are checked in order,
      then the key, then the upstream key choice; only a 200 answer that
      parses is logged (under the chosen key) and stamps the key's
      `last_used_at`. */
  function PlaygroundChat(isAdmin: bool, data: map<string, Json>, keys: seq<UserKey>, logs: seq<UsageLog>,
                          now: int, envKey: string, providers: seq<ProviderKey>, result: UpstreamResult): (r: PlaygroundOutcome)
    ensures !isAdmin ==> r == PlaygroundOutcome(keys, logs, Fail(Unauthorized))
    ensures isAdmin ==>
      && (!Truthy(Field(data, "key_id")) ==> r.reply == Fail(KeyIdRequired))
      && (Truthy(Field(data, "key_id")) && !Truthy(Field(data, "model")) ==> r.reply == Fail(ModelRequired))
      && (Truthy(Field(data, "key_id")) && Truthy(Field(data, "model")) && !Truthy(Field(data, "messages")) ==>
            r.reply == Fail(MessagesRequired))
      && ((Truthy(Field(data, "key_id")) && Truthy(Field(data, "model")) && Truthy(Field(data, "messages"))
           && KeyOfId(keys, Field(data, "key_id")).None?) ==> r.reply == Fail(KeyNotFound))
    ensures isAdmin && Truthy(Field(data, "key_id")) && Truthy(Field(data, "model")) && Truthy(Field(data, "messages"))
            && KeyOfId(keys, Field(data, "key_id")).Some? ==>
      && (ChooseUpstream(envKey, providers).None? ==> r.reply == Fail(PlaygroundNoProvider))
      && (ChooseUpstream(envKey, providers).Some? && result.Raised? ==> r.reply == Fail(HttpError(502, result.message)))
      && (ChooseUpstream(envKey, providers).Some? && result.Answered? && result.status != 200 ==>
            r.reply == Fail(HttpError(result.status, PlaygroundUpstreamFailed)))
      && (ChooseUpstream(envKey, providers).Some? && result.Answered? && result.status == 200 ==>
            && (result.body.NotJson? ==> r.reply == Fail(HttpError(502, result.body.parseError)))
            && (result.body.JsonBody? ==> r.reply == Ok(result.body.json)))
    ensures r.reply.Fail? ==> r.keys == keys && r.logs == logs
    ensures r.reply.Ok? ==>
      && result == Answered(200, JsonBody(r.reply.value))
      && var i := KeyOfId(keys, Field(data, "key_id")).value;
      var t := ExtractTokens(r.reply.value);
      && ChooseUpstream(envKey, providers).Some?
      && r.keys == keys[i := keys[i].(lastUsedAt := Some(now))]
      && r.logs == logs + [UsageLog(ChooseUpstream(envKey, providers).value.providerId, Some(keys[i].id), now,
                                    t.prompt, t.completion, t.total)]
  {
    if !isAdmin then PlaygroundOutcome(keys, logs, Fail(Unauthorized))
    else if !Truthy(Field(data, "key_id")) then PlaygroundOutcome(keys, logs, Fail(KeyIdRequired))
    else if !Truthy(Field(data, "model")) then PlaygroundOutcome(keys, logs, Fail(ModelRequired))
    else if !Truthy(Field(data, "messages")) then PlaygroundOutcome(keys, logs, Fail(MessagesRequired))
    else
      match KeyOfId(keys, Field(data, "key_id"))
      case None => PlaygroundOutcome(keys, logs, Fail(KeyNotFound))
      case Some(i) =>
        match ChooseUpstream(envKey, providers)
        case None => PlaygroundOutcome(keys, logs, Fail(PlaygroundNoProvider))
        case Some(pick) =>
          match result
          case Raised(e) => PlaygroundOutcome(keys, logs, Fail(HttpError(502, e)))
          case Answered(status, body) =>
            if status != 200 then PlaygroundOutcome(keys, logs, Fail(HttpError(status, PlaygroundUpstreamFailed)))
            else
              match body
              case NotJson(e) => PlaygroundOutcome(keys, logs, Fail(HttpError(502, e)))
              case JsonBody(d) =>
                var t := ExtractTokens(d);
                var log := UsageLog(pick.providerId, Some(keys[i].id), now, t.prompt, t.completion, t.total);
                PlaygroundOutcome(keys[i := keys[i].(lastUsedAt := Some(now))], logs + [log], Ok(d))
  }

  /** A valid playground call with an upstream key and a 200 JSON answer
      succeeds and returns that answer unchanged. */
  lemma PlaygroundSucceeds(data: map<string, Json>, keys: seq<UserKey>, logs: seq<UsageLog>,
                           now: int, envKey: string, providers: seq<ProviderKey>, answer: Json)
    requires Truthy(Field(data, "key_id")) && Truthy(Field(data, "model")) && Truthy(Field(data, "messages"))
    requires KeyOfId(keys, Field(data, "key_id")).Some? && ChooseUpstream(envKey, providers).Some?
    ensures var r := PlaygroundChat(true, data, keys, logs, now, envKey, providers, Answered(200, JsonBody(answer)));
      r.reply == Ok(answer) && |r.logs| == |logs| + 1 && r.logs[|logs|].userKeyId == Some(PyInt(Field(data, "key_id")).value)
  {
  }

  /** Calls made from the playground count against the key's rate limit in
      the chat route: the logged row carries the key's id and the call time. */
  lemma PlaygroundLogsUnderKey(data: map<string, Json>, keys: seq<UserKey>, logs: seq<UsageLog>,
                               now: int, envKey: string, providers: seq<ProviderKey>, result: UpstreamResult)
    requires PlaygroundChat(true, data, keys, logs, now, envKey, providers, result).reply.Ok?
    ensures var r := PlaygroundChat(true, data, keys, logs, now, envKey, providers, result);
      var kid := PyInt(Field(data, "key_id")).value;
      |r.logs| == |logs| + 1 && r.logs[|logs|].userKeyId == Some(kid) && r.logs[|logs|].ts == now
  {
  }

  // ------------------------------------------------------- admin gate

  /** Every user-key, CORS and playground endpoint refuses a session
      without the admin flag with 401 and changes nothing (the stats
      endpoint states the same in its own contract). */
  lemma NonAdminRefusedEverywhere(kid: int, data: map<string, Json>, keys: seq<UserKey>, logs: seq<UsageLog>,
                                  row: Option<CorsSettings>, token: string, freshId: int, now: int,
                                  envKey: string, providers: seq<ProviderKey>, result: UpstreamResult)
    ensures CreateUserKey(false, data, keys, token, freshId) == (keys, Fail(Unauthorized))
    ensures UpdateUserKey(false, kid, data, keys) == (keys, Fail(Unauthorized))
    ensures GetCors(false, row) == (row, Fail(Unauthorized))
    ensures UpdateCors(false, row, data) == (row, Fail(Unauthorized))
    ensures PlaygroundChat(false, data, keys, logs, now, envKey, providers, result)
         == PlaygroundOutcome(keys, logs, Fail(Unauthorized))
    ensures Unauthorized.status == 401
  {
  }
}
