/** The public proxy of app/routes_proxy.py: the CORS headers added to its
    answers, the bearer-token check, the admission of a request (user key
    lookup and upstream key choice) and the usage row it logs. */
module Proxy {
  import opened Common
  import opened Text
  import opened Json
  import opened Records
  import opened Utils
  import opened Upstream

  type Headers = map<string, string>

  const AllowOrigin := "Access-Control-Allow-Origin"
  const AllowCredentials := "Access-Control-Allow-Credentials"
  const AllowMethods := "Access-Control-Allow-Methods"
  const AllowHeaders := "Access-Control-Allow-Headers"
  const MaxAge := "Access-Control-Max-Age"

  predicate IsCorsHeader(k: string) {
    k == AllowOrigin || k == AllowCredentials || k == AllowMethods || k == AllowHeaders || k == MaxAge
  }

  /** Header `k` is the same (present with the same value, or absent) in both. */
  predicate SameAt(h: Headers, r: Headers, k: string) {
    (k in h <==> k in r) && (k in h ==> h[k] == r[k])
  }

  // ------------------------------------------------------ apply_cors_headers

  /** The request origin is echoed back: it is non-empty and occurs as a
      SUBSTRING of the stripped allowed-origins setting (Python `in` on two
      strings), the setting not being the wildcard. */
  predicate EchoesOrigin(st: CorsSettings, origin: Option<string>) {
    var allowed := Strip(st.allowedOrigins);
    allowed != "*" && origin.Some? && origin.value != "" && Contains(allowed, origin.value)
  }

  /** What a CORS decision does to the headers `h`, given whether the
      request origin `o` is echoed: the methods, headers and max-age
      settings are always copied; the wildcard setting gives `*` and leaves
      the credentials header alone; an echoed origin is returned with
      `Allow-Credentials: true` when credentials are allowed; otherwise the
      origin and credentials headers are left alone; nothing else changes. */
  ghost predicate CorsOutcome(st: CorsSettings, o: string, echo: bool, h: Headers, r: Headers) {
    && AllowMethods in r && r[AllowMethods] == st.allowedMethods
    && AllowHeaders in r && r[AllowHeaders] == st.allowedHeaders
    && MaxAge in r && r[MaxAge] == IntToDecimal(st.maxAge)
    && (Strip(st.allowedOrigins) == "*" ==>
          AllowOrigin in r && r[AllowOrigin] == "*" && SameAt(h, r, AllowCredentials))
    && (echo ==>
          && AllowOrigin in r && r[AllowOrigin] == o
          && (st.allowCredentials ==> AllowCredentials in r && r[AllowCredentials] == "true")
          && (!st.allowCredentials ==> SameAt(h, r, AllowCredentials)))
    && (Strip(st.allowedOrigins) != "*" && !echo ==>
          SameAt(h, r, AllowOrigin) && SameAt(h, r, AllowCredentials))
    && forall k :: !IsCorsHeader(k) ==> SameAt(h, r, k)
  }

  /** The header writes shared by both origin tests; `echo` is the result of the test. */
  function SetCorsHeaders(st: CorsSettings, o: string, echo: bool, h: Headers): (r: Headers)
    requires echo ==> Strip(st.allowedOrigins) != "*"
    ensures CorsOutcome(st, o, echo, h, r)
  {
    var h1 :=
      if Strip(st.allowedOrigins) == "*" then h[AllowOrigin := "*"]
      else if echo then
        var h0 := h[AllowOrigin := o];
        if st.allowCredentials then h0[AllowCredentials := "true"] else h0
      else h;
    h1[AllowMethods := st.allowedMethods][AllowHeaders := st.allowedHeaders][MaxAge := IntToDecimal(st.maxAge)]
  }

  /** `apply_cors_headers`: the headers of a response after the CORS
      decision, given the settings row (if any) and the request's `Origin`.
      The test is written `origin and (origin in allowed or allowed == '*')`
      inside the non-wildcard branch, so its second half never holds. */
  function ApplyCors(settings: Option<CorsSettings>, origin: Option<string>, h: Headers): (r: Headers)
    ensures settings.None? ==> r == h
    ensures settings.Some? ==>
      CorsOutcome(settings.value, origin.GetOr(""), EchoesOrigin(settings.value, origin), h, r)
  {
    match settings
    case None => h
    case Some(st) =>
      var allowed := Strip(st.allowedOrigins);
      var echo := allowed != "*" && origin.Some? && origin.value != ""
                  && (Contains(allowed, origin.value) || allowed == "*");
      SetCorsHeaders(st, origin.GetOr(""), echo, h)
  }

  /** The max-age header reads back as the stored number. */
  lemma MaxAgeRoundTrip(st: CorsSettings, origin: Option<string>, h: Headers)
    ensures PyIntOfString(ApplyCors(Some(st), origin, h)[MaxAge]) == Some(st.maxAge)
  {
    DecimalRoundTrip(st.maxAge);
  }

  /** With the default settings row every origin is allowed through the
      wildcard, credentials are never announced, and the cache lasts an hour. */
  lemma DefaultCorsAllowsAll(origin: Option<string>, h: Headers)
    requires AllowCredentials !in h
    ensures var r := ApplyCors(Some(DefaultCors()), origin, h);
      r[AllowOrigin] == "*" && AllowCredentials !in r && r[MaxAge] == "3600"
  {
    assert Strip("*") == "*" by { StripStripped("*"); }
  }

  // ------------------------------------- corrected origin test (see Findings)

  /** The origins of the comma-separated setting, each stripped. */
  function ListedOrigins(allowed: string): (r: seq<string>)
    ensures |r| == |Split(allowed, ',')|
    ensures forall i :: 0 <= i < |r| ==> r[i] == Strip(Split(allowed, ',')[i])
  {
    var parts := Split(allowed, ',');
    seq(|parts|, i requires 0 <= i < |parts| => Strip(parts[i]))
  }

  /** The evidently intended test: the origin is one of the listed origins. */
  predicate ListsOrigin(st: CorsSettings, origin: Option<string>) {
    var allowed := Strip(st.allowedOrigins);
    allowed != "*" && origin.Some? && origin.value != "" && origin.value in ListedOrigins(allowed)
  }

  /** `apply_cors_headers` with list membership instead of substring containment. */
  function ApplyCorsListed(settings: Option<CorsSettings>, origin: Option<string>, h: Headers): (r: Headers)
    ensures settings.None? ==> r == h
    ensures settings.Some? ==>
      CorsOutcome(settings.value, origin.GetOr(""), ListsOrigin(settings.value, origin), h, r)
  {
    match settings
    case None => h
    case Some(st) => SetCorsHeaders(st, origin.GetOr(""), ListsOrigin(st, origin), h)
  }

  /** Every listed origin is also a substring of the setting, so the
      corrected test only ever refuses more: where it echoes an origin, the
      code as written produces exactly the same headers. */
  lemma ListedImpliesEchoed(st: CorsSettings, origin: Option<string>, h: Headers)
    requires ListsOrigin(st, origin)
    ensures EchoesOrigin(st, origin)
    ensures ApplyCors(Some(st), origin, h) == ApplyCorsListed(Some(st), origin, h)
  {
    var allowed := Strip(st.allowedOrigins);
    var parts := Split(allowed, ',');
    var k :| 0 <= k < |parts| && ListedOrigins(allowed)[k] == origin.value;
    SplitPiecesOccur(allowed, ',', k);
    ContainsTrans(allowed, parts[k], Strip(parts[k]));
  }

  /** The discrepancy: with the setting `https://app.example.com`, the
      unlisted origin `https://app.example.co` is echoed by the code as
      written, and refused by the corrected test. */
  lemma SubstringEchoesUnlistedOrigin()
    ensures var st := CorsSettings("https://app.example.com", "GET", "*", true, 3600);
      var o := Some("https://app.example.co");
      && EchoesOrigin(st, o)
      && !ListsOrigin(st, o)
      && ApplyCors(Some(st), o, map[])[AllowOrigin] == "https://app.example.co"
      && AllowOrigin !in ApplyCorsListed(Some(st), o, map[])
  {
    var st := CorsSettings("https://app.example.com", "GET", "*", true, 3600);
    var o := "https://app.example.co";
    ExampleEchoed(st.allowedOrigins, o);
    ExampleNotListed(st.allowedOrigins, o);
  }

  lemma ExampleEchoed(allowed: string, o: string)
    requires allowed == "https://app.example.com" && o == "https://app.example.co"
    ensures Strip(allowed) == allowed && allowed != "*" && Contains(allowed, o)
  {
    StripStripped(allowed);
    assert allowed[..|o|] == o;
    assert OccursAt(o, allowed, 0);
  }

  lemma ExampleNotListed(allowed: string, o: string)
    requires allowed == "https://app.example.com" && o == "https://app.example.co"
    ensures o !in ListedOrigins(Strip(allowed))
  {
    StripStripped(allowed);
    assert ',' !in allowed;
    SplitNoSep(allowed, ',');
    assert |o| != |allowed|;
  }

  // ----------------------------------------------------------- bearer token

  const BearerPrefix := "Bearer "

  /** The token of an `Authorization` header: the text after the first space,
      accepted only when the header starts with `Bearer `. */
  function BearerToken(auth: string): (r: Option<string>)
    ensures r.Some? <==> StartsWith(auth, BearerPrefix)
    ensures r.Some? ==> auth == BearerPrefix + r.value
  {
    if !StartsWith(auth, BearerPrefix) then None
    else
      assert auth[6] == ' ';
      match IndexOf(auth, ' ')
      case Some(i) =>
        assert i == 6;
        assert auth == auth[..7] + auth[7..];
        Some(auth[i + 1..])
      case None => assert false; None
  }

  /** A client that sends `Bearer ` followed by its key is read back its key. */
  lemma BearerRoundTrip(token: string)
    ensures BearerToken(BearerPrefix + token) == Some(token)
  {
    assert (BearerPrefix + token)[..|BearerPrefix|] == BearerPrefix;
  }

  /** The first enabled user key whose key equals the token
      (`UserKey.query.filter_by(key=token, enabled=True).first()`). */
  function FindActiveKey(keys: seq<UserKey>, token: string): (r: Option<nat>)
    ensures r.Some? ==> r.value < |keys| && keys[r.value].key == token && keys[r.value].enabled
    ensures r.None? <==> forall i :: 0 <= i < |keys| ==> !(keys[i].key == token && keys[i].enabled)
  {
    if |keys| == 0 then None
    else if keys[0].key == token && keys[0].enabled then Some(0)
    else
      match FindActiveKey(keys[1..], token)
      case None => None
      case Some(i) => Some(i + 1)
  }

  // ------------------------------------------------------------ proxy_chat

  /** An admitted request: the user key used and the upstream key to call with. */
  datatype ProxyGrant = ProxyGrant(userKeyIndex: nat, upstream: UpstreamPick)

  /** The user keys after the request (with `last_used_at` stamped) and the answer. */
  datatype ProxyAdmission = ProxyAdmission(keys: seq<UserKey>, reply: Reply<ProxyGrant>)

  const MissingToken := HttpError(401, "missing_token")
  const NoProviderConfigured := HttpError(500, "no_provider_configured")

  /** The checks of `proxy_chat` before the upstream call. The user key's
      `last_used_at` is committed as soon as the key is found, so it is
      stamped even when the request body is not JSON (`bodyParses` false:
      `get_json(force=True)` aborts with 400) or no upstream key is available. */
  function AdmitProxyRequest(authHeader: Option<string>, keys: seq<UserKey>, now: int,
                             bodyParses: bool, envKey: string, providers: seq<ProviderKey>): (r: ProxyAdmission)
    ensures |r.keys| == |keys|
    ensures !StartsWith(authHeader.GetOr(""), BearerPrefix) ==> r == ProxyAdmission(keys, Fail(MissingToken))
    ensures StartsWith(authHeader.GetOr(""), BearerPrefix) ==>
      var token := authHeader.GetOr("")[|BearerPrefix|..];
      && ((forall i :: 0 <= i < |keys| ==> !(keys[i].key == token && keys[i].enabled)) ==>
            r == ProxyAdmission(keys, Fail(Unauthorized)))
      && (r.reply != Fail(Unauthorized) ==>
            exists i :: 0 <= i < |keys| && keys[i].key == token && keys[i].enabled
              && r.keys == keys[i := keys[i].(lastUsedAt := Some(now))]
              && (!bodyParses ==> r.reply == Fail(BadRequest))
              && (bodyParses && ChooseUpstream(envKey, providers).None? ==> r.reply == Fail(NoProviderConfigured))
              && (bodyParses && ChooseUpstream(envKey, providers).Some? ==>
                    r.reply == Ok(ProxyGrant(i, ChooseUpstream(envKey, providers).value))))
      && ((exists i :: 0 <= i < |keys| && keys[i].key == token && keys[i].enabled) ==>
            var i := FindActiveKey(keys, token).value;
            && r.reply != Fail(Unauthorized)
            && r.keys == keys[i := keys[i].(lastUsedAt := Some(now))]
            && (bodyParses && ChooseUpstream(envKey, providers).Some? ==>
                  r.reply == Ok(ProxyGrant(i, ChooseUpstream(envKey, providers).value))))
  {
    var auth := authHeader.GetOr("");
    match BearerToken(auth)
    case None => ProxyAdmission(keys, Fail(MissingToken))
    case Some(token) =>
      assert token == auth[|BearerPrefix|..];
      match FindActiveKey(keys, token)
      case None => ProxyAdmission(keys, Fail(Unauthorized))
      case Some(i) =>
        var keys' := keys[i := keys[i].(lastUsedAt := Some(now))];
        if !bodyParses then ProxyAdmission(keys', Fail(BadRequest))
        else
        match ChooseUpstream(envKey, providers)
        case None => ProxyAdmission(keys', Fail(NoProviderConfigured))
        case Some(pick) => ProxyAdmission(keys', Ok(ProxyGrant(i, pick)))
  }

  /** Any enabled key, sent as a bearer token with a JSON body while an
      upstream key is available, is admitted under a key equal to it and
      stamps only that key. */
  lemma AdmitsEnabledKey(keys: seq<UserKey>, j: nat, now: int, envKey: string, providers: seq<ProviderKey>)
    requires j < |keys| && keys[j].enabled
    requires ChooseUpstream(envKey, providers).Some?
    ensures var r := AdmitProxyRequest(Some(BearerPrefix + keys[j].key), keys, now, true, envKey, providers);
      && r.reply.Ok?
      && var i := r.reply.value.userKeyIndex;
      && i <= j && keys[i].key == keys[j].key
      && r.keys == keys[i := keys[i].(lastUsedAt := Some(now))]
  {
    var token := keys[j].key;
    var auth := BearerPrefix + token;
    assert auth[..|BearerPrefix|] == BearerPrefix;
    assert auth[|BearerPrefix|..] == token;
    var i := FindActiveKey(keys, token);
    assert i.Some?;
    FirstActiveKey(keys, token, j);
  }

  /** The key found is the first enabled one with the token. */
  lemma {:induction false} FirstActiveKey(keys: seq<UserKey>, token: string, j: nat)
    requires j < |keys| && keys[j].key == token && keys[j].enabled
    ensures FindActiveKey(keys, token).Some? && FindActiveKey(keys, token).value <= j
  {
    if j > 0 && !(keys[0].key == token && keys[0].enabled) {
      FirstActiveKey(keys[1..], token, j - 1);
    }
  }

  const UpstreamError := HttpError(502, "upstream_error")

  /** A forwarded upstream answer: its status code and the usage row logged for it. */
  datatype Forwarded = Forwarded(status: int, log: UsageLog)

  /** What `proxy_chat` does with the upstream answer. A failed call is a
      502 and logs nothing. A JSON answer (by a substring test on its
      content type) is forwarded with its status and logged with its token
      counts; a body that then does not parse raises, uncaught, before
      anything is logged; any other answer is forwarded and logged with zero
      tokens. The proxy never records the user key in the log. */
  function ProxyForward(providerId: int, now: int, result: UpstreamResult, contentType: string): (r: Reply<Forwarded>)
    ensures result.Raised? ==> r == Fail(UpstreamError)
    ensures result.Answered? && !Contains(contentType, "application/json") ==>
      r == Ok(Forwarded(result.status, NewUsageLog(providerId, None, now)))
    ensures result.Answered? && Contains(contentType, "application/json") ==>
      match result.body
      case NotJson(_) => r == Fail(InternalError)
      case JsonBody(data) =>
        var t := ExtractTokens(data);
        r == Ok(Forwarded(result.status, UsageLog(providerId, None, now, t.prompt, t.completion, t.total)))
    ensures r.Ok? ==> r.value.log.userKeyId.None? && r.value.log.providerKeyId == providerId && r.value.log.ts == now
  {
    match result
    case Raised(_) => Fail(UpstreamError)
    case Answered(status, body) =>
      if Contains(contentType, "application/json") then
        match body
        case NotJson(_) => Fail(InternalError)
        case JsonBody(data) =>
          var t := ExtractTokens(data);
          Ok(Forwarded(status, UsageLog(providerId, None, now, t.prompt, t.completion, t.total)))
      else Ok(Forwarded(status, NewUsageLog(providerId, None, now)))
  }

  /** A JSON answer without a usage block is logged like a non-JSON one: one
      row with zero tokens, under the provider that served it. */
  lemma ForwardWithoutUsage(providerId: int, now: int, status: int, data: Json, contentType: string)
    requires data.JObj? && "usage" !in data.fields
    ensures ProxyForward(providerId, now, Answered(status, JsonBody(data)), contentType)
         == Ok(Forwarded(status, NewUsageLog(providerId, None, now)))
  {
  }
}
