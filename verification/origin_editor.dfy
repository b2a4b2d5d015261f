/** The CORS settings form of the admin page (static/admin/app.js,
    `CorsSettings`): the list of allowed origins the admin edits, the
    presets, and what is sent on save; and the validation and routing of the
    user-key form (`UserKeys.saveKey`). Form inputs are plain values; every
    input box holds text. */
module OriginEditor {
  import opened Common
  import opened Text
  import opened Json
  import opened Records
  import opened Admin

  // ------------------------------------------------------------ the form

  /** The CORS form: the origin list and the other inputs' text. */
  datatype CorsForm = CorsForm(origins: seq<string>, methods: string, headers: string,
                               credentials: bool, maxAge: string)

  /** The shape `addOrigin` and `removeOrigin` keep: entries are non-empty
      and trimmed, none repeats, and `*` only ever stands alone. */
  predicate WellFormed(o: seq<string>) {
    && (forall i :: 0 <= i < |o| ==> o[i] != "" && Stripped(o[i]))
    && (forall i, j :: 0 <= i < j < |o| ==> o[i] != o[j])
    && ("*" in o ==> o == ["*"])
  }

  // ------------------------------------------------------------ loading

  /** `parts.map(o => o.trim()).filter(o => o)`: the trimmed entries
      that are not empty, in order. */
  function TrimNonEmpty(parts: seq<string>): (r: seq<string>)
    ensures |r| <= |parts|
    ensures forall i :: 0 <= i < |r| ==> r[i] != "" && Stripped(r[i])
  {
    if |parts| == 0 then []
    else
      var t := Strip(parts[0]);
      if t == "" then TrimNonEmpty(parts[1..]) else [t] + TrimNonEmpty(parts[1..])
  }

  /** Entries that are already trimmed and non-empty pass through unchanged. */
  lemma {:induction false} TrimNonEmptyKeeps(o: seq<string>)
    requires forall i :: 0 <= i < |o| ==> o[i] != "" && Stripped(o[i])
    ensures TrimNonEmpty(o) == o
  {
    if |o| > 0 {
      StripStripped(o[0]);
      TrimNonEmptyKeeps(o[1..]);
    }
  }

  /** The origin list of `loadSettings`: the stored text (or `*` when
      empty) split on commas, trimmed, empties dropped. */
  function LoadOrigins(allowed: string): (r: seq<string>)
    ensures forall i :: 0 <= i < |r| ==> r[i] != "" && Stripped(r[i])
  {
    TrimNonEmpty(Split(if allowed == "" then "*" else allowed, ','))
  }

  /** Nothing stored reads as the wildcard alone. */
  lemma LoadEmptyIsWildcard()
    ensures LoadOrigins("") == ["*"]
  {
    SplitNoSep("*", ',');
    TrimNonEmptyKeeps(["*"]);
  }

  /** `loadSettings`: on a 200 answer the form shows the stored settings,
      each input falling back to its default when the stored value is
      falsy; otherwise the form is left as it was. */
  function LoadSettings(f: CorsForm, reply: Reply<CorsSettings>): (r: CorsForm)
    ensures reply.Fail? ==> r == f
    ensures reply.Ok? ==>
      && r.origins == LoadOrigins(reply.value.allowedOrigins)
      && r.methods == (if reply.value.allowedMethods == "" then "GET,POST,PUT,DELETE,OPTIONS" else reply.value.allowedMethods)
      && r.headers == (if reply.value.allowedHeaders == "" then "*" else reply.value.allowedHeaders)
      && r.credentials == reply.value.allowCredentials
      && JsParseInt(r.maxAge) == Some(if reply.value.maxAge == 0 then 3600 else reply.value.maxAge)
  {
    match reply
    case Fail(_) => f
    case Ok(st) =>
      var r := CorsForm(LoadOrigins(st.allowedOrigins),
               if st.allowedMethods == "" then "GET,POST,PUT,DELETE,OPTIONS" else st.allowedMethods,
               if st.allowedHeaders == "" then "*" else st.allowedHeaders,
               st.allowCredentials,
               IntToDecimal(if st.maxAge == 0 then 3600 else st.maxAge));
      JsParseIntDecimal(if st.maxAge == 0 then 3600 else st.maxAge);
      r
  }

  // ------------------------------------------------------------ editing

  /** What `addOrigin` reports. */
  datatype AddResult = EmptyOrigin | AlreadyListed | WildcardReplaces | WildcardPresent | Appended

  /** `addOrigin(origin)`: the trimmed input is refused when empty, already
      listed, or a specific origin while `*` is listed; `*` added to a
      non-empty list replaces it; anything else is appended. */
  function AddOrigin(o: seq<string>, input: string): (r: (seq<string>, AddResult))
    ensures var t := Strip(input);
      && (t == "" ==> r == (o, EmptyOrigin))
      && (t != "" && t in o ==> r == (o, AlreadyListed))
      && (t != "" && t !in o && t == "*" && |o| > 0 ==> r == (["*"], WildcardReplaces))
      && (t != "" && t !in o && !(t == "*" && |o| > 0) && "*" in o ==> r == (o, WildcardPresent))
      && (r.1 == Appended <==> t != "" && t !in o && "*" !in o && !(t == "*" && |o| > 0))
      && (r.1 == Appended ==> r.0 == o + [t])
  {
    var t := Strip(input);
    if t == "" then (o, EmptyOrigin)
    else if t in o then (o, AlreadyListed)
    else if t == "*" && |o| > 0 then (["*"], WildcardReplaces)
    else if "*" in o then (o, WildcardPresent)
    else (o + [t], Appended)
  }

  lemma AddKeepsWellFormed(o: seq<string>, input: string)
    requires WellFormed(o)
    ensures WellFormed(AddOrigin(o, input).0)
  {
  }

  /** Once added, an origin is listed (or `*` stands for every origin). */
  lemma AddedIsListed(o: seq<string>, input: string)
    requires WellFormed(o) && Strip(input) != ""
    ensures var r := AddOrigin(o, input).0;
      Strip(input) in r || r == ["*"]
  {
  }

  /** The position `Array.prototype.splice(index, 1)` removes from: a
      negative index counts from the end. */
  function SpliceStart(len: nat, index: int): (s: nat)
    ensures s <= len
    ensures 0 <= index <= len ==> s == index
  {
    if index < 0 then (if len + index < 0 then 0 else len + index)
    else if index > len then len
    else index
  }

  /** `removeOrigin(index)`: `origins.splice(index, 1)`. */
  function RemoveOrigin(o: seq<string>, index: int): (r: seq<string>)
    ensures 0 <= index < |o| ==> r == o[..index] + o[index + 1..]
    ensures index >= |o| ==> r == o
    ensures |r| == |o| || |r| == |o| - 1
    ensures forall x :: x in r ==> x in o
  {
    var s := SpliceStart(|o|, index);
    if s < |o| then o[..s] + o[s + 1..] else o
  }

  lemma RemoveKeepsWellFormed(o: seq<string>, index: int)
    requires WellFormed(o)
    ensures WellFormed(RemoveOrigin(o, index))
  {
    var r := RemoveOrigin(o, index);
    var s := SpliceStart(|o|, index);
    if s < |o| {
      assert forall i :: 0 <= i < |r| ==> r[i] == (if i < s then o[i] else o[i + 1]);
    }
  }

  /** `origins.indexOf(value)`. */
  function IndexOfItem(o: seq<string>, v: string): (r: Option<nat>)
    ensures r.None? <==> v !in o
    ensures r.Some? ==> r.value < |o| && o[r.value] == v && v !in o[..r.value]
  {
    if |o| == 0 then None
    else if o[0] == v then Some(0)
    else
      match IndexOfItem(o[1..], v)
      case None => None
      case Some(i) =>
        assert o[1..][..i] == o[1..i + 1];
        Some(i + 1)
  }

  /** A quick-add checkbox: ticking adds its origin, unticking removes it
      when it is listed. */
  function QuickToggle(o: seq<string>, value: string, checked: bool): (r: seq<string>)
    ensures checked ==> r == AddOrigin(o, value).0
    ensures !checked && value !in o ==> r == o
  {
    if checked then AddOrigin(o, value).0
    else
      match IndexOfItem(o, value)
      case None => o
      case Some(i) => RemoveOrigin(o, i)
  }

  /** Unticking removes exactly that origin from a well-formed list. */
  lemma UntickRemovesOnlyIt(o: seq<string>, value: string)
    requires WellFormed(o)
    ensures var r := QuickToggle(o, value, false);
      WellFormed(r) && forall x :: x in r <==> x in o && x != value
  {
    var r := QuickToggle(o, value, false);
    match IndexOfItem(o, value)
    case None =>
    case Some(i) =>
      RemoveKeepsWellFormed(o, i);
      assert forall k :: 0 <= k < |r| ==> r[k] == (if k < i then o[k] else o[k + 1]);
      forall x
        ensures x in r <==> x in o && x != value
      {
        if x in o && x != value {
          var k :| 0 <= k < |o| && o[k] == x;
          assert k != i;
          if k < i { assert r[k] == x; } else { assert r[k - 1] == x; }
        }
      }
  }

  // ------------------------------------------------------------ presets

  const LocalOrigins := ["http://localhost:3000", "http://localhost:5173", "http://localhost:8080"]

  /** `applyPreset(preset)`; an unknown preset changes nothing. */
  function ApplyPreset(f: CorsForm, preset: string): (r: CorsForm)
    ensures preset != "development" && preset != "production" && preset != "localhost" ==> r == f
    ensures preset == "development" ==> r.origins == ["*"] && !r.credentials
    ensures preset == "production" ==> r.origins == [] && r.credentials
    ensures preset == "localhost" ==> r.origins == LocalOrigins && r.credentials
  {
    if preset == "development" then CorsForm(["*"], "GET,POST,PUT,DELETE,PATCH,OPTIONS", "*", false, "3600")
    else if preset == "production" then CorsForm([], "GET,POST,OPTIONS", "Content-Type,Authorization", true, "86400")
    else if preset == "localhost" then CorsForm(LocalOrigins, "GET,POST,PUT,DELETE,OPTIONS", "Content-Type,Authorization", true, "3600")
    else f
  }

  /** Every preset leaves a well-formed origin list. */
  lemma PresetsWellFormed(f: CorsForm, preset: string)
    requires WellFormed(f.origins)
    ensures WellFormed(ApplyPreset(f, preset).origins)
  {
    if preset == "localhost" {
      var o := LocalOrigins;
      assert o[0][|o[0]| - 1] == '0' && o[1][|o[1]| - 1] == '3';
      assert o[2][|o[2]| - 1] == '0' && o[0][|o[0]| - 2] != o[2][|o[2]| - 2];
      assert forall i :: 0 <= i < 3 ==> o[i][0] == 'h' && o[i] != "*";
    } else if preset == "development" {
      assert Stripped("*");
    }
  }

  // ------------------------------------------------------------ saving

  /** What `saveSettings` does: refuse, or PUT the settings body. */
  datatype SaveOutcome = NoOrigins | CredentialsWithWildcard | PutCors(body: map<string, Json>)

  /** `parseInt(text) || fallback`: `NaN` and `0` both give the fallback. */
  function ParseIntOr(text: string, fallback: int): (r: int)
    ensures JsParseInt(text).Some? && JsParseInt(text).value != 0 ==> r == JsParseInt(text).value
    ensures JsParseInt(text).None? || JsParseInt(text).value == 0 ==> r == fallback
  {
    match JsParseInt(text)
    case Some(v) => if v != 0 then v else fallback
    case None => fallback
  }

  /** The body `saveSettings` sends. */
  function CorsBody(f: CorsForm): map<string, Json> {
    map["allowed_origins" := JStr(Join(f.origins, ',')),
        "allowed_methods" := JStr(Strip(f.methods)),
        "allowed_headers" := JStr(Strip(f.headers)),
        "allow_credentials" := JBool(f.credentials),
        "max_age" := JInt(ParseIntOr(f.maxAge, 3600))]
  }

  /** `saveSettings`: an empty list is refused, and so are credentials
      together with the bare wildcard. */
  function SaveSettings(f: CorsForm): (r: SaveOutcome)
    ensures |f.origins| == 0 <==> r == NoOrigins
    ensures r == CredentialsWithWildcard <==> |f.origins| > 0 && f.credentials && Join(f.origins, ',') == "*"
    ensures r.PutCors? ==> r.body == CorsBody(f)
  {
    if |f.origins| == 0 then NoOrigins
    else if f.credentials && Join(f.origins, ',') == "*" then CredentialsWithWildcard
    else PutCors(CorsBody(f))
  }

  /** On a well-formed list the joined text is `*` exactly when the list is
      the wildcard alone, so credentials are refused exactly with `*`. */
  lemma WildcardJoinIffAlone(o: seq<string>)
    requires WellFormed(o) && |o| > 0
    ensures Join(o, ',') == "*" <==> o == ["*"]
  {
    if |o| > 1 {
      var j := Join(o, ',');
      assert j == o[0] + [','] + Join(o[1..], ',');
      assert |j| > 1;
    }
  }

  /** The production preset cannot be saved until an origin is added; the
      development preset saves the wildcard without credentials. */
  lemma PresetSaves(f: CorsForm)
    ensures SaveSettings(ApplyPreset(f, "production")) == NoOrigins
    ensures SaveSettings(ApplyPreset(f, "development")).PutCors?
  {
  }

  /** A well-formed list of comma-free origins survives the round trip: it
      is saved, stripped and stored by `update_cors_settings`, and read
      back by `loadSettings` as the same list. */
  lemma SaveLoadRoundTrip(f: CorsForm, row: Option<CorsSettings>)
    requires WellFormed(f.origins) && |f.origins| > 0
    requires forall i :: 0 <= i < |f.origins| ==> ',' !in f.origins[i]
    ensures var body := CorsBody(f);
      var stored := UpdateCors(true, row, body);
      && stored.1.Ok?
      && LoadOrigins(stored.0.value.allowedOrigins) == f.origins
      && stored.0.value.allowCredentials == f.credentials
      && stored.0.value.maxAge == ParseIntOr(f.maxAge, 3600)
  {
    var o := f.origins;
    JoinStripped(o);
    CorsBodyStored(f, row);
    SplitJoin(o, ',');
    TrimNonEmptyKeeps(o);
  }

  /** The server stores a saved body as the form holds it: the joined
      origins (already stripped), the credentials flag and the max age. */
  lemma CorsBodyStored(f: CorsForm, row: Option<CorsSettings>)
    requires Stripped(Join(f.origins, ','))
    ensures var stored := UpdateCors(true, row, CorsBody(f));
      && stored.1.Ok?
      && stored.0.value.allowedOrigins == Join(f.origins, ',')
      && stored.0.value.allowCredentials == f.credentials
      && stored.0.value.maxAge == ParseIntOr(f.maxAge, 3600)
  {
    var body := CorsBody(f);
    assert CorsFields(body, Join(f.origins, ','), f.credentials, ParseIntOr(f.maxAge, 3600));
    StoredFromFields(row, body, Join(f.origins, ','), f.credentials, ParseIntOr(f.maxAge, 3600));
  }

  /** A settings body holding every field, with these origins, flag and max age. */
  predicate CorsFields(data: map<string, Json>, origins: string, credentials: bool, maxAge: int) {
    && "allowed_origins" in data && data["allowed_origins"] == JStr(origins)
    && "allowed_methods" in data && data["allowed_methods"].JStr?
    && "allowed_headers" in data && data["allowed_headers"].JStr?
    && "allow_credentials" in data && data["allow_credentials"] == JBool(credentials)
    && "max_age" in data && data["max_age"] == JInt(maxAge)
  }

  lemma StoredFromFields(row: Option<CorsSettings>, data: map<string, Json>, origins: string, credentials: bool, maxAge: int)
    requires CorsFields(data, origins, credentials, maxAge) && Stripped(origins)
    ensures var stored := UpdateCors(true, row, data);
      && stored.1.Ok?
      && stored.0.value.allowedOrigins == origins
      && stored.0.value.allowCredentials == credentials
      && stored.0.value.maxAge == maxAge
  {
    StripStripped(origins);
  }

  /** The join of trimmed non-empty entries has no whitespace at either end,
      and is not empty. */
  lemma JoinStripped(o: seq<string>)
    requires |o| > 0
    requires forall i :: 0 <= i < |o| ==> o[i] != "" && Stripped(o[i])
    ensures Stripped(Join(o, ',')) && Join(o, ',') != ""
  {
    var j := Join(o, ',');
    JoinFirstPiece(o, ',');
    var first := o[0];
    var last := o[|o| - 1];
    assert j[..|first|] == first;
    assert j[0] == first[0];
    assert j[|j| - |last|..] == last;
    assert j[|j| - 1] == last[|last| - 1];
  }

  // --------------------------------------------------------- key form

  /** The user-key form. `editId` is the hidden id input (empty for a new
      key); a period select that is missing from the page is `None`. */
  datatype KeyForm = KeyForm(
    editId: string,
    name: string,
    enabled: bool,
    rateEnabled: bool,
    rate: string,
    ratePeriod: Option<string>,
    tokensEnabled: bool,
    tokens: string,
    tokenPeriod: Option<string>)

  /** What `saveKey` does: refuse with a message, or send the body. */
  datatype KeySave = NameRequired | RateTooLow | TokenTooLow | SendKey(verb: string, url: string, body: map<string, Json>)

  /** A limit as sent: `parseInt(text) || 0` when enabled, else 0. */
  function LimitValue(enabled: bool, text: string): (v: int)
    ensures !enabled ==> v == 0
    ensures enabled && JsParseInt(text).Some? ==> v == JsParseInt(text).value
  {
    if enabled then ParseIntOr(text, 0) else 0
  }

  /** A period as sent: the selected one (`select?.value || default`) when
      enabled, else the default. */
  function PeriodValue(enabled: bool, sel: Option<string>, default: string): (p: string)
    ensures !enabled ==> p == default
    ensures p == default || (sel.Some? && p == sel.value)
  {
    if enabled && sel.Some? && sel.value != "" then sel.value else default
  }

  /** The JSON body `saveKey` builds. */
  function KeyBody(f: KeyForm): map<string, Json> {
    var rv := LimitValue(f.rateEnabled, f.rate);
    var tv := LimitValue(f.tokensEnabled, f.tokens);
    BodyOf(Strip(f.name), f.enabled,
           f.rateEnabled, rv, PeriodValue(f.rateEnabled, f.ratePeriod, "minute"),
           f.tokensEnabled, tv, PeriodValue(f.tokensEnabled, f.tokenPeriod, "day"))
  }

  /** The JSON body `saveKey` sends, from the values it reads off the form. */
  function BodyOf(name: string, enabled: bool, rateOn: bool, rate: int, ratePeriod: string,
                  tokensOn: bool, tokens: int, tokenPeriod: string): map<string, Json> {
    map["name" := JStr(name),
        "enabled" := JBool(enabled),
        "rate_limit_enabled" := JBool(rateOn),
        "rate_limit_value" := JInt(rate),
        "rate_limit_period" := JStr(ratePeriod),
        "rate_limit_per_min" := JInt(rate),
        "token_limit_enabled" := JBool(tokensOn),
        "token_limit_value" := JInt(tokens),
        "token_limit_period" := JStr(tokenPeriod),
        "token_limit_per_day" := JInt(tokens)]
  }

  /** `saveKey`: a blank name, or an enabled limit below 1, is refused; an
      edit is a PUT to the key's URL, a new key a POST. */
  function SaveKey(f: KeyForm): (r: KeySave)
    ensures Strip(f.name) == "" <==> r == NameRequired
    ensures r == RateTooLow <==> Strip(f.name) != "" && f.rateEnabled && LimitValue(true, f.rate) < 1
    ensures r == TokenTooLow <==>
      Strip(f.name) != "" && !(f.rateEnabled && LimitValue(true, f.rate) < 1)
      && f.tokensEnabled && LimitValue(true, f.tokens) < 1
    ensures r.SendKey? ==> r.body == KeyBody(f)
    ensures r.SendKey? ==> (f.editId != "" <==> r.verb == "PUT")
    ensures r.SendKey? && f.editId != "" ==> r.url == "/admin/user-keys/" + f.editId
    ensures r.SendKey? && f.editId == "" ==> r == SendKey("POST", "/admin/user-keys", KeyBody(f))
  {
    if Strip(f.name) == "" then NameRequired
    else if f.rateEnabled && LimitValue(true, f.rate) < 1 then RateTooLow
    else if f.tokensEnabled && LimitValue(true, f.tokens) < 1 then TokenTooLow
    else if f.editId != "" then SendKey("PUT", "/admin/user-keys/" + f.editId, KeyBody(f))
    else SendKey("POST", "/admin/user-keys", KeyBody(f))
  }

  /** The key the server stores for a form: every column taken from the
      form, a disabled limit as 0 with its default period. */
  function KeyOfForm(f: KeyForm, id: int, key: string, lastUsedAt: Option<int>): UserKey {
    var rv := LimitValue(f.rateEnabled, f.rate);
    var tv := LimitValue(f.tokensEnabled, f.tokens);
    UserKey(id, key, Strip(f.name), f.enabled, f.rateEnabled, rv, PeriodValue(f.rateEnabled, f.ratePeriod, "minute"), rv,
            f.tokensEnabled, tv, PeriodValue(f.tokensEnabled, f.tokenPeriod, "day"), tv, lastUsedAt)
  }

  /** The body carries every value of the form under its field name. */
  predicate CarriesForm(b: map<string, Json>, f: KeyForm) {
    Carries(b, Strip(f.name), f.enabled,
            f.rateEnabled, LimitValue(f.rateEnabled, f.rate), PeriodValue(f.rateEnabled, f.ratePeriod, "minute"),
            f.tokensEnabled, LimitValue(f.tokensEnabled, f.tokens), PeriodValue(f.tokensEnabled, f.tokenPeriod, "day"))
  }

  predicate Carries(b: map<string, Json>, name: string, enabled: bool, rateOn: bool, rate: int, ratePeriod: string,
                    tokensOn: bool, tokens: int, tokenPeriod: string) {
    && "name" in b && b["name"] == JStr(name)
    && "enabled" in b && b["enabled"] == JBool(enabled)
    && "rate_limit_enabled" in b && b["rate_limit_enabled"] == JBool(rateOn)
    && "rate_limit_value" in b && b["rate_limit_value"] == JInt(rate)
    && "rate_limit_period" in b && b["rate_limit_period"] == JStr(ratePeriod)
    && "rate_limit_per_min" in b && b["rate_limit_per_min"] == JInt(rate)
    && "token_limit_enabled" in b && b["token_limit_enabled"] == JBool(tokensOn)
    && "token_limit_value" in b && b["token_limit_value"] == JInt(tokens)
    && "token_limit_period" in b && b["token_limit_period"] == JStr(tokenPeriod)
    && "token_limit_per_day" in b && b["token_limit_per_day"] == JInt(tokens)
  }

  lemma KeyBodyCarriesForm(f: KeyForm)
    ensures CarriesForm(KeyBody(f), f)
  {
    BodyCarries(Strip(f.name), f.enabled,
                f.rateEnabled, LimitValue(f.rateEnabled, f.rate), PeriodValue(f.rateEnabled, f.ratePeriod, "minute"),
                f.tokensEnabled, LimitValue(f.tokensEnabled, f.tokens), PeriodValue(f.tokensEnabled, f.tokenPeriod, "day"));
  }

  lemma BodyCarries(name: string, enabled: bool, rateOn: bool, rate: int, ratePeriod: string,
                    tokensOn: bool, tokens: int, tokenPeriod: string)
    ensures Carries(BodyOf(name, enabled, rateOn, rate, ratePeriod, tokensOn, tokens, tokenPeriod),
                    name, enabled, rateOn, rate, ratePeriod, tokensOn, tokens, tokenPeriod)
  {
  }

  /** The server reads every integer of the body back unchanged. */
  lemma IntsReadBack(b: map<string, Json>, name: string, v: int)
    requires name in b && b[name] == JInt(v)
    ensures IntOrZero(b, name) == Some(v)
  {
  }

  /** A new key saved from the form is created with exactly the form's values. */
  lemma SaveKeyCreates(f: KeyForm, id: int, key: string)
    requires SaveKey(f).SendKey? && f.editId == ""
    ensures NewKeyFromBody(SaveKey(f).body, id, key) == Some(KeyOfForm(f, id, key, None))
  {
    KeyBodyCarriesForm(f);
    CreateFromCarried(KeyBody(f), f, id, key);
  }

  lemma CreateFromCarried(b: map<string, Json>, f: KeyForm, id: int, key: string)
    requires CarriesForm(b, f)
    ensures NewKeyFromBody(b, id, key) == Some(KeyOfForm(f, id, key, None))
  {
    IntsReadBack(b, "rate_limit_value", LimitValue(f.rateEnabled, f.rate));
    IntsReadBack(b, "rate_limit_per_min", LimitValue(f.rateEnabled, f.rate));
    IntsReadBack(b, "token_limit_value", LimitValue(f.tokensEnabled, f.tokens));
    IntsReadBack(b, "token_limit_per_day", LimitValue(f.tokensEnabled, f.tokens));
  }

  /** An edited key has every column but its id, key and last use replaced
      by the form's values: the form always sends every field. */
  lemma SaveKeyUpdates(f: KeyForm, k: UserKey)
    requires SaveKey(f).SendKey? && f.editId != ""
    ensures UpdatedKey(k, SaveKey(f).body) == Some(KeyOfForm(f, k.id, k.key, k.lastUsedAt))
  {
    KeyBodyCarriesForm(f);
    UpdateFromCarried(KeyBody(f), f, k);
  }

  lemma UpdateFromCarried(b: map<string, Json>, f: KeyForm, k: UserKey)
    requires CarriesForm(b, f)
    ensures UpdatedKey(k, b) == Some(KeyOfForm(f, k.id, k.key, k.lastUsedAt))
  {
    IntsReadBack(b, "rate_limit_value", LimitValue(f.rateEnabled, f.rate));
    IntsReadBack(b, "rate_limit_per_min", LimitValue(f.rateEnabled, f.rate));
    IntsReadBack(b, "token_limit_value", LimitValue(f.tokensEnabled, f.tokens));
    IntsReadBack(b, "token_limit_per_day", LimitValue(f.tokensEnabled, f.tokens));
  }

  /** A key saved with an enabled rate limit is never stored without one:
      the value sent is at least 1. */
  lemma SavedLimitsPositive(f: KeyForm)
    requires SaveKey(f).SendKey?
    ensures f.rateEnabled ==> LimitValue(true, f.rate) >= 1
    ensures f.tokensEnabled ==> LimitValue(true, f.tokens) >= 1
  {
  }
}
