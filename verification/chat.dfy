/** The chat routes of app/routes_chat.py: the school-domain gate of the
    Google sign-in callback, and `send_message` with its per-key rate limit,
    the upstream model pick and the conversation update. */
module Chat {
  import opened Common
  import opened Text
  import opened Json
  import opened Records
  import opened Utils
  import opened Upstream

  // ---------------------------------------------------------------- records

  /** A signed-in user and the user key created for them. */
  datatype User = User(
    id: int,
    email: string,
    name: Option<string>,
    picture: Option<string>,
    googleId: Option<string>,
    userKeyId: int)

  /** One stored chat turn `{'role': ..., 'content': ...}`. */
  datatype ChatMessage = ChatMessage(role: string, content: Json)

  /** A conversation with its stored turns; times are integer seconds. */
  datatype Conversation = Conversation(
    id: int,
    userId: int,
    title: string,
    messages: seq<ChatMessage>,
    updatedAt: int)

  /** The tables the chat routes read and write. */
  datatype ChatStore = ChatStore(
    users: seq<User>,
    keys: seq<UserKey>,
    convs: seq<Conversation>,
    logs: seq<UsageLog>)

  /** `User.query.filter_by(...).first()` on the user's id. */
  function FindUser(users: seq<User>, id: int): (r: Option<nat>)
    ensures r.Some? ==> r.value < |users| && users[r.value].id == id
    ensures r.None? <==> forall i :: 0 <= i < |users| ==> users[i].id != id
  {
    if |users| == 0 then None
    else if users[0].id == id then Some(0)
    else
      match FindUser(users[1..], id)
      case None => None
      case Some(i) => Some(i + 1)
  }

  /** The first user registered with `email`. */
  function FindUserByEmail(users: seq<User>, email: string): (r: Option<nat>)
    ensures r.Some? ==> r.value < |users| && users[r.value].email == email
    ensures r.None? <==> forall i :: 0 <= i < |users| ==> users[i].email != email
    ensures r.Some? ==> forall j :: 0 <= j < r.value ==> users[j].email != email
  {
    if |users| == 0 then None
    else if users[0].email == email then Some(0)
    else
      match FindUserByEmail(users[1..], email)
      case None => None
      case Some(i) => Some(i + 1)
  }

  // ----------------------------------------------------------- auth_callback

  const AllowedDomain := "@deakteri.hu"

  /** `email and email.endswith('@deakteri.hu')`. */
  predicate Admitted(email: Option<string>) {
    email.Some? && email.value != "" && EndsWith(email.value, AllowedDomain)
  }

  /** The key given to a first-time user: 60 requests per minute. */
  function FirstLoginKey(id: int, key: string, email: string): (k: UserKey)
    ensures k.id == id && k.key == key && k.enabled && k.lastUsedAt.None?
    ensures k.rateLimitEnabled && k.rateLimitValue == 60 && k.rateLimitPeriod == "minute"
  {
    NewUserKey(id, key, "Key for " + email).(rateLimitEnabled := true, rateLimitValue := 60, rateLimitPeriod := "minute")
  }

  /** Every user's key exists. */
  predicate UsersLinked(st: ChatStore) {
    forall i :: 0 <= i < |st.users| ==> FindKeyById(st.keys, st.users[i].userKeyId).Some?
  }

  /** The result of the sign-in callback: refused (the "denied" page), or
      signed in as the given user id. */
  datatype Login = Denied | SignedIn(userId: int)

  /** The sign-in callback once Google has answered with the user's email,
      name, picture and subject id. A new user gets a fresh key (`freshKey`
      with id `freshKeyId`) and the row id `freshUserId`; a known user only
      has their name and picture refreshed. */
  function AuthCallback(st: ChatStore, email: Option<string>, name: Option<string>, picture: Option<string>,
                        sub: Option<string>, freshKey: string, freshKeyId: int, freshUserId: int): (r: (ChatStore, Login))
    ensures !Admitted(email) ==> r == (st, Denied)
    ensures Admitted(email) && FindUserByEmail(st.users, email.value).None? ==>
      && r.0 == st.(keys := st.keys + [FirstLoginKey(freshKeyId, freshKey, email.value)],
                    users := st.users + [User(freshUserId, email.value, name, picture, sub, freshKeyId)])
      && r.1 == SignedIn(freshUserId)
    ensures Admitted(email) && FindUserByEmail(st.users, email.value).Some? ==>
      var i := FindUserByEmail(st.users, email.value).value;
      && r.0 == st.(users := st.users[i := st.users[i].(name := name, picture := picture)])
      && r.1 == SignedIn(st.users[i].id)
    ensures r.1.SignedIn? ==> exists i :: 0 <= i < |r.0.users| && r.0.users[i].id == r.1.userId
                                && EndsWith(r.0.users[i].email, AllowedDomain)
  {
    if !Admitted(email) then (st, Denied)
    else
      var e := email.value;
      match FindUserByEmail(st.users, e)
      case None =>
        var key := FirstLoginKey(freshKeyId, freshKey, e);
        var user := User(freshUserId, e, name, picture, sub, freshKeyId);
        var st' := st.(keys := st.keys + [key], users := st.users + [user]);
        assert st'.users[|st.users|] == user;
        (st', SignedIn(freshUserId))
      case Some(i) =>
        var st' := st.(users := st.users[i := st.users[i].(name := name, picture := picture)]);
        assert st'.users[i].email == e;
        (st', SignedIn(st.users[i].id))
  }

  /** Signing in keeps every user linked to an existing key, provided the
      fresh key id is not already taken. */
  lemma AuthKeepsUsersLinked(st: ChatStore, email: Option<string>, name: Option<string>, picture: Option<string>,
                             sub: Option<string>, freshKey: string, freshKeyId: int, freshUserId: int)
    requires UsersLinked(st)
    requires forall i :: 0 <= i < |st.keys| ==> st.keys[i].id != freshKeyId
    ensures UsersLinked(AuthCallback(st, email, name, picture, sub, freshKey, freshKeyId, freshUserId).0)
  {
    var r := AuthCallback(st, email, name, picture, sub, freshKey, freshKeyId, freshUserId).0;
    if Admitted(email) && FindUserByEmail(st.users, email.value).None? {
      forall i | 0 <= i < |r.users|
        ensures FindKeyById(r.keys, r.users[i].userKeyId).Some?
      {
        if i < |st.users| {
          var k := FindKeyById(st.keys, st.users[i].userKeyId).value;
          assert r.keys[k].id == r.users[i].userKeyId;
        } else {
          assert r.keys[|st.keys|].id == r.users[i].userKeyId;
        }
      }
    } else if Admitted(email) {
      forall i | 0 <= i < |r.users|
        ensures FindKeyById(r.keys, r.users[i].userKeyId).Some?
      {
        assert r.users[i].userKeyId == st.users[i].userKeyId;
      }
    }
  }

  /** Only addresses of the school's domain get in, whatever else Google reports. */
  lemma OtherDomainsDenied(st: ChatStore, email: string, name: Option<string>, picture: Option<string>,
                           sub: Option<string>, freshKey: string, freshKeyId: int, freshUserId: int)
    requires !EndsWith(email, AllowedDomain)
    ensures AuthCallback(st, Some(email), name, picture, sub, freshKey, freshKeyId, freshUserId) == (st, Denied)
  {
  }

  // -------------------------------------------------------------- rate limit

  /** The length of a rate-limit window; an unknown period counts as a minute. */
  function PeriodSeconds(period: string): (s: int)
    ensures s == 1 || s == 60 || s == 3600 || s == 86400
    ensures period != "second" && period != "hour" && period != "day" ==> s == 60
  {
    if period == "second" then 1
    else if period == "minute" then 60
    else if period == "hour" then 3600
    else if period == "day" then 86400
    else 60
  }

  /** A log row counted against user key `keyId` in a window opening at `start`. */
  predicate InWindow(l: UsageLog, keyId: int, start: int) {
    l.userKeyId == Some(keyId) && l.ts >= start
  }

  /** The rows counted against the key in the window (`func.count(...)`). */
  function CountInWindow(logs: seq<UsageLog>, keyId: int, start: int): (n: nat)
    ensures n <= |logs|
    ensures n == 0 <== forall i :: 0 <= i < |logs| ==> !InWindow(logs[i], keyId, start)
  {
    if |logs| == 0 then 0
    else CountInWindow(logs[..|logs| - 1], keyId, start) + (if InWindow(logs[|logs| - 1], keyId, start) then 1 else 0)
  }

  /** The positions of the counted rows. */
  function CountedRows(logs: seq<UsageLog>, keyId: int, start: int): set<nat> {
    set i: nat | i < |logs| && InWindow(logs[i], keyId, start)
  }

  /** The count is the number of rows the window query selects. */
  lemma {:induction false} CountIsRowSet(logs: seq<UsageLog>, keyId: int, start: int)
    ensures CountInWindow(logs, keyId, start) == |CountedRows(logs, keyId, start)|
  {
    if |logs| > 0 {
      var init := logs[..|logs| - 1];
      CountIsRowSet(init, keyId, start);
      var last := |logs| - 1;
      assert forall i: nat :: i < |init| ==> init[i] == logs[i];
      if InWindow(logs[last], keyId, start) {
        assert CountedRows(logs, keyId, start) == CountedRows(init, keyId, start) + {last};
      } else {
        assert CountedRows(logs, keyId, start) == CountedRows(init, keyId, start);
      }
    }
  }

  /** The request is refused with 429: the limit is on, positive, and reached
      by the rows of the last `PeriodSeconds` seconds. */
  predicate RateLimited(k: UserKey, logs: seq<UsageLog>, now: int) {
    && k.rateLimitEnabled
    && k.rateLimitValue > 0
    && CountInWindow(logs, k.id, now - PeriodSeconds(k.rateLimitPeriod)) >= k.rateLimitValue
  }

  /** Logging more calls never lifts a limit. */
  lemma {:induction false} CountMonotone(logs: seq<UsageLog>, extra: seq<UsageLog>, keyId: int, start: int)
    ensures CountInWindow(logs + extra, keyId, start) >= CountInWindow(logs, keyId, start)
    decreases |extra|
  {
    if |extra| == 0 {
      assert logs + extra == logs;
    } else {
      var e := extra[..|extra| - 1];
      assert (logs + extra)[..|logs + extra| - 1] == logs + e;
      CountMonotone(logs, e, keyId, start);
    }
  }

  lemma RateLimitMonotone(k: UserKey, logs: seq<UsageLog>, extra: seq<UsageLog>, now: int)
    requires RateLimited(k, logs, now)
    ensures RateLimited(k, logs + extra, now)
  {
    CountMonotone(logs, extra, k.id, now - PeriodSeconds(k.rateLimitPeriod));
  }

  /** Calls through the public proxy (logged without a user key) never count. */
  lemma ProxyCallsNotCounted(logs: seq<UsageLog>, l: UsageLog, keyId: int, start: int)
    requires l.userKeyId.None?
    ensures CountInWindow(logs + [l], keyId, start) == CountInWindow(logs, keyId, start)
  {
    assert (logs + [l])[..|logs|] == logs;
  }

  /** A key whose limit is off, or zero, is never limited. */
  lemma LimitOffNeverLimits(k: UserKey, logs: seq<UsageLog>, now: int)
    requires !k.rateLimitEnabled || k.rateLimitValue <= 0
    ensures !RateLimited(k, logs, now)
  {
  }

  // ------------------------------------------------------------ model pick

  const DefaultModel := JStr("gpt-3.5-turbo")

  /** The first entry of the upstream model listing, as `send_message` reads
      it; `None` where the code keeps the default, including every exception
      the bare `except` swallows. */
  function ListedModel(m: Json): (r: Option<Json>)
    ensures !m.JObj? ==> r.None?
    ensures m.JObj? ==>
      var src := Or(Field(m.fields, "data"), Field(m.fields, "models"));
      && (!Truthy(src) ==> r.None?)
      && (src.JArr? && |src.items| > 0 && src.items[0].JStr? ==> r == Some(src.items[0]))
      && (src.JArr? && |src.items| > 0 && src.items[0].JObj? ==>
            r == Some(Or(Field(src.items[0].fields, "id"), Field(src.items[0].fields, "name"))))
  {
    if !m.JObj? then None
    else
      var src := Or(Or(Field(m.fields, "data"), Field(m.fields, "models")), JArr([]));
      if !Truthy(src) then None
      else
        match src
        case JArr(items) =>
          var first := items[0];
          if first.JObj? then Some(Or(Field(first.fields, "id"), Field(first.fields, "name")))
          else if first.JStr? then Some(first)
          else None
        case JStr(s) => Some(JStr([s[0]]))
        case _ => None
  }

  /** The model asked for: the listed one, else `gpt-3.5-turbo`. */
  function PickModel(models: UpstreamResult): (m: Json)
    ensures models.Raised? ==> m == DefaultModel
    ensures models.Answered? && (models.status != 200 || models.body.NotJson?) ==> m == DefaultModel
  {
    match models
    case Answered(200, JsonBody(data)) => ListedModel(data).GetOr(DefaultModel)
    case _ => DefaultModel
  }

  /** The model is always the default or the one the listing names. */
  lemma PickedModelIsListedOrDefault(models: UpstreamResult)
    ensures var m := PickModel(models);
      || m == DefaultModel
      || (models.Answered? && models.status == 200 && models.body.JsonBody? && ListedModel(models.body.json) == Some(m))
    ensures models.Answered? && models.status == 200 && models.body.JsonBody? && ListedModel(models.body.json).Some? ==>
      PickModel(models) == ListedModel(models.body.json).value
  {
  }

  /** The usual listing `{"data": [{"id": id, ...}, ...]}` yields its first id,
      and a plain list of names yields the first name. */
  lemma PickFirstListed(id: string, rest: seq<Json>, more: map<string, Json>, key: string)
    requires id != "" && (key == "data" || key == "models")
    ensures PickModel(Answered(200, JsonBody(JObj(map[key := JArr([JObj(more["id" := JStr(id)])] + rest)]))))
         == JStr(id)
    ensures PickModel(Answered(200, JsonBody(JObj(map[key := JArr([JStr(id)] + rest)])))) == JStr(id)
  {
    var m1 := JObj(map[key := JArr([JObj(more["id" := JStr(id)])] + rest)]);
    var m2 := JObj(map[key := JArr([JStr(id)] + rest)]);
    if key == "models" {
      assert Field(m1.fields, "data") == JNull;
      assert Field(m2.fields, "data") == JNull;
    }
  }

  /** An empty listing keeps the default. */
  lemma PickEmptyListing()
    ensures PickModel(Answered(200, JsonBody(JObj(map["data" := JArr([])])))) == DefaultModel
  {
    assert Field(map["data" := JArr([])], "models") == JNull;
  }

  // ------------------------------------------------------------ send_message

  /** `resp_data['choices'][0]['message']['content']`; `None` where Python raises. */
  function AssistantContent(data: Json): (r: Option<Json>)
    ensures r.Some? <==>
      && data.JObj? && "choices" in data.fields && data.fields["choices"].JArr? && |data.fields["choices"].items| > 0
      && data.fields["choices"].items[0].JObj? && "message" in data.fields["choices"].items[0].fields
      && data.fields["choices"].items[0].fields["message"].JObj?
      && "content" in data.fields["choices"].items[0].fields["message"].fields
    ensures r.Some? ==> r.value == data.fields["choices"].items[0].fields["message"].fields["content"]
  {
    if !data.JObj? || "choices" !in data.fields then None
    else
      var choices := data.fields["choices"];
      if !choices.JArr? || |choices.items| == 0 then None
      else
        var first := choices.items[0];
        if !first.JObj? || "message" !in first.fields then None
        else
          var msg := first.fields["message"];
          if !msg.JObj? || "content" !in msg.fields then None
          else Some(msg.fields["content"])
  }

  /** A standard completion reply yields its first choice's text. */
  lemma AssistantContentOfReply(text: Json, rest: seq<Json>, extra: map<string, Json>)
    ensures AssistantContent(JObj(extra["choices" := JArr([JObj(map["message" := JObj(map["content" := text])])] + rest)]))
         == Some(text)
  {
  }

  /** How the route reads `conversation_id`: falsy means "start a new
      conversation"; a number, or text that SQLite converts to one when
      comparing it with the integer id column, names one; any other value
      finds nothing. */
  datatype ConvRef = NewConversation | Existing(id: int) | Unmatched

  function ConvRefOf(v: Json): (r: ConvRef)
    ensures !Truthy(v) <==> r.NewConversation?
    ensures r.Existing? <==> Truthy(v) && PyInt(v).Some?
    ensures r.Existing? ==> PyInt(v) == Some(r.id)
    ensures Truthy(v) && v.JInt? ==> r == Existing(v.i)
  {
    if !Truthy(v) then NewConversation
    else
      match PyInt(v)
      case Some(n) => Existing(n)
      case None => Unmatched
  }

  /** The conversation `id` of user `userId` (`filter_by(id=..., user_id=...).first()`). */
  function FindOwnedConversation(convs: seq<Conversation>, id: int, userId: int): (r: Option<nat>)
    ensures r.Some? ==> r.value < |convs| && convs[r.value].id == id && convs[r.value].userId == userId
    ensures r.None? <==> forall i :: 0 <= i < |convs| ==> !(convs[i].id == id && convs[i].userId == userId)
  {
    if |convs| == 0 then None
    else if convs[0].id == id && convs[0].userId == userId then Some(0)
    else
      match FindOwnedConversation(convs[1..], id, userId)
      case None => None
      case Some(i) => Some(i + 1)
  }

  const UserNotFound := HttpError(404, "user not found")
  const MessageRequired := HttpError(400, "message required")
  const ConversationNotFound := HttpError(404, "conversation not found")
  const RateLimitExceeded := HttpError(429, "rate_limit_exceeded")
  const NoUpstreamProvider := HttpError(500, "No upstream provider configured")
  const UpstreamFailed := "Upstream error"
  /** The text of the `KeyError`/`IndexError` a malformed completion raises is not modelled. */
  const MalformedReply := HttpError(500, "malformed upstream reply")

  /** The conversation a message goes to, with the store after it is
      opened: an owned conversation as found, or a new one titled with the
      first 30 characters of the message, committed at once. A non-string
      message cannot be sliced into a title, so a new conversation for it
      raises. */
  function OpenConversation(st: ChatStore, userId: int, message: Json, ref: ConvRef, now: int,
                            freshConvId: int): (r: Reply<(ChatStore, nat)>)
    ensures r.Ok? ==> r.value.1 < |r.value.0.convs| && r.value.0.convs[r.value.1].userId == userId
    ensures r.Ok? ==> r.value.0.(convs := st.convs) == st
    ensures ref.Existing? && r.Ok? ==> r.value.0 == st && st.convs[r.value.1].id == ref.id
    ensures ref.Existing? && FindOwnedConversation(st.convs, ref.id, userId).None? ==> r == Fail(ConversationNotFound)
    ensures ref.Existing? && FindOwnedConversation(st.convs, ref.id, userId).Some? ==>
      r == Ok((st, FindOwnedConversation(st.convs, ref.id, userId).value))
    ensures ref.Unmatched? ==> r == Fail(ConversationNotFound)
    ensures ref.NewConversation? && !message.JStr? ==> r == Fail(InternalError)
    ensures ref.NewConversation? && message.JStr? ==>
      && r.Ok?
      && r.value.0.convs == st.convs + [Conversation(freshConvId, userId, Take(message.s, 30), [], now)]
      && r.value.1 == |st.convs|
    ensures r.Fail? ==> r == Fail(ConversationNotFound) || r == Fail(InternalError)
  {
    match ref
    case Unmatched => Fail(ConversationNotFound)
    case Existing(id) =>
      (match FindOwnedConversation(st.convs, id, userId)
       case None => Fail(ConversationNotFound)
       case Some(i) => Ok((st, i)))
    case NewConversation =>
      if !message.JStr? then Fail(InternalError)
      else
        var c := Conversation(freshConvId, userId, Take(message.s, 30), [], now);
        Ok((st.(convs := st.convs + [c]), |st.convs|))
  }

  /** A conversation appended after every owned one with its id is the one found. */
  lemma {:induction false} FindAppendedConversation(convs: seq<Conversation>, c: Conversation)
    requires FindOwnedConversation(convs, c.id, c.userId).None?
    ensures FindOwnedConversation(convs + [c], c.id, c.userId) == Some(|convs|)
  {
    if |convs| > 0 {
      assert (convs + [c])[1..] == convs[1..] + [c];
      FindAppendedConversation(convs[1..], c);
    }
  }

  /** A conversation opened anew is the one the next message naming its id
      goes to: with a fresh id, reopening it finds it and changes nothing. */
  lemma OpenedConversationReopens(st: ChatStore, userId: int, message: Json, next: Json, now: int, later: int,
                                  freshConvId: int)
    requires message.JStr?
    requires FindOwnedConversation(st.convs, freshConvId, userId).None?
    ensures var o := OpenConversation(st, userId, message, NewConversation, now, freshConvId);
      o.Ok? && OpenConversation(o.value.0, userId, next, Existing(freshConvId), later, freshConvId) == o
  {
    var c := Conversation(freshConvId, userId, Take(message.s, 30), [], now);
    FindAppendedConversation(st.convs, c);
  }

  /** What `send_message` sends upstream. */
  datatype ChatRequest = ChatRequest(apiKey: string, model: Json, messages: seq<ChatMessage>)

  /** The JSON answer of a successful `send_message`. */
  datatype ChatAnswer = ChatAnswer(conversationId: int, message: Json, title: string)

  /** The store after the request, the request sent upstream (if any), and the answer. */
  datatype ChatOutcome = ChatOutcome(store: ChatStore, sent: Option<ChatRequest>, reply: Reply<ChatAnswer>)

  /** Everything after the conversation is open: the rate limit, the
      upstream key, the model pick, the upstream call and, on success, the
      stored turns, the usage row and the key's `last_used_at`. */
  function Converse(st: ChatStore, ci: nat, message: Json, now: int, envKey: string,
                    providers: seq<ProviderKey>, keyIndex: nat, models: UpstreamResult,
                    chat: UpstreamResult): (r: ChatOutcome)
    requires ci < |st.convs| && keyIndex < |st.keys|
    ensures RateLimited(st.keys[keyIndex], st.logs, now) ==> r == ChatOutcome(st, None, Fail(RateLimitExceeded))
    ensures !RateLimited(st.keys[keyIndex], st.logs, now) && ChooseUpstream(envKey, providers).None? ==>
      r == ChatOutcome(st, None, Fail(NoUpstreamProvider))
    ensures r.sent.Some? ==>
      && ChooseUpstream(envKey, providers).Some?
      && r.sent.value == ChatRequest(ChooseUpstream(envKey, providers).value.apiKey, PickModel(models),
                                     st.convs[ci].messages + [ChatMessage("user", message)])
    ensures r.reply.Fail? ==> r.store == st
    ensures r.reply.Ok? ==>
      && chat.Answered? && chat.status == 200 && chat.body.JsonBody?
      && AssistantContent(chat.body.json) == Some(r.reply.value.message)
      && var c := st.convs[ci];
      var t := ExtractTokens(chat.body.json);
      var k := st.keys[keyIndex];
      && r.store.users == st.users
      && r.store.convs == st.convs[ci := c.(messages := c.messages + [ChatMessage("user", message),
                                                                   ChatMessage("assistant", r.reply.value.message)],
                                            updatedAt := now)]
      && r.store.logs == st.logs + [UsageLog(ChooseUpstream(envKey, providers).value.providerId, Some(k.id), now,
                                             t.prompt, t.completion, t.total)]
      && r.store.keys == st.keys[keyIndex := k.(lastUsedAt := Some(now))]
      && r.reply.value == ChatAnswer(c.id, r.reply.value.message, c.title)
    ensures r.sent.Some? && chat.Answered? && chat.status != 200 ==>
      r.reply == Fail(HttpError(chat.status, UpstreamFailed))
    ensures r.sent.Some? && chat.Raised? ==> r.reply == Fail(HttpError(500, chat.message))
    ensures !RateLimited(st.keys[keyIndex], st.logs, now) && ChooseUpstream(envKey, providers).Some? ==>
      && r.sent.Some?
      && (chat.Answered? && chat.status == 200 && chat.body.NotJson? ==>
            r.reply == Fail(HttpError(500, chat.body.parseError)))
      && (chat.Answered? && chat.status == 200 && chat.body.JsonBody? ==>
            && (AssistantContent(chat.body.json).None? ==> r.reply == Fail(MalformedReply))
            && (AssistantContent(chat.body.json).Some? ==> r.reply.Ok?))
  {
    var k := st.keys[keyIndex];
    if RateLimited(k, st.logs, now) then ChatOutcome(st, None, Fail(RateLimitExceeded))
    else
      match ChooseUpstream(envKey, providers)
      case None => ChatOutcome(st, None, Fail(NoUpstreamProvider))
      case Some(pick) =>
        var c := st.convs[ci];
        var msgs := c.messages + [ChatMessage("user", message)];
        var sent := Some(ChatRequest(pick.apiKey, PickModel(models), msgs));
        match chat
        case Raised(e) => ChatOutcome(st, sent, Fail(HttpError(500, e)))
        case Answered(status, body) =>
          if status != 200 then ChatOutcome(st, sent, Fail(HttpError(status, UpstreamFailed)))
          else
            match body
            case NotJson(e) => ChatOutcome(st, sent, Fail(HttpError(500, e)))
            case JsonBody(data) =>
              match AssistantContent(data)
              case None => ChatOutcome(st, sent, Fail(MalformedReply))
              case Some(text) =>
                var t := ExtractTokens(data);
                var log := UsageLog(pick.providerId, Some(k.id), now, t.prompt, t.completion, t.total);
                var st' := st.(convs := st.convs[ci := c.(messages := msgs + [ChatMessage("assistant", text)], updatedAt := now)],
                               logs := st.logs + [log],
                               keys := st.keys[keyIndex := k.(lastUsedAt := Some(now))]);
                assert msgs + [ChatMessage("assistant", text)]
                    == c.messages + [ChatMessage("user", message), ChatMessage("assistant", text)];
                ChatOutcome(st', sent, Ok(ChatAnswer(c.id, text, c.title)))
  }

  /** `send_message`. `sessionUser` is the signed-in user id, `body` the
      request JSON (`None` when it does not parse), `freshConvId` the id a
      new conversation receives; `models` and `chat` are the answers of the
      two upstream calls. */
  function SendMessage(st: ChatStore, sessionUser: Option<int>, body: Option<Json>, now: int,
                       freshConvId: int, envKey: string, providers: seq<ProviderKey>,
                       models: UpstreamResult, chat: UpstreamResult): (r: ChatOutcome)
    ensures sessionUser.None? ==> r == ChatOutcome(st, None, Fail(Unauthorized))
    ensures sessionUser.Some? && FindUser(st.users, sessionUser.value).None? ==>
      r == ChatOutcome(st, None, Fail(UserNotFound))
    ensures r.reply.Fail? && r.reply != Fail(RateLimitExceeded) && r.reply.err.status != 500 && r.sent.None? ==> r.store == st
    ensures sessionUser.Some? && FindUser(st.users, sessionUser.value).Some? && body.Some? && body.value.JObj? ==>
      var message := Field(body.value.fields, "message");
      var ref := ConvRefOf(Field(body.value.fields, "conversation_id"));
      var uid := sessionUser.value;
      && (!Truthy(message) ==> r == ChatOutcome(st, None, Fail(MessageRequired)))
      && (Truthy(message) && ref.Unmatched? ==> r == ChatOutcome(st, None, Fail(ConversationNotFound)))
      && (Truthy(message) && ref.Existing? && FindOwnedConversation(st.convs, ref.id, uid).None? ==>
            r == ChatOutcome(st, None, Fail(ConversationNotFound)))
      && (Truthy(message) && OpenConversation(st, uid, message, ref, now, freshConvId).Ok? ==>
            var oc := OpenConversation(st, uid, message, ref, now, freshConvId).value;
            var kid := st.users[FindUser(st.users, uid).value].userKeyId;
            && (FindKeyById(oc.0.keys, kid).None? ==> r == ChatOutcome(oc.0, None, Fail(InternalError)))
            && (FindKeyById(oc.0.keys, kid).Some? ==>
                  r == Converse(oc.0, oc.1, message, now, envKey, providers, FindKeyById(oc.0.keys, kid).value,
                                models, chat)))
    ensures sessionUser.Some? && FindUser(st.users, sessionUser.value).Some? && body.None? ==>
      r == ChatOutcome(st, None, Fail(BadRequest))
    ensures sessionUser.Some? && FindUser(st.users, sessionUser.value).Some? && body.Some? && !body.value.JObj? ==>
      r == ChatOutcome(st, None, Fail(InternalError))
    ensures r.store.users == st.users
    ensures |r.store.convs| == |st.convs| || |r.store.convs| == |st.convs| + 1
    ensures r.reply.Ok? ==> r.sent.Some? && |r.store.logs| == |st.logs| + 1 && r.store.logs[|st.logs|].userKeyId.Some?
  {
    match sessionUser
    case None => ChatOutcome(st, None, Fail(Unauthorized))
    case Some(uid) =>
      match FindUser(st.users, uid)
      case None => ChatOutcome(st, None, Fail(UserNotFound))
      case Some(ui) =>
        match body
        case None => ChatOutcome(st, None, Fail(BadRequest))
        case Some(data) =>
          if !data.JObj? then ChatOutcome(st, None, Fail(InternalError))
          else
            var message := Field(data.fields, "message");
            var ref := ConvRefOf(Field(data.fields, "conversation_id"));
            if !Truthy(message) then ChatOutcome(st, None, Fail(MessageRequired))
            else
              match OpenConversation(st, uid, message, ref, now, freshConvId)
              case Fail(e) => ChatOutcome(st, None, Fail(e))
              case Ok((st1, ci)) =>
                match FindKeyById(st1.keys, st.users[ui].userKeyId)
                case None => ChatOutcome(st1, None, Fail(InternalError))
                case Some(ki) => Converse(st1, ci, message, now, envKey, providers, ki, models, chat)
  }

  /** The turns of a conversation only ever grow, two at a time: the user's
      message, then the assistant's reply. */
  lemma SendAppendsTurnPair(st: ChatStore, sessionUser: Option<int>, body: Option<Json>, now: int,
                            freshConvId: int, envKey: string, providers: seq<ProviderKey>,
                            models: UpstreamResult, chat: UpstreamResult, i: nat)
    requires i < |st.convs|
    ensures var r := SendMessage(st, sessionUser, body, now, freshConvId, envKey, providers, models, chat);
      var before := st.convs[i].messages;
      var after := r.store.convs[i].messages;
      after == before
      || (r.reply.Ok? && |after| == |before| + 2 && after[..|before|] == before
          && after[|before|] == ChatMessage("user", Field(body.value.fields, "message"))
          && after[|before| + 1] == ChatMessage("assistant", r.reply.value.message))
  {
    var r := SendMessage(st, sessionUser, body, now, freshConvId, envKey, providers, models, chat);
    if sessionUser.Some? && FindUser(st.users, sessionUser.value).Some? && body.Some? && body.value.JObj? {
      var message := Field(body.value.fields, "message");
      var ref := ConvRefOf(Field(body.value.fields, "conversation_id"));
      if Truthy(message) {
        var o := OpenConversation(st, sessionUser.value, message, ref, now, freshConvId);
        if o.Ok? {
          var st1 := o.value.0;
          assert st1.convs[i] == st.convs[i];
          var before := st.convs[i].messages;
          var after := r.store.convs[i].messages;
          if r.reply.Ok? && o.value.1 == i {
            assert after == before + [ChatMessage("user", message), ChatMessage("assistant", r.reply.value.message)];
          }
        }
      }
    }
  }

  /** A request over the limit is refused with 429 before anything is sent.
      An existing conversation leaves the store as it was; a new one has
      already been committed, so it stays behind, empty. */
  lemma RateLimitedSendsNothing(st: ChatStore, uid: int, fields: map<string, Json>, now: int,
                                freshConvId: int, envKey: string, providers: seq<ProviderKey>,
                                models: UpstreamResult, chat: UpstreamResult)
    requires FindUser(st.users, uid).Some?
    requires var u := st.users[FindUser(st.users, uid).value];
      FindKeyById(st.keys, u.userKeyId).Some? && RateLimited(st.keys[FindKeyById(st.keys, u.userKeyId).value], st.logs, now)
    requires var message := Field(fields, "message");
      var ref := ConvRefOf(Field(fields, "conversation_id"));
      && Truthy(message)
      && ((ref.Existing? && FindOwnedConversation(st.convs, ref.id, uid).Some?) || (ref.NewConversation? && message.JStr?))
    ensures var r := SendMessage(st, Some(uid), Some(JObj(fields)), now, freshConvId, envKey, providers, models, chat);
      var message := Field(fields, "message");
      var ref := ConvRefOf(Field(fields, "conversation_id"));
      && r.sent.None? && r.reply == Fail(RateLimitExceeded)
      && (ref.Existing? ==> r.store == st)
      && (ref.NewConversation? ==>
            r.store == st.(convs := st.convs + [Conversation(freshConvId, uid, Take(message.s, 30), [], now)]))
  {
  }

  /** A request that passes every check and gets a well-formed completion
      succeeds, answering with the completion's text, in an existing
      conversation of the user as in a new one. */
  lemma SendSucceeds(st: ChatStore, uid: int, fields: map<string, Json>, now: int,
                     freshConvId: int, envKey: string, providers: seq<ProviderKey>,
                     models: UpstreamResult, data: Json)
    requires FindUser(st.users, uid).Some?
    requires var u := st.users[FindUser(st.users, uid).value];
      FindKeyById(st.keys, u.userKeyId).Some? && !RateLimited(st.keys[FindKeyById(st.keys, u.userKeyId).value], st.logs, now)
    requires ChooseUpstream(envKey, providers).Some?
    requires AssistantContent(data).Some?
    requires var message := Field(fields, "message");
      var ref := ConvRefOf(Field(fields, "conversation_id"));
      && Truthy(message)
      && ((ref.Existing? && FindOwnedConversation(st.convs, ref.id, uid).Some?) || (ref.NewConversation? && message.JStr?))
    ensures var r := SendMessage(st, Some(uid), Some(JObj(fields)), now, freshConvId, envKey, providers, models,
                                 Answered(200, JsonBody(data)));
      && r.sent.Some? && r.reply.Ok? && r.reply.value.message == AssistantContent(data).value
      && |r.store.logs| == |st.logs| + 1
  {
  }
}
