# AI gateway: a Dafny model of its decision logic

The system is a Flask gateway that hands out API keys for an upstream chat
completion service. It also serves a few browser front-ends. This project
models the decisions the gateway makes, as pure Dafny functions over plain
values, and proves properties of them:

- the CORS headers of the public proxy and the parsing of its bearer token;
- the choice of upstream key: the `UPSTREAM_API_KEY` environment key, else
  the first enabled provider;
- the search endpoint's validation order and parameter clamping;
- the sign-in domain gate, the per-key rate limit, the model pick and the
  conversation update of the chat endpoint;
- the admin endpoints: key creation defaults, partial updates of keys and of
  the CORS row, the seven-day usage graph, and the playground's checks;
- `mask_key`, `extract_tokens` and `eligible_keys`;
- the admin page's CORS origin editor and its key form;
- the collaboration room page's stream state machine;
- the backup restore script's table classification and bookkeeping.

Database queries, HTTP calls, the clock and random key generation are taken
as parameters. Rows are sequences of records, and a query result (a count, a
first row, a list of fetched rows) is computed from them or passed in.

One module per source area:

| file | module | models |
|---|---|---|
| common.dfy | `Common` | `Option`, HTTP error answers, `Reply` |
| text.dfy | `Text` | Python `strip`, `in`, `split`/`join`, `int()`; JavaScript `trim`, `parseInt` |
| json.dfy | `Json` | JSON values, Python truthiness, `or`, `dict.get`, `int()` |
| records.dfy | `Records` | the tables of app/models.py and the columns the routes add |
| utils.dfy | `Utils` | app/utils.py |
| upstream.dfy | `Upstream` | the upstream key choice shared by three routes |
| proxy.dfy | `Proxy` | app/routes_proxy.py |
| search.dfy | `Search` | app/routes_search.py |
| chat.dfy | `Chat` | app/routes_chat.py |
| admin.dfy | `Admin` | app/routes_admin.py |
| origin_editor.dfy | `OriginEditor` | `CorsSettings` and `UserKeys.saveKey` of static/admin/app.js |
| collab.dfy | `Collab` | static/collab/app.js |
| restore.dfy | `Restore` | restore_from_backup.py |

Modelling conventions:

- Whitespace means the six ASCII whitespace characters (space, tab, line
  feed, carriage return, vertical tab, form feed), for both Python
  `strip()` and JavaScript `trim()`.
- An exception a route does not catch becomes Flask's 500 answer,
  `Common.InternalError`.
- A request body sent as JSON that does not parse, where the route calls
  `get_json()`, becomes Flask's 400 answer, `Common.BadRequest`. A body
  sent without a JSON content type, which Werkzeug 2.3 and later answer
  with 415, is not modelled.
- Timestamps are integer seconds and days are integer day numbers.

## Model

| member | source | states |
|---|---|---|
| Utils.MaskKey | app/utils.py:6-9 | a key shorter than 8 characters (the empty one included) masks to `****`; a longer one keeps its first and last four characters around `****`, 12 characters in all |
| Utils.MaskHidesMiddle | app/utils.py:9 | two long keys that agree on their outer four characters on each side have the same mask |
| Utils.MaskLength | app/utils.py:6-9 | a mask is 4 characters long for a short key and 12 for a long one |
| Utils.ExtractTokens | app/utils.py:34-44 | a reply that is not an object, or whose `usage` is absent, falsy or not an object, gives (0,0,0); so does any count that is not an integer, where `int()` would raise |
| Utils.ExtractTokensTotal | app/utils.py:39-42 | with integer prompt and completion counts, a missing or zero total becomes their sum and any other total is kept |
| Utils.Admissible | app/utils.py:21-30 | a provider is kept exactly when it is enabled and not over a nonzero per-minute or daily limit |
| Utils.InsertByLoad | app/utils.py:31 | inserting into a list sorted by (minute count, tokens today) keeps it sorted, and the result is a permutation of the input plus the inserted element |
| Utils.SortByLoad | app/utils.py:31 | the sort yields a permutation of its input, ordered by (minute count, tokens today), and stable: providers with equal loads keep their query order |
| Utils.InsertWithKey | app/utils.py:31 | inserting a provider places it after every entry with the same load and leaves the order of the others with that load unchanged |
| Utils.EligibleLoads | app/utils.py:17-31 | the eligible providers are sorted by load, are a permutation of the admissible ones, and a provider is among them iff it is enabled and under its limits |
| Utils.EligibleKeys | app/utils.py:17-32 | `eligible_keys` returns the keys of the sorted eligible providers, in the same order, every one enabled |
| Utils.EligibleIff | app/utils.py:25-29 | an enabled provider is dropped exactly when it has reached a nonzero per-minute or daily limit |
| Utils.DefaultProviderNeverOverLimit | app/models.py:10-11 | a provider with the default limits of 0 is never over a limit, whatever its usage |
| Records.FindKeyById | app/routes_admin.py:94 | the lookup finds a key with the requested id, and finds none exactly when no key has that id |
| Upstream.FirstEnabled | app/routes_proxy.py:60 | the first enabled provider is found, and none is found exactly when every provider is disabled |
| Upstream.ChooseUpstream | app/routes_proxy.py:55-64 | a non-empty environment key wins with provider id 1; otherwise the first enabled provider's key and id are used; with neither there is no pick |
| Upstream.PickIgnoresLaterProviders | app/routes_chat.py:176-185 | once there is an environment key or an enabled provider, providers added after it never change the pick |
| Upstream.FirstEnabledUnique | app/routes_admin.py:266 | the first enabled provider is unique |
| Proxy.SetCorsHeaders | app/routes_proxy.py:20-29 | writes the origin header (`*`, the echoed origin, or nothing), the credentials header only when echoing with credentials allowed, and always methods, headers and max-age; no other header changes |
| Proxy.ApplyCors | app/routes_proxy.py:12-31 | without a settings row the headers are unchanged; a stripped setting of `*` gives origin `*` and leaves credentials untouched; otherwise the origin is echoed iff it is non-empty and a substring of the stripped setting; methods, headers and max-age are always copied |
| Proxy.MaxAgeRoundTrip | app/routes_proxy.py:29 | the max-age header reads back as the stored number |
| Proxy.DefaultCorsAllowsAll | app/models.py:39-43 | with the default settings row every origin gets `*`, no credentials header, the default methods and a max-age of 3600 |
| Proxy.ListedOrigins | app/routes_proxy.py:18-22 | the listed origins are the comma-separated pieces of the setting, each stripped |
| Proxy.ApplyCorsListed | app/routes_proxy.py:22-25 | the corrected decision: the origin is echoed iff it is one of the listed origins; everything else as in `ApplyCors` |
| Proxy.ListedImpliesEchoed | app/routes_proxy.py:22 | a listed origin is also a substring of the setting, so both decisions agree on it |
| Proxy.SubstringEchoesUnlistedOrigin | app/routes_proxy.py:22 | with the setting `https://app.example.com`, the origin `https://app.example.co` is echoed with credentials although it is not listed |
| Proxy.BearerToken | app/routes_proxy.py:40-44 | a token is read iff the header starts with `Bearer `, and the header is that prefix followed by the token |
| Proxy.BearerRoundTrip | app/routes_proxy.py:40-44 | `Bearer ` followed by any token reads back that token |
| Proxy.FindActiveKey | app/routes_proxy.py:46 | the key found matches the token and is enabled; none is found exactly when no enabled key matches |
| Proxy.AdmitProxyRequest | app/routes_proxy.py:38-64 | no bearer prefix gives 401 `missing_token`; an unknown or disabled token gives 401; an enabled matching key is never refused with 401: the first such key has its last use stamped, then a body that is not JSON gives 400, no upstream key gives 500 `no_provider_configured`, and otherwise the request is admitted under that key |
| Proxy.FirstActiveKey | app/routes_proxy.py:46 | an enabled key equal to the token is always found, at or before its own position |
| Proxy.AdmitsEnabledKey | app/routes_proxy.py:38-64 | any enabled key sent as `Bearer <key>` with a JSON body, while an upstream key exists, is admitted under a key equal to it, and only that key is stamped |
| Proxy.ProxyForward | app/routes_proxy.py:66-92 | a failed upstream call gives 502; a non-JSON answer is logged with zero tokens; a JSON answer is logged with its extracted tokens; the upstream status is passed through |
| Proxy.ForwardWithoutUsage | app/routes_proxy.py:79-90 | a JSON answer without a usage block is logged exactly like a non-JSON one |
| Search.ParseSearchType | app/routes_search.py:26-34 | a type name is accepted exactly when it is one of the four endpoint names, and parses to the type of that name |
| Search.ParseTypeName | app/routes_search.py:26-31 | every type parses back from its own name |
| Search.EndpointPath | app/routes_search.py:26-31 | every endpoint is `/res/v1/<type>/search` |
| Search.EndpointsDistinct | app/routes_search.py:26-31 | distinct types go to distinct endpoints |
| Search.ClampedArg | app/routes_search.py:39-40 | an absent argument gives the default; a present one fails exactly when it is not an integer; the result never exceeds the cap and is the requested value unless that is above the cap |
| Search.ClampDecimal | app/routes_search.py:39-55 | a requested number at or under the cap is sent as is, one over it as the cap |
| Search.WithGiven | app/routes_search.py:41-44 | an optional parameter is copied exactly when the argument is present and non-empty |
| Search.SearchParams | app/routes_search.py:36-57 | `q` is the stripped query; `count` is min(requested, 20/200/50/50) with defaults 20/50/20/20; `offset` (all but images) is min(requested, 9) with default 0; `country` only for web; `freshness` only when given and never for images; `safesearch` only for images, default `strict`; a non-integer count or offset fails |
| Search.RequestedCountSent | app/routes_search.py:39-51 | for every type, a requested count `n` is sent as min(n, the type's cap) |
| Search.DefaultParams | app/routes_search.py:38-55 | with only the query given, each type sends exactly its default parameters |
| Search.PlanSearch | app/routes_search.py:13-59 | the checks run in order: no session 401, no API key 500, blank query 400, unknown type 400, a non-integer count or offset 500; otherwise the request goes to the type's endpoint with the stripped API key as bearer |
| Search.PlanSearchSendsIff | app/routes_search.py:13-66 | a request is sent exactly when every check passes; it then goes to `/res/v1/<type>/search`, carries `Bearer <key>` and asks for the stripped query |
| Search.SearchAnswer | app/routes_search.py:61-72 | the upstream JSON is returned exactly on a 200 JSON answer; another status is passed through with `Search API error: <status>`; an exception gives 500 with its text |
| Search.SearchErrorNamesStatus | app/routes_search.py:68-69 | the error text ends with the upstream status as a decimal number, and the answer carries that status |
| Chat.FindUser | app/routes_chat.py:142-144 | the user found has the session's id; none is found exactly when no user has it |
| Chat.FindUserByEmail | app/routes_chat.py:50 | the user found has the email and is the first with it; none is found exactly when no user has it |
| Chat.FirstLoginKey | app/routes_chat.py:52-59 | a first-time user's key is enabled with a rate limit of 60 per minute |
| Chat.AuthCallback | app/routes_chat.py:38-80 | an email outside `@deakteri.hu`, or none, is denied with the store unchanged; a known user gets name and picture updated; a new user is created with a fresh key limited to 60 per minute |
| Chat.AuthKeepsUsersLinked | app/routes_chat.py:50-75 | signing in keeps every user linked to an existing key |
| Chat.OtherDomainsDenied | app/routes_chat.py:46-48 | an address not ending in `@deakteri.hu` is always denied and changes nothing |
| Chat.PeriodSeconds | app/routes_chat.py:170 | second, minute, hour and day last 1, 60, 3600 and 86400 seconds; any other period lasts 60 |
| Chat.CountInWindow | app/routes_chat.py:171-172 | the count never exceeds the number of log rows, and is 0 when no row of the key falls in the window |
| Chat.CountIsRowSet | app/routes_chat.py:172 | the count is the number of rows logged for the key at or after the window start |
| Chat.CountMonotone | app/routes_chat.py:172 | logging more rows never lowers the count |
| Chat.RateLimitMonotone | app/routes_chat.py:169-174 | a key that is rate limited stays rate limited as more calls are logged |
| Chat.ProxyCallsNotCounted | app/routes_chat.py:172 | a call logged without a user key does not count against any key |
| Chat.LimitOffNeverLimits | app/routes_chat.py:169 | a key whose limit is disabled or not positive is never limited |
| Chat.ListedModel | app/routes_chat.py:192-199 | the model is read from the first entry of `data`, else of `models`: a dict gives its `id` or else its `name`, a string gives itself |
| Chat.PickModel | app/routes_chat.py:188-201 | a failed call, a non-200 status or a non-JSON listing keeps `gpt-3.5-turbo` |
| Chat.PickFirstListed | app/routes_chat.py:193-197 | the usual listing `{"data": [{"id": ...}, ...]}` yields the first id |
| Chat.PickedModelIsListedOrDefault | app/routes_chat.py:188-201 | the model is always `gpt-3.5-turbo` or the one a 200 JSON listing names, and a listing that names one is always used |
| Chat.PickEmptyListing | app/routes_chat.py:188-194 | an empty listing keeps `gpt-3.5-turbo` |
| Chat.AssistantContent | app/routes_chat.py:221 | a content is found exactly when `choices` is a non-empty list whose first entry holds a `message` dict with `content`, and it is that value; every other shape fails where Python would raise |
| Chat.AssistantContentOfReply | app/routes_chat.py:221 | a standard completion reply yields its first choice's text |
| Chat.ConvRefOf | app/routes_chat.py:148-153 | a falsy `conversation_id` starts a new conversation; an integer, or text SQLite converts to one, names that conversation; anything else matches none |
| Chat.FindOwnedConversation | app/routes_chat.py:154 | the conversation found has the id and belongs to the user; none is found exactly when the user has no such conversation |
| Chat.OpenConversation | app/routes_chat.py:153-160 | a conversation the user does not own gives 404 and an owned one is used unchanged; a new one is titled with the first 30 characters of the message and starts empty |
| Chat.OpenedConversationReopens | app/routes_chat.py:153-160 | a conversation opened anew is found again, unchanged, by the next message that names its id |
| Chat.Converse | app/routes_chat.py:162-248 | a limited key gives 429 and sends nothing; no upstream key gives 500; otherwise the request is sent; an upstream error status is passed through, an exception or a non-JSON answer gives 500, a reply without content gives 500, and a 200 reply with content succeeds; on success the user turn and the reply are appended and a usage row is logged under the key |
| Chat.SendMessage | app/routes_chat.py:136-248 | no session 401, unknown user 404, body not JSON 400, missing or empty message 400, a conversation the user does not own 404; once the conversation is open, a user without a key gives 500 and everything else is the exchange of `Chat.Converse` |
| Chat.SendAppendsTurnPair | app/routes_chat.py:162-224 | on success the stored turns are the old ones, then the user message, then the assistant reply |
| Chat.RateLimitedSendsNothing | app/routes_chat.py:153-174 | a request over the limit gets 429 before anything is sent upstream or logged; an existing conversation leaves the store unchanged, and a new one stays behind empty, since it is committed before the check |
| Chat.SendSucceeds | app/routes_chat.py:136-248 | a request passing every check, with a well-formed completion, succeeds with the completion's text and logs one usage row, for an owned conversation as for a new one |
| Admin.TextField | app/routes_admin.py:75-82 | a text column takes the body's string, or its default when absent; a non-string value fails |
| Admin.BoolField | app/routes_admin.py:76-80 | a flag takes the truthiness of the body's value, or its default when absent |
| Admin.IntField | app/routes_admin.py:102-115 | a number takes `int(value or 0)`, keeps its value when absent, and fails on a value that is not an integer |
| Admin.UpdatedKey | app/routes_admin.py:96-115 | exactly the fields present in the body are written, coerced as the route does; every other column, and the id, key and last use, are unchanged |
| Admin.UpdateEmptyKeepsKey | app/routes_admin.py:95-115 | an empty body changes nothing |
| Admin.UpdateIdempotent | app/routes_admin.py:96-115 | applying the same update twice equals applying it once |
| Admin.UpdateUserKey | app/routes_admin.py:90-117 | no admin flag 401, unknown id 404, a bad field 500; otherwise only the key with that id changes |
| Admin.UpdateKeepsUnique | app/models.py:17 | an update keeps ids and key strings unique |
| Admin.GeneratedKey | app/routes_admin.py:12-13 | a generated key starts with `sk_` |
| Admin.NewKeyFromBody | app/routes_admin.py:71-85 | enabled defaults to true, both limits to off, periods to `minute` and `day`, and numbers take `int(value or 0)` |
| Admin.CreateIsUpdateOfDefaults | app/routes_admin.py:73-85 | creating from a body equals updating a default row with that body |
| Admin.CreateDefaults | app/routes_admin.py:73-85 | an empty body creates a key with every column at its default |
| Admin.CreateUserKey | app/routes_admin.py:67-88 | no admin flag 401; otherwise the new row is appended and its id and key are returned |
| Admin.CreateKeepsUnique | app/models.py:17 | a fresh id and a fresh key string keep ids and keys unique |
| Admin.RequestsOnIsRowSet | app/routes_admin.py:144-150 | a day's request count is the number of fetched rows of that day |
| Admin.BuildGraph | app/routes_admin.py:138-155 | the graph has 7 entries for the consecutive days ending today; each counts the fetched rows of its day and sums their tokens, so a day without logs has 0 and 0 |
| Admin.GraphCountsEveryRow | app/routes_admin.py:144-155 | every fetched row inside the window is counted on exactly one day |
| Admin.KeyRequestsIsRowSet | app/routes_admin.py:135 | the total request count is the number of usage rows of the key |
| Admin.GetUserKeyStats | app/routes_admin.py:128-164 | no admin flag 401, unknown key 404; otherwise the key's totals, the 7-day graph, and `recent` as the first 20 fetched rows |
| Admin.Prefix | app/routes_admin.py:157 | `rows[:n]` is the first `n` rows, or all when there are fewer |
| Admin.GetCors | app/routes_admin.py:186-205 | no admin flag 401; a missing row is created with its defaults and returned |
| Admin.GetCorsStable | app/routes_admin.py:186-233 | a second read returns the same settings, and an update with an empty body stores back exactly the row that was read |
| Admin.StrippedField | app/routes_admin.py:219-224 | a present string field is stripped, an absent one keeps the current value, a non-string one fails |
| Admin.UpdateCors | app/routes_admin.py:207-231 | no admin flag 401; the present fields are written (text stripped, credentials coerced to bool, max age by `int()`), absent ones keep their value, and a missing row starts from the defaults |
| Admin.StoredOriginsStripped | app/routes_admin.py:219-220 | the stored origins are already stripped after an update that sets them |
| Admin.MaxAgeFromText | app/routes_admin.py:227-228 | a max age sent as its decimal text is stored as that number |
| Admin.MaxAgeOnly | app/routes_admin.py:227-228 | a body holding only an integer max age changes only the max age |
| Admin.KeyOfId | app/routes_admin.py:250-252 | a `key_id` that is an integer, or text SQLite converts to one, names the key with that id; any other value names none |
| Admin.PageKeyIdNamesKey | app/routes_admin.py:250-252 | the decimal text of a key's id, as the admin page sends it, names that key |
| Admin.PlaygroundChat | app/routes_admin.py:233-307 | no admin flag 401; missing key id, model or messages give 400 in that order; an unknown key 404; no upstream key 500; an upstream error status is passed through, an exception or a non-JSON answer gives 502; a 200 JSON answer is returned unchanged and logged under the key |
| Admin.PlaygroundSucceeds | app/routes_admin.py:233-307 | a valid call with an upstream key and a 200 JSON answer succeeds with that answer and logs one row under the key |
| Admin.PlaygroundLogsUnderKey | app/routes_admin.py:288-300 | a successful playground call is logged under the user key, with its provider and tokens |
| Admin.NonAdminRefusedEverywhere | app/routes_admin.py:67-236 | without the admin flag, creating, updating, reading or writing CORS settings, and the playground all give 401 and change nothing |
| OriginEditor.TrimNonEmpty | static/admin/app.js:532 | every entry left is trimmed and non-empty, and there are no more entries than pieces |
| OriginEditor.TrimNonEmptyKeeps | static/admin/app.js:532 | a list already trimmed and without empties passes through unchanged |
| OriginEditor.LoadOrigins | static/admin/app.js:531-532 | the loaded origins are trimmed and non-empty |
| OriginEditor.LoadEmptyIsWildcard | static/admin/app.js:531 | an empty stored value loads as `['*']` |
| OriginEditor.LoadSettings | static/admin/app.js:528-542 | a failed load leaves the form alone; a loaded one shows the origins, and the methods, headers and max age fall back to their defaults when falsy |
| OriginEditor.AddOrigin | static/admin/app.js:575-600 | a blank or duplicate input leaves the list; `*` replaces a non-empty list; a specific origin is refused while `*` is listed; otherwise the trimmed origin is appended |
| OriginEditor.AddKeepsWellFormed | static/admin/app.js:575-600 | adding keeps the list free of empties and duplicates, with `*` alone when present |
| OriginEditor.AddedIsListed | static/admin/app.js:587-595 | after adding, the origin is listed or the list is the wildcard alone |
| OriginEditor.SpliceStart | static/admin/app.js:603 | `splice` counts a negative index from the end, clamped to the list |
| OriginEditor.RemoveOrigin | static/admin/app.js:602-606 | exactly the element at the index is removed, the others kept in order |
| OriginEditor.RemoveKeepsWellFormed | static/admin/app.js:602-606 | removing keeps the list well formed |
| OriginEditor.IndexOfItem | static/admin/app.js:1036 | `indexOf` finds the first position of the value, and none exactly when it is absent |
| OriginEditor.QuickToggle | static/admin/app.js:1031-1042 | ticking a checkbox adds its origin; unticking one that is not listed changes nothing |
| OriginEditor.UntickRemovesOnlyIt | static/admin/app.js:1036-1039 | unticking removes exactly that origin from a well-formed list |
| OriginEditor.ApplyPreset | static/admin/app.js:649-683 | development is `*` without credentials, production an empty list with credentials, localhost the three local origins with credentials; an unknown preset changes nothing |
| OriginEditor.PresetsWellFormed | static/admin/app.js:649-680 | every preset leaves a well-formed origin list |
| OriginEditor.ParseIntOr | static/admin/app.js:698 | `parseInt(text) \|\| fallback` takes the parsed number unless it is `NaN` or 0, and the fallback otherwise |
| OriginEditor.SaveSettings | static/admin/app.js:685-708 | an empty list is refused; credentials with origins of exactly `*` are refused; otherwise the joined origins and trimmed inputs are sent |
| OriginEditor.WildcardJoinIffAlone | static/admin/app.js:701 | on a well-formed list, the joined text is `*` exactly when the list is the wildcard alone |
| OriginEditor.PresetSaves | static/admin/app.js:688-691 | the production preset cannot be saved until an origin is added, and the development preset saves |
| OriginEditor.SaveLoadRoundTrip | static/admin/app.js:694 | a well-formed list of comma-free origins is stored by the server and loads back as the same list, with the same credentials and max age |
| OriginEditor.JoinStripped | static/admin/app.js:694 | joining trimmed non-empty origins gives non-empty text with no outer whitespace |
| OriginEditor.LimitValue | static/admin/app.js:437-443 | a disabled limit sends 0; an enabled one sends the parsed number |
| OriginEditor.PeriodValue | static/admin/app.js:438-442 | a disabled limit sends the default period; otherwise the selected period or the default |
| OriginEditor.SaveKey | static/admin/app.js:426-465 | a blank name is refused, then an enabled limit below 1; with an edit id the body goes by PUT to `/admin/user-keys/<id>`, otherwise by POST to `/admin/user-keys` |
| OriginEditor.KeyBodyCarriesForm | static/admin/app.js:433-444 | the body holds every form value under its field name |
| OriginEditor.IntsReadBack | app/routes_admin.py:78-84 | an integer sent in the body is read back unchanged by `int(value or 0)` |
| OriginEditor.SaveKeyCreates | static/admin/app.js:461-465 | a new key saved from the form is created with exactly the form's values |
| OriginEditor.CreateFromCarried | app/routes_admin.py:73-85 | a body carrying the form creates the key holding the form's values |
| OriginEditor.SaveKeyUpdates | static/admin/app.js:461-465 | an edited key gets every column from the form, keeping its id, key and last use |
| OriginEditor.UpdateFromCarried | app/routes_admin.py:96-115 | a body carrying the form updates every column to the form's value |
| OriginEditor.SavedLimitsPositive | static/admin/app.js:451-459 | a saved form sends at least 1 for each enabled limit |
| Collab.Initial | static/collab/app.js:1-5 | the page starts with no room, no stream, no streaming node, nothing seen and nothing shown |
| Collab.DropStreaming | static/collab/app.js:327-331 | the streaming node and its buffer are discarded when present, and nothing else changes |
| Collab.Receive | static/collab/app.js:332-334 | an already seen id changes nothing; a new id is added to the seen set and its message appended once |
| Collab.StartStreaming | static/collab/app.js:376-387 | `ai_start` opens a streaming node with an empty buffer |
| Collab.UpdateStreaming | static/collab/app.js:389-391 | a delta is added to the buffer only while a streaming node exists |
| Collab.CloseStream | static/collab/app.js:317-322 | closing leaves no stream open and changes nothing else |
| Collab.CloseStreamIdempotent | static/collab/app.js:317-322 | closing twice is closing once, and closing a closed stream changes nothing |
| Collab.HandlePayload | static/collab/app.js:324-374 | null, `ping`, `ready` and unknown payloads change nothing; `room_deleted` closes the stream, drops the room and empties the page; `chat_cleared` empties the seen set and shows one notice; `error` drops the streaming node and appends one notice |
| Collab.MessageWithoutObjectIgnored | static/collab/app.js:326 | a `message` payload without a message object changes nothing |
| Collab.AssistantEndsStreaming | static/collab/app.js:327-332 | an assistant message ends the streaming node and clears its buffer, even when its id was seen and nothing is appended |
| Collab.StreamingCollects | static/collab/app.js:341-343 | while nothing starts or ends the node, every delta is added to the buffer in order |
| Collab.BufferIsDeltasSinceStart | static/collab/app.js:337-343 | after `ai_start` the buffer is exactly the concatenation of the deltas received since |
| Collab.IdleIgnoresDeltas | static/collab/app.js:389-390 | without a streaming node, deltas change nothing |
| Collab.PostedIdsAppend | static/collab/app.js:464-505 | the message ids shown after appending are those before, followed by the appended ones |
| Collab.InitialConsistent | static/collab/app.js:1-5 | the initial page is consistent: every shown id is seen, none is shown twice, a stream is open only with a room |
| Collab.AppendNoticeConsistent | static/collab/app.js:453-462 | appending a notice keeps the page consistent |
| Collab.ReceiveConsistent | static/collab/app.js:332-334 | receiving a message keeps the page consistent |
| Collab.PayloadKeepsConsistent | static/collab/app.js:324-374 | every payload keeps the page consistent |
| Collab.RunKeepsConsistent | static/collab/app.js:300-308 | any sequence of payloads keeps the page consistent |
| Collab.Ids | static/collab/app.js:271-273 | the ids of a history, in order |
| Collab.ShowAll | static/collab/app.js:271-274 | rendering a history shows every message in order |
| Collab.PostedIdsShowAll | static/collab/app.js:271-274 | the ids shown after rendering a history are its ids in order |
| Collab.SelectRoom | static/collab/app.js:224-242 | an empty code or a failed load changes nothing; otherwise the room is set, the stream opened, the node and buffer reset, and exactly the history's ids marked seen |
| Collab.SelectRoomConsistent | static/collab/app.js:230-236 | selecting a room whose history has distinct ids gives a consistent page |
| Collab.SendClick | static/collab/app.js:406-419 | a message is posted exactly when a room is shown and the trimmed text is not empty, and it goes to the room shown at the click |
| Collab.SendAnswer | static/collab/app.js:420-431 | the answer acts on the page as it is when it arrives: the echo is appended only if unseen, 429 and network errors append a notice, and the room and stream are untouched |
| Collab.SendMessage | static/collab/app.js:406-432 | the click followed at once by its answer: no room or blank text changes nothing; otherwise the answer's effect on the same page |
| Collab.SendAnswerConsistent | static/collab/app.js:420-431 | an answer keeps any consistent page consistent, whatever happened since the click |
| Collab.EchoLandsInShownRoom | static/collab/app.js:415-425 | an echo whose answer arrives after the user switched rooms is appended to the room shown then |
| Collab.SendAfterEchoShowsOnce | static/collab/app.js:422 | a message whose stream echo arrived first is not shown again when the answer comes |
| Collab.SendKeepsConsistent | static/collab/app.js:406-432 | sending keeps the page consistent |
| Collab.LeaveClick | static/collab/app.js:434-437 | a leave is posted exactly when a room is shown, for that room |
| Collab.LeaveAnswer | static/collab/app.js:438-450 | a successful answer closes whatever stream is open then and drops the room, the node and the buffer and shows the empty state; the seen set is kept; a network error appends a notice |
| Collab.LeaveRoom | static/collab/app.js:434-451 | the click followed at once by its answer: without a room nothing changes |
| Collab.ClearClick | static/collab/app.js:577-582 | a clear is posted exactly when a room is shown and the dialog is confirmed, for that room |
| Collab.ClearAnswer | static/collab/app.js:583-591 | a successful answer empties the page shown then, leaving an empty seen set and one notice; a network error appends a notice |
| Collab.ClearChat | static/collab/app.js:577-592 | the click followed at once by its answer: without a room or confirmation nothing changes |
| Collab.ClearEmptiesShownRoom | static/collab/app.js:582-587 | a clear clicked in one room whose answer arrives after the user switched rooms empties the room shown then and forgets its ids |
| Collab.ClearedMessageShownAgain | static/collab/app.js:586-587 | after a clear, a message that had been shown is shown again when it arrives |
| Collab.ActionsKeepConsistent | static/collab/app.js:434-592 | leave and clear answers on any consistent page, the composed actions, and closing the stream keep the page consistent |
| Restore.Project | restore_from_backup.py:137-142 | a projected row holds exactly the row's values for the copied columns |
| Restore.Inserted | restore_from_backup.py:145-157 | no more rows are inserted than the backup has, each over the copied columns only |
| Restore.InsertedAll | restore_from_backup.py:145-152 | without constraint violations every backup row is inserted, in order, projected |
| Restore.InsertedFromBackup | restore_from_backup.py:146-157 | every inserted row is the projection of a backup row that no constraint rejected |
| Restore.CommonColumns | restore_from_backup.py:104 | the copied columns are exactly those in both schemas |
| Restore.Classify | restore_from_backup.py:85-172 | a table is skipped when in the skip list, absent from main, without common columns or without rows, checked in that order; an exception makes it an error with its message; a table is processed exactly when none of these applies, with the inserted rows |
| Restore.Apply | restore_from_backup.py:133-172 | only a processed table is replaced, keeping its schema; no table is created or dropped and every other table is unchanged |
| Restore.Count | restore_from_backup.py:85-172 | each table adds exactly one to processed, skipped or errors |
| Restore.RestoreAllAccounts | restore_from_backup.py:85-172 | processed + skipped + errors equals the number of backup tables; tables only in main, or in the skip list, keep their contents |
| Restore.ProcessedTable | restore_from_backup.py:133-165 | a processed table keeps the main schema and holds at most as many rows as the backup, over the common columns, all of them without constraint violations |
| Restore.RestoreDatabase | restore_from_backup.py:31-198 | a missing file, or a failure listing the tables, returns false and touches nothing; otherwise the tables are restored in order, the counts add up, and the result is true iff there were no errors |

## Left out

- HTTP, sessions, OAuth, SQLAlchemy and sqlite3 are not modelled. Their results are parameters: the session's user id or admin flag, the rows of each table, the upstream answer, the clock and the generated key text.
- Routes outside the listed core are not modelled: `list_user_keys`, `delete_user_key`, `get_usage`, `admin_login`, and the chat history pages. They are reads and deletes with no decision beyond the admin check.
- `secrets.token_urlsafe` is not modelled. `Admin.GeneratedKey` takes its text as a parameter, and the uniqueness lemmas require a fresh key.
- Floating point is not modelled. JSON numbers are integers, and `int()` of a float or of a string with underscores or non-ASCII digits is treated as failing.
- Text.Strip: removes only the six ASCII whitespace characters. Python's `str.strip()` and `int()` also remove the separators `\x1c`-`\x1f` and the non-ASCII spaces; JavaScript's `trim()` removes the non-ASCII spaces but not `\x1c`-`\x1f`. Text that begins or ends with these characters is therefore not modelled.
- Request bodies that are JSON but not objects are left out, since the admin routes' `or {}` and `.get` presuppose an object. The chat route's `get_json()` failure is modelled as 400.
- Admin.KeyOfId: a `key_id` names a key when it is an integer, a boolean, or text that Python's `int()` accepts. This approximates SQLite, which converts text to a number when comparing it with the integer id column. It covers the decimal text the admin page's playground always sends (static/admin/app.js:731, 771, 805). Text SQLite reads as a whole real number, such as `5.0`, is not modelled and names no key.
- Chat.ConvRefOf: a truthy `conversation_id` is read the same way as `Admin.KeyOfId` reads a `key_id`, with the same exception for real-number text.
- Chat.Converse: a completion reply without `choices[0].message.content` gives a 500 carrying a fixed text, not the text of Python's `KeyError`.
- Admin.TextField: a text column given a non-string value fails (500), where SQLAlchemy might store the value as is.
- OriginEditor.SaveLoadRoundTrip: requires origins without commas, since the stored value is comma-separated.
- DOM rendering, Markdown, syntax highlighting, KaTeX, toasts, modals and the Chart.js graph are not modelled.
- Collab.StartStreaming: the streaming node is a flag with a buffer and is not part of `shown`. On the page, `startStreaming` appends the node to the message container (static/collab/app.js:376-387). A second `ai_start` therefore leaves the earlier node on the page, and `chat_cleared` removes the node from the page while the page still holds it. The model shows neither.
- Collab: the `EventSource` reconnect timer is not modelled, and neither are the room list, the prompt editor, joining, creating and copying links. Message ids are compared by value.
- Restore: `create_backup`, `main()`'s prompt and the verbose printing are not modelled. New main-only columns receive their declared defaults; the model's rows list only the copied columns. The order of the copied columns is irrelevant and modelled as a set.
- Restore.RestoreDatabase: with more than five errors the summary's `len(stats['errors'] - 5)` raises a `TypeError`, which the outer handler turns into `False`. The model keeps this path, and the returned flag is still true exactly when there are no errors.
- Collab.HandlePayload: the model covers the payload types the page's code handles: `message`, `ai_start`, `ai_delta`, `room_deleted`, `system_prompt_updated`, `chat_cleared` and `error`.

## Findings

| source | as written | input that shows it | evidently intended | confidence | as-written member | corrected member |
|---|---|---|---|---|---|---|
| app/routes_proxy.py:22 | `origin in allowed_origins` tests substring containment in the comma-separated setting | setting `https://app.example.com`, origin `https://app.example.co`: the origin is echoed and, with credentials allowed, `Access-Control-Allow-Credentials: true` is sent | echo the origin only when it is one of the listed origins | not executed | Proxy.SubstringEchoesUnlistedOrigin | Proxy.ApplyCorsListed |
