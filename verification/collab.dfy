/** The collaboration room page (static/collab/app.js): the current room,
    the open event stream, the message ids already shown, the streaming
    assistant node with its text buffer, and what each stream payload and
    each user action does to them. The messages and notices shown on the
    page are the sequence `shown`, and the empty-state placeholder is the
    empty sequence. The streaming node also sits in the page's container,
    but it is modelled apart from `shown`, by the `streaming` flag and its
    `buffer`. */
module Collab {
  import opened Common
  import opened Text

  datatype Room = Room(code: string, name: string, systemPrompt: string)

  /** A chat message as the server sends it. Ids are compared by value. */
  datatype Message = Message(id: string, role: string, content: string)

  /** An entry of the message container: a room message, or a notice
      of `appendSystemMessage` (shown, but never entered into the seen set). */
  datatype Shown = Posted(msg: Message) | Notice(text: string)

  datatype CollabState = CollabState(
    room: Option<Room>,
    stream: Option<string>,   // the code of the open `EventSource`, if any
    streaming: bool,          // `streamingNode` is set
    buffer: string,           // `streamingBuffer`
    seen: set<string>,        // `seenMessageIds`
    shown: seq<Shown>)

  /** The page as loaded: no room, nothing shown. */
  function Initial(): (st: CollabState)
    ensures st.room.None? && st.stream.None? && !st.streaming && st.seen == {} && st.shown == []
  {
    CollabState(None, None, false, "", {}, [])
  }

  /** A parsed stream payload. `Null` is a falsy payload. The `message` key
      holds an object in a `message` payload and the text in an `error`
      payload; the two are kept apart here. An absent string is `""`. */
  datatype Payload =
    | Null
    | Event(kind: string, message: Option<Message>, errorText: string, content: string, systemPrompt: string)

  const RoomDeletedNotice := "A szoba megszűnt."
  const PromptUpdatedNotice := "A rendszer kontextus frissült."
  const StreamClearedNotice := "A beszélgetés törölve lett."
  const DefaultErrorNotice := "Hiba történt."

  function Append(st: CollabState, s: Shown): (r: CollabState)
    ensures r == st.(shown := st.shown + [s])
  {
    st.(shown := st.shown + [s])
  }

  /** Discards the streaming node and its buffer when there is one. */
  function DropStreaming(st: CollabState): (r: CollabState)
    ensures !r.streaming && r.room == st.room && r.stream == st.stream && r.seen == st.seen && r.shown == st.shown
    ensures st.streaming ==> r.buffer == ""
    ensures !st.streaming ==> r == st
  {
    if st.streaming then st.(streaming := false, buffer := "") else st
  }

  /** A message is shown at most once: an id already seen changes nothing. */
  function Receive(st: CollabState, m: Message): (r: CollabState)
    ensures m.id in st.seen ==> r == st
    ensures m.id !in st.seen ==> r.seen == st.seen + {m.id} && r.shown == st.shown + [Posted(m)]
    ensures r.room == st.room && r.stream == st.stream && r.streaming == st.streaming && r.buffer == st.buffer
  {
    if m.id in st.seen then st
    else Append(st.(seen := st.seen + {m.id}), Posted(m))
  }

  /** `startStreaming`: a fresh node with an empty buffer. */
  function StartStreaming(st: CollabState): (r: CollabState)
    ensures r.streaming && r.buffer == ""
    ensures r.room == st.room && r.stream == st.stream && r.seen == st.seen && r.shown == st.shown
  {
    st.(streaming := true, buffer := "")
  }

  /** `updateStreaming`: the delta is added only while a node exists. */
  function UpdateStreaming(st: CollabState, delta: string): (r: CollabState)
    ensures st.streaming ==> r.buffer == st.buffer + delta
    ensures !st.streaming ==> r == st
    ensures r.streaming == st.streaming && r.room == st.room && r.stream == st.stream
    ensures r.seen == st.seen && r.shown == st.shown
  {
    if st.streaming then st.(buffer := st.buffer + delta) else st
  }

  /** `closeStream`. */
  function CloseStream(st: CollabState): (r: CollabState)
    ensures r.stream.None?
    ensures r.room == st.room && r.streaming == st.streaming && r.buffer == st.buffer
    ensures r.seen == st.seen && r.shown == st.shown
  {
    st.(stream := None)
  }

  /** Closing an already closed stream changes nothing. */
  lemma CloseStreamIdempotent(st: CollabState)
    ensures CloseStream(CloseStream(st)) == CloseStream(st)
    ensures st.stream.None? ==> CloseStream(st) == st
  {
  }

  /** `handleStreamPayload`. */
  function HandlePayload(st: CollabState, p: Payload): (r: CollabState)
    ensures p.Null? ==> r == st
    ensures p.Event? && p.kind in {"ping", "ready"} ==> r == st
    ensures p.Event? && p.kind == "message" && p.message.Some? ==>
      var d := if p.message.value.role == "assistant" then DropStreaming(st) else st;
      r == Receive(d, p.message.value)
    ensures p.Event? && p.kind == "ai_start" ==> r == StartStreaming(st)
    ensures p.Event? && p.kind == "ai_delta" ==> r == UpdateStreaming(st, p.content)
    ensures p.Event? && p.kind == "room_deleted" ==>
      r.room.None? && r.stream.None? && r.shown == [] && r.seen == st.seen
      && r.streaming == st.streaming && r.buffer == st.buffer
    ensures p.Event? && p.kind == "chat_cleared" ==>
      r == st.(seen := {}, shown := [Notice(StreamClearedNotice)])
    ensures p.Event? && p.kind == "error" ==>
      r == Append(DropStreaming(st), Notice(if p.errorText != "" then p.errorText else DefaultErrorNotice))
    ensures p.Event? && p.kind !in {"message", "ai_start", "ai_delta", "room_deleted", "system_prompt_updated", "chat_cleared", "error"} ==>
      r == st
  {
    match p
    case Null => st
    case Event(kind, message, errorText, content, systemPrompt) =>
      if kind == "ping" || kind == "ready" then st
      else if kind == "message" && message.Some? then
        var m := message.value;
        var d := if m.role == "assistant" then DropStreaming(st) else st;
        Receive(d, m)
      else if kind == "ai_start" then StartStreaming(st)
      else if kind == "ai_delta" then UpdateStreaming(st, content)
      else if kind == "room_deleted" then
        // the notice is appended, then wiped by the empty state
        var closed := CloseStream(Append(st, Notice(RoomDeletedNotice)));
        closed.(room := None, shown := [])
      else if kind == "system_prompt_updated" then
        var room := if st.room.Some? then Some(st.room.value.(systemPrompt := systemPrompt)) else None;
        Append(st.(room := room), Notice(PromptUpdatedNotice))
      else if kind == "chat_cleared" then
        st.(seen := {}, shown := [Notice(StreamClearedNotice)])
      else if kind == "error" then
        Append(DropStreaming(st), Notice(if errorText != "" then errorText else DefaultErrorNotice))
      else st
  }

  /** A `message` payload that carries no message object matches no branch. */
  lemma MessageWithoutObjectIgnored(st: CollabState, p: Payload)
    requires p.Event? && p.kind == "message" && p.message.None?
    ensures HandlePayload(st, p) == st
  {
  }

  /** An assistant message ends the streaming node even when its id was
      already seen and nothing is appended. */
  lemma AssistantEndsStreaming(st: CollabState, m: Message, p: Payload)
    requires p.Event? && p.kind == "message" && p.message == Some(m) && m.role == "assistant"
    ensures !HandlePayload(st, p).streaming
    ensures st.streaming ==> HandlePayload(st, p).buffer == ""
    ensures m.id in st.seen ==> HandlePayload(st, p).shown == st.shown
  {
  }

  /** The payloads in order. */
  function Run(st: CollabState, ps: seq<Payload>): CollabState
    decreases |ps|
  {
    if |ps| == 0 then st else Run(HandlePayload(st, ps[0]), ps[1..])
  }

  /** A payload that starts or ends a streaming node. */
  predicate Resets(p: Payload) {
    p.Event? && (p.kind == "ai_start" || p.kind == "error"
                 || (p.kind == "message" && p.message.Some? && p.message.value.role == "assistant"))
  }

  /** The concatenation of the contents of the `ai_delta` payloads. */
  function Deltas(ps: seq<Payload>): string
    decreases |ps|
  {
    if |ps| == 0 then ""
    else (if ps[0].Event? && ps[0].kind == "ai_delta" then ps[0].content else "") + Deltas(ps[1..])
  }

  /** While nothing starts or ends the node, every delta is added to the buffer. */
  lemma {:induction false} StreamingCollects(st: CollabState, ps: seq<Payload>)
    requires st.streaming
    requires forall j :: 0 <= j < |ps| ==> !Resets(ps[j])
    ensures Run(st, ps).streaming
    ensures Run(st, ps).buffer == st.buffer + Deltas(ps)
    decreases |ps|
  {
    if |ps| > 0 {
      var next := HandlePayload(st, ps[0]);
      var d := if ps[0].Event? && ps[0].kind == "ai_delta" then ps[0].content else "";
      assert next.streaming && next.buffer == st.buffer + d;
      StreamingCollects(next, ps[1..]);
      assert st.buffer + d + Deltas(ps[1..]) == st.buffer + Deltas(ps);
    }
  }

  /** After an `ai_start` the buffer is exactly the concatenation of the
      deltas received since, as long as nothing has started or ended the
      node again. */
  lemma BufferIsDeltasSinceStart(st: CollabState, ps: seq<Payload>)
    requires |ps| > 0 && ps[0].Event? && ps[0].kind == "ai_start"
    requires forall j :: 1 <= j < |ps| ==> !Resets(ps[j])
    ensures Run(st, ps).streaming && Run(st, ps).buffer == Deltas(ps[1..])
  {
    StreamingCollects(HandlePayload(st, ps[0]), ps[1..]);
  }

  /** Without a streaming node the buffer ignores deltas. */
  lemma {:induction false} IdleIgnoresDeltas(st: CollabState, ps: seq<Payload>)
    requires !st.streaming
    requires forall j :: 0 <= j < |ps| ==> ps[j].Event? && ps[j].kind == "ai_delta"
    ensures Run(st, ps) == st
    decreases |ps|
  {
    if |ps| > 0 {
      IdleIgnoresDeltas(HandlePayload(st, ps[0]), ps[1..]);
    }
  }

  // ------------------------------------------------------------ invariants

  /** The ids of the room messages shown. */
  function PostedIds(shown: seq<Shown>): (r: seq<string>)
    ensures |r| <= |shown|
    decreases |shown|
  {
    if |shown| == 0 then []
    else (if shown[0].Posted? then [shown[0].msg.id] else []) + PostedIds(shown[1..])
  }

  lemma {:induction false} PostedIdsAppend(a: seq<Shown>, b: seq<Shown>)
    ensures PostedIds(a + b) == PostedIds(a) + PostedIds(b)
    decreases |a|
  {
    if |a| == 0 {
      assert a + b == b;
    } else {
      var head := if a[0].Posted? then [a[0].msg.id] else [];
      assert (a + b)[1..] == a[1..] + b;
      PostedIdsAppend(a[1..], b);
      assert PostedIds(a + b) == head + (PostedIds(a[1..]) + PostedIds(b));
    }
  }

  predicate Distinct(xs: seq<string>) {
    forall i, j :: 0 <= i < j < |xs| ==> xs[i] != xs[j]
  }

  /** Every room message shown has its id in the seen set, no id is shown
      twice, and a stream is open only while a room is selected. */
  predicate Consistent(st: CollabState) {
    && (forall i :: 0 <= i < |PostedIds(st.shown)| ==> PostedIds(st.shown)[i] in st.seen)
    && Distinct(PostedIds(st.shown))
    && (st.stream.Some? ==> st.room.Some?)
  }

  lemma InitialConsistent()
    ensures Consistent(Initial())
  {
  }

  lemma AppendNoticeConsistent(st: CollabState, text: string)
    requires Consistent(st)
    ensures Consistent(Append(st, Notice(text)))
  {
    PostedIdsAppend(st.shown, [Notice(text)]);
    assert PostedIds([Notice(text)]) == [];
    assert PostedIds(st.shown + [Notice(text)]) == PostedIds(st.shown);
  }

  lemma ReceiveConsistent(st: CollabState, m: Message)
    requires Consistent(st)
    ensures Consistent(Receive(st, m))
  {
    if m.id !in st.seen {
      PostedIdsAppend(st.shown, [Posted(m)]);
      assert PostedIds([Posted(m)]) == [m.id];
      var ids := PostedIds(st.shown + [Posted(m)]);
      assert ids == PostedIds(st.shown) + [m.id];
      forall i, j | 0 <= i < j < |ids| ensures ids[i] != ids[j] {
        if j == |ids| - 1 {
          assert ids[i] == PostedIds(st.shown)[i];
        }
      }
    }
  }

  /** Every payload keeps the page consistent. */
  lemma PayloadKeepsConsistent(st: CollabState, p: Payload)
    requires Consistent(st)
    ensures Consistent(HandlePayload(st, p))
  {
    if p.Event? {
      var k := p.kind;
      if k == "message" && p.message.Some? {
        var d := if p.message.value.role == "assistant" then DropStreaming(st) else st;
        ReceiveConsistent(d, p.message.value);
      } else if k == "room_deleted" {
        assert PostedIds([]) == [];
      } else if k == "system_prompt_updated" {
        var room := if st.room.Some? then Some(st.room.value.(systemPrompt := p.systemPrompt)) else None;
        AppendNoticeConsistent(st.(room := room), PromptUpdatedNotice);
      } else if k == "chat_cleared" {
        assert PostedIds([Notice(StreamClearedNotice)]) == [];
      } else if k == "error" {
        AppendNoticeConsistent(DropStreaming(st), if p.errorText != "" then p.errorText else DefaultErrorNotice);
      }
    }
  }

  lemma {:induction false} RunKeepsConsistent(st: CollabState, ps: seq<Payload>)
    requires Consistent(st)
    ensures Consistent(Run(st, ps))
    decreases |ps|
  {
    if |ps| > 0 {
      PayloadKeepsConsistent(st, ps[0]);
      RunKeepsConsistent(HandlePayload(st, ps[0]), ps[1..]);
    }
  }

  // ---------------------------------------------------------- user actions

  /** How a request to the server ended: an ok answer (with its decoded
      body), a non-ok status, or a thrown error. */
  datatype Outcome<+T> = Answered(body: T) | Refused(status: int) | Threw

  /** The ids of a history, in order. */
  function Ids(ms: seq<Message>): (r: seq<string>)
    ensures |r| == |ms|
    ensures forall i :: 0 <= i < |ms| ==> r[i] == ms[i].id
  {
    seq(|ms|, i requires 0 <= i < |ms| => ms[i].id)
  }

  /** The history as shown: every message, in order. */
  function ShowAll(ms: seq<Message>): (r: seq<Shown>)
    ensures |r| == |ms|
    ensures forall i :: 0 <= i < |ms| ==> r[i] == Posted(ms[i])
  {
    seq(|ms|, i requires 0 <= i < |ms| => Posted(ms[i]))
  }

  lemma {:induction false} PostedIdsShowAll(ms: seq<Message>)
    ensures PostedIds(ShowAll(ms)) == Ids(ms)
    decreases |ms|
  {
    if |ms| > 0 {
      assert ShowAll(ms)[1..] == ShowAll(ms[1..]);
      PostedIdsShowAll(ms[1..]);
      assert Ids(ms) == [ms[0].id] + Ids(ms[1..]);
    }
  }

  /** `selectRoom(code)` with the room and history the server returned. */
  function SelectRoom(st: CollabState, code: string, answer: Outcome<(Room, seq<Message>)>): (r: CollabState)
    ensures code == "" || !answer.Answered? ==> r == st
    ensures code != "" && answer.Answered? ==>
      var (room, history) := answer.body;
      && r.room == Some(room) && r.stream == Some(code)
      && !r.streaming && r.buffer == ""
      && r.seen == (set i | 0 <= i < |history| :: history[i].id)
      && r.shown == ShowAll(history)
  {
    if code == "" then st
    else
      match answer
      case Answered((room, history)) =>
        CollabState(Some(room), Some(code), false, "", set i | 0 <= i < |history| :: history[i].id, ShowAll(history))
      case _ => st
  }

  /** A room whose history has distinct ids is selected into a consistent page. */
  lemma SelectRoomConsistent(st: CollabState, code: string, answer: Outcome<(Room, seq<Message>)>)
    requires Consistent(st)
    requires answer.Answered? ==> Distinct(Ids(answer.body.1))
    ensures Consistent(SelectRoom(st, code, answer))
  {
    if code != "" && answer.Answered? {
      var history := answer.body.1;
      PostedIdsShowAll(history);
      var r := SelectRoom(st, code, answer);
      forall i | 0 <= i < |PostedIds(r.shown)| ensures PostedIds(r.shown)[i] in r.seen {
        assert PostedIds(r.shown)[i] == history[i].id;
      }
    }
  }

  const RateLimitNotice := "Rate limit, próbáld újra később."
  const NetworkNotice := "Hálózati hiba."

  /** The click half of `sendMessage`: the guard, checked on the page as it
      is when the button is pressed, and the room the message is posted to. */
  function SendClick(st: CollabState, input: string): (code: Option<string>)
    ensures code.Some? <==> st.room.Some? && Strip(input) != ""
    ensures code.Some? ==> code.value == st.room.value.code
  {
    if st.room.Some? && Strip(input) != "" then Some(st.room.value.code) else None
  }

  /** The answer half of `sendMessage`, applied to the page as it is when
      the answer arrives: whatever room it shows then receives the echo or
      the notice, and the room, stream and streaming node are left alone. */
  function SendAnswer(st: CollabState, answer: Outcome<Option<Message>>): (r: CollabState)
    ensures answer.Answered? && answer.body.Some? ==> r == Receive(st, answer.body.value)
    ensures answer.Answered? && answer.body.None? ==> r == st
    ensures answer.Refused? && answer.status == 429 ==> r == Append(st, Notice(RateLimitNotice))
    ensures answer.Refused? && answer.status != 429 ==> r == st
    ensures answer.Threw? ==> r == Append(st, Notice(NetworkNotice))
    ensures r.room == st.room && r.stream == st.stream && r.streaming == st.streaming && r.buffer == st.buffer
  {
    match answer
    case Answered(echo) => if echo.Some? then Receive(st, echo.value) else st
    case Refused(status) => if status == 429 then Append(st, Notice(RateLimitNotice)) else st
    case Threw => Append(st, Notice(NetworkNotice))
  }

  /** `sendMessage` when the answer arrives before any other event: the
      click on `st`, then the answer on the same page. */
  function SendMessage(st: CollabState, input: string, answer: Outcome<Option<Message>>): (r: CollabState)
    ensures st.room.None? || Strip(input) == "" ==> r == st
    ensures st.room.Some? && Strip(input) != "" ==>
      && (answer.Answered? && answer.body.Some? ==> r == Receive(st, answer.body.value))
      && (answer.Answered? && answer.body.None? ==> r == st)
      && (answer.Refused? && answer.status == 429 ==> r == Append(st, Notice(RateLimitNotice)))
      && (answer.Refused? && answer.status != 429 ==> r == st)
      && (answer.Threw? ==> r == Append(st, Notice(NetworkNotice)))
  {
    if SendClick(st, input).None? then st else SendAnswer(st, answer)
  }

  /** A message sent while its stream echo already arrived is not shown twice. */
  lemma SendAfterEchoShowsOnce(st: CollabState, input: string, m: Message, p: Payload)
    requires st.room.Some? && Strip(input) != ""
    requires p.Event? && p.kind == "message" && p.message == Some(m) && m.role != "assistant"
    ensures var echoed := HandlePayload(st, p);
      SendMessage(echoed, input, Answered(Some(m))) == echoed
  {
  }

  /** An answer keeps any consistent page consistent, whatever happened
      between the click and the answer. */
  lemma SendAnswerConsistent(st: CollabState, answer: Outcome<Option<Message>>)
    requires Consistent(st)
    ensures Consistent(SendAnswer(st, answer))
  {
    match answer
    case Answered(echo) => if echo.Some? { ReceiveConsistent(st, echo.value); }
    case Refused(status) => if status == 429 { AppendNoticeConsistent(st, RateLimitNotice); }
    case Threw => AppendNoticeConsistent(st, NetworkNotice);
  }

  lemma SendKeepsConsistent(st: CollabState, input: string, answer: Outcome<Option<Message>>)
    requires Consistent(st)
    ensures Consistent(SendMessage(st, input, answer))
  {
    if SendClick(st, input).Some? {
      SendAnswerConsistent(st, answer);
    }
  }

  /** A message sent from one room whose answer arrives after the user has
      switched to another is shown in the room shown then. */
  lemma EchoLandsInShownRoom(st: CollabState, input: string, code: string, room: Room, history: seq<Message>, m: Message)
    requires SendClick(st, input).Some? && code != ""
    requires forall i :: 0 <= i < |history| ==> history[i].id != m.id
    ensures var later := SelectRoom(st, code, Answered((room, history)));
      var r := SendAnswer(later, Answered(Some(m)));
      r.room == Some(room) && r.shown == ShowAll(history) + [Posted(m)]
  {
    var later := SelectRoom(st, code, Answered((room, history)));
    assert m.id !in later.seen;
  }

  const LeaveFailedNotice := "Nem sikerült kilépni a szobából."

  /** The click half of `leaveRoom`: the room left, if one is shown. */
  function LeaveClick(st: CollabState): (code: Option<string>)
    ensures code.Some? <==> st.room.Some?
    ensures code.Some? ==> code.value == st.room.value.code
  {
    if st.room.Some? then Some(st.room.value.code) else None
  }

  /** The answer half of `leaveRoom`, on the page as it is when the answer
      arrives: on success the stream, room and streaming node are dropped
      and the empty state is shown, whatever room is shown by then; the
      seen set is kept. */
  function LeaveAnswer(st: CollabState, answer: Outcome<()>): (r: CollabState)
    ensures answer.Answered? ==> r == CollabState(None, None, false, "", st.seen, [])
    ensures answer.Refused? ==> r == st
    ensures answer.Threw? ==> r == Append(st, Notice(LeaveFailedNotice))
  {
    match answer
    case Answered(_) =>
      var closed := CloseStream(st);
      closed.(room := None, streaming := false, buffer := "", shown := [])
    case Refused(_) => st
    case Threw => Append(st, Notice(LeaveFailedNotice))
  }

  /** `leaveRoom` when the answer arrives before any other event. */
  function LeaveRoom(st: CollabState, answer: Outcome<()>): (r: CollabState)
    ensures st.room.None? ==> r == st
    ensures st.room.Some? && answer.Answered? ==>
      r == CollabState(None, None, false, "", st.seen, [])
    ensures st.room.Some? && answer.Refused? ==> r == st
    ensures st.room.Some? && answer.Threw? ==> r == Append(st, Notice(LeaveFailedNotice))
  {
    if LeaveClick(st).None? then st else LeaveAnswer(st, answer)
  }

  const ClearedNotice := "Beszélgetés törölve."
  const ClearFailedNotice := "Hiba a törléskor."

  /** The click half of `clearChat`: the room cleared, if one is shown and
      the confirmation dialog answered `confirmed`. */
  function ClearClick(st: CollabState, confirmed: bool): (code: Option<string>)
    ensures code.Some? <==> st.room.Some? && confirmed
    ensures code.Some? ==> code.value == st.room.value.code
  {
    if st.room.Some? && confirmed then Some(st.room.value.code) else None
  }

  /** The answer half of `clearChat`, on the page as it is when the answer
      arrives: on success whatever room is shown then loses its messages
      and its seen set. */
  function ClearAnswer(st: CollabState, answer: Outcome<()>): (r: CollabState)
    ensures answer.Answered? ==> r == st.(seen := {}, shown := [Notice(ClearedNotice)])
    ensures answer.Refused? ==> r == st
    ensures answer.Threw? ==> r == Append(st, Notice(ClearFailedNotice))
  {
    match answer
    case Answered(_) => st.(seen := {}, shown := [Notice(ClearedNotice)])
    case Refused(_) => st
    case Threw => Append(st, Notice(ClearFailedNotice))
  }

  /** `clearChat` when the answer arrives before any other event. */
  function ClearChat(st: CollabState, confirmed: bool, answer: Outcome<()>): (r: CollabState)
    ensures st.room.None? || !confirmed ==> r == st
    ensures st.room.Some? && confirmed && answer.Answered? ==>
      r == st.(seen := {}, shown := [Notice(ClearedNotice)])
    ensures st.room.Some? && confirmed && answer.Refused? ==> r == st
    ensures st.room.Some? && confirmed && answer.Threw? ==> r == Append(st, Notice(ClearFailedNotice))
  {
    if ClearClick(st, confirmed).None? then st else ClearAnswer(st, answer)
  }

  /** A clear clicked in one room whose answer arrives after the user has
      switched to another empties the room shown then: its history is
      gone from the page and its ids are forgotten. */
  lemma ClearEmptiesShownRoom(st: CollabState, code: string, room: Room, history: seq<Message>)
    requires ClearClick(st, true).Some? && code != ""
    ensures var later := SelectRoom(st, code, Answered((room, history)));
      var r := ClearAnswer(later, Answered(()));
      r.room == Some(room) && r.stream == Some(code) && r.seen == {} && r.shown == [Notice(ClearedNotice)]
  {
  }

  /** After a clear, a message the room had already shown is shown again. */
  lemma ClearedMessageShownAgain(st: CollabState, m: Message, p: Payload)
    requires st.room.Some? && m.id in st.seen
    requires p.Event? && p.kind == "message" && p.message == Some(m) && m.role != "assistant"
    ensures HandlePayload(st, p) == st
    ensures HandlePayload(ClearChat(st, true, Answered(())), p).shown == [Notice(ClearedNotice), Posted(m)]
  {
  }

  /** Leave and clear answers, and closing the stream, keep any consistent
      page consistent, whatever happened since the click. */
  lemma ActionsKeepConsistent(st: CollabState, confirmed: bool, answer: Outcome<()>)
    requires Consistent(st)
    ensures Consistent(LeaveAnswer(st, answer))
    ensures Consistent(ClearAnswer(st, answer))
    ensures Consistent(LeaveRoom(st, answer))
    ensures Consistent(ClearChat(st, confirmed, answer))
    ensures Consistent(CloseStream(st))
  {
    assert PostedIds([]) == [];
    assert PostedIds([Notice(ClearedNotice)]) == [];
    if answer.Threw? {
      AppendNoticeConsistent(st, LeaveFailedNotice);
      AppendNoticeConsistent(st, ClearFailedNotice);
    }
  }
}
