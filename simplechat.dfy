/** The chat transport of hooks/use-simple-chat.ts: the transcript edits
    (placeholder, update by id, failure cleanup, reload truncation), the
    batched accumulation loop of `processStream`, and the `sendMessage`,
    `handleSubmit`, `append` and `reload` operations. A network exchange is
    a `Reply` value: what `fetch` resolved or rejected with, the text
    chunks the body yielded with the time each arrived, and how the body
    ended. Ids come from the caller, standing for `generateId`. */
module SimpleChat {
  import opened Common
  import opened Json

  // ---------------------------------------------------------------------
  // Transcript operations

  /** `prev.map(msg => msg.id === id ? { ...msg, content } : msg)` */
  function UpdateById(msgs: seq<Message>, id: string, content: string): (r: seq<Message>)
    ensures |r| == |msgs|
    ensures forall k :: 0 <= k < |msgs| ==> r[k].id == msgs[k].id && r[k].role == msgs[k].role
    ensures forall k :: 0 <= k < |msgs| ==> r[k].content == if msgs[k].id == id then content else msgs[k].content
  {
    if msgs == [] then []
    else
      var m := msgs[0];
      [if m.id == id then m.(content := content) else m] + UpdateById(msgs[1..], id, content)
  }

  /** A later update of the same id overwrites an earlier one. */
  lemma UpdateOverwrites(msgs: seq<Message>, id: string, c1: string, c2: string)
    ensures UpdateById(UpdateById(msgs, id, c1), id, c2) == UpdateById(msgs, id, c2)
  {
    var a, b := UpdateById(UpdateById(msgs, id, c1), id, c2), UpdateById(msgs, id, c2);
    assert |a| == |b|;
    forall k | 0 <= k < |a| ensures a[k] == b[k] {
    }
  }

  /** Updating an id that no message carries changes nothing. */
  lemma UpdateAbsent(msgs: seq<Message>, id: string, content: string)
    requires forall k :: 0 <= k < |msgs| ==> msgs[k].id != id
    ensures UpdateById(msgs, id, content) == msgs
  {
    var r := UpdateById(msgs, id, content);
    forall k | 0 <= k < |msgs| ensures r[k] == msgs[k] {
    }
  }

  predicate IsEmptyAssistant(m: Message) {
    m.role == Assistant && m.content == ""
  }

  /** `prev.filter(msg => msg.role !== "assistant" || msg.content !== "")` */
  function RemoveEmptyAssistants(msgs: seq<Message>): (r: seq<Message>)
    ensures |r| <= |msgs|
    ensures forall m :: m in r <==> m in msgs && !IsEmptyAssistant(m)
  {
    if msgs == [] then []
    else
      var rest := RemoveEmptyAssistants(msgs[1..]);
      assert forall m :: m in msgs <==> m == msgs[0] || m in msgs[1..];
      if IsEmptyAssistant(msgs[0]) then rest else [msgs[0]] + rest
  }

  /** The cleanup keeps order: it distributes over concatenation. */
  lemma {:induction false} RemoveDistributes(a: seq<Message>, b: seq<Message>)
    ensures RemoveEmptyAssistants(a + b) == RemoveEmptyAssistants(a) + RemoveEmptyAssistants(b)
  {
    if a != [] {
      assert (a + b)[1..] == a[1..] + b;
      RemoveDistributes(a[1..], b);
    } else {
      assert a + b == b;
    }
  }

  /** The index of the last user message, as
      `messages.lastIndexOf([...messages].reverse().find(m => m.role === "user"))`. */
  function LastUserIndex(msgs: seq<Message>): (r: Option<nat>)
    ensures r.Some? ==> r.value < |msgs| && msgs[r.value].role == User
    ensures r.Some? ==> forall k :: r.value < k < |msgs| ==> msgs[k].role != User
    ensures r.None? <==> forall k :: 0 <= k < |msgs| ==> msgs[k].role != User
  {
    if msgs == [] then None
    else if msgs[|msgs| - 1].role == User then Some(|msgs| - 1)
    else
      var init := msgs[..|msgs| - 1];
      assert forall k :: 0 <= k < |init| ==> init[k] == msgs[k];
      LastUserIndex(init)
  }

  // ---------------------------------------------------------------------
  // The batched accumulation of processStream

  /** A decoded chunk and the value of `Date.now()` when it was read. */
  datatype Arrival = Arrival(text: string, now: int)

  /** One intermediate `setMessages`: the content shown and when. */
  datatype Update = Update(content: string, at: int)

  /** The loop's variables after some reads: `accumulatedContent`,
      `lastUpdateTime`, and the updates issued so far. */
  datatype Batching = Batching(acc: string, last: int, updates: seq<Update>)

  /** The in-order concatenation of the chunk texts. */
  function Texts(arrivals: seq<Arrival>): string {
    if arrivals == [] then "" else Texts(arrivals[..|arrivals| - 1]) + arrivals[|arrivals| - 1].text
  }

  const UpdateInterval := 50

  /** One read of the loop: append the text, and issue an update when at
      least 50 ms have passed since the last one. */
  function Step(b: Batching, a: Arrival): Batching {
    var acc := b.acc + a.text;
    if a.now - b.last >= UpdateInterval then Batching(acc, a.now, b.updates + [Update(acc, a.now)])
    else Batching(acc, b.last, b.updates)
  }

  /** The throttle: an update is issued on a read at least 50 ms after the
      previous update, with `lastUpdateTime` starting at 0. */
  function Batch(arrivals: seq<Arrival>): (b: Batching)
    ensures b.acc == Texts(arrivals)
    ensures |b.updates| <= |arrivals|
    ensures b.last == if b.updates == [] then 0 else b.updates[|b.updates| - 1].at
  {
    if arrivals == [] then Batching("", 0, [])
    else Step(Batch(arrivals[..|arrivals| - 1]), arrivals[|arrivals| - 1])
  }

  /** Every update shows a prefix of the accumulated text, the first comes
      no earlier than 50 ms after time 0, and consecutive updates are at
      least 50 ms apart. */
  lemma {:induction false} BatchThrottles(arrivals: seq<Arrival>)
    ensures var b := Batch(arrivals);
      && (forall k :: 0 <= k < |b.updates| ==> IsPrefix(b.updates[k].content, b.acc))
      && (b.updates != [] ==> b.updates[0].at >= UpdateInterval)
      && (forall k :: 0 < k < |b.updates| ==> b.updates[k].at - b.updates[k - 1].at >= UpdateInterval)
  {
    if arrivals != [] {
      var init := arrivals[..|arrivals| - 1];
      BatchThrottles(init);
      var prev := Batch(init);
      var a := arrivals[|arrivals| - 1];
      var acc := prev.acc + a.text;
      forall k | 0 <= k < |prev.updates| ensures IsPrefix(prev.updates[k].content, acc) {
        var c := prev.updates[k].content;
        assert acc[..|c|] == prev.acc[..|c|];
      }
    }
  }

  /** The transcript as the intermediate updates left it. */
  function Shown(msgs: seq<Message>, id: string, b: Batching): seq<Message> {
    if b.updates == [] then msgs else UpdateById(msgs, id, b.updates[|b.updates| - 1].content)
  }

  /** How a rejected promise fails: an Error named "AbortError", any other
      Error (with its message), or a thrown value that is not an Error. */
  datatype Fault = AbortError(message: string) | Failure(message: string) | NonError

  /** How the body's reader ended: `done`, or a rejected read. */
  datatype StreamEnd = Done | Broken(fault: Fault)

  /** The transcript after processStream: a stream that ends normally is
      flushed with the whole text, whatever the batching; a stream that
      breaks keeps what the last intermediate update showed. */
  function Streamed(msgs: seq<Message>, id: string, arrivals: seq<Arrival>, end: StreamEnd): seq<Message> {
    if end.Done? then UpdateById(msgs, id, Texts(arrivals)) else Shown(msgs, id, Batch(arrivals))
  }

  /** What processStream rethrows: only an Error that is not an abort. */
  function Rethrown(end: StreamEnd): (r: Option<string>)
    ensures r.Some? <==> end.Broken? && end.fault.Failure?
  {
    if end.Broken? && end.fault.Failure? then Some(end.fault.message) else None
  }

  // ---------------------------------------------------------------------
  // sendMessage

  /** The callbacks the hook calls, in order: onActiveMessageChange,
      onResponse (with the status), onFinish, onError. */
  datatype Notice =
    | ActiveChanged(id: Option<string>)
    | Responded(status: int)
    | FinishedWith(final: Message)
    | ErrorReported(reason: string)

  /** What sendMessage puts into the POST body: the transcript, the hook's
      voice and the caller's `requestOptions`; `Body` builds the object. */
  datatype Request = Request(messages: seq<Message>, voice: Option<string>, extra: map<string, Json>)

  function RoleName(r: Role): string {
    match r
    case User => "user"
    case Assistant => "assistant"
    case System => "system"
  }

  function RoleOf(s: string): Option<Role> {
    if s == "user" then Some(User)
    else if s == "assistant" then Some(Assistant)
    else if s == "system" then Some(System)
    else None
  }

  /** A message as JSON.stringify writes it: its three fields. */
  function MessageJson(m: Message): Json {
    JObj(map["id" := JStr(m.id), "role" := JStr(RoleName(m.role)), "content" := JStr(m.content)])
  }

  function MessageItems(ms: seq<Message>): seq<Json> {
    if ms == [] then [] else [MessageJson(ms[0])] + MessageItems(ms[1..])
  }

  /** Reading a JSON value back as a message. */
  function MessageOf(j: Json): Option<Message> {
    if j.JObj? && "id" in j.fields && "role" in j.fields && "content" in j.fields
       && j.fields["id"].JStr? && j.fields["role"].JStr? && j.fields["content"].JStr?
       && RoleOf(j.fields["role"].s).Some?
    then Some(Message(j.fields["id"].s, RoleOf(j.fields["role"].s).value, j.fields["content"].s))
    else None
  }

  function MessagesOfItems(items: seq<Json>): Option<seq<Message>> {
    if items == [] then Some([])
    else match (MessageOf(items[0]), MessagesOfItems(items[1..]))
      case (Some(m), Some(rest)) => Some([m] + rest)
      case _ => None
  }

  /** Reading the body's `messages` back as a transcript. */
  function MessagesOf(j: Json): Option<seq<Message>> {
    if j.JArr? then MessagesOfItems(j.items) else None
  }

  /** The object literal `{ messages, voice, ...requestOptions }` as JSON
      text carries it. The spread comes last, so a `messages` or `voice` key
      of requestOptions replaces the hook's own value, and an undefined
      `voice` is dropped by JSON.stringify. */
  function Body(r: Request): (b: map<string, Json>)
    ensures b.Keys == {"messages"} + r.extra.Keys + (if r.voice.Some? then {"voice"} else {})
    ensures forall k :: k in r.extra ==> b[k] == r.extra[k]
    ensures "messages" !in r.extra ==> MessagesOf(b["messages"]) == Some(r.messages)
    ensures "voice" !in r.extra && r.voice.Some? ==> b["voice"] == JStr(r.voice.value)
  {
    MessagesRoundTrip(r.messages);
    var own := map["messages" := JArr(MessageItems(r.messages))];
    var withVoice := if r.voice.Some? then own["voice" := JStr(r.voice.value)] else own;
    withVoice + r.extra
  }

  /** The transcript written into the body reads back unchanged. */
  lemma {:induction false} MessagesRoundTrip(ms: seq<Message>)
    ensures MessagesOfItems(MessageItems(ms)) == Some(ms)
  {
    if ms != [] {
      MessagesRoundTrip(ms[1..]);
      assert [ms[0]] + ms[1..] == ms;
    }
  }

  /** What `response.json()` gave for a failed response. */
  datatype ErrorBody = JsonBody(value: Json) | NotJson

  /** What `fetch` did: rejected, or resolved with a response whose body,
      when read, yielded `arrivals` and then ended as `end`. */
  datatype Reply =
    | Rejected(fault: Fault)
    | Answered(status: int, ok: bool, errorBody: ErrorBody, hasBody: bool, arrivals: seq<Arrival>, end: StreamEnd)

  datatype HookState = HookState(
    messages: seq<Message>,
    input: string,
    isLoading: bool,
    error: Option<string>,
    notices: seq<Notice>,
    requests: seq<Request>)

  /** The message of the Error the catch block stores. */
  function FaultMessage(f: Fault): string {
    match f
    case AbortError(m) => m
    case Failure(m) => m
    case NonError => "Unknown error"
  }

  /** The message for a response that is not ok: the body's `error`, else
      its `details`, else "HTTP <status>". When the body is not JSON (or is
      null, so that reading `.error` throws) the fallback reads the body a
      second time, which rejects, so the message is "HTTP <status>". */
  function HttpErrorMessage(status: int, body: ErrorBody): string {
    var fallback := "HTTP " + IntToString(status);
    match body
    case NotJson => fallback
    case JsonBody(v) =>
      if v.JNull? then fallback
      else
        var e, d := Prop(v, "error"), Prop(v, "details");
        if Truthy(e) then ToJsString(e)
        else if Truthy(d) then ToJsString(d)
        else fallback
  }

  /** The catch block of sendMessage. */
  function Failed(s: HookState, message: string): HookState {
    s.(error := Some(message),
       notices := s.notices + [ErrorReported(message)],
       messages := RemoveEmptyAssistants(s.messages))
  }

  /** From the fetch to the end of the try block. */
  function Exchange(s: HookState, id: string, reply: Reply): HookState {
    match reply
    case Rejected(f) => Failed(s, FaultMessage(f))
    case Answered(status, ok, body, hasBody, arrivals, end) =>
      var s1 := s.(notices := s.notices + [Responded(status)]);
      if !ok then Failed(s1, HttpErrorMessage(status, body))
      else if !hasBody then Failed(s1, "No response body")
      else
        var s2 := s1.(messages := Streamed(s1.messages, id, arrivals, end),
                      notices := s1.notices + (if end.Done? then [FinishedWith(Message(id, Assistant, Texts(arrivals)))] else []));
        match Rethrown(end)
        case Some(m) => Failed(s2, m)
        case None => s2
  }

  /** sendMessage(user, extra) as run from a render whose `messages` was
      `base`: the user message and an empty assistant placeholder replace
      the transcript, the request goes out, and `finally` clears the
      loading flag and the active message. */
  function Sent(s: HookState, voice: Option<string>, base: seq<Message>, user: Message, placeholderId: string,
                extra: map<string, Json>, reply: Reply): HookState
  {
    var started := s.(isLoading := true, error := None,
                      messages := base + [user, Message(placeholderId, Assistant, "")],
                      notices := s.notices + [ActiveChanged(Some(placeholderId))],
                      requests := s.requests + [Request(base + [user], voice, extra)]);
    var settled := Exchange(started, placeholderId, reply);
    settled.(isLoading := false, notices := settled.notices + [ActiveChanged(None)])
  }

  /** handleSubmit: ignored when the trimmed input is empty or a request is
      loading; otherwise the input is cleared and the trimmed text sent. */
  function Submitted(s: HookState, voice: Option<string>, userId: string, placeholderId: string, reply: Reply): HookState {
    var text := Trim(s.input);
    if text == [] || s.isLoading then s
    else Sent(s.(input := ""), voice, s.messages, Message(userId, User, text), placeholderId, map[], reply)
  }

  /** append: a user message is sent; an assistant message is only added. */
  function Appended(s: HookState, voice: Option<string>, role: Role, content: string, id: string, placeholderId: string,
                    extra: map<string, Json>, reply: Reply): HookState
  {
    if role == User then Sent(s, voice, s.messages, Message(id, User, content), placeholderId, extra, reply)
    else s.(messages := s.messages + [Message(id, role, content)])
  }

  /** reload as written: the truncation is set, but sendMessage then builds
      its transcript from the `messages` of the same render, so the
      truncated tail comes back and the last user message is repeated. */
  function ReloadAsWritten(s: HookState, voice: Option<string>, placeholderId: string, reply: Reply): HookState {
    match LastUserIndex(s.messages)
    case None => s
    case Some(i) => Sent(s.(messages := s.messages[..i + 1]), voice, s.messages, s.messages[i], placeholderId, map[], reply)
  }

  /** reload as intended: the transcript up to and including the last user
      message is kept and that message is answered again. */
  function Reloaded(s: HookState, voice: Option<string>, placeholderId: string, reply: Reply): HookState {
    match LastUserIndex(s.messages)
    case None => s
    case Some(i) => Sent(s.(messages := s.messages[..i + 1]), voice, s.messages[..i], s.messages[i], placeholderId, map[], reply)
  }

  // ---------------------------------------------------------------------
  // Properties of sendMessage

  predicate FreshId(id: string, msgs: seq<Message>) {
    forall k :: 0 <= k < |msgs| ==> msgs[k].id != id
  }

  /** Whatever the reply, one request goes out with the transcript up to and
      including the user message (not the placeholder), the loading flag
      ends false, and the active message is announced first and cleared
      last. */
  lemma SendFrame(s: HookState, voice: Option<string>, base: seq<Message>, user: Message, pid: string,
                  extra: map<string, Json>, reply: Reply)
    ensures var t := Sent(s, voice, base, user, pid, extra, reply);
      && t.requests == s.requests + [Request(base + [user], voice, extra)]
      && Body(t.requests[|t.requests| - 1])["messages"]
         == (if "messages" in extra then extra["messages"] else JArr(MessageItems(base + [user])))
      && !t.isLoading && t.input == s.input
      && |t.notices| >= |s.notices| + 2
      && t.notices[..|s.notices| + 1] == s.notices + [ActiveChanged(Some(pid))]
      && t.notices[|t.notices| - 1] == ActiveChanged(None)
  {
    var started := s.(isLoading := true, error := None,
                      messages := base + [user, Message(pid, Assistant, "")],
                      notices := s.notices + [ActiveChanged(Some(pid))],
                      requests := s.requests + [Request(base + [user], voice, extra)]);
    ExchangeExtendsNotices(started, pid, reply);
  }

  lemma ExchangeExtendsNotices(s: HookState, id: string, reply: Reply)
    ensures var t := Exchange(s, id, reply);
      |t.notices| >= |s.notices| && t.notices[..|s.notices|] == s.notices
      && t.requests == s.requests && t.input == s.input && t.isLoading == s.isLoading
  {
  }

  /** A stream that ends normally leaves the user message followed by the
      assistant message holding the whole text, whatever the batching, and
      onFinish receives that same message; no error is set. */
  lemma SendCompletes(s: HookState, voice: Option<string>, base: seq<Message>, user: Message, pid: string,
                      extra: map<string, Json>, status: int, body: ErrorBody, arrivals: seq<Arrival>)
    requires FreshId(pid, base) && user.id != pid
    ensures var t := Sent(s, voice, base, user, pid, extra, Answered(status, true, body, true, arrivals, Done));
      var done := Message(pid, Assistant, Texts(arrivals));
      && t.messages == base + [user, done]
      && t.error == None
      && t.notices == s.notices + [ActiveChanged(Some(pid)), Responded(status), FinishedWith(done), ActiveChanged(None)]
  {
    UpdatePlaceholder(base, user, pid, Texts(arrivals));
  }

  /** Updating the fresh placeholder's id changes only the placeholder. */
  lemma UpdatePlaceholder(base: seq<Message>, user: Message, pid: string, content: string)
    requires FreshId(pid, base) && user.id != pid
    ensures UpdateById(base + [user, Message(pid, Assistant, "")], pid, content)
         == base + [user, Message(pid, Assistant, content)]
  {
    UpdateFreshPrefix(base, [user, Message(pid, Assistant, "")], pid, content);
    assert [user, Message(pid, Assistant, "")][1..] == [Message(pid, Assistant, "")];
  }

  /** A prefix without the id is left as it is. */
  lemma {:induction false} UpdateFreshPrefix(base: seq<Message>, tail: seq<Message>, id: string, content: string)
    requires FreshId(id, base)
    ensures UpdateById(base + tail, id, content) == base + UpdateById(tail, id, content)
  {
    if base != [] {
      assert (base + tail)[1..] == base[1..] + tail;
      assert FreshId(id, base[1..]) by {
        forall k | 0 <= k < |base[1..]| ensures base[1..][k].id != id {
          assert base[1..][k] == base[k + 1];
        }
      }
      UpdateFreshPrefix(base[1..], tail, id, content);
      assert base == [base[0]] + base[1..];
    } else {
      assert base + tail == tail;
    }
  }

  /** A failure before or during the stream sets the error, reports it, and
      removes exactly the empty assistant messages: the placeholder when
      nothing was shown yet, never the user message. */
  lemma SendFails(s: HookState, voice: Option<string>, base: seq<Message>, user: Message, pid: string,
                  extra: map<string, Json>, reply: Reply)
    requires reply.Rejected? || !reply.ok || !reply.hasBody || (reply.end.Broken? && reply.end.fault.Failure?)
    requires user.role == User && FreshId(pid, base) && user.id != pid
    ensures var t := Sent(s, voice, base, user, pid, extra, reply);
      && t.error.Some?
      && ErrorReported(t.error.value) in t.notices
      && user in t.messages
      && (forall m :: m in t.messages ==> !IsEmptyAssistant(m))
      && (forall m :: m in base && !IsEmptyAssistant(m) ==> m in t.messages)
  {
    var msgs := base + [user, Message(pid, Assistant, "")];
    if reply.Answered? && reply.ok && reply.hasBody {
      var b := Batch(reply.arrivals);
      var shown := Shown(msgs, pid, b);
      assert |shown| == |msgs|;
      assert forall k :: 0 <= k < |base| + 1 ==> shown[k] == msgs[k];
      assert shown[|base|] == user;
      assert forall m :: m in base ==> m in shown by {
        forall m | m in base ensures m in shown {
          var k :| 0 <= k < |base| && base[k] == m;
          assert shown[k] == m;
        }
      }
    }
  }

  /** An abort (or a non-Error throw) while reading is swallowed: no final
      flush, no onFinish, no error; what the last intermediate update showed
      stays, and the loading flag and active message are still cleared. */
  lemma SendAborted(s: HookState, voice: Option<string>, base: seq<Message>, user: Message, pid: string,
                    extra: map<string, Json>, status: int, body: ErrorBody, arrivals: seq<Arrival>, fault: Fault)
    requires !fault.Failure?
    ensures var t := Sent(s, voice, base, user, pid, extra, Answered(status, true, body, true, arrivals, Broken(fault)));
      && t.error == None
      && t.messages == Shown(base + [user, Message(pid, Assistant, "")], pid, Batch(arrivals))
      && t.notices == s.notices + [ActiveChanged(Some(pid)), Responded(status), ActiveChanged(None)]
      && !t.isLoading
  {
  }

  /** handleSubmit does nothing exactly when the trimmed input is empty or a
      request is loading; otherwise it clears the input and sends the
      trimmed text as a user message. */
  lemma SubmitGuard(s: HookState, voice: Option<string>, userId: string, pid: string, reply: Reply)
    ensures Submitted(s, voice, userId, pid, reply) == s <== AllWhitespace(s.input) || s.isLoading
    ensures !AllWhitespace(s.input) && !s.isLoading ==>
      var t := Submitted(s, voice, userId, pid, reply);
      && t.input == ""
      && t.requests == s.requests + [Request(s.messages + [Message(userId, User, Trim(s.input))], voice, map[])]
  {
    if !AllWhitespace(s.input) && !s.isLoading {
      SendFrame(s.(input := ""), voice, s.messages, Message(userId, User, Trim(s.input)), pid, map[], reply);
    }
  }

  /** append with a role other than user only adds the message. */
  lemma AppendAssistantOnly(s: HookState, voice: Option<string>, content: string, id: string, pid: string,
                            extra: map<string, Json>, reply: Reply)
    ensures Appended(s, voice, Assistant, content, id, pid, extra, reply)
         == s.(messages := s.messages + [Message(id, Assistant, content)])
  {
  }

  /** reload without any user message does nothing; with one, the request
      is the transcript up to and including the last user message. */
  lemma ReloadResends(s: HookState, voice: Option<string>, pid: string, reply: Reply)
    ensures LastUserIndex(s.messages).None? ==> Reloaded(s, voice, pid, reply) == s
    ensures LastUserIndex(s.messages).Some? ==>
      var i := LastUserIndex(s.messages).value;
      Reloaded(s, voice, pid, reply).requests == s.requests + [Request(s.messages[..i + 1], voice, map[])]
  {
    if LastUserIndex(s.messages).Some? {
      var i := LastUserIndex(s.messages).value;
      assert s.messages[..i] + [s.messages[i]] == s.messages[..i + 1];
    }
  }

  /** As written, reload sends the whole transcript followed by the last
      user message again, so it never agrees with the intended reload: for
      a user message and its answer the request repeats the user message
      after the answer, and for a retry with the user message last it sends
      that message twice. */
  lemma {:induction false} ReloadAsWrittenRepeats(s: HookState, voice: Option<string>, pid: string, reply: Reply)
    requires LastUserIndex(s.messages).Some?
    ensures var i := LastUserIndex(s.messages).value;
      && ReloadAsWritten(s, voice, pid, reply).requests == s.requests + [Request(s.messages + [s.messages[i]], voice, map[])]
      && ReloadAsWritten(s, voice, pid, reply) != Reloaded(s, voice, pid, reply)
  {
    var i := LastUserIndex(s.messages).value;
    SendFrame(s.(messages := s.messages[..i + 1]), voice, s.messages, s.messages[i], pid, map[], reply);
    SendFrame(s.(messages := s.messages[..i + 1]), voice, s.messages[..i], s.messages[i], pid, map[], reply);
    var a := ReloadAsWritten(s, voice, pid, reply).requests;
    var b := Reloaded(s, voice, pid, reply).requests;
    assert |a[|a| - 1].messages| != |b[|b| - 1].messages|;
  }

  // ---------------------------------------------------------------------
  // The hook's state

  class ChatHook {
    const voice: Option<string>
    var messages: seq<Message>
    var input: string
    var isLoading: bool
    var error: Option<string>
    var notices: seq<Notice>
    var requests: seq<Request>

    function State(): HookState
      reads this
    {
      HookState(messages, input, isLoading, error, notices, requests)
    }

    constructor (voice: Option<string>)
      ensures this.voice == voice
      ensures State() == HookState([], "", false, None, [], [])
    {
      this.voice := voice;
      messages, input, isLoading, error, notices, requests := [], "", false, None, [], [];
    }

    /** handleInputChange / setInput. */
    method SetInput(text: string)
      modifies this
      ensures State() == old(State()).(input := text)
    {
      input := text;
    }

    /** The read loop of processStream with its 50 ms throttle: returns the
        accumulated text and leaves the transcript as the intermediate
        updates showed it. */
    method ReadAll(id: string, arrivals: seq<Arrival>) returns (accumulatedContent: string)
      modifies this`messages
      ensures accumulatedContent == Texts(arrivals)
      ensures messages == Shown(old(messages), id, Batch(arrivals))
    {
      ghost var start := messages;
      ghost var b := Batch([]);
      accumulatedContent := "";
      var lastUpdateTime := 0;
      var i := 0;
      while i < |arrivals|
        invariant 0 <= i <= |arrivals|
        invariant b == Batch(arrivals[..i])
        invariant accumulatedContent == b.acc && lastUpdateTime == b.last
        invariant messages == Shown(start, id, b)
      {
        var chunk := arrivals[i];
        BatchSnoc(arrivals, i);
        ShownStep(start, id, b, chunk);
        accumulatedContent := accumulatedContent + chunk.text;
        var now := chunk.now;
        if now - lastUpdateTime >= UpdateInterval {
          messages := UpdateById(messages, id, accumulatedContent);
          lastUpdateTime := now;
        }
        b := Step(b, chunk);
        i := i + 1;
      }
      assert arrivals[..i] == arrivals;
    }

    /** processStream over a body that exists: the read loop, then the final
        flush and onFinish, or the swallowed abort. Returns the message of an
        error it rethrows. */
    method ProcessStream(id: string, arrivals: seq<Arrival>, end: StreamEnd) returns (thrown: Option<string>)
      modifies this`messages, this`notices
      ensures thrown == Rethrown(end)
      ensures messages == Streamed(old(messages), id, arrivals, end)
      ensures notices == old(notices) + (if end.Done? then [FinishedWith(Message(id, Assistant, Texts(arrivals)))] else [])
    {
      ghost var start := messages;
      var accumulatedContent := ReadAll(id, arrivals);
      thrown := None;
      if end.Done? {
        ShownThenUpdate(start, id, Batch(arrivals), accumulatedContent);
        messages := UpdateById(messages, id, accumulatedContent);
        notices := notices + [FinishedWith(Message(id, Assistant, accumulatedContent))];
      } else if end.fault.Failure? {
        thrown := Some(end.fault.message);
      }
    }

    /** sendMessage(user, extra), from a render whose `messages` was `base`. */
    method SendMessage(base: seq<Message>, user: Message, placeholderId: string, extra: map<string, Json>, reply: Reply)
      modifies this
      ensures State() == Sent(old(State()), voice, base, user, placeholderId, extra, reply)
    {
      isLoading := true;
      error := None;
      var updatedMessages := base + [user];
      messages := updatedMessages;
      var assistantMessage := Message(placeholderId, Assistant, "");
      messages := messages + [assistantMessage];
      assert messages == updatedMessages + [assistantMessage];
      notices := notices + [ActiveChanged(Some(placeholderId))];
      requests := requests + [Request(updatedMessages, voice, extra)];
      ghost var started := State();
      assert base + [user, assistantMessage] == updatedMessages + [assistantMessage];
      assert started == old(State()).(isLoading := true, error := None,
                                      messages := base + [user, assistantMessage],
                                      notices := old(notices) + [ActiveChanged(Some(placeholderId))],
                                      requests := old(requests) + [Request(base + [user], voice, extra)]);
      var failure: Option<string> := None;
      match reply {
        case Rejected(f) =>
          failure := Some(FaultMessage(f));
        case Answered(status, ok, body, hasBody, arrivals, end) =>
          notices := notices + [Responded(status)];
          if !ok {
            failure := Some(HttpErrorMessage(status, body));
          } else if !hasBody {
            failure := Some("No response body");
          } else {
            failure := ProcessStream(placeholderId, arrivals, end);
          }
      }
      ghost var settled := State();
      if failure.Some? {
        error := failure;
        notices := notices + [ErrorReported(failure.value)];
        messages := RemoveEmptyAssistants(messages);
        assert State() == Failed(settled, failure.value);
      }
      assert State() == Exchange(started, placeholderId, reply);
      isLoading := false;
      notices := notices + [ActiveChanged(None)];
    }

    /** handleSubmit. */
    method HandleSubmit(userId: string, placeholderId: string, reply: Reply)
      modifies this
      ensures State() == Submitted(old(State()), voice, userId, placeholderId, reply)
    {
      var text := Trim(input);
      if text == [] || isLoading {
        return;
      }
      var userMessage := Message(userId, User, text);
      input := "";
      SendMessage(messages, userMessage, placeholderId, map[], reply);
    }

    /** append. */
    method Append(role: Role, content: string, id: string, placeholderId: string, extra: map<string, Json>, reply: Reply)
      requires role != System
      modifies this
      ensures State() == Appended(old(State()), voice, role, content, id, placeholderId, extra, reply)
    {
      var newMessage := Message(id, role, content);
      if role == User {
        SendMessage(messages, newMessage, placeholderId, extra, reply);
      } else {
        messages := messages + [newMessage];
      }
    }

    /** reload, with the truncated transcript as the one the resent message
        follows. */
    method Reload(placeholderId: string, reply: Reply)
      modifies this
      ensures State() == Reloaded(old(State()), voice, placeholderId, reply)
    {
      var found := LastUserIndex(messages);
      if found.Some? {
        var i := found.value;
        var lastUserMessage := messages[i];
        var messagesToKeep := messages[..i + 1];
        messages := messagesToKeep;
        assert messagesToKeep[..i] == old(messages)[..i];
        SendMessage(messagesToKeep[..i], lastUserMessage, placeholderId, map[], reply);
      }
    }
  }

  lemma BatchSnoc(arrivals: seq<Arrival>, i: nat)
    requires i < |arrivals|
    ensures Batch(arrivals[..i + 1]) == Step(Batch(arrivals[..i]), arrivals[i])
  {
    assert arrivals[..i + 1][..i] == arrivals[..i];
  }

  /** What one read does to the transcript. */
  lemma ShownStep(msgs: seq<Message>, id: string, b: Batching, a: Arrival)
    ensures Shown(msgs, id, Step(b, a))
         == if a.now - b.last >= UpdateInterval then UpdateById(Shown(msgs, id, b), id, b.acc + a.text) else Shown(msgs, id, b)
  {
    if a.now - b.last >= UpdateInterval {
      ShownThenUpdate(msgs, id, b, b.acc + a.text);
    }
  }

  /** One more update after the intermediate ones shows only the newest text. */
  lemma ShownThenUpdate(msgs: seq<Message>, id: string, b: Batching, content: string)
    ensures UpdateById(Shown(msgs, id, b), id, content) == UpdateById(msgs, id, content)
  {
    if b.updates != [] {
      UpdateOverwrites(msgs, id, b.updates[|b.updates| - 1].content, content);
    }
  }
}
