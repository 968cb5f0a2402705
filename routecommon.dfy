/** The request shaping the four persona routes (app/api/chat/<persona>/
    route.ts) share before any network call: body parsing, the
    three-location interruption flag, the `messages` check, the outgoing
    message list and the "[INTERRUPTED] " rewrite of a last user message.
    Exceptions the handlers catch become `Fail(500, …)`. */
module RouteCommon {
  import opened Common
  import opened Json

  const InvalidJson := "Invalid JSON in request body"
  const InvalidMessages := "Invalid messages format"
  const InternalError := "Internal server error"
  const InvalidKey := "OpenAI API key is missing or invalid"
  const InterruptedTag := "[INTERRUPTED] "

  /** A step that either yields a value or ends the request with an HTTP
      error status and the `error` field of the JSON response. */
  datatype Checked<T> = Ok(value: T) | Fail(status: int, error: string)

  datatype CompletionParams = CompletionParams(model: string, temperature: real, topP: real, maxTokens: nat, stream: bool)
  datatype SdkParams = SdkParams(model: string, temperature: real, topP: real, maxTokens: nat)

  /** One element of the list sent to chat.completions.create. */
  datatype OutMessage = OutMessage(role: Option<Json>, content: Option<Json>)

  /** What a handler does with a request: answer with an error, call
      chat.completions.create, or call the SDK's streamText. */
  datatype RouteResult =
    | Reject(status: int, error: string)
    | Completion(messages: seq<OutMessage>, params: CompletionParams)
    | StreamText(items: seq<Json>, system: string, sdk: SdkParams)

  /** A parsed body with a `messages` array. */
  datatype Request = Request(messages: seq<Json>, interruption: bool)

  /** checkOpenAIApiKey on the value of OPENAI_API_KEY (None when unset). */
  predicate KeyValid(key: Option<string>) {
    key.Some? && key.value != "" && IsPrefix("sk-", key.value)
  }

  predicate WellFormed(body: Json) {
    body.JObj? && "messages" in body.fields && body.fields["messages"].JArr?
  }

  /** The interruption flag, looked up in `body.options.body.data`, then
      `body.data`, then `body` itself. */
  function InterruptionFlag(body: Json): (r: bool)
    ensures r <==> (Truthy(At(body, ["options", "body", "data", "isInterruption"]))
                    || Truthy(At(body, ["data", "isInterruption"]))
                    || Truthy(At(body, ["isInterruption"])))
  {
    var viaOptions := OptProp(OptProp(OptProp(Prop(body, "options"), "body"), "data"), "isInterruption");
    var viaData := OptProp(Prop(body, "data"), "isInterruption");
    var direct := Prop(body, "isInterruption");
    ChainAt(body, ["options", "body", "data", "isInterruption"]);
    ChainAt(body, ["data", "isInterruption"]);
    ChainAt(body, ["isInterruption"]);
    if Truthy(viaOptions) then true
    else if Truthy(viaData) then true
    else Truthy(direct)
  }

  /** `body.k0?.k1?.…?.kn` walks the same path as `At`. */
  function Chain(v: Option<Json>, path: seq<string>): Option<Json>
    decreases |path|
  {
    if path == [] then v else Chain(OptProp(v, path[0]), path[1..])
  }

  lemma {:induction false} ChainAt(body: Json, path: seq<string>)
    requires path != []
    ensures Chain(Prop(body, path[0]), path[1..]) == At(body, path)
    ensures path == ["isInterruption"] ==> Prop(body, path[0]) == At(body, path)
    ensures path == ["data", "isInterruption"] ==>
      OptProp(Prop(body, "data"), "isInterruption") == At(body, path)
    ensures path == ["options", "body", "data", "isInterruption"] ==>
      OptProp(OptProp(OptProp(Prop(body, "options"), "body"), "data"), "isInterruption") == At(body, path)
  {
    if body.JObj? && path[0] in body.fields {
      ChainFrom(body.fields[path[0]], path[1..]);
    } else {
      ChainNone(path[1..]);
    }
    if path == ["isInterruption"] {
      assert path[1..] == [];
    } else if path == ["data", "isInterruption"] {
      assert path[1..] == ["isInterruption"] && path[1..][1..] == [];
    } else if path == ["options", "body", "data", "isInterruption"] {
      var p1 := path[1..];
      assert p1 == ["body", "data", "isInterruption"];
      assert p1[1..] == ["data", "isInterruption"];
      assert p1[1..][1..] == ["isInterruption"];
      assert p1[1..][1..][1..] == [];
      var x1 := OptProp(Prop(body, "options"), "body");
      var x2 := OptProp(x1, "data");
      assert Chain(Prop(body, "options"), p1) == Chain(x1, p1[1..]);
      assert Chain(x1, p1[1..]) == Chain(x2, p1[1..][1..]);
      assert Chain(x2, p1[1..][1..]) == OptProp(x2, "isInterruption");
    }
  }

  lemma {:induction false} ChainFrom(v: Json, path: seq<string>)
    ensures Chain(Some(v), path) == At(v, path)
    decreases |path|
  {
    if path != [] {
      if v.JObj? && path[0] in v.fields {
        ChainFrom(v.fields[path[0]], path[1..]);
      } else {
        ChainNone(path[1..]);
      }
    }
  }

  lemma {:induction false} ChainNone(path: seq<string>)
    ensures Chain(None, path) == None
    decreases |path|
  {
    if path != [] {
      ChainNone(path[1..]);
    }
  }

  /** `await req.json()` (None when the body is not JSON), the destructuring
      `const { messages } = body`, the flag and the `messages` check. */
  function ReadBody(raw: Option<Json>): (r: Checked<Request>)
    ensures raw.None? ==> r == Fail(400, InvalidJson)
    ensures raw == Some(JNull) ==> r == Fail(500, InternalError)
    ensures raw.Some? && raw.value != JNull && !WellFormed(raw.value) ==> r == Fail(400, InvalidMessages)
    ensures r.Ok? <==> raw.Some? && WellFormed(raw.value)
    ensures r.Ok? ==> r.value == Request(raw.value.fields["messages"].items, InterruptionFlag(raw.value))
  {
    match raw
    case None => Fail(400, InvalidJson)
    case Some(body) =>
      if body.JNull? then Fail(500, InternalError)
      else
      var messages := Prop(body, "messages");
      var interruption := InterruptionFlag(body);
      if !Truthy(messages) || !messages.value.JArr? then Fail(400, InvalidMessages)
      else Ok(Request(messages.value.items, interruption))
  }

  // ---------------------------------------------------------------------
  // The chat.completions list (teenager and intellectual routes)

  function SystemMessage(prompt: string): OutMessage {
    OutMessage(Some(JStr("system")), Some(JStr(prompt)))
  }

  /** `{ role: msg.role, content: msg.content }` for an item that is not null. */
  function Project(item: Json): OutMessage {
    OutMessage(Prop(item, "role"), Prop(item, "content"))
  }

  predicate HasNull(items: seq<Json>) {
    exists k :: 0 <= k < |items| && items[k] == JNull
  }

  /** `messages.map(...)`: reading a field of a null item throws. */
  function ProjectAll(items: seq<Json>): (r: Checked<seq<OutMessage>>)
    ensures r.Fail? <==> HasNull(items)
    ensures r.Fail? ==> r == Fail(500, InternalError)
    ensures r.Ok? ==> |r.value| == |items| && forall k :: 0 <= k < |items| ==> r.value[k] == Project(items[k])
  {
    if items == [] then Ok([])
    else if items[0] == JNull then Fail(500, InternalError)
    else
      match ProjectAll(items[1..])
      case Fail(s, e) =>
        assert HasNull(items) by {
          var k :| 0 <= k < |items[1..]| && items[1..][k] == JNull;
          assert items[k + 1] == JNull;
        }
        Fail(s, e)
      case Ok(rest) =>
        assert !HasNull(items) by {
          forall k | 0 <= k < |items| ensures items[k] != JNull {
            if k > 0 { assert items[k] == items[1..][k - 1]; }
          }
        }
        Ok([Project(items[0])] + rest)
  }

  /** The outgoing list: the system message, then each incoming message's
      role and content in order. */
  function BuildChatMessages(prompt: string, items: seq<Json>): (r: Checked<seq<OutMessage>>)
    ensures r.Fail? <==> HasNull(items)
    ensures r.Fail? ==> r == Fail(500, InternalError)
    ensures r.Ok? ==> |r.value| == |items| + 1 && r.value[0] == SystemMessage(prompt)
    ensures r.Ok? ==> forall k :: 0 <= k < |items| ==> r.value[k + 1] == Project(items[k])
  {
    match ProjectAll(items)
    case Fail(s, e) => Fail(s, e)
    case Ok(rest) => Ok([SystemMessage(prompt)] + rest)
  }

  predicate IsUser(m: OutMessage) {
    m.role == Some(JStr("user"))
  }

  /** `` `[INTERRUPTED] ${content}` `` */
  function Tagged(content: Option<Json>): (r: Json)
    ensures r.JStr? && IsPrefix(InterruptedTag, r.s)
    ensures r.s[|InterruptedTag|..] == ToJsString(content)
  {
    JStr(InterruptedTag + ToJsString(content))
  }

  /** `m.content += suffix` */
  function WithSuffix(m: OutMessage, suffix: string): OutMessage {
    m.(content := Some(JStr(ToJsString(m.content) + suffix)))
  }

  /** The interruption edits on the outgoing list: a last message (other
      than the system message) whose role is "user" gets its content tagged,
      and the system message gets the persona's suffix. */
  function MarkInterrupted(ms: seq<OutMessage>, suffix: string): (r: seq<OutMessage>)
    requires |ms| > 0
    ensures |r| == |ms|
    ensures forall k :: 0 <= k < |ms| ==> r[k].role == ms[k].role
    ensures r[0] == WithSuffix(ms[0], suffix)
    ensures forall k :: 0 < k < |ms| - 1 ==> r[k] == ms[k]
    ensures |ms| > 1 ==> r[|ms| - 1].content == (if IsUser(ms[|ms| - 1]) then Some(Tagged(ms[|ms| - 1].content)) else ms[|ms| - 1].content)
  {
    var n := |ms|;
    var tagged := if n > 1 && IsUser(ms[n - 1]) then ms[n - 1 := ms[n - 1].(content := Some(Tagged(ms[n - 1].content)))] else ms;
    tagged[0 := WithSuffix(tagged[0], suffix)]
  }

  /** The same edits, performed in place on `openaiMessages`. */
  method MarkInterruptedInPlace(a: array<OutMessage>, suffix: string)
    requires a.Length > 0
    modifies a
    ensures a[..] == MarkInterrupted(old(a[..]), suffix)
  {
    var n := a.Length;
    if n > 1 && a[n - 1].role == Some(JStr("user")) {
      var lastUserMessage := a[n - 1].content;
      a[n - 1] := a[n - 1].(content := Some(Tagged(lastUserMessage)));
    }
    a[0] := a[0].(content := Some(JStr(ToJsString(a[0].content) + suffix)));
  }

  /** A teenager or intellectual POST: parse, validate, build the list, apply
      the interruption edits and call the completion endpoint. */
  function CompletionResponse(raw: Option<Json>, prompt: string, suffix: string, params: CompletionParams): (r: RouteResult)
    ensures raw.None? ==> r == Reject(400, InvalidJson)
    ensures raw.Some? && raw.value != JNull && !WellFormed(raw.value) ==> r == Reject(400, InvalidMessages)
    ensures r.Reject? || r.Completion?
    ensures r.Completion? <==> raw.Some? && WellFormed(raw.value) && !HasNull(raw.value.fields["messages"].items)
    ensures r.Completion? ==> r.params == params
    ensures r.Completion? ==>
      var items := raw.value.fields["messages"].items;
      var interrupted := InterruptionFlag(raw.value);
      && |r.messages| == |items| + 1
      && r.messages[0] == SystemMessage(prompt + (if interrupted then suffix else ""))
      && (forall k :: 0 <= k < |items| - 1 ==> r.messages[k + 1] == Project(items[k]))
      && (|items| > 0 ==>
            var last := Project(items[|items| - 1]);
            r.messages[|items|] == if interrupted && IsUser(last) then last.(content := Some(Tagged(last.content))) else last)
  {
    match ReadBody(raw)
    case Fail(s, e) => Reject(s, e)
    case Ok(req) =>
      match BuildChatMessages(prompt, req.messages)
      case Fail(s, e) => Reject(s, e)
      case Ok(ms) =>
        assert ToJsString(ms[0].content) == prompt;
        assert prompt + "" == prompt;
        Completion(if req.interruption then MarkInterrupted(ms, suffix) else ms, params)
  }

  /** Without the flag the outgoing list is exactly the system message
      followed by the projected incoming messages. */
  lemma UninterruptedIsProjection(raw: Option<Json>, prompt: string, suffix: string, params: CompletionParams)
    requires raw.Some? && WellFormed(raw.value) && !InterruptionFlag(raw.value)
    requires !HasNull(raw.value.fields["messages"].items)
    ensures var items := raw.value.fields["messages"].items;
      var r := CompletionResponse(raw, prompt, suffix, params);
      && r == Completion(r.messages, params)
      && |r.messages| == |items| + 1
      && r.messages[0] == SystemMessage(prompt)
      && (forall k :: 0 <= k < |items| ==> r.messages[k + 1] == Project(items[k]))
  {
    var items := raw.value.fields["messages"].items;
    var ms := BuildChatMessages(prompt, items);
    assert ReadBody(raw) == Ok(Request(items, false));
    assert CompletionResponse(raw, prompt, suffix, params) == Completion(ms.value, params);
  }

  // ---------------------------------------------------------------------
  // The incoming list handed to streamText (grandma and exec routes)

  predicate IsUserItem(item: Json) {
    Prop(item, "role") == Some(JStr("user"))
  }

  /** The interruption edit on the incoming `messages` array: a last item
      whose role is "user" has its content tagged and keeps every other
      field; reading the role of a null last item throws. */
  function TagLastUser(items: seq<Json>): (r: Checked<seq<Json>>)
    ensures r.Fail? <==> |items| > 0 && items[|items| - 1] == JNull
    ensures r.Fail? ==> r == Fail(500, InternalError)
    ensures r.Ok? ==> |r.value| == |items| && forall k :: 0 <= k < |items| - 1 ==> r.value[k] == items[k]
    ensures r.Ok? && |items| > 0 && !IsUserItem(items[|items| - 1]) ==> r.value == items
    ensures r.Ok? && |items| > 0 && IsUserItem(items[|items| - 1]) ==>
      var last, edited := items[|items| - 1], r.value[|items| - 1];
      && edited.JObj?
      && Prop(edited, "content") == Some(Tagged(Prop(last, "content")))
      && (forall key :: key != "content" ==> Prop(edited, key) == Prop(last, key))
  {
    if items == [] then Ok(items)
    else
      var n := |items|;
      var last := items[n - 1];
      if last.JNull? then Fail(500, InternalError)
      else if IsUserItem(last) then Ok(items[n - 1 := JObj(last.fields["content" := Tagged(Prop(last, "content"))])])
      else Ok(items)
  }

  /** The same edit, performed in place on the parsed `messages` array;
      `thrown` reports the TypeError of a null last item. */
  method TagLastUserInPlace(a: array<Json>) returns (thrown: bool)
    modifies a
    ensures thrown <==> a.Length > 0 && old(a[a.Length - 1]) == JNull
    ensures thrown ==> a[..] == old(a[..])
    ensures !thrown ==> a[..] == TagLastUser(old(a[..])).value
  {
    thrown := false;
    var n := a.Length;
    if n > 0 {
      var last := a[n - 1];
      if last.JNull? {
        thrown := true;
      } else if Prop(last, "role") == Some(JStr("user")) {
        var lastUserMessage := Prop(last, "content");
        a[n - 1] := JObj(last.fields["content" := Tagged(lastUserMessage)]);
      }
    }
  }

  /** A grandma or exec POST: the key check, parsing, validation, the system
      prompt chosen by the flag, and the in-place edit of the last item. */
  function SdkResponse(key: Option<string>, raw: Option<Json>, prompt: string, interruptedPrompt: string, sdk: SdkParams): (r: RouteResult)
    ensures !KeyValid(key) ==> r == Reject(500, InvalidKey)
    ensures KeyValid(key) && raw.None? ==> r == Reject(400, InvalidJson)
    ensures KeyValid(key) && raw.Some? && raw.value != JNull && !WellFormed(raw.value) ==> r == Reject(400, InvalidMessages)
    ensures r.Reject? || r.StreamText?
    ensures r.StreamText? <==>
      && KeyValid(key) && raw.Some? && WellFormed(raw.value)
      && !(InterruptionFlag(raw.value) && TagLastUser(raw.value.fields["messages"].items).Fail?)
    ensures r.StreamText? ==>
      var items := raw.value.fields["messages"].items;
      var interrupted := InterruptionFlag(raw.value);
      && r.sdk == sdk
      && r.system == (if interrupted then interruptedPrompt else prompt)
      && r.items == (if interrupted then TagLastUser(items).value else items)
  {
    if !KeyValid(key) then Reject(500, InvalidKey)
    else
      match ReadBody(raw)
      case Fail(s, e) => Reject(s, e)
      case Ok(req) =>
        if !req.interruption then StreamText(req.messages, prompt, sdk)
        else
          match TagLastUser(req.messages)
          case Fail(s, e) => Reject(s, e)
          case Ok(items) => StreamText(items, interruptedPrompt, sdk)
  }

  /** A flag placed at `body.options.body.isInterruption` (one level short of
      the first location looked up) is not detected. */
  lemma NestedFlagMissed()
    ensures exists body: Json :: Truthy(At(body, ["options", "body", "isInterruption"])) && !InterruptionFlag(body)
  {
    var body := JObj(map["options" := JObj(map["body" := JObj(map["isInterruption" := JBool(true)])])]);
    var flag := JObj(map["isInterruption" := JBool(true)]);
    assert At(body, ["options", "body", "isInterruption"]) == Some(JBool(true)) by {
      assert ["options", "body", "isInterruption"][1..] == ["body", "isInterruption"];
      assert ["body", "isInterruption"][1..] == ["isInterruption"];
      assert ["isInterruption"][1..] == [];
    }
    assert !Truthy(At(body, ["options", "body", "data", "isInterruption"])) by {
      var p := ["options", "body", "data", "isInterruption"];
      assert p[1..] == ["body", "data", "isInterruption"];
      assert p[1..][1..] == ["data", "isInterruption"];
      assert At(flag, ["data", "isInterruption"]) == None;
    }
    assert At(body, ["data", "isInterruption"]) == None;
    assert At(body, ["isInterruption"]) == None;
  }
}
