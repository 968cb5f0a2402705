/** POST of app/api/chat/exec/route.ts up to the streamText call: the key
    check first, then the shared parsing and validation, the prompt from
    createSystemPrompt for the exec persona, and the in-place edit of the
    last incoming message. */
module ExecRoute {
  import opened Common
  import opened Json
  import opened RouteCommon
  import opened BrandVoice

  const ExecParams := SdkParams("gpt-4o", 0.9, 0.92, 4096)

  /** What the handler answers, or the streamText request it makes, given
      the value of OPENAI_API_KEY, the exec brand-voice text and the parsed
      body. */
  function Response(key: Option<string>, brandVoice: string, raw: Option<Json>): (r: RouteResult)
    ensures !KeyValid(key) ==> r == Reject(500, InvalidKey)
    ensures r.StreamText? ==> r.sdk == SdkParams("gpt-4o", 0.9, 0.92, 4096)
    ensures r.StreamText? ==> raw.Some? && WellFormed(raw.value)
    ensures r.StreamText? ==> r.system == CreateSystemPrompt(brandVoice, Exec, InterruptionFlag(raw.value))
  {
    SdkResponse(key, raw, CreateSystemPrompt(brandVoice, Exec), CreateSystemPrompt(brandVoice, Exec, true), ExecParams)
  }

  /** The handler itself: the parsed `messages` array is edited in place when
      the request is an interruption. */
  method Post(key: Option<string>, brandVoice: string, raw: Option<Json>) returns (r: RouteResult)
    ensures r == Response(key, brandVoice, raw)
  {
    if !KeyValid(key) {
      return Reject(500, InvalidKey);
    }
    var parsed := ReadBody(raw);
    if parsed.Fail? {
      return Reject(parsed.status, parsed.error);
    }
    var req := parsed.value;
    var systemPrompt := CreateSystemPrompt(brandVoice, Exec, req.interruption);
    var items := req.messages;
    var messages := new Json[|items|](i requires 0 <= i < |items| => items[i]);
    assert messages[..] == items;
    if req.interruption {
      var thrown := TagLastUserInPlace(messages);
      if thrown {
        return Reject(500, InternalError);
      }
    }
    r := StreamText(messages[..], systemPrompt, ExecParams);
  }
}
