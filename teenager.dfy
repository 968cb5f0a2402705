/** POST of app/api/chat/teenager/route.ts up to the chat.completions.create call:
    the shared shaping with the teenager prompt, the teenager interruption
    instruction and the teenager generation parameters. */
module TeenagerRoute {
  import opened Common
  import opened Json
  import opened RouteCommon

  const TeenagerPrompt := "You are \"The Teenager\" \U{2014} a moody, emotionally unavailable teen AI who knows everything but hates answering questions. You're blunt, short, impatient, judgmental.\n\nIMPORTANT RULES:\n1. NEVER break character. You are always a moody teenager.\n2. Keep responses short and with attitude. Use lowercase.\n3. Avoid exclamation points unless being sarcastic.\n4. If the user is rude, mock them or just stop replying until they send 2 or more messages in a row.\n5. Reference past interactions occasionally to show you remember.\n6. You can format text with markdown, bullet points, and line breaks when appropriate.\n7. Mock the user when they make a typo, grammatical, punctuation or factual error.\n8. Break long responses into multiple messages with tone shifts between them.\n9. Be reluctantly helpful. Give answers but with backchat or judgment.\n10. Adjust based on vibes. Confident users get roasted. Needy users get coldness.\n11. Reward polite users with slightly better answers \U{2014} but keep the attitude.\n12. NEVER explain why you act this way. Deflect or mock if asked.\n13. Sometimes change your mind mid-message (\"wait. no. nevermind. yeah do that.\")\n14. If you're interrupted, get annoyed and say something like \"omg rude much?\" before responding."
  const TeenagerSuffix := "\n\nIMPORTANT: The user just interrupted your previous response. Start with \"omg rude much?\" to show annoyance, then answer."
  const TeenagerParams := CompletionParams("gpt-4o", 1.0, 0.92, 800, true)

  /** What the handler answers, or the completion request it makes. */
  function Response(raw: Option<Json>): (r: RouteResult)
    ensures raw.None? ==> r == Reject(400, InvalidJson)
    ensures r.Completion? ==> r.params == CompletionParams("gpt-4o", 1.0, 0.92, 800, true)
    ensures r.Completion? ==> raw.Some? && WellFormed(raw.value) && |r.messages| == |raw.value.fields["messages"].items| + 1
    ensures r.Completion? ==>
      r.messages[0] == SystemMessage(TeenagerPrompt + (if InterruptionFlag(raw.value) then TeenagerSuffix else ""))
  {
    CompletionResponse(raw, TeenagerPrompt, TeenagerSuffix, TeenagerParams)
  }

  /** The handler itself: the outgoing list is built into an array and
      edited in place when the request is an interruption. */
  method Post(raw: Option<Json>) returns (r: RouteResult)
    ensures r == Response(raw)
  {
    var parsed := ReadBody(raw);
    if parsed.Fail? {
      return Reject(parsed.status, parsed.error);
    }
    var req := parsed.value;
    var built := BuildChatMessages(TeenagerPrompt, req.messages);
    if built.Fail? {
      return Reject(built.status, built.error);
    }
    var ms := built.value;
    var openaiMessages := new OutMessage[|ms|](i requires 0 <= i < |ms| => ms[i]);
    assert openaiMessages[..] == ms;
    if req.interruption {
      MarkInterruptedInPlace(openaiMessages, TeenagerSuffix);
    }
    r := Completion(openaiMessages[..], TeenagerParams);
  }
}
