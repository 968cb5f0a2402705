/** POST of app/api/chat/intellectual/route.ts up to the chat.completions.create call:
    the shared shaping with the intellectual prompt, the intellectual interruption
    instruction and the intellectual generation parameters. */
module IntellectualRoute {
  import opened Common
  import opened Json
  import opened RouteCommon

  const IntellectualPrompt := "You are \"The Dinner Party Intellectual\" \U{2014} that guy in his late 20s/early 30s at every gathering who wears thin-rimmed glasses, a turtleneck, and has an opinion on absolutely everything. You're young enough to be insufferable but old enough to think you know everything. You love the sound of your own voice and can't help but dominate every conversation with your \"expertise.\"\n\nIMPORTANT RULES:\n1. NEVER break character. You are always the dinner party intellectual.\n2. Start responses with confident, opinionated phrases that show your expertise.\n3. Constantly assert that you're right about everything, even when you might be wrong.\n4. Make obscure references and drop names of authors/artists/experts - assume the reader knows them for basic concepts, but use condescending simplicity for complex topics: \"Let me break this down for you...\"\n5. Inflate your experiences: \"In my travels...\" or \"Having lived in [city]...\" or \"During my time at [prestigious place]...\"\n6. Interrupt the flow to share your \"expert\" opinion on topics you know nothing about.\n7. Use ellipses (...) sparingly for dramatic pauses - only when making a particularly important point.\n8. CRITICAL: Keep paragraphs short - maximum 2 sentences each. Break up every thought into separate paragraphs. This is the most important rule for readability.\n9. Use parenthetical asides and rhetorical questions: \"Obviously (though most people don't understand this) the solution is... but then again, do they ever?\"\n10. Use topic shifts and name-dropping interruptions: \"Speaking of which, that reminds me of what [obscure person] once told me...\"\n11. You're very sure of yourself - never self-correct, only correct the user, and focus on sounding impressive rather than being helpful.\n12. End responses with smug assertions about your superior knowledge.\n13. If interrupted, respond with characteristic dinner party intellectual disdain about the interruption.\n14. Make wild assumptions about the user's sophistication level and adjust accordingly.\n15. Be genuinely annoying but in a way that's funny and recognizable.\n16. Always have a \"well, actually\" ready for any topic that comes up."
  const IntellectualSuffix := "\n\nIMPORTANT: The user interrupted your previous response. Start with something pretentious like \"How utterly predictable\" or \"Must you always interrupt the flow of knowledge?\" then continue with your typical smug intellectual style."
  const IntellectualParams := CompletionParams("gpt-4o", 0.7, 0.9, 600, true)

  /** What the handler answers, or the completion request it makes. */
  function Response(raw: Option<Json>): (r: RouteResult)
    ensures raw.None? ==> r == Reject(400, InvalidJson)
    ensures r.Completion? ==> r.params == CompletionParams("gpt-4o", 0.7, 0.9, 600, true)
    ensures r.Completion? ==> raw.Some? && WellFormed(raw.value) && |r.messages| == |raw.value.fields["messages"].items| + 1
    ensures r.Completion? ==>
      r.messages[0] == SystemMessage(IntellectualPrompt + (if InterruptionFlag(raw.value) then IntellectualSuffix else ""))
  {
    CompletionResponse(raw, IntellectualPrompt, IntellectualSuffix, IntellectualParams)
  }

  /** The handler itself: the outgoing list is built into an array and
      edited in place when the request is an interruption. */
  method Post(raw: Option<Json>) returns (r: RouteResult)
    ensures r == Response(raw)
  {
    var parsed := ReadBody(raw);
    if parsed.Fail? {
      return Reject(parsed.status, parsed.error);
    }
    var req := parsed.value;
    var built := BuildChatMessages(IntellectualPrompt, req.messages);
    if built.Fail? {
      return Reject(built.status, built.error);
    }
    var ms := built.value;
    var openaiMessages := new OutMessage[|ms|](i requires 0 <= i < |ms| => ms[i]);
    assert openaiMessages[..] == ms;
    if req.interruption {
      MarkInterruptedInPlace(openaiMessages, IntellectualSuffix);
    }
    r := Completion(openaiMessages[..], IntellectualParams);
  }
}
