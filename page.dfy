/** The chat page's own state machine (app/page.tsx): the selected persona,
    the assistant message being typed (`activeMessageId`), a pending
    interruption (`isInterrupting`, `interruptionMessage`) and the per-model
    history of transcripts and completed message ids. The chat SDK the page
    drives is outside the model: its transcript, input and loading flag are
    fields the SDK sets, and the calls the page makes on it (submit, stop,
    append) are logged. */
module Page {
  import opened Common

  /** An entry of the model picker. */
  datatype ModelInfo = ModelInfo(id: string, enabled: bool)

  /** The four pickable personas, all enabled; the first is selected on
      mount. */
  const Models: seq<ModelInfo> := [ModelInfo("teenager", true), ModelInfo("grandma", true),
                                   ModelInfo("intellectual", true), ModelInfo("exec", true)]

  /** One model's saved transcript and the ids of its completed messages. */
  datatype History = History(messages: seq<Message>, completedIds: seq<string>)

  /** `chatHistoryByModel`, keyed by model id. */
  type Histories = map<string, History>

  /** `prev[id] || { messages: [], completedMessageIds: [] }`. */
  function HistoryOf(h: Histories, modelId: string): History {
    if modelId in h then h[modelId] else History([], [])
  }

  /** How often `x` occurs in `s`. */
  function Occurrences(s: seq<string>, x: string): nat {
    multiset(s)[x]
  }

  // ---------------------------------------------------------------------
  // The history updaters

  /** onFinish's updater: the finished id is appended to the current
      model's completed ids, without looking for it first. */
  function WithCompleted(h: Histories, modelId: string, msgId: string): (r: Histories)
    ensures r.Keys == h.Keys + {modelId}
    ensures forall m :: m in h && m != modelId ==> r[m] == h[m]
  {
    var prior := HistoryOf(h, modelId);
    h[modelId := prior.(completedIds := prior.completedIds + [msgId])]
  }

  /** The interrupt path's updater: the active id is added only when it is
      not already among the completed ids; otherwise the map is returned
      as it was. */
  function WithCompletedOnce(h: Histories, modelId: string, msgId: string): (r: Histories)
    ensures forall m :: m in h && m != modelId ==> m in r && r[m] == h[m]
    ensures msgId in HistoryOf(r, modelId).completedIds
  {
    if msgId in HistoryOf(h, modelId).completedIds then h else WithCompleted(h, modelId, msgId)
  }

  /** The history effect: a non-empty transcript is saved under the current
      model, keeping that model's completed ids; an empty one changes
      nothing. */
  function Synced(h: Histories, modelId: string, chat: seq<Message>): (r: Histories)
    ensures forall m :: m in h && m != modelId ==> m in r && r[m] == h[m]
  {
    if |chat| > 0 then h[modelId := History(chat, HistoryOf(h, modelId).completedIds)] else h
  }

  // ---------------------------------------------------------------------
  // The page state and its transitions

  /** The calls the page makes on the chat SDK. */
  datatype PageCall =
    | Submit                                          // handleSubmit(e)
    | Stop                                            // stop()
    | AppendUser(content: string, isInterruption: bool)  // append({ role: "user", content }, ...)

  datatype PageState = PageState(
    selected: ModelInfo,
    activeMessageId: Option<string>,
    isInterrupting: bool,
    interruptionMessage: string,
    histories: Histories,
    chatMessages: seq<Message>,
    input: string,
    isLoading: bool,
    showWelcome: bool,
    calls: seq<PageCall>)

  /** `activeMessageId` is truthy: set and not the empty string. */
  predicate HasActive(s: PageState) {
    s.activeMessageId.Some? && s.activeMessageId.value != ""
  }

  /** The completed ids of the selected model, as a render reads them. */
  function Completed(s: PageState): seq<string> {
    HistoryOf(s.histories, s.selected.id).completedIds
  }

  /** handleFormSubmit: while a message is being typed and the request is
      loading, the input is kept as the pending interruption, cleared, the
      active message is marked completed and the stream stopped; otherwise
      the SDK's own submit runs. */
  function FormSubmitted(s: PageState): PageState {
    if HasActive(s) && s.isLoading then
      s.(input := "", isInterrupting := true, interruptionMessage := s.input,
         histories := WithCompletedOnce(s.histories, s.selected.id, s.activeMessageId.value),
         calls := s.calls + [Stop])
    else
      s.(calls := s.calls + [Submit])
  }

  /** onFinish(message): the id is recorded as completed; a pending
      interruption with text is cleared and its text sent as an interrupting
      user message (the 100 ms delay is taken as elapsed); otherwise only
      the active message and the interrupting flag are cleared. */
  function Finished(s: PageState, msgId: string): PageState {
    var h := WithCompleted(s.histories, s.selected.id, msgId);
    if s.isInterrupting && s.interruptionMessage != "" then
      s.(histories := h, isInterrupting := false, interruptionMessage := "", activeMessageId := None,
         calls := s.calls + [AppendUser(s.interruptionMessage, true)])
    else
      s.(histories := h, activeMessageId := None, isInterrupting := false)
  }

  /** onResponse: when the transcript ends with an assistant message, that
      message becomes the active one. */
  function Responded(s: PageState): PageState {
    if |s.chatMessages| > 0 && s.chatMessages[|s.chatMessages| - 1].role == Assistant then
      s.(activeMessageId := Some(s.chatMessages[|s.chatMessages| - 1].id))
    else s
  }

  /** onError: the pending interruption is dropped. */
  function Errored(s: PageState): PageState {
    s.(isInterrupting := false, interruptionMessage := "")
  }

  /** The history effect, run after a render in which the transcript or the
      selected model changed. */
  function HistorySynced(s: PageState): PageState {
    s.(histories := Synced(s.histories, s.selected.id, s.chatMessages))
  }

  /** handleModelChange: ignored for a disabled model. Otherwise the current
      transcript is saved under the old model (with the completed ids the
      render saw), the model is selected, and the target's history as the
      render saw it is restored when it has messages; failing that, a
      non-empty transcript is cleared and the welcome screen shown. */
  function ModelChanged(s: PageState, model: ModelInfo): PageState {
    if !model.enabled then s
    else
      var saved := Synced(s.histories, s.selected.id, s.chatMessages);
      var s1 := s.(histories := saved, selected := model);
      if model.id in s.histories && |s.histories[model.id].messages| > 0 then
        s1.(chatMessages := s.histories[model.id].messages, showWelcome := false)
      else if |s.chatMessages| > 0 then
        s1.(chatMessages := [], showWelcome := true)
      else s1
  }

  // ---------------------------------------------------------------------
  // Properties of the updaters

  /** onFinish's updater adds one occurrence of the id even when it is
      already recorded, and touches nothing else of that model. */
  lemma CompletedUnchecked(h: Histories, modelId: string, msgId: string)
    ensures var r := HistoryOf(WithCompleted(h, modelId, msgId), modelId);
      && r.messages == HistoryOf(h, modelId).messages
      && r.completedIds == HistoryOf(h, modelId).completedIds + [msgId]
      && Occurrences(r.completedIds, msgId) == Occurrences(HistoryOf(h, modelId).completedIds, msgId) + 1
  {
  }

  /** The interrupt path's updater records the id at most once and is
      idempotent. */
  lemma CompletedOnce(h: Histories, modelId: string, msgId: string)
    ensures var r := WithCompletedOnce(h, modelId, msgId);
      && WithCompletedOnce(r, modelId, msgId) == r
      && HistoryOf(r, modelId).messages == HistoryOf(h, modelId).messages
      && Occurrences(HistoryOf(r, modelId).completedIds, msgId)
         == if msgId in HistoryOf(h, modelId).completedIds then Occurrences(HistoryOf(h, modelId).completedIds, msgId) else 1
  {
    var c := HistoryOf(h, modelId).completedIds;
    if msgId !in c {
      assert multiset(c)[msgId] == 0;
    }
  }

  /** Saving a transcript keeps the model's completed ids, and saving the
      same transcript again changes nothing. */
  lemma SyncedKeepsCompleted(h: Histories, modelId: string, chat: seq<Message>)
    ensures var r := Synced(h, modelId, chat);
      && HistoryOf(r, modelId).completedIds == HistoryOf(h, modelId).completedIds
      && (|chat| > 0 ==> HistoryOf(r, modelId).messages == chat)
      && (chat == [] ==> r == h)
      && Synced(r, modelId, chat) == r
  {
  }

  // ---------------------------------------------------------------------
  // Properties of the transitions

  /** Submitting takes the interrupt path exactly when a message is active
      and the request is loading: the input becomes the pending message and
      is cleared, the active message counts as completed and the stream is
      stopped, and nothing else changes; otherwise only the SDK's submit is
      called. */
  lemma SubmitPaths(s: PageState)
    ensures var t := FormSubmitted(s);
      && (t.calls == s.calls + [Stop] <==> HasActive(s) && s.isLoading)
      && (t.calls == s.calls + [Submit] <==> !(HasActive(s) && s.isLoading))
      && (HasActive(s) && s.isLoading ==>
            && t.input == "" && t.isInterrupting && t.interruptionMessage == s.input
            && t.activeMessageId == s.activeMessageId && t.chatMessages == s.chatMessages
            && s.activeMessageId.value in Completed(t)
            && HistoryOf(t.histories, s.selected.id).messages == HistoryOf(s.histories, s.selected.id).messages
            && (forall m :: m in s.histories && m != s.selected.id ==> m in t.histories && t.histories[m] == s.histories[m]))
      && (!(HasActive(s) && s.isLoading) ==> t == s.(calls := s.calls + [Submit]))
  {
    var t := FormSubmitted(s);
    if HasActive(s) && s.isLoading {
      CompletedOnce(s.histories, s.selected.id, s.activeMessageId.value);
      assert t.calls[|s.calls|] == Stop;
    } else {
      assert t.calls[|s.calls|] == Submit;
    }
    assert (s.calls + [Stop])[|s.calls|] == Stop && (s.calls + [Submit])[|s.calls|] == Submit;
  }

  /** A second submit while the first interruption is still pending records
      the active id no more often, but replaces the pending text by the
      input the first submit cleared, so nothing will be resent. */
  lemma SecondInterruptDropsText(s: PageState)
    requires HasActive(s) && s.isLoading
    ensures var t := FormSubmitted(FormSubmitted(s));
      && t.histories == FormSubmitted(s).histories
      && t.interruptionMessage == ""
      && t.calls == s.calls + [Stop, Stop]
  {
    CompletedOnce(s.histories, s.selected.id, s.activeMessageId.value);
  }

  /** onFinish resends exactly when an interruption with text is pending,
      and then as an interrupting user message with that text; in either
      case the active message and the flag are cleared, and the finished id
      is appended to the current model's completed ids. */
  lemma FinishResolves(s: PageState, msgId: string)
    ensures var t := Finished(s, msgId);
      && t.activeMessageId == None && !t.isInterrupting
      && Completed(t) == Completed(s) + [msgId]
      && (s.isInterrupting && s.interruptionMessage != "" ==>
            t.calls == s.calls + [AppendUser(s.interruptionMessage, true)] && t.interruptionMessage == "")
      && (!(s.isInterrupting && s.interruptionMessage != "") ==>
            t.calls == s.calls && t.interruptionMessage == s.interruptionMessage)
      && t.chatMessages == s.chatMessages && t.selected == s.selected
  {
    CompletedUnchecked(s.histories, s.selected.id, msgId);
  }

  /** Interrupting and then finishing the stopped message sends the typed
      text as one interrupting user message, leaves no interruption pending,
      and (when the finished message is the active one) leaves its id among
      the completed ids one more time than the interrupt recorded it. */
  lemma InterruptThenFinish(s: PageState, msgId: string)
    requires HasActive(s) && s.isLoading && s.input != ""
    ensures var t := Finished(FormSubmitted(s), msgId);
      && t.calls == s.calls + [Stop, AppendUser(s.input, true)]
      && !t.isInterrupting && t.interruptionMessage == "" && t.activeMessageId == None && t.input == ""
      && (msgId == s.activeMessageId.value ==>
            Occurrences(Completed(t), msgId) == Occurrences(Completed(FormSubmitted(s)), msgId) + 1
            && Occurrences(Completed(t), msgId) >= 2)
  {
    var u := FormSubmitted(s);
    CompletedOnce(s.histories, s.selected.id, s.activeMessageId.value);
    CompletedUnchecked(u.histories, s.selected.id, msgId);
    if msgId == s.activeMessageId.value {
      assert msgId in Completed(u);
      assert Occurrences(Completed(u), msgId) >= 1;
    }
  }

  /** Interrupting with an empty input only stops the stream: the finish
      resends nothing. */
  lemma EmptyInterruptOnlyStops(s: PageState, msgId: string)
    requires HasActive(s) && s.isLoading && s.input == ""
    ensures Finished(FormSubmitted(s), msgId).calls == s.calls + [Stop]
  {
  }

  /** onResponse makes the last message active exactly when it is an
      assistant message, and changes nothing else. */
  lemma ResponseActivates(s: PageState)
    ensures var t := Responded(s);
      && t.(activeMessageId := s.activeMessageId) == s
      && (|s.chatMessages| > 0 && s.chatMessages[|s.chatMessages| - 1].role == Assistant ==>
            t.activeMessageId == Some(s.chatMessages[|s.chatMessages| - 1].id))
      && (!(|s.chatMessages| > 0 && s.chatMessages[|s.chatMessages| - 1].role == Assistant) ==> t == s)
  {
  }

  /** onError drops the pending interruption but leaves the active message
      set, so a later submit while loading interrupts again. */
  lemma ErrorKeepsActive(s: PageState)
    ensures var t := Errored(s);
      && !t.isInterrupting && t.interruptionMessage == ""
      && t.activeMessageId == s.activeMessageId
      && t.histories == s.histories && t.calls == s.calls
      && (HasActive(s) && s.isLoading ==> FormSubmitted(t).calls == s.calls + [Stop])
  {
  }

  /** Picking a disabled model changes nothing. Picking an enabled one
      selects it; a non-empty transcript is saved under the old model with
      its completed ids; no other model's history changes; and the target's
      saved transcript comes back exactly when it has messages. */
  lemma SwitchSavesAndRestores(s: PageState, model: ModelInfo)
    ensures !model.enabled ==> ModelChanged(s, model) == s
    ensures model.enabled ==>
      var t := ModelChanged(s, model);
      var target := HistoryOf(s.histories, model.id);
      && t.selected == model
      && (|s.chatMessages| > 0 ==> HistoryOf(t.histories, s.selected.id) == History(s.chatMessages, Completed(s)))
      && (forall m :: m in s.histories && m != s.selected.id ==> m in t.histories && t.histories[m] == s.histories[m])
      && (|target.messages| > 0 ==> t.chatMessages == target.messages && !t.showWelcome)
      && (|target.messages| == 0 && |s.chatMessages| > 0 ==> t.chatMessages == [] && t.showWelcome)
      && (|target.messages| == 0 && |s.chatMessages| == 0 ==> t.chatMessages == [] && t.showWelcome == s.showWelcome)
      && t.activeMessageId == s.activeMessageId && t.isInterrupting == s.isInterrupting
  {
  }

  /** After a switch to another model, the history effect the new render
      runs changes nothing: the restored or cleared transcript is already
      what the history holds for the new model. */
  lemma {:induction false} SyncAfterSwitchStable(s: PageState, model: ModelInfo)
    requires model.enabled && model.id != s.selected.id
    ensures var t := ModelChanged(s, model);
      HistorySynced(t) == t
  {
    var t := ModelChanged(s, model);
    if model.id in s.histories && |s.histories[model.id].messages| > 0 {
      assert t.histories[model.id] == s.histories[model.id];
      assert Synced(t.histories, model.id, t.chatMessages) == t.histories;
    }
  }

  /** Switching away and back brings the transcript back, with the old
      model selected again. */
  lemma SwitchRoundTrip(s: PageState, other: ModelInfo)
    requires s.selected.enabled && other.enabled && other.id != s.selected.id && |s.chatMessages| > 0
    ensures var t := ModelChanged(HistorySynced(ModelChanged(s, other)), s.selected);
      && t.selected == s.selected
      && t.chatMessages == s.chatMessages
      && !t.showWelcome
      && Completed(t) == Completed(s)
  {
    var u := ModelChanged(s, other);
    SyncAfterSwitchStable(s, other);
    assert u.histories[s.selected.id] == History(s.chatMessages, Completed(s));
  }

  // ---------------------------------------------------------------------
  // The component

  class ChatPage {
    var selected: ModelInfo
    var activeMessageId: Option<string>
    var isInterrupting: bool
    var interruptionMessage: string
    var histories: Histories
    var chatMessages: seq<Message>
    var input: string
    var isLoading: bool
    var showWelcome: bool
    var calls: seq<PageCall>

    function State(): PageState
      reads this
    {
      PageState(selected, activeMessageId, isInterrupting, interruptionMessage, histories,
                chatMessages, input, isLoading, showWelcome, calls)
    }

    /** The first render: the first model, nothing active, no history, the
        welcome screen. */
    constructor ()
      ensures State() == PageState(Models[0], None, false, "", map[], [], "", false, true, [])
    {
      selected := Models[0];
      activeMessageId := None;
      isInterrupting := false;
      interruptionMessage := "";
      histories := map[];
      chatMessages := [];
      input := "";
      isLoading := false;
      showWelcome := true;
      calls := [];
    }

    /** The SDK reports a new input text or loading flag. */
    method SdkStatus(text: string, loading: bool)
      modifies this
      ensures State() == old(State()).(input := text, isLoading := loading)
    {
      input := text;
      isLoading := loading;
    }

    /** The SDK reports a new transcript; the render that follows runs the
        history effect. */
    method SdkMessages(msgs: seq<Message>)
      modifies this
      ensures State() == HistorySynced(old(State()).(chatMessages := msgs))
    {
      chatMessages := msgs;
      SyncHistory();
    }

    /** The history effect. */
    method SyncHistory()
      modifies this
      ensures State() == HistorySynced(old(State()))
    {
      if |chatMessages| > 0 {
        var prev := HistoryOf(histories, selected.id);
        histories := histories[selected.id := History(chatMessages, prev.completedIds)];
      }
    }

    method HandleFormSubmit()
      modifies this
      ensures State() == FormSubmitted(old(State()))
    {
      if activeMessageId.Some? && activeMessageId.value != "" && isLoading {
        var currentInput := input;
        input := "";
        isInterrupting := true;
        interruptionMessage := currentInput;
        var modelHistory := HistoryOf(histories, selected.id);
        if activeMessageId.value !in modelHistory.completedIds {
          histories := histories[selected.id := modelHistory.(completedIds := modelHistory.completedIds + [activeMessageId.value])];
        }
        calls := calls + [Stop];
      } else {
        calls := calls + [Submit];
      }
    }

    method OnFinish(msgId: string)
      modifies this
      ensures State() == Finished(old(State()), msgId)
    {
      var modelHistory := HistoryOf(histories, selected.id);
      histories := histories[selected.id := modelHistory.(completedIds := modelHistory.completedIds + [msgId])];
      if isInterrupting && interruptionMessage != "" {
        var msg := interruptionMessage;
        isInterrupting := false;
        interruptionMessage := "";
        activeMessageId := None;
        calls := calls + [AppendUser(msg, true)];
      } else {
        activeMessageId := None;
        isInterrupting := false;
      }
    }

    method OnResponse()
      modifies this
      ensures State() == Responded(old(State()))
    {
      if |chatMessages| > 0 {
        var lastMessage := chatMessages[|chatMessages| - 1];
        if lastMessage.role == Assistant {
          activeMessageId := Some(lastMessage.id);
        }
      }
    }

    method OnError()
      modifies this
      ensures State() == Errored(old(State()))
    {
      isInterrupting := false;
      interruptionMessage := "";
    }

    method HandleModelChange(model: ModelInfo)
      modifies this
      ensures State() == ModelChanged(old(State()), model)
    {
      if model.enabled {
        var snapshot := histories;
        var completedMessages := HistoryOf(histories, selected.id).completedIds;
        if |chatMessages| > 0 {
          histories := histories[selected.id := History(chatMessages, completedMessages)];
        }
        selected := model;
        if model.id in snapshot && |snapshot[model.id].messages| > 0 {
          chatMessages := snapshot[model.id].messages;
          showWelcome := false;
        } else if |chatMessages| > 0 {
          chatMessages := [];
          showWelcome := true;
        }
      }
    }
  }
}
