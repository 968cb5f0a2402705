# sass-gpt chat core, modelled in Dafny

sass-gpt is a chat front end with four personas: teenager, grandma, intellectual and exec. This project models the parts of it that decide behaviour:

- **Typewriter.** The typewriter component reveals an assistant reply one character at a time, with a persona-specific random delay before each character. This covers its two React effects, its single pending timer, and how the chat page keys and re-mounts it.
- **Stream.** The stream relay turns a provider's chunk stream into the text body of the HTTP response. It stops at the first chunk that carries a finish reason, and it reports errors and closes the stream.
- **SimpleChat.** The chat hook sends a message with an empty assistant placeholder. It accumulates the streamed text with a 50 ms throttle on intermediate updates, then flushes the whole text and reports it. When the request fails it cleans up the empty placeholder. This part also covers submit, append and reload.
- **Page.** The chat page's own state machine: the active message, interrupting a reply that is still being typed, and resending the typed text once the stopped reply finishes. It also keeps a per-persona history of transcripts and completed message ids, and saves and restores it when the persona changes.
- **BrandVoice.** The system prompt builder: the brand-voice text, the persona's rules block and an optional interruption instruction.
- **Routes.** The four persona routes. Each parses the body and finds the interruption flag in one of three places. It validates `messages`, builds the outgoing message list and tags an interrupted last user message. The teenager and intellectual routes call the completion endpoint. The grandma and exec routes check the API key themselves and call the SDK's `streamText`; the other two rely on the OpenAI client's own key check, which is not part of this model.

Time, randomness and the network are inputs:

- A fired timer is an explicit `Tick`.
- Each `Math.random()` draw is a field of `Draws`.
- Each `Date.now()` reading is part of an `Arrival`.
- What `fetch` and the body reader produce is a `Reply` value.
- Ids come from the caller, in place of `generateId`.
- The brand-voice file's text is a parameter, in place of `loadBrandVoice`.
- The value of `OPENAI_API_KEY` is a parameter.

Where the code changes state step by step, the model does too:

- A `class` holds the state: `TypewriterEffect`, `Controller`, `ChatHook` and `ChatPage`.
- Each method's postcondition ties the new state to a pure transition function of the old state. The properties are lemmas about those functions.
- The in-place array edits of the routes are methods on `array`, proved equal to the pure list edits.

## Model

| member | source | states |
|---|---|---|
| Common.IntToString | hooks/use-simple-chat.ts:151 | decimal text of an integer status code; starts with '-' exactly for negative values |
| Common.NatToStringRoundTrip | hooks/use-simple-chat.ts:151 | reading the decimal digits back gives the number: the formatting loses nothing |
| Common.Trim | hooks/use-simple-chat.ts:189-194 | `trim()` returns the middle slice with only whitespace cut from both ends; the result neither starts nor ends with whitespace; it is empty exactly when the input is all whitespace |
| Typewriter.TypingDelay | components/typewriter-effect.tsx:78-147 | the rounded per-character delay lies between 19 and 1304 ms for every persona, text and draw |
| Typewriter.DelayMatchesProfile | components/typewriter-effect.tsx:78-147 | the code's delay equals the independent persona table (base × jitter span, plus the sentence-end or comma pause span, plus grandma's 5 % digression span); it depends only on the persona, the last revealed character and the draws |
| Typewriter.DelayWithinProfile | components/typewriter-effect.tsx:78-147 | each raw delay lies in the persona's half-open range for that last character, and every range lies within [19, 1304] |
| Typewriter.TypingDelayRange | components/typewriter-effect.tsx:78-147 | the rounded delay lies between the rounded ends of the profile range |
| Typewriter.TypingEffect | components/typewriter-effect.tsx:33-55 | when caught up: typing reported false and no timer; otherwise typing reported true and exactly one timer, with a delay in [19, 1304], capturing the current content and revealed text; the invariant holds afterwards |
| Typewriter.Mounted | components/typewriter-effect.tsx:19-55 | mounting starts from "" with the given props, and a timer is pending exactly when the content is non-empty |
| Typewriter.Rendered | components/typewriter-effect.tsx:22-55 | a re-render keeps the invariant, takes the new props, and resets the revealed text to "" exactly when the message id changed |
| Typewriter.Fired | components/typewriter-effect.tsx:46-48 | a firing timer reveals the captured content one character further; the result is a prefix one longer, and the slot is emptied |
| Typewriter.Ticked | components/typewriter-effect.tsx:33-55 | after a tick one more character is revealed, and another timer is pending exactly when characters remain |
| Typewriter.ContentChange | components/typewriter-effect.tsx:33-55 | a content-only change keeps the revealed text; it is neither clamped nor reset. Typing continues exactly when the text is shorter than the new content |
| Typewriter.ShrinkStops | components/typewriter-effect.tsx:34-38 | content no longer than the revealed text stops the reveal: no timer, typing false |
| Typewriter.MessageChange | components/typewriter-effect.tsx:22-30 | a new id resets the revealed text to "" and cancels the old timer; a new one is scheduled exactly when something had been revealed and the content is non-empty |
| Typewriter.MessageChangeCanStall | components/typewriter-effect.tsx:22-55 | an id change while nothing is revealed yet cancels the first tick, and nothing reschedules it: the reveal stalls with content remaining |
| Typewriter.MessageAndContentChange | components/typewriter-effect.tsx:22-55 | when id and content change together, the reveal restarts from "" with a timer exactly when the content is non-empty |
| Typewriter.TickRealigns | components/typewriter-effect.tsx:46-48 | after any tick the revealed text is a prefix of the content, even if it had diverged from it |
| Typewriter.GrowthKeepsPrefix | components/typewriter-effect.tsx:33-55 | appending to the content keeps a revealed prefix a prefix, and typing continues exactly while characters remain |
| Typewriter.Ticks | components/typewriter-effect.tsx:33-55 | any number of ticks keeps the invariant |
| Typewriter.TicksReveal | components/typewriter-effect.tsx:33-55 | with fixed content, n ticks reveal exactly n more characters, up to the whole content; afterwards a timer is pending exactly when characters remain |
| Typewriter.RevealCompletes | components/typewriter-effect.tsx:19-55 | from mount, k ticks show the first k characters; after as many ticks as the content has characters the whole content is shown and typing is false |
| Typewriter.HostRestartsOnGrowth | app/page.tsx:549-556 | the host keys by id and content length, so every batch that changes the length re-mounts the component, and the reveal restarts from "" |
| Typewriter.TypewriterEffect.constructor | components/typewriter-effect.tsx:19-55 | the new instance's state is `Mounted` of the props and draws |
| Typewriter.TypewriterEffect.RunTypingEffect | components/typewriter-effect.tsx:33-55 | the instance's state becomes `TypingEffect` of the old state |
| Typewriter.TypewriterEffect.Render | components/typewriter-effect.tsx:22-55 | the instance's state becomes `Rendered` of the old state and the new props, and the invariant holds |
| Typewriter.TypewriterEffect.Tick | components/typewriter-effect.tsx:46-48 | the instance's state becomes `Ticked` of the old state, and the invariant holds |
| Typewriter.TypewriterEffect.Unmount | components/typewriter-effect.tsx:58-64 | the pending timer is cleared and nothing else changes |
| Stream.Controller.constructor | lib/stream.ts:8-9 | a fresh controller has no calls recorded |
| Stream.Controller.Enqueue | lib/stream.ts:18 | one enqueue is appended to the log |
| Stream.Controller.Error | lib/stream.ts:29 | one error call is appended to the log |
| Stream.Controller.Close | lib/stream.ts:31 | one close call is appended to the log |
| Stream.ConsumedPrefix | lib/stream.ts:11-26 | the loop reads a prefix of the chunks with no finish before its last chunk; it stops early only on a finishing chunk and reads everything when none finishes |
| Stream.EmittedTexts | lib/stream.ts:13-19 | at most one text per chunk, no empty text, and none exactly when no chunk has content |
| Stream.EnqueuesAt | lib/stream.ts:18 | one enqueue per text, at the same position |
| Stream.CreateStreamResponse | lib/stream.ts:7-33 | the calls made on the controller are exactly `Relay` of the source (enqueued texts, then an error if thrown, then close) |
| Stream.ReadChunks | lib/stream.ts:11-26 | the loop enqueues the texts of the chunks it read; on a break, the last chunk read is the first finishing one; otherwise all chunks were read and none finishes |
| Stream.ConsumedStopsAt | lib/stream.ts:22-25 | the first finishing chunk is the last one read |
| Stream.EmittedAppend | lib/stream.ts:11-19 | the texts of a concatenation are the concatenation of the texts |
| Stream.RelayTerminatesOnce | lib/stream.ts:27-32 | close is called exactly once, as the last call; error is called exactly when the source throws before any finish, and then just before close |
| Stream.IgnoresAfterFinish | lib/stream.ts:22-25 | nothing after the first finishing chunk is read or emitted, whatever follows it and whether or not the source would throw later |
| Stream.FinishingContentEnqueued | lib/stream.ts:13-25 | the finishing chunk's own content is enqueued as the last text, before close |
| Stream.RelayEndingAt | lib/stream.ts:11-32 | a source ending in a finishing chunk with content relays the earlier texts, then that content, then close |
| Stream.ConsumedThrough | lib/stream.ts:22-25 | a source whose only finish is its last chunk is read completely |
| Stream.ExhaustedEmitsAll | lib/stream.ts:11-32 | a source without a finish marker has all of its content emitted, followed by error-if-thrown and close |
| Json.Prop | app/api/chat/teenager/route.ts:33 | a property is found exactly on objects that have the key |
| Json.OptProp | app/api/chat/teenager/route.ts:36-38 | optional chaining yields a value only from an object holding the key, and then that key's value |
| RouteCommon.InterruptionFlag | app/api/chat/exec/route.ts:40-54 | the flag is set exactly when `options.body.data.isInterruption`, `data.isInterruption` or `isInterruption` is truthy |
| RouteCommon.ChainAt | app/api/chat/grandma/route.ts:43-53 | a chain of optional property reads follows the same path as a nested lookup |
| RouteCommon.ReadBody | app/api/chat/intellectual/route.ts:22-61 | unparsable body: 400 "Invalid JSON in request body"; null body: 500; missing or non-array `messages`: 400 "Invalid messages format"; otherwise the items and the flag |
| RouteCommon.ProjectAll | app/api/chat/teenager/route.ts:70-73 | the list fails with 500 exactly when an item is null; otherwise it has one `{role, content}` projection per item, in order |
| RouteCommon.BuildChatMessages | app/api/chat/teenager/route.ts:68-74 | the system message is first, then one projection per incoming message, in order; it fails exactly on a null item |
| RouteCommon.Tagged | app/api/chat/teenager/route.ts:79-80 | the tagged content is "[INTERRUPTED] " followed by the template-literal text of the old content |
| RouteCommon.MarkInterrupted | app/api/chat/intellectual/route.ts:94-107 | the length and roles are kept; the system message gets the suffix; only a last user message after the system message is tagged; everything in between is unchanged |
| RouteCommon.MarkInterruptedInPlace | app/api/chat/teenager/route.ts:76-84 | the in-place edit of the array equals the list edit |
| RouteCommon.CompletionResponse | app/api/chat/teenager/route.ts:17-109 | the request is made exactly on a well-formed body without null items; its list is the system prompt (with the suffix when flagged) plus the projections, and a trailing user message is tagged when flagged |
| RouteCommon.UninterruptedIsProjection | app/api/chat/intellectual/route.ts:84-91 | without the flag the outgoing list is exactly the system prompt followed by the projections |
| RouteCommon.TagLastUser | app/api/chat/exec/route.ts:70-80 | it fails exactly when the last item is null; otherwise only a last item with role "user" changes; its content is tagged and every other field is kept |
| RouteCommon.TagLastUserInPlace | app/api/chat/grandma/route.ts:91-101 | the in-place edit equals the list edit, and a thrown error leaves the array as it was |
| RouteCommon.SdkResponse | app/api/chat/grandma/route.ts:8-128 | the key check comes first with 500; then the body checks; streamText is called exactly on a valid key and a well-formed body, with the flagged prompt and, when flagged, the tagged items |
| RouteCommon.NestedFlagMissed | app/api/chat/teenager/route.ts:36-38 | a flag at `options.body.isInterruption`, one level short of the first place looked up, is not detected |
| TeenagerRoute.Response | app/api/chat/teenager/route.ts:17-109 | the teenager prompt and suffix, model gpt-4o, temperature 1.0, top_p 0.92, 800 tokens, streaming; one system message plus one message per item |
| TeenagerRoute.Post | app/api/chat/teenager/route.ts:17-109 | the handler with its in-place array edits answers as Response does |
| IntellectualRoute.Response | app/api/chat/intellectual/route.ts:17-134 | the intellectual prompt and suffix, temperature 0.7, top_p 0.9, 600 tokens, streaming |
| IntellectualRoute.Post | app/api/chat/intellectual/route.ts:17-134 | the handler with its in-place array edits answers as Response does |
| GrandmaRoute.Response | app/api/chat/grandma/route.ts:8-128 | an invalid key gives 500; temperature 0.95, top_p 0.92, 4096 tokens; the inline prompt, plus the grandma suffix exactly when flagged |
| GrandmaRoute.Post | app/api/chat/grandma/route.ts:8-128 | the handler with its in-place edit and `+=` answers as Response does |
| ExecRoute.Response | app/api/chat/exec/route.ts:9-104 | an invalid key gives 500; temperature 0.9, top_p 0.92, 4096 tokens; the system prompt is createSystemPrompt for exec with the detected flag |
| ExecRoute.Post | app/api/chat/exec/route.ts:9-104 | the handler with its in-place edit answers as Response does |
| BrandVoice.Rules | lib/brand-voice.ts:20-97 | each persona's block starts with the "IMPORTANT TECHNICAL RULES:" header and has rules after it |
| BrandVoice.InterruptionSuffix | lib/brand-voice.ts:99-110 | each persona's instruction starts with the interruption header and has an instruction after it |
| BrandVoice.CreateSystemPrompt | lib/brand-voice.ts:15-113 | the prompt starts with the brand-voice text |
| BrandVoice.FirstRulesDiffer | lib/brand-voice.ts:25-84 | the four first rules differ at the persona's name |
| BrandVoice.PromptAtPersona | lib/brand-voice.ts:15-97 | that distinguishing character sits at a fixed position of the prompt |
| BrandVoice.PromptDeterminesInputs | lib/brand-voice.ts:15-113 | for a given brand voice, the prompt determines the persona and the interruption flag: no two inputs share a prompt |
| SimpleChat.UpdateById | hooks/use-simple-chat.ts:67-76 | ids and roles are kept, and exactly the messages with the id get the new content |
| SimpleChat.UpdateOverwrites | hooks/use-simple-chat.ts:67-86 | a later update of the same id overwrites an earlier one |
| SimpleChat.UpdateAbsent | hooks/use-simple-chat.ts:67-76 | updating an id no message carries changes nothing |
| SimpleChat.RemoveEmptyAssistants | hooks/use-simple-chat.ts:174 | a message survives exactly when it was present and is not an empty assistant message |
| SimpleChat.RemoveDistributes | hooks/use-simple-chat.ts:174 | the cleanup keeps order: it distributes over concatenation |
| SimpleChat.LastUserIndex | hooks/use-simple-chat.ts:218-221 | finds the position of the last user message, with no user message after it; none exactly when there is no user message |
| SimpleChat.Batch | hooks/use-simple-chat.ts:50-77 | the accumulated text is the concatenation of the chunks; at most one update per chunk; `lastUpdateTime` is the time of the last update, or 0 |
| SimpleChat.BatchThrottles | hooks/use-simple-chat.ts:62-77 | every update shows a prefix of the text; the first comes at or after 50 ms, and updates are at least 50 ms apart |
| SimpleChat.Rethrown | hooks/use-simple-chat.ts:93-96 | only an Error that is not an AbortError is rethrown |
| SimpleChat.SendFrame | hooks/use-simple-chat.ts:102-184 | whatever the reply, one request goes out; its body's `messages` is the transcript up to and including the user message (not the placeholder), unless requestOptions has its own `messages`, which replaces it; loading ends false; the active message is announced first and cleared last |
| SimpleChat.Body | hooks/use-simple-chat.ts:130-134 | the body has `messages`, every requestOptions key with its value, and `voice` when set; requestOptions keys win over the hook's `messages` and `voice`; without an override, `messages` reads back as the transcript |
| SimpleChat.MessagesRoundTrip | hooks/use-simple-chat.ts:130-134 | the transcript written into the body as id, role and content objects reads back unchanged |
| SimpleChat.ExchangeExtendsNotices | hooks/use-simple-chat.ts:137-163 | the exchange only appends callbacks and leaves the requests, input and loading flag alone |
| SimpleChat.SendCompletes | hooks/use-simple-chat.ts:80-92 | a stream that ends normally leaves the user message followed by the assistant message with the whole text, whatever the batching; onFinish receives that message and no error is set |
| SimpleChat.UpdatePlaceholder | hooks/use-simple-chat.ts:80-86 | updating the fresh placeholder changes only the placeholder |
| SimpleChat.UpdateFreshPrefix | hooks/use-simple-chat.ts:67-76 | messages before the first carrier of the id are left as they are |
| SimpleChat.SendFails | hooks/use-simple-chat.ts:164-174 | rejection, a non-ok status, a missing body or a thrown read: the error is set and reported; exactly the empty assistant messages are removed; the user message and the earlier non-empty messages stay |
| SimpleChat.SendAborted | hooks/use-simple-chat.ts:93-96 | an abort is swallowed: no flush, no onFinish, no error; the last intermediate update stays visible; loading and the active message are still cleared |
| SimpleChat.SubmitGuard | hooks/use-simple-chat.ts:186-199 | submit does nothing exactly when the trimmed input is empty or a request is loading; otherwise it clears the input and sends the trimmed text |
| SimpleChat.AppendAssistantOnly | hooks/use-simple-chat.ts:210-213 | an appended assistant message is only added, with no request |
| SimpleChat.ReloadResends | hooks/use-simple-chat.ts:216-228 | without a user message reload does nothing; with one, the request is the transcript up to and including the last user message |
| SimpleChat.ReloadAsWrittenRepeats | hooks/use-simple-chat.ts:216-228 | as written, the request is the whole transcript followed by the last user message again, so it always differs from the intended reload, even for a retry whose user message is last ([u] is sent as [u, u]) |
| SimpleChat.ShownStep | hooks/use-simple-chat.ts:62-76 | one read updates the shown transcript exactly when the throttle allows it |
| SimpleChat.ShownThenUpdate | hooks/use-simple-chat.ts:80-86 | the final flush overrides whatever the intermediate updates showed |
| SimpleChat.ChatHook.constructor | hooks/use-simple-chat.ts:32-37 | the hook starts empty, idle, with no error |
| SimpleChat.ChatHook.SetInput | hooks/use-simple-chat.ts:41-43 | only the input changes |
| SimpleChat.ChatHook.ReadAll | hooks/use-simple-chat.ts:50-77 | the loop returns the concatenated text and leaves the transcript as the throttled intermediate updates showed it |
| SimpleChat.ChatHook.ProcessStream | hooks/use-simple-chat.ts:45-100 | normal end: the transcript holds the whole text and onFinish is called once; otherwise the last update stays and only a non-abort Error is rethrown |
| SimpleChat.ChatHook.SendMessage | hooks/use-simple-chat.ts:102-184 | the hook's state becomes `Sent` of the old state for the given transcript, user message, requestOptions and reply |
| SimpleChat.ChatHook.HandleSubmit | hooks/use-simple-chat.ts:186-199 | the hook's state becomes `Submitted` of the old state |
| SimpleChat.ChatHook.Append | hooks/use-simple-chat.ts:201-214 | the hook's state becomes `Appended` of the old state |
| SimpleChat.ChatHook.Reload | hooks/use-simple-chat.ts:216-228 | the hook's state becomes `Reloaded` of the old state, the intended reload |
| Page.WithCompleted | app/page.tsx:115-124 | the updater adds the current model's key and leaves every other model's history as it was |
| Page.WithCompletedOnce | app/page.tsx:249-261 | afterwards the id is among the current model's completed ids, and no other model's history changes |
| Page.Synced | app/page.tsx:174-184 | no other model's history changes |
| Page.CompletedUnchecked | app/page.tsx:115-124 | onFinish's updater adds one more occurrence of the id even when it is already recorded, and keeps that model's messages |
| Page.CompletedOnce | app/page.tsx:249-261 | the interrupt path records the id at most once; it is idempotent and keeps the model's messages |
| Page.SyncedKeepsCompleted | app/page.tsx:174-184 | saving keeps the completed ids and stores a non-empty transcript; an empty one changes nothing; saving again changes nothing |
| Page.SubmitPaths | app/page.tsx:230-272 | the stream is stopped exactly when a message is active and loading: the input becomes the pending text and is cleared, and the active id counts as completed; otherwise only the SDK's submit is called |
| Page.SecondInterruptDropsText | app/page.tsx:230-272 | a second interrupt records nothing more, but replaces the pending text with the already-cleared input (""), so nothing will be resent |
| Page.FinishResolves | app/page.tsx:111-155 | onFinish appends the id to the completed ids and clears the active message and the flag; it resends exactly when an interruption with text is pending |
| Page.InterruptThenFinish | app/page.tsx:111-155 | interrupting then finishing sends the typed text once as an interrupting user message; the interrupted id ends up recorded at least twice |
| Page.EmptyInterruptOnlyStops | app/page.tsx:127-154 | an interrupt with empty input only stops the stream; nothing is resent |
| Page.ResponseActivates | app/page.tsx:156-164 | onResponse makes the last message active exactly when it is an assistant message, and changes nothing else |
| Page.ErrorKeepsActive | app/page.tsx:165-170 | onError drops the pending interruption but keeps the active message, so a later submit while loading interrupts again |
| Page.SwitchSavesAndRestores | app/page.tsx:379-411 | a disabled model changes nothing; otherwise the transcript is saved under the old model with its completed ids, the target's saved transcript comes back exactly when it has messages, and other histories are untouched |
| Page.SyncAfterSwitchStable | app/page.tsx:174-184 | after a switch, the history effect changes nothing |
| Page.SwitchRoundTrip | app/page.tsx:379-411 | switching away and back restores the transcript and the completed ids |
| Page.ChatPage.constructor | app/page.tsx:62-69 | the page starts on the first model, with nothing active, no history and the welcome screen |
| Page.ChatPage.SdkStatus | app/page.tsx:97-108 | only the input and the loading flag change |
| Page.ChatPage.SdkMessages | app/page.tsx:174-184 | the state becomes `HistorySynced` of the old state with the new transcript |
| Page.ChatPage.SyncHistory | app/page.tsx:174-184 | the page's state becomes `HistorySynced` of the old state |
| Page.ChatPage.HandleFormSubmit | app/page.tsx:230-272 | the page's state becomes `FormSubmitted` of the old state |
| Page.ChatPage.OnFinish | app/page.tsx:111-155 | the page's state becomes `Finished` of the old state and the finished id |
| Page.ChatPage.OnResponse | app/page.tsx:156-164 | the page's state becomes `Responded` of the old state |
| Page.ChatPage.OnError | app/page.tsx:165-170 | the page's state becomes `Errored` of the old state |
| Page.ChatPage.HandleModelChange | app/page.tsx:379-411 | the page's state becomes `ModelChanged` of the old state and the chosen model |

## Left out

- Rendering, Markdown, styling, copy/share buttons, the model-selector popup and its `setShowModelSelector`, and input focus: these are presentation only.
- Logging (`debug.log`, `console.error`): it has no effect on state.
- The network, the OpenAI client and the `ai` SDK (`chat.completions.create`, `streamText`, `toDataStreamResponse`): the model stops at the request each route makes.
- TeenagerRoute.Response and IntellectualRoute.Response assume the OpenAI client was created. Creating it (lib/openai-client.ts:6-25) throws when `OPENAI_API_KEY` is unset or does not start with "sk-", and the route then answers 500 after the body checks; the model makes the completion request instead.
- `TextEncoder` and `TextDecoder`: chunks are enqueued and read as strings.
- The error response's `details` field: it holds `error.message` of an exception the model does not represent.
- `loadBrandVoice`: it reads a file, so its result is a parameter.
- `process.env.OPENAI_API_KEY`: it is a parameter.
- `generateId`: ids are parameters.
- JSON numbers that are not integers, and integers above 2^53 in magnitude: JavaScript numbers are IEEE doubles, so `JSON.parse` rounds such an integer to the nearest double, and `${n}` prints the shortest digits that round-trip (18446744073709551616 prints as 18446744073709552000) and uses exponent form from 1e21 on ("1e+21"). The integer-only `Json` datatype keeps every digit. RouteCommon.Tagged and SimpleChat.HttpErrorMessage therefore print such numbers differently from the source.
- RouteCommon.Tagged: for a content that is an integer above 2^53 in magnitude, the tag carries every digit rather than the double's shortest round-trip digits or the exponent form.
- Json.JsonString: a JSON object with its own `toString` member, on its own or inside an array, makes the template literal of the `[INTERRUPTED] ` tagging throw a TypeError, so the route answers 500. The model converts every object to "[object Object]".
- Concurrency and interleaving: React state updates from one event are applied in source order. The 100 ms `setTimeout` before onFinish resends is taken as elapsed. Callbacks that read stale closures are not modelled, except where stated (reload, handleModelChange).
- SimpleChat.ChatHook.ProcessStream and SimpleChat.SendAborted take every `setMessages` updater to run when it is called. In the source, the throttled updater (hooks/use-simple-chat.ts:66-72) reads the mutable `accumulatedContent` when React runs it, which can be after more chunks were read. After an abort, the visible text can then be a longer prefix of the stream than the last throttled update showed.
- `stop()` and the AbortController (hooks/use-simple-chat.ts:230-234): an abort outcome comes in as a `Reply` whose read ends in an AbortError.
- The `@ai-sdk/react` `useChat` the page uses: its transcript, input and loading flag are fields set by `SdkStatus` and `SdkMessages`, and the calls the page makes on it are logged.
- The ReadableStream rule that `close()` after `error()` itself throws: the relay's calls are recorded, not executed.
- The page's other effects (welcome-screen toggling and scrolling, app/page.tsx:190-372) and the suggestion chips: they are presentation only.
- The `isComplete` and `shouldRender` props the page passes to the typewriter: the component does not declare them, so they are ignored, and the model ignores them too.
- Typewriter.TypingDelay: `Math.round` is modelled as floor(x + 0.5). That is exact for the non-negative values that occur here.
- Typewriter.TypingDelay, Typewriter.RawDelay and Typewriter.DelayMatchesProfile compute the delay in exact reals, and the `Math.random()` draws are reals in [0, 1). The source computes in doubles, so a raw delay within a rounding error of a half-integer can round to the neighbouring integer.
- SimpleChat.HttpErrorMessage: when `response.json()` throws, the fallback `response.text()` reads an already-consumed body and rejects. The message is then always "HTTP <status>", so the final fallback case is modelled that way.
- The typewriter does not reset the reveal when new content stops extending the revealed text, and its timers carry no generation counter. `ContentChange` and `TickRealigns` show what happens instead.
- Strings are sequences of Unicode code points, but JavaScript indexes strings in UTF-16 code units, in the typewriter's slicing (components/typewriter-effect.tsx:34, 43, 47, 83) and in the host key's `content.length` (app/page.tsx:555). For a character outside the Basic Multilingual Plane, such as an emoji, the component takes two ticks and shows a lone surrogate half after the first. So for content with such characters the tick counts of TicksReveal and RevealCompletes, the intermediate revealed text, and the key length of HostRestartsOnGrowth differ from the source.

## Findings

| source | as written | input that shows it | evidently intended | confidence | as-written member | corrected member |
|---|---|---|---|---|---|---|
| hooks/use-simple-chat.ts:216-228 | reload truncates with `setMessages(messagesToKeep)`, then calls `sendMessage`, which rebuilds the transcript from the `messages` of the same render and so restores the truncated tail | transcript [user u, assistant a]: the request sent is [u, a, u]; after a failed send, transcript [user u] is resent as [u, u] | resend the transcript up to and including the last user message: [u] | not executed | SimpleChat.ReloadAsWrittenRepeats | SimpleChat.ReloadResends |
