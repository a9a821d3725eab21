# Verified model of the UniBridge LLM converter

The converter in `llm-converter/app` lets clients of the Anthropic Messages API and of the OpenAI
Responses API talk to a chat-completions upstream. This project models its translation engine and the
sliding-window rate limiter of `unibridge-service`, and proves what the two bridges, the transcript
normalisation, the conversation stores and the persistence protocol promise, for every input and every
run.

How the modules are arranged:

- **Shared vocabulary.** `Wrappers`, `Sequences`, `ChatChunks` (parsed upstream chunks), `Transcript`
  (chat messages), `Layout` (where pieces stand in a text). `Json` is the scanner for the texts
  `json.loads` accepts and which prefixes of them are complete; `JsonText` says how JSON is written,
  and `JsonAccepted` and `JsonWritten` that the scanner accepts just that.
- **Chat stream to Anthropic events.** `MessagesBridge` is the machine step by step on values,
  `MessagesStream` the same with its aliased call objects, list and table updated in place.
  `ToolSegments` and `MessagesReference` say what a stream means without any state,
  `AnthropicGrammar` reads the emitted events as a client does, and `ToolBuffer`, `ArgumentAssembly`
  and `MessagesTheorems` connect the three. `MessagesIds` is about made-up ids. `OneShot`, `OneShotExact` and
  `JsonArguments` compare with the non-streaming translation, `StreamSanitizer` is the filter behind the
  bridge.
- **Chat stream to Responses events.** `ResponsesBridge` is the machine as a trace of yields, each with
  the state the generator is suspended in, and `ResponsesStream` the class that updates it.
  `ResponsesMonitor` is an independent reading of the protocol. `ResponsesRecovery`,
  `ResponsesProtocol`, `ResponsesTheorems`, `ResponsesFrame` and `ResponsesIds` prove what holds at every
  yield;
  `ResponsesAttribution`, `ResponsesConservation`, `ResponsesNames` and `ResponsesItems` prove that what
  is told, listed and kept is what the chunks say, against a reference that looks back over the chunks.
- **Transcripts.** `SystemNorm`, `ToolNorm` and `Chaining` for the normalisation that is applied again to
  its own stored output on every chained turn, `SystemTexts` for what stands in a merged message;
  `Replay` and `ReplayReading` for reading items as messages, `ReplayTheorems`, `StreamReplay` and
  `StreamReplayTheorems` for reading output items back as input.
- **Stores and route.** `ConversationStore`, `SqliteStore`, `StoreExpiry` (what expired entries still
  do to pruning) and `StoreBisimulation`; `Route`, `RouteTheorems` and `RouteRetries` for when a
  transcript is stored and its parent dropped.
- **Rate limiter** (`RateLimiter`) and **framing** (`Sse`, and `SseReading` for what any lines say).

Code that works by changing state is a class or a method with its loops, proved equal to a function on
values; the properties are proved about those functions. Clocks, fresh ids, sizes, JSON coding and model
gates are parameters.

Where a promise does not hold of the code, the code is modelled as it is and the exact condition proved:

- Arguments that are numbers can be lost when they are streamed in pieces
  (`ArgumentAssembly.NumbersAreNotChunkSafe`); a message is translated alike by both paths under every
  chunking exactly when its arguments are safe to cut (`OneShotExact.StreamingAgreesIff`).
- The two stores part after a put that is refused for its size over a live id, or for which expired
  entries crowd a live one out of the map that the table keeps, and only then, under any limits
  (`StoreBisimulation.StepAgrees`, `StoreBisimulation.FirstDivergenceShows`); a trace of five
  operations does it (`StoreBisimulation.ExpiryTellsStoresApart`).
- A client that saw a failure may still have its turn stored, in one case exactly
  (`RouteTheorems.FailedTurnStoresNothing`, `RouteTheorems.TerminalEncodingFails`), and a synthesised
  failure leaves a gap in the sequence numbers exactly when an event could not be encoded
  (`Route.SequenceContinues`).
- Replaying an answer differs from chaining it when it has both text and refusal
  (`ReplayTheorems.ReplayAgreesIff`) or, streamed, exactly when text or refusal comes after a call or
  after the other of the two (`StreamReplayTheorems.StreamReplaysIff`).
- The rate limiter raises when its limit is not positive (`RateLimiter.CheckDecides`), its promised wait
  is rewarded exactly under a condition on the stamps that a lowered limit can break
  (`RateLimiter.RetryAllowedIff`), and its bound needs checks that reach the bucket in order.
- An event whose JSON holds a character at which the client breaks lines does not come back from its
  frame, and only such an event, without touching the others (`Sse.RoundTripIff`).

`dafny verify dfyconfig.toml` checks the whole project.

## Model

| member | source | states |
|---|---|---|
| `MessagesTheorems.StreamShowsReference` | llm-converter/app/messages_bridge.py:741-895 | for every sequence of chunks without upstream error the output is accepted by an independent stream grammar to its end, and its blocks are those of a reference that keeps no machine state: every run of reasoning or text with its pieces in order, every call with exactly its own fragments, an entry without index belonging to the last index brought, each group of calls before the run that follows it |
| `MessagesTheorems.StopReasonTold` | llm-converter/app/messages_bridge.py:53-66 | a complete stream has exactly one message_delta, last but one, with the stop reason tool_use if and only if the last finish reason is tool_calls or function_call, max_tokens if and only if it is length, and end_turn otherwise |
| `MessagesTheorems.NoStopReasonAfterError` | llm-converter/app/messages_bridge.py:756-766 | a stream broken off by an upstream error has none |
| `MessagesIds.MintedIdsDiffer` | llm-converter/app/messages_bridge.py:562-577 | over a whole stream, flushes included, the tool blocks whose ids the bridge makes up all have different ones |
| `MessagesTheorems.ErrorEndsStream` | llm-converter/app/messages_bridge.py:756-766 | an upstream error leaves a prefix of such a stream, showing the chunks before the error, followed by one error event and nothing else |
| `MessagesTheorems.SanitizerIsIdentityOnBridge` | llm-converter/app/main.py:1031-1038 | whatever the chunks, the sanitizer behind the bridge changes nothing in what the bridge emits |
| `MessagesTheorems.OnPieceTied` | llm-converter/app/messages_bridge.py:801-845 | one piece of reasoning or text keeps the tie between machine and reference: buffered calls are flushed first, an open run of the same kind is continued, any other is closed |
| `MessagesTheorems.FlushTied` | llm-converter/app/messages_bridge.py:687-726 | flushing shows every buffered call as one contiguous block, in order of arrival, and empties the buffer |
| `MessagesStream.StreamState.RecordToolCallDelta` | llm-converter/app/messages_bridge.py:645-684 | the table of call objects and the list that shares them change as the buffer of values does: one aliased call is extended, or a new one is appended and replaces the table's entry |
| `MessagesStream.StreamState.FlushToolCalls` | llm-converter/app/messages_bridge.py:687-726 | the emitted events and the emptied list and table equal the specified flush |
| `MessagesStream.StreamState.HandleChunk` | llm-converter/app/messages_bridge.py:756-869 | one chunk changes the whole state as the specified step does |
| `MessagesStream.StreamToAnthropicEvents` | llm-converter/app/messages_bridge.py:741-895 | the generator run to its end yields exactly the specified conversion, the subject of the theorems |
| `MessagesStream.PendingToolCall.AddArguments` | llm-converter/app/messages_bridge.py:585-610 | the parts of a call after one more fragment: nothing, a replacement or an append |
| `MessagesStream.PendingToolCall.UpdateMetadata` | llm-converter/app/messages_bridge.py:578-583 | a later non-empty id or name replaces the earlier one |
| `ToolBuffer.BufferRefinesFilter` | llm-converter/app/messages_bridge.py:645-684 | between two flushes the buffer holds one call per reference key in order of first arrival, each with the id, name and assembled arguments of exactly the fragments filtered out for that key; every table entry is the current call of its index in the list |
| `ToolBuffer.OneIdBuffer` | llm-converter/app/messages_bridge.py:645-684 | with at most one upstream id per index the calls are the distinct indices in order of first arrival, each with that index's fragments |
| `ToolBuffer.ReusedIndexKeepsBothCalls` | llm-converter/app/messages_bridge.py:655-676 | an index reused with a new id gives two calls, both intact and in order |
| `ToolSegments.OneIdCalls` | llm-converter/app/messages_bridge.py:645-684 | the reference itself: with one id per index its keys are the distinct indices and its groups are plain filters by index |
| `ArgumentAssembly.LosslessIffChunkSafe` | llm-converter/app/messages_bridge.py:585-610 | a text survives every way of cutting it into fragments exactly when no complete prefix of it is followed by another complete text |
| `ArgumentAssembly.CompleteIsChunkSafe` | llm-converter/app/messages_bridge.py:545-559 | every complete JSON text that is not a number meets that condition |
| `ArgumentAssembly.BothDialects` | llm-converter/app/messages_bridge.py:585-610 | fragments that add up to a complete JSON text other than a number, then any number of full restatements, leave exactly that text |
| `ArgumentAssembly.LastRestatementWins` | llm-converter/app/messages_bridge.py:603-609 | a call whose every fragment is a complete value ends with the last of them |
| `ArgumentAssembly.NumbersAreNotChunkSafe` | llm-converter/app/messages_bridge.py:603-609 | the claim that canonical streaming is unaffected fails for numbers: 12 sent as 1 and 2 is assembled to 2 |
| `JsonAccepted.WrittenIsComplete` | llm-converter/app/messages_bridge.py:545-559 | every JSON value, written in any way RFC 8259 allows (every escape, any blanks, nested arrays and objects), is accepted by the scanner, and as a number exactly when it is one |
| `JsonWritten.CompleteIffWritten` | llm-converter/app/messages_bridge.py:545-559 | the scanner accepts exactly the texts that write a value of that datatype between blanks, neither datatype nor writing mentioning the scanner |
| `JsonArguments.WrittenSurvives` | llm-converter/app/messages_bridge.py:585-610 | an object, or any other written value but a number, arrives as it was written, in whatever fragments it is sent and however often it is then restated in full |
| `JsonArguments.NumberIsTorn` | llm-converter/app/messages_bridge.py:603-609 | two numbers sent one after the other leave the second, so a number that is their concatenation is lost |
| `JsonArguments.WrittenAgrees` | llm-converter/app/messages_bridge.py:903-952 | for every message whose calls have no arguments or written ones, numbers aside, the stream gives the client the one-shot body, content and stop reason |
| `JsonArguments.WrittenInput` | llm-converter/app/messages_bridge.py:915-932 | in that body the input of each call is its argument text as written, or an empty object without arguments |
| `Json.CompletePrefix` | llm-converter/app/messages_bridge.py:545-559 | a proper prefix of a complete JSON text that is complete itself differs from it by white space only, unless the text is a number (sections 2 to 7 of RFC 8259) |
| `Json.NoCompleteSplit` | llm-converter/app/messages_bridge.py:585-610 | a complete JSON text other than a number is never a complete text followed by another |
| `OneShot.StreamingAgrees` | llm-converter/app/messages_bridge.py:903-952 | however reasoning, text and interleaved call fragments are cut into chunks, the blocks a client accumulates equal the one-shot content list block for block, tool input compared as text, and the one message_delta has the stop reason that the one-shot body takes from its own table |
| `OneShot.StopsAgree` | llm-converter/app/messages_bridge.py:939-940 | the stop reason of the one-shot body, tool_use, max_tokens or end_turn by the finish reason, is that of the stream |
| `OneShot.StreamingAgreesForJson` | llm-converter/app/messages_bridge.py:903-952 | the same for JSON: arguments that are absent or any complete JSON text but a number |
| `OneShotExact.StreamingAgreesIff` | llm-converter/app/messages_bridge.py:603-610 | streaming and one-shot agree under every chunking of a message if and only if each of its argument texts is absent, or complete and safe to cut |
| `StreamSanitizer.SanitizeConforms` | llm-converter/app/stream_sanitizer.py:78-186 | for any events at all the output is well bracketed with consecutive indices from 0, at most one message_start, no empty delta of a known type, and every known delta in a block of its kind: text in text, thinking and signature in thinking, tool input in a tool block |
| `StreamSanitizer.FixedPointsConform` | llm-converter/app/stream_sanitizer.py:78-186 | the sanitizer leaves a stream alone exactly when it conforms already |
| `StreamSanitizer.SanitizeIdempotent` | llm-converter/app/stream_sanitizer.py:78-186 | sanitizing twice is sanitizing once |
| `StreamSanitizer.SanitizeKeepsEssence` | llm-converter/app/stream_sanitizer.py:123-161 | every non-empty payload of a known delta type, and every event that is not block framing, comes out once and in order |
| `StreamSanitizer.BlocksKept` | llm-converter/app/stream_sanitizer.py:105-150 | every block that upstream starts comes out once and in order, as it was started; each other block that comes out is an empty one opened for a delta with nowhere to stand |
| `StreamSanitizer.SanitizeEvents` | llm-converter/app/stream_sanitizer.py:91-186 | the loop with its three locals yields exactly the specified output |
| `AnthropicGrammar.SanitizerLeavesGrammarAlone` | llm-converter/app/stream_sanitizer.py:78-186 | every stream the grammar accepts is a fixed point of the sanitizer |
| `ResponsesTheorems.StreamAccepted` | llm-converter/app/responses_bridge.py:747-1157 | for every sequence of chunks an independent monitor of the protocol accepts the whole stream: broken off by one response.failed after an upstream error, otherwise finished with every item done |
| `ResponsesTheorems.Numbering` | llm-converter/app/responses_bridge.py:778-781 | sequence numbers are 0, 1, 2, ... without a gap and the one terminal event is the last event |
| `ResponsesTheorems.NormalLifecycle` | llm-converter/app/responses_bridge.py:778-890 | in a stream that ends normally every item is added once and done once with the text its deltas add up to, indices are dense from 0, and the terminal output lists the item of index k at position k |
| `ResponsesTheorems.AcceptedLifecycles` | llm-converter/app/responses_bridge.py:778-890 | the monitor's verdict unfolded: added, delta and done events of one output index as counted in the events themselves |
| `ResponsesTheorems.CancellationAtAnyYield` | llm-converter/app/responses_bridge.py:1122-1157 | at every yield of every run, closing the generator there leaves a holder that says what the delivered events said: the text deltas, or the refusal deltas if there is no text, and every announced call once in order of output index with its delivered arguments; after an upstream error None; and at most one of reasoning, a message and calls is open |
| `ResponsesTheorems.CancellationAtAnyAwait` | llm-converter/app/responses_bridge.py:1122-1157 | the same while the generator awaits its next chunk, when names and finish may have changed since the last event |
| `ResponsesTheorems.OneReasoningItem` | llm-converter/app/responses_bridge.py:965-983 | once an item exists one stays open between chunks, so reasoning can only be item 0 |
| `ResponsesTheorems.EndNormallyAccepted` | llm-converter/app/responses_bridge.py:1102-1121 | the closing pass leaves every item done and the terminal event carrying exactly those items |
| `ResponsesTheorems.EndInErrorAccepted` | llm-converter/app/responses_bridge.py:932-950 | an upstream error is answered by one response.failed carrying the items done so far |
| `ResponsesProtocol.DeliverKeeps` | llm-converter/app/responses_bridge.py:778-890 | the preservation argument behind all of it: delivering a batch one yield at a time is sound at each of its yields |
| `ResponsesProtocol.OnToolKeeps` | llm-converter/app/responses_bridge.py:1028-1098 | one tool delta, opening, reusing or extending an index, keeps the link between state and client view |
| `ResponsesProtocol.OnMessageKeeps` | llm-converter/app/responses_bridge.py:985-1026 | one piece of text or refusal keeps it, closing reasoning, every call and a message of the other kind first |
| `ResponsesRecovery.ClosingRecords` | llm-converter/app/responses_bridge.py:892-922 | in every linked state the transcript rebuilt from open and closed items records exactly what the client has seen |
| `ResponsesRecovery.SortedOutput` | llm-converter/app/responses_bridge.py:1113-1113 | sorting by output index puts the done items in the order of their indices |
| `ResponsesConservation.StreamTellsWhatChunksSay` | llm-converter/app/responses_bridge.py:957-1098 | for every sequence of chunks the items announced and the deltas sent are, one for one and in order, those of a reference that finds the owner of each piece by looking back over the chunks: text and refusal runs, calls by index and id since text was last spoken, reasoning that comes after text or calls dropped |
| `ResponsesConservation.TextConserved` | llm-converter/app/responses_bridge.py:985-1026 | the text deltas of a run add up to the content of the chunks, and the refusal deltas to their refusals |
| `ResponsesAttribution.OnToolAttributed` | llm-converter/app/responses_bridge.py:1028-1098 | a tool delta goes to the item its call was opened as, and opens an item exactly when its index is unused since text was last spoken or its id changes |
| `ResponsesAttribution.OnMessageAttributed` | llm-converter/app/responses_bridge.py:985-1026 | text continues the open message of its kind and opens a new item otherwise |
| `ResponsesAttribution.OnReasoningAttributed` | llm-converter/app/responses_bridge.py:965-983 | reasoning goes to item 0 while nothing else was said and is dropped afterwards |
| `ResponsesNames.NamesAndStatus` | llm-converter/app/responses_bridge.py:491-503 | the terminal event reports every call under the first name any of its fragments gave, and the status incomplete if and only if the last finish reason is content_filter, or length unless that counts as completed, and completed otherwise |
| `ResponsesFrame.ItemStatuses` | llm-converter/app/responses_bridge.py:798-802 | every item that is done carries that status for the last finish reason of the chunks before the one at which it is closed, or of all chunks when it is closed at the end |
| `ResponsesFrame.ListedWasSent` | llm-converter/app/responses_bridge.py:1102-1121 | the terminal event lists every item as its own done event sent it, status included |
| `ResponsesIds.IdsDiffer` | llm-converter/app/responses_bridge.py:1058-1080 | over a whole stream all items have different ids, and all calls whose ids the bridge makes up different call ids |
| `ResponsesItems.TerminalKinds` | llm-converter/app/responses_bridge.py:1102-1121 | the terminal event lists one item for every item the chunks open, in that order and of that kind |
| `ResponsesItems.StoredIffSpoken` | llm-converter/app/responses_bridge.py:892-922 | a complete stream leaves a message to store exactly when some text, refusal or call fragment came |
| `ResponsesItems.KeptNames` | llm-converter/app/responses_bridge.py:1122-1157 | a generator cancelled at the await for its next chunk keeps every call under the first name any of its fragments has brought so far, announced with it or not |
| `ResponsesStream.StreamState.CloseReasoning` | llm-converter/app/responses_bridge.py:804-822 | the new state and the returned events are those of the specified helper |
| `ResponsesStream.StreamState.OpenMessage` | llm-converter/app/responses_bridge.py:824-836 | the new state and the returned events are those of the specified helper |
| `ResponsesStream.StreamState.CloseText` | llm-converter/app/responses_bridge.py:838-861 | the new state and the returned events are those of the specified helper |
| `ResponsesStream.StreamState.CloseCall` | llm-converter/app/responses_bridge.py:863-883 | the new state and the returned events are those of the specified helper, for an open and an unused index |
| `ResponsesStream.StreamState.CloseAllCalls` | llm-converter/app/responses_bridge.py:885-890 | the calls are closed in the order they were opened, an index listed twice only once |
| `ResponsesStream.StreamState.HandleTool` | llm-converter/app/responses_bridge.py:1028-1098 | one tool delta changes state and trace as specified |
| `ResponsesStream.StreamState.HandleChunk` | llm-converter/app/responses_bridge.py:952-1100 | one chunk changes state and trace as specified |
| `ResponsesStream.StreamState.Close` | llm-converter/app/responses_bridge.py:1122-1157 | what the finally block stores in the suspended state is the holder the cancellation theorem speaks of |
| `ResponsesStream.StreamToResponsesEvents` | llm-converter/app/responses_bridge.py:747-1121 | the generator run to its end goes through exactly the specified states and events |
| `Chaining.ChainedNormalization` | llm-converter/app/responses_bridge.py:362-382 | f(f(x) + y) = f(x + y) for tool normalisation after system normalisation, every policy and either model gate |
| `Chaining.NormalizationIdempotent` | llm-converter/app/responses_bridge.py:370-382 | re-normalising a stored transcript changes nothing |
| `Chaining.BothApplied` | llm-converter/app/responses_bridge.py:370-382 | behind its gate the tool normalisation is applied to what the system normalisation made: results come right behind their calls, and nothing but their places changes |
| `Chaining.ChainSendsNormalizedHistory` | llm-converter/app/responses_bridge.py:362-382 | the transcript sent on turn k of a chain is the normalisation of all raw turns at once |
| `Chaining.NormalizeTranscript` | llm-converter/app/responses_bridge.py:370-382 | the two source loops in sequence compute f |
| `Chaining.DemoteChained` | llm-converter/app/system_norm.py:109-146 | demotion of a demoted transcript followed by a new turn is demotion of the raw transcript |
| `Chaining.HoistChained` | llm-converter/app/system_norm.py:93-106 | the same for hoisting |
| `SystemNorm.MergedContentRemerges` | llm-converter/app/system_norm.py:73-80 | texts merged once merge with later ones as all of them would have, empty texts included: what chaining needs of the merge |
| `SystemTexts.MergedLaidOut` | llm-converter/app/system_norm.py:73-80 | a merged text is the non-empty texts, whole and in order, each at the offset of everything before it, with exactly a blank line between neighbours and nothing else |
| `SystemTexts.MergedLength` | llm-converter/app/system_norm.py:73-80 | its length is the sum of theirs and two for each gap |
| `SystemTexts.ContentTextIs` | llm-converter/app/system_norm.py:47-70 | the text of a message: its string, the texts of its text parts with nothing in between, or nothing |
| `SystemTexts.AbsorbedTextsRemain` | llm-converter/app/system_norm.py:93-146 | the text of every system message that a normalisation absorbs, any under hoisting and those of the leading run under demotion, stands whole in the leading message |
| `SystemTexts.AbsorbedTextsAreSent` | llm-converter/app/responses_bridge.py:370-382 | and still does in the transcript sent upstream, behind either setting of the tool gate |
| `SystemTexts.HistoryIsTheTurns` | llm-converter/app/responses_bridge.py:362-369 | the raw history of a chain is its turns one after the other and nothing else: instructions, unless absent or empty, as a system message, the input, the reply |
| `SystemTexts.InstructionsAreSent` | llm-converter/app/responses_bridge.py:362-382 | under hoisting the instructions of every turn of a chain so far go upstream with its last one |
| `SystemNorm.NormalizeByPolicy` | llm-converter/app/system_norm.py:149-197 | behind its gate each policy does nothing, hoists, or demotes what follows the leading run; without it nothing changes |
| `SystemNorm.DemoteFixedIffLegal` | llm-converter/app/system_norm.py:109-146 | under demotion at most one system message remains, at index 0 only, and a transcript is left alone exactly when it is so already |
| `SystemNorm.DemotionPlaces` | llm-converter/app/system_norm.py:109-146 | the leading run becomes its first message, with the merged text when the run is longer or a system message follows later; every later message keeps its place, a system one as a user turn with its content untouched |
| `SystemNorm.HoistKeeps` | llm-converter/app/system_norm.py:93-106 | hoisting leaves at most one system message, in front, with all system texts merged and no other field, and every other message in order |
| `SystemNorm.HoistMessages` | llm-converter/app/system_norm.py:93-106 | the loop computes the specified placement |
| `SystemNorm.DemoteMessages` | llm-converter/app/system_norm.py:109-146 | the two loops compute the specified placement |
| `SystemNorm.NormalizeSystemMessages` | llm-converter/app/system_norm.py:149-197 | the dispatch on gate, policy and the empty transcript |
| `ToolNorm.NormalizeChained` | llm-converter/app/tool_norm.py:44-91 | normalising behind an already normalised prefix is normalising the raw transcript |
| `ToolNorm.FixedIffLegal` | llm-converter/app/tool_norm.py:62-91 | in the result no tool result of a calling turn comes after another kind of message of its window, and a transcript is left alone exactly when it is so already |
| `ToolNorm.NormalizeRearranges` | llm-converter/app/tool_norm.py:72-91 | the result is a permutation in which assistant messages keep their absolute positions and tool results, and all other messages, keep their relative order |
| `ToolNorm.NormalizeToolMessages` | llm-converter/app/tool_norm.py:44-91 | the loop that looks ahead for the end of each window computes the reading that looks at one message at a time |
| `Replay.ReadInput` | llm-converter/app/responses_bridge.py:116-202 | the loop that keeps the pending assistant message as a second reference to the last message of the list computes the specified transcript |
| `ReplayReading.InputIsRead` | llm-converter/app/responses_bridge.py:116-202 | told by looking back over the items, with nothing pending: a call goes to the message of the call or assistant message right before it, any other item begins a message; every role, content, tool output, argument text and call id is where that puts it and as stated in those terms, and there is nothing else |
| `Replay.AppendCall` | llm-converter/app/responses_bridge.py:154-172 | a call joins the pending message, the toolless assistant message before it, or opens a new one |
| `Replay.AppendCallItems` | llm-converter/app/responses_bridge.py:671-694 | the loop writes a minted id into every call that had none and lists the calls under the very ids it wrote |
| `Replay.OutputText` | llm-converter/app/responses_bridge.py:173-197 | a tool output is collapsed to text, with what cannot be passed on counted in a placeholder (`ReplayReading.OutputRead`) |
| `ReplayReading.OutputRead` | llm-converter/app/responses_bridge.py:173-197 | the text of a tool output: its texts with nothing in between and, on a line of its own, the decimal number of parts that are no text |
| `ReplayReading.RoleRead` | llm-converter/app/responses_bridge.py:56-63 | developer and system messages are system messages, assistant and tool messages stay what they are, any other role is a user's |
| `ReplayReading.StoredIs` | llm-converter/app/responses_bridge.py:589-601 | the message stored for an answer: its content if that is something, else its refusal, else nothing, and its calls, those without an id under made-up ones of their own |
| `ReplayReading.AnswerIsListed` | llm-converter/app/responses_bridge.py:633-700 | the output of an answer: its reasoning if wanted, one message with text and refusal, and one item for each call that is an object, under the very id that is stored |
| `ReplayTheorems.ReplayAgreesIff` | llm-converter/app/responses_bridge.py:589-601 | the output items of an answer sent back as input are read as exactly the message stored for chaining if and only if the answer is not empty, has text or refusal but not both, both strings where used, and every call is one the converter could have written itself |
| `ReplayTheorems.TextAndRefusalDiffer` | llm-converter/app/responses_bridge.py:639-669 | the counterexample: with text and refusal the stored message has only the text, the items carry both |
| `ReplayTheorems.AnswerRead` | llm-converter/app/responses_bridge.py:116-202 | behind any transcript the items of an answer are read as one assistant message |
| `ReplayTheorems.ChainingIsReplaying` | llm-converter/app/responses_bridge.py:362-382 | over whole conversations a client that chains by id and a client that sends everything back have the same transcript sent upstream on every turn |
| `StreamReplayTheorems.StreamReplaysIff` | llm-converter/app/responses_bridge.py:892-922 | for every sequence of chunks without upstream error that said something, a message is stored, and the items of the terminal event sent back as input are read as exactly that message if and only if every piece of text or refusal in the chunks is the first thing said or follows text of its own kind |
| `StreamReplayTheorems.TerminalStreamed` | llm-converter/app/responses_bridge.py:1102-1121 | what the terminal event lists and what the holder is filled from are the same items: calls with ids, messages of text or refusal only |
| `StreamReplayTheorems.SilentStreamReplays` | llm-converter/app/responses_bridge.py:892-922 | a stream that said nothing leaves nothing stored, and nothing is read from what is sent back |
| `StreamReplayTheorems.CallThenTextDiffers` | llm-converter/app/responses_bridge.py:985-1026 | the counterexample in chunks: a call fragment, then text |
| `StreamReplay.StreamedReplayAgreesIff` | llm-converter/app/responses_bridge.py:892-922 | what it rests on, for any list of items: it is read as exactly the message built from it if and only if no message comes after another item that is not reasoning |
| `StreamReplay.SentAsInOneShot` | llm-converter/app/responses_bridge.py:633-700 | a streamed item is sent back as the one-shot translation lists it for an answer that is just that text, refusal or call |
| `ConversationStore.Store.PutTranscript` | llm-converter/app/responses_state.py:89-105 | the new contents and the answer are those of the specified put, and the running byte total is the sum of the entries |
| `ConversationStore.Store.GetTranscript` | llm-converter/app/responses_state.py:75-87 | an expired entry is dropped, a live one becomes the most recently used; the total stays the sum |
| `ConversationStore.Store.DeleteTranscript` | llm-converter/app/responses_state.py:107-110 | exactly the entry under that id goes; the total stays the sum |
| `ConversationStore.Store.PruneOldest` | llm-converter/app/responses_state.py:112-126 | the two eviction loops compute the specified pruning and keep the total |
| `ConversationStore.Store.Forget` | llm-converter/app/responses_state.py:69-73 | the entry goes and its bytes leave the total |
| `ConversationStore.PruneKeepsLongestSuffix` | llm-converter/app/responses_state.py:112-126 | what pruning leaves is the longest most recently used run within the entry cap and the byte budget, or the newest entry alone, and always holds the newest entry |
| `ConversationStore.StoredIsThere` | llm-converter/app/responses_state.py:89-105 | a put succeeds exactly when the transcript is within the per-entry cap; then it can be fetched, otherwise nothing is under that id any more |
| `ConversationStore.FetchTells` | llm-converter/app/responses_state.py:75-87 | entry by entry: an entry at most ttl seconds old, or of any age without a limit, is answered and becomes the last; an older one is dropped; without one nothing changes |
| `ConversationStore.PutTells` | llm-converter/app/responses_state.py:89-105 | a put is accepted exactly when there is no cap on one transcript or it is within it; then the new entry is last behind the others, of which the oldest go that leave no room, and else the entry of that id is gone |
| `ConversationStore.DeleteTells` | llm-converter/app/responses_state.py:107-110 | a deletion takes out the one entry and nothing else |
| `ConversationStore.ReachableWithinLimits` | llm-converter/app/responses_state.py:75-126 | in every reachable state ids are distinct, every entry is accounted at its own size, and count, budget and per-entry cap are kept |
| `SqliteStore.SqlStore.PutTranscript` | llm-converter/app/responses_state.py:259-277 | the table after a put: an oversized transcript leaves it alone, otherwise the row is replaced and the table pruned |
| `SqliteStore.SqlStore.GetTranscript` | llm-converter/app/responses_state.py:226-257 | the table after a fetch: an expired row is deleted, a live one gets a new access time |
| `StoreBisimulation.ViewDelete` | llm-converter/app/responses_state.py:279-282 | deleting a row from the table, wherever it lies, is dropping the entry of that id from the ordered map the table stands for; all other rows keep their order |
| `SqliteStore.SqlStore.PruneLocked` | llm-converter/app/responses_state.py:188-224 | expired rows, then the overflow by access time, then the oldest rows until the budget is met |
| `StoreBisimulation.StepAgrees` | llm-converter/app/responses_state.py:188-282 | under any limits, a TTL included: while both stores hold the same live entries they answer every operation alike, and hold the same live entries after it exactly when it is neither a refused put over a live id nor a stored put before which the map has a live entry, not the newest, from which on all entries exceed the caps and the live ones do not |
| `StoreBisimulation.TableIsOrderedMap` | llm-converter/app/responses_state.py:75-126 | on every trace with an increasing clock and no such operation, whatever the limits, the table sorted by access time and the ordered map hold the same live entries in the same order from then on |
| `StoreBisimulation.StoresAnswerAlike` | llm-converter/app/responses_state.py:226-282 | so every operation of such a trace, and the first that is not such, gets the same answer from both stores |
| `StoreBisimulation.FirstDivergenceShows` | llm-converter/app/responses_state.py:92-126 | the condition is exact on traces: after the first such operation the live entries differ, and a fetch of the transcript concerned is answered differently for as long as it is not too old |
| `StoreBisimulation.DivergenceShows` | llm-converter/app/responses_state.py:188-224 | which transcript that is: one the map has forgotten and the table still serves |
| `StoreBisimulation.WithoutTtl` | llm-converter/app/responses_state.py:92-100 | without a TTL the condition comes down to a refused put over a stored id, and the table is the whole map |
| `StoreExpiry.EvictionAgreesIff` | llm-converter/app/responses_state.py:112-126 | pruning commutes with leaving expired entries out exactly when, before it, no live entry but the newest has the entries from it on over the caps and the live ones among them within |
| `StoreExpiry.EvictedIff` | llm-converter/app/responses_state.py:112-126 | told before pruning: an entry is evicted exactly when it is not the newest and the entries from it on exceed the caps |
| `StoreExpiry.LiveGet` | llm-converter/app/responses_state.py:75-87 | a fetch is answered from the live entries alone, and changes them as it changes the store |
| `StoreBisimulation.ExpiryTellsStoresApart` | llm-converter/app/responses_state.py:181-189 | the counterexample as a trace of five operations on empty stores: a put evicts the live entry from the map and the expired one from the table, and the fetch after it finds nothing in the map and the transcript in the table |
| `StoreBisimulation.OldestIsFirst` | llm-converter/app/responses_state.py:214-223 | the row deleted next is the first of the sorted table |
| `StoreBisimulation.TouchIsReinsert` | llm-converter/app/responses_state.py:250-256 | giving a row a new access time is moving its entry to the end of the ordered map |
| `Route.BodyIter` | llm-converter/app/main.py:1276-1347 | the events sent and the store afterwards are those of the specified protocol, for every end of the stream |
| `Route.RespondOnce` | llm-converter/app/main.py:1173-1210 | without streaming a translated answer is persisted when storing is on and its content, its refusal or its calls are something; anything else leaves the store alone |
| `Route.PersistTurn` | llm-converter/app/main.py:1201-1210 | the transcript is put, and the parent deleted only when the put succeeded |
| `Route.StoredBeforeTerminalEvent` | llm-converter/app/main.py:1295-1316 | when the terminal event goes out the transcript is already in the store, and whether the client then stays or leaves makes no difference to it |
| `Route.PersistSupersedes` | llm-converter/app/main.py:1201-1210 | under a fresh id the transcript is there and the parent is not, or, when it was too large, the store with the parent is exactly as it was |
| `Route.PersistIs` | llm-converter/app/main.py:1201-1210 | the whole store afterwards: unchanged when the transcript is too large, else the longest recent run that fits, ending with the transcript, without the parent |
| `Route.SequenceContinues` | llm-converter/app/main.py:1317-1336 | sequence numbers rise through a synthesised failure, and the client sees no gap exactly when no event failed to encode |
| `RouteTheorems.SuccessfulTurn` | llm-converter/app/main.py:1276-1316 | for every stream without upstream error that can be encoded, all events go out and the store is that of one persist |
| `RouteTheorems.AnswerIsStored` | llm-converter/app/main.py:1295-1316 | and when something was said, the message that ends the stored transcript says what the events told the client, call by call, under the request's id, at its time, with the parent gone |
| `RouteTheorems.FailedTurnStoresNothing` | llm-converter/app/main.py:1317-1347 | a turn the client saw fail, by upstream error, by the bridge raising anywhere or by an event that cannot be encoded, leaves the store as it was, with one exact exception: a terminal event that fails to encode after its transcript was stored |
| `RouteTheorems.DisconnectedTurn` | llm-converter/app/main.py:1337-1347 | a client that leaves after n events, the bridge being closed there, leaves a stored message that records exactly those n events |
| `RouteTheorems.DisconnectedUnclosed` | llm-converter/app/main.py:1289-1347 | when the bridge has not been closed yet as the route looks at the holder, the holder is unset, nothing is stored and the parent stays |
| `ResponsesFrame.UnheldBeforeTheEnd` | llm-converter/app/responses_bridge.py:892-922 | at every yield but the last of every run the holder is unset: only closing the generator or the terminal event fills it |
| `RouteTheorems.DisconnectedAtAwait` | llm-converter/app/main.py:1337-1347 | a client that leaves while the bridge awaits its next chunk leaves a stored message that records the events it got, its calls under the first names the chunks have brought |
| `RouteTheorems.TerminalEncodingFails` | llm-converter/app/main.py:1295-1336 | the exception occurs for every stream that said something and of whose events only the terminal one fails to encode: the client is told of a failure, and the transcript is in the store unless it is too large |
| `RouteTheorems.FailedYetStored` | llm-converter/app/main.py:1295-1336 | one such stream and store in full |
| `RouteTheorems.LinearChain` | llm-converter/app/main.py:1116-1136 | over every linear chain each parent is found, and after each turn the store holds exactly the latest transcript under the latest id and nothing else of the chain |
| `RouteRetries.FailuresLeaveChainAlone` | llm-converter/app/main.py:1116-1136 | the same when any attempts in between break off or are refused for their size: every attempt finds its parent, and the store holds the latest stored transcript, which is that of the successful turns alone |
| `RouteTheorems.ChainStoresNormalizedHistory` | llm-converter/app/main.py:1116-1136 | so what is stored is the normalisation of everything said in the chain, followed by the last reply |
| `RateLimiter.Limiter.CheckRateLimit` | unibridge-service/app/middleware/rate_limiter.py:35-57 | the limiter's table is at all times what each user's history of checks and undos says; the answer is allowed exactly when fewer than the limit of the stamps admitted in that history lie in the last 60 seconds, and only this user's history grows, by this check |
| `RateLimiter.UndoAgrees` | unibridge-service/app/middleware/rate_limiter.py:59-71 | undoing a stamp in the purged bucket is undoing it in the whole history: the stamps live at any later time stay the same, whether or not the bucket still had it |
| `RateLimiter.AdmittedNext` | unibridge-service/app/middleware/rate_limiter.py:45-71 | what one event does to the admitted stamps: an allowed check adds its time, an undo takes out exactly one stamp of its value, if there is one |
| `RateLimiter.Limiter.TryAcquire` | unibridge-service/app/middleware/rate_limiter.py:73-80 | the table of slots is what each user's history of attempts and releases says; an attempt succeeds exactly when fewer than the limit are held, and only this user's history grows |
| `RateLimiter.Limiter.ReleaseSlot` | unibridge-service/app/middleware/rate_limiter.py:82-87 | one slot fewer, never below none, and only this user's history grows |
| `RateLimiter.SlidingWindow` | unibridge-service/app/middleware/rate_limiter.py:35-57 | for every run with a non-decreasing clock and every instant, at most the largest limit in force of admitted and not undone stamps lie in the 60 seconds before it, wherever that window lies |
| `RateLimiter.OrderedIff` | unibridge-service/app/middleware/rate_limiter.py:42-45 | the clock this asks for: no check is earlier than one before it |
| `RateLimiter.LimiterKeepsTheLimit` | unibridge-service/app/middleware/rate_limiter.py:35-57 | so of what a limiter itself admitted, whatever calls were made on it in order of time, at most the largest limit in force lies in any 60 seconds for any user |
| `RateLimiter.CheckDecides` | unibridge-service/app/middleware/rate_limiter.py:45-57 | told from the whole history: a check is allowed exactly when fewer than the limit of its stamps are live, refused exactly when some are live and no more fit, and raises exactly when the limit is not positive and none is live |
| `RateLimiter.RunAgrees` | unibridge-service/app/middleware/rate_limiter.py:35-71 | the bucket, purged and undone as it goes, stands for the whole history of admitted and not undone stamps |
| `RateLimiter.RetryWithinAMinute` | unibridge-service/app/middleware/rate_limiter.py:49-53 | a refusal asks for a wait of 1 to 60 seconds |
| `RateLimiter.WaitingIsRewarded` | unibridge-service/app/middleware/rate_limiter.py:49-57 | under one limit, waiting that long with no other admission and any number of undos leads to acceptance |
| `RateLimiter.RetryAllowedIff` | unibridge-service/app/middleware/rate_limiter.py:45-57 | under any limits and with any undos but no admission in between, the promised wait leads to acceptance exactly when fewer than the limit then in force of the stamps live at the refusal are neither undone nor expired at the retry |
| `RateLimiter.LoweredLimitBreaksThePromise` | unibridge-service/app/middleware/rate_limiter.py:27-32 | the counterexample as a run: two checks admitted under a limit of 2, one refused under a limit of 1, and refused again after the promised wait |
| `RateLimiter.OutOfOrderChecksExceedTheLimit` | unibridge-service/app/middleware/rate_limiter.py:42-45 | the time is read before the lock is taken: checks that reach the bucket out of order exceed the limit |
| `RateLimiter.SlotsAreCounted` | unibridge-service/app/middleware/rate_limiter.py:73-87 | while slots are only given back by holders the counter is the number held, within the limit, and an attempt fails only when all are taken |
| `Sse.HeartbeatsAreInvisible` | llm-converter/app/sse.py:160-206 | for every schedule of waits and whatever the frames contain, parsing what went out with heartbeats gives what each frame delivered is read as on its own, in order: heartbeats add nothing and no frame touches another |
| `Sse.WholeFrameReads` | llm-converter/app/sse.py:160-206 | a frame whose JSON holds none of the characters at which the client breaks lines is read as exactly its event |
| `Sse.CutFrameReads` | llm-converter/app/sse.py:186-206 | a frame cut by such a character is read as nothing, when what is before the cut is no JSON and no later line looks like data |
| `Sse.RoundTripIff` | llm-converter/app/sse.py:160-206 | for events that are read back when whole and as nothing when cut, exactly those on one line come back, so everything delivered comes back if and only if no JSON text delivered holds such a character; everything is delivered when the consumer stays |
| `Sse.SeparatorIsLost` | llm-converter/app/sse.py:160-164 | the counterexample: a line separator, which the dump leaves as it is |
| `Sse.CutsRefused` | llm-converter/app/sse.py:186-206 | a reader that accepts only JSON refuses every object text cut before a character that is no JSON whitespace |
| `Sse.WithHeartbeat` | llm-converter/app/sse.py:41-60 | one pull stays pending across any number of timeouts, so the output is the source's chunks with heartbeats between them and nothing lost |
| `Sse.IterChunks` | llm-converter/app/sse.py:177-206 | the line loop computes the specified reading, a trailing payload without blank line included |
| `SseReading.AnyLinesRead` | llm-converter/app/sse.py:177-206 | whatever the lines, they are blocks of fields between blank lines, and what is read is what each block brings, in order, an unfinished last block included: nothing without data, for the end marker between white space or for what is no JSON object, else the event in the block's data texts, each on a line of its own |
| `SseReading.FrameLaidOut` | llm-converter/app/sse.py:160-164 | a frame is a line with the event's type, a line with its JSON, and a blank line, and nothing else |
| `Sse.ReadFrame` | llm-converter/app/sse.py:160-164 | a frame's lines are read as exactly its event |

## Left out

- Usage counters, token mapping, error payload mapping and the scrubbing of error bodies: case analysis on fields that no modelled step depends on. Chunks that only carry usage are chunks without a choice.
- Echoed request fields, `namespace` stamping, `incomplete_details`, annotations and timestamps in Responses events.
- `tool_choice`, `response_format`, tool schema and image translation, `reasoning_effort.py`, `token_estimate.py`: mappings without state. Of `_content_to_chat` an image part is kept as its already built object.
- The sanitizer's treatment of a `content_block` that is no object, where the source raises.
- Identifiers that are not strings: an id, name or argument of a chunk that is not a non-empty string is absent, as the bridges treat it. In chat messages arguments of any JSON type are kept.
- Fresh ids are numbers of a supply, not random hex strings, so that an upstream id never equals a minted one.
- `json.loads` has a recursion limit; `Json` recognises the texts of RFC 8259, with `NaN` and the infinities as `json.loads` does, without a depth limit. Every other module takes the test for a complete text as a parameter `complete`, so its results hold for any test that rejects the empty text.
- `json.dumps` and `json.loads` of stored transcripts: a transcript is a value and `size` its serialised length. A put that raises, in the SQLite store or in its serialisation, is not modelled.
- OneShot.StreamingAgrees: one direction; the exact condition on the arguments is `OneShotExact.StreamingAgreesIff`.
- ResponsesItems.KeptNames: speaks of the await for the next chunk; at a yield in the middle of a chunk `ResponsesTheorems.CancellationAtAnyYield` fixes the calls, their ids and their arguments, but not the name of a call announced without one.
- ResponsesTheorems.CancellationAtAnyYield: closes the bridge generator itself. When asyncio finalises a nested generator is not modelled; `RouteTheorems.DisconnectedTurn` takes the case in which the bridge was closed before the route's own `finally` reads the holder, `RouteTheorems.DisconnectedUnclosed` the one in which it was not.
- SQLite itself: pragmas, commits, the lock, and the order of rows with equal access times. The bisimulation assumes an increasing clock, under which there are none; nothing is claimed about the stores after their first divergence.
- RouteTheorems.LinearChain: only the chain's own requests between its turns (failing ones in `RouteRetries.FailuresLeaveChainAlone`); other traffic may evict a parent, which the route answers with an error.
- ReplayTheorems.ChainingIsReplaying: one direction, for exchanges that are `Ordinary`: the answer meets the exact condition of `ReplayTheorems.ReplayAgreesIff`, the input names its calls and does not begin by continuing an assistant turn; and conversations without `instructions`, which a chain repeats on every turn and a replaying client sends once.
- RateLimiter: floating-point times are real numbers, and the methods of one limiter run one after the other, as under its lock.
- Sse.RoundTripIff: of the events with a line-break character, those none of whose later lines starts with `data:`; what a client makes of a later line that does is part of `Sse.Alone` and not described further. A carriage return and newline pair as one break is not modelled.
- Sse: lines are broken by the HTTP client, which is not part of this model; the characters at which it breaks are a parameter. Teardown of a pending pull is modelled only as the end of the list of waits.
- HTTP status handling, header forwarding, timeouts, tracing, authentication and model listing.
- unibridge-service apart from the rate limiter, unibridge-ui, end-to-end tests, deployment and backup scripts.
