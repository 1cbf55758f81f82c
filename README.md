# A verified model of the chat-with-file-tool core

The system is a chat application made of two parts. A backend holds one conversation per
WebSocket connection. It streams the model's reply from the Anthropic Messages API and
forwards the text to the browser as it arrives. When the model asks to create a file, the
backend waits for the user to approve, then writes the file in fixed slices under a
workspace directory, reporting progress. The browser client keeps the visible state in a
reducer, reconnects with a growing delay, and renders error codes as texts.

This project models that core in Dafny and proves what each part promises:

- `ProcessClientEvent` / `UsecaseSpec` / `UsecaseProperties`: the per-session orchestrator
  `ProcessClientEventUsecase`. It covers a user message, a tool approval or denial, the
  resume after a tool result, the staging of an invalid tool call, status forwarding, and
  the mapping of provider errors to error codes. The class methods change a `Usecase`
  object's fields and are proved equal to specification functions over `UsecaseState`.
  The lemmas prove the promised behaviour of those functions.
- `ChatSessions`: the `ChatSession` entity, a class whose history only grows.
- `Anthropic`: the fold of provider stream events into assistant blocks and callbacks.
- `Sse`: the `sse_iter` record framer.
- `Paths`: `safe_join`, both as written and corrected.
- `ToolService`: `split_chunks`, `stream_create_file`, `ToolExecutionError` and a workspace
  object holding the files written.
- `Schemas`: the hand-checked validators for tool input, client events, tool results and
  provider events.
- `Metrics`: the counter and histogram registry, with its text rendering.
- `Gateway` / `GatewayProperties`: the WebSocket gateway's decisions, covering origin check,
  session map and message handling.
- `ChatClient` / `ChatClientProperties`: the browser reducer (pure functions) and the
  `useChatClient` hook (a class over the reducer state, attempt counter, socket, timer and
  outbox).
- `Page`: `formatError`, `errorText` and the form's `onSubmit`.
- Support modules:
  - `JsString`: the JavaScript string operations the core relies on (`trim`, `indexOf`,
    `includes`, `toLowerCase`, `split`, number-to-text).
  - `Json`: a JSON value type, `JSON.stringify` on it, and a parser for flat objects.
  - `Utf16`: UTF-16 code units and UTF-8 byte length.
  - `ToolResultCodec`: the tool-result payload as it is stored in history.
  - `Domain`, `Wrappers` and `SeqLemmas`.

A `JSON.parse` whose behaviour is not fixed by the model is a parameter
`parse: string -> Option<Json>`. The model's results hold for every such parser. Where a
result needs the parser to read back what `JSON.stringify` wrote, the lemma says so in a
`requires`.

Behaviours of the code worth noting:

- `split_chunks` cuts text every 120 UTF-16 code units (`text.slice`), so a cut can fall
  between the two halves of a surrogate pair. The writer takes the content as the code units
  of the JavaScript string, which may hold unpaired surrogates (`JSON.parse` accepts
  `"\ud800"`); `Buffer.byteLength` counts each such unit as three bytes.
- `safe_join` accepts any path whose text starts with the base's text, so a sibling
  directory such as `/ws2` next to the base `/ws` passes. The writer is modelled with the
  containment test as a parameter (`Paths.Guard`): `Paths.AsWritten` is what
  `stream_create_file` calls, and every writer lemma holds for both tests. See Findings.
- A written file's `size` is the sum of the slices' UTF-8 byte lengths. The content's
  `length` is used only when the writer reports no `done` event
  (`UsecaseProperties.SuccessFallsBack`).
- A key written twice in a parsed object keeps its last value (`Json.Lookup`), as
  `JSON.parse` does.
- An approved tool whose input fails the second validation emits `tool_input_invalid`,
  clears the pending tool and does not resume. The model keeps that asymmetry
  (`UsecaseProperties.ApprovedInvalidInputStalls`).

## Model

Source paths are relative to the repository root.

| member | source | states |
|---|---|---|
| ChatSessions.ChatSession.constructor | backend/src/modules/chat/domain/chat_session.ts:14-19 | a new session has the given id, an empty history, no pending tool and is not active |
| ChatSessions.ChatSession.AddUserMessage | backend/src/modules/chat/domain/chat_session.ts:21-23 | appends one user text message to the history; pending tool and activity unchanged |
| ChatSessions.ChatSession.AddAssistantBlocks | backend/src/modules/chat/domain/chat_session.ts:25-27 | appends one assistant message holding the blocks; nothing else changes |
| ChatSessions.ChatSession.RecordToolResult | backend/src/modules/chat/domain/chat_session.ts:29-32 | appends one user message with a `tool_result` block for the id, whose content is the serialised payload |
| ChatSessions.ToolResultMessageDecodes | backend/src/modules/chat/domain/chat_session.ts:29-32 | the recorded message names the tool-use id, and its content decodes back to exactly the recorded payload |
| ChatSessions.ChatSession.SetPendingTool | backend/src/modules/chat/domain/chat_session.ts:34-36 | sets the pending tool; history and activity unchanged |
| ChatSessions.ChatSession.ClearPendingTool | backend/src/modules/chat/domain/chat_session.ts:38-40 | clears the pending tool; history and activity unchanged |
| ChatSessions.ChatSession.ToPublicState | backend/src/modules/chat/domain/chat_session.ts:42-50 | the snapshot carries the session's id, the messages, the pending tool and the active flag |
| ToolResultCodec.DecodeEncode | backend/src/modules/chat/domain/chat_session.ts:29-32 | decoding the stored JSON text of a payload gives back that payload |
| ToolResultCodec.EncodeInjective | backend/src/modules/chat/domain/schemas.ts:8-28 | two different payloads never serialise to the same text |
| Json.EscapeRoundTrip | backend/src/modules/chat/domain/chat_session.ts:30 | the string-body parser reads back exactly what the `JSON.stringify` escaper wrote, and stops at the closing quote |
| Json.QuoteRoundTrip | backend/src/modules/chat/domain/chat_session.ts:30 | a quoted JSON string parses back to the original string, with the rest of the input untouched |
| Json.NatRoundTrip | backend/src/modules/chat/domain/chat_session.ts:30 | a written natural number followed by a non-digit parses back to itself, leaving the rest |
| Json.MembersRoundTrip | backend/src/modules/chat/domain/chat_session.ts:30 | the members of a flat object, as written, parse back to the same members in order |
| Json.FlatObjectRoundTrip | backend/src/modules/chat/domain/chat_session.ts:30 | `JSON.stringify` of a flat object of strings and numbers parses back to the same object |
| Json.Lookup | backend/src/modules/chat/domain/schemas.ts:3-6 | a property read finds a value exactly when the key is present, and returns the value written last for that key |
| Schemas.ParseToolInput | backend/src/modules/chat/domain/schemas.ts:3-6 | accepts exactly an object whose `path` is a non-empty string and whose `content` is a string, and returns those two |
| Schemas.ToolInputRoundTrip | backend/src/modules/chat/domain/schemas.ts:3-6 | a tool input written as JSON validates back to itself when its path is non-empty, and is refused otherwise |
| Schemas.ParseClientEvent | backend/src/modules/chat/domain/schemas.ts:30-45 | any `type` other than `user_message` and `tool_approval` is refused; an accepted message has non-empty text and an accepted approval a non-empty id |
| Schemas.ClientEventRoundTrip | backend/src/modules/chat/domain/schemas.ts:30-45 | a client event written as the browser writes it validates back to itself exactly when its text or id is non-empty |
| Schemas.ParseToolResult | backend/src/modules/chat/domain/schemas.ts:8-28 | the result is `denied` exactly for status `denied`; an accepted `ok` or `error` result has that status and the fields read from the object |
| Schemas.ToolResultJsonRoundTrip | backend/src/modules/chat/domain/schemas.ts:8-28 | every payload, written as JSON, validates back to itself |
| Schemas.OkRoundTrip | backend/src/modules/chat/domain/schemas.ts:8-12 | an `ok` payload's path and size survive the JSON round trip |
| Schemas.ErrorRoundTrip | backend/src/modules/chat/domain/schemas.ts:18-22 | an `error` payload's code and message survive the JSON round trip |
| Schemas.ParseProviderEvent | backend/src/modules/chat/domain/schemas.ts:56-101 | a provider event is recognised exactly when its `type` is a string; the result keeps that type, and an unrecognised shape is never `message_stop` |
| Schemas.MalformedStopKeepsType | backend/src/modules/chat/domain/schemas.ts:82-89 | a stop event with malformed extra fields still reads as its own type |
| Sse.FindEndLeast | backend/src/utils.ts:30 | the separator search returns the first position of a blank line, or reports that there is none |
| Sse.FindEndIsIndexOf | backend/src/utils.ts:30 | the separator search agrees with `indexOf("\n\n")` |
| Sse.LineItems | backend/src/utils.ts:34-43 | a line yields at most one item; it yields one exactly when it starts with `data:`, its trimmed rest is neither empty nor `[DONE]`, and that rest parses |
| Sse.ProcessRecord | backend/src/utils.ts:33-43 | the loop over a record's lines yields the record's items in line order |
| Sse.SseIter | backend/src/utils.ts:21-59 | the generator yields the items of every complete record in order, then those of a non-blank remainder; this is also the read-by-read run `Streamed` |
| Sse.DrainRecords | backend/src/utils.ts:30-44 | the inner loop removes every complete record from the buffer, yields their items, and leaves a remainder without a separator |
| Sse.DrainStep | backend/src/utils.ts:30-32 | one pass of the inner loop splits off the first record; the framing of what is left gives the same remainder and the remaining items |
| Sse.FrameAppend | backend/src/utils.ts:25-28 | reading one more chunk only extends the framing of what came before |
| Sse.FeedAllFrames | backend/src/utils.ts:25-45 | after any number of reads, the loop has yielded the items of the complete records of everything read and buffers the unterminated remainder |
| Sse.StreamedIsFramed | backend/src/utils.ts:21-59 | the read-by-read run yields what framing the whole body yields |
| Sse.ReadBoundariesIrrelevant | backend/src/utils.ts:25-44 | two runs of the read loop over reads with the same concatenation yield the same items and keep the same buffer |
| Sse.FrameJoin | backend/src/utils.ts:30-32 | the records and the remainder, joined with blank lines, rebuild the buffer |
| Sse.FrameRecordsHaveNoEnd | backend/src/utils.ts:30-32 | no framed record contains the separator |
| Sse.RecordOfLines | backend/src/utils.ts:33-43 | each data line of a record is its own item, in order |
| Sse.DoneYieldsNothing | backend/src/utils.ts:37 | a `data: [DONE]` line yields nothing |
| Sse.BlankDataYieldsNothing | backend/src/utils.ts:37 | a data line with only whitespace after `data:` yields nothing |
| Anthropic.ParseToolInputText | backend/src/modules/chat/services/anthropic_service.ts:42-54 | empty or unparsable text gives no input; otherwise the schema's result; an accepted input has a non-empty path |
| Anthropic.WithTextLast | backend/src/modules/chat/services/anthropic_service.ts:105-113 | after a text block start, or before a text delta, the last block is a text block |
| Anthropic.Step | backend/src/modules/chat/services/anthropic_service.ts:104-145 | handling one event keeps the open tool index pointing at a tool block |
| Anthropic.RawStep | backend/src/modules/chat/services/anthropic_service.ts:99-103 | an item that fails the event schema is skipped, and the decoder stays well formed |
| Anthropic.Run | backend/src/modules/chat/services/anthropic_service.ts:98-146 | the fold over all items keeps the decoder well formed |
| Anthropic.AnthropicStream | backend/src/modules/chat/services/anthropic_service.ts:56-154 | the method makes exactly the callback calls of the stream specification for the response |
| Anthropic.AnthropicResume | backend/src/modules/chat/services/anthropic_service.ts:156-165 | the resume makes exactly the calls of a fresh stream over the same history |
| Anthropic.DecodeEvents | backend/src/modules/chat/services/anthropic_service.ts:93-146 | the loop with its mutable `blocks` and `current` makes the calls of the fold |
| Anthropic.HandleEvent | backend/src/modules/chat/services/anthropic_service.ts:104-145 | one loop iteration updates `blocks` and `current` as one step of the fold |
| Anthropic.BlocksTextAppend | backend/src/modules/chat/services/anthropic_service.ts:110-120 | appending a delta to the last text block adds exactly that text |
| Anthropic.BlocksTextSetTool | backend/src/modules/chat/services/anthropic_service.ts:131-141 | storing a parsed tool input does not change the text of the blocks |
| Anthropic.StepKeepsInv | backend/src/modules/chat/services/anthropic_service.ts:104-145 | each event keeps three facts: no two text blocks are adjacent, the blocks' text equals all `on_text` text so far, and every `on_end` follows `ai_typing: false` |
| Anthropic.InvTextStart | backend/src/modules/chat/services/anthropic_service.ts:105-109 | a text block start keeps the invariant |
| Anthropic.InvToolStart | backend/src/modules/chat/services/anthropic_service.ts:121-127 | a tool block start keeps the invariant |
| Anthropic.InvTextDelta | backend/src/modules/chat/services/anthropic_service.ts:110-120 | a text delta keeps the invariant while calling `on_text` |
| Anthropic.AppendTextKeepsSeparation | backend/src/modules/chat/services/anthropic_service.ts:110-120 | growing the last text block never makes two text blocks adjacent |
| Anthropic.InvMessageStop | backend/src/modules/chat/services/anthropic_service.ts:142-145 | `message_stop` keeps the invariant while announcing typing off and ending |
| Anthropic.InvToolStop | backend/src/modules/chat/services/anthropic_service.ts:131-141 | closing a tool block keeps the invariant |
| Anthropic.RunInv | backend/src/modules/chat/services/anthropic_service.ts:98-146 | after any items the invariant holds, and `on_end` is called once per `message_stop` item |
| Anthropic.StepEnds | backend/src/modules/chat/services/anthropic_service.ts:142-145 | an event calls `on_end` exactly when it is `message_stop` |
| Anthropic.EndCarriesText | backend/src/modules/chat/services/anthropic_service.ts:142-145 | `on_end` receives blocks holding exactly the text sent through `on_text`, with no adjacent text blocks |
| Anthropic.ToolStartPushesPlaceholder | backend/src/modules/chat/services/anthropic_service.ts:121-127 | a tool block start appends a tool block with the id, the name (default `create_file`) and an empty input, and opens it |
| Anthropic.StopWithOpenTool | backend/src/modules/chat/services/anthropic_service.ts:131-141 | a stop closes the open tool and calls `on_tool` once; a parsed input is stored in its block, an unparsable one leaves the placeholder; other blocks unchanged |
| Anthropic.StopWithoutToolIsNoop | backend/src/modules/chat/services/anthropic_service.ts:131-132 | a stop with no open tool changes nothing and calls nothing |
| Anthropic.InvalidItemSkipped | backend/src/modules/chat/services/anthropic_service.ts:99-103 | an item that is not a provider event leaves the decoder and the calls unchanged |
| Anthropic.NoStopNoEnd | backend/src/modules/chat/services/anthropic_service.ts:142-146 | a stream without `message_stop` never calls `on_end` |
| Anthropic.FailedReplyIsReported | backend/src/modules/chat/services/anthropic_service.ts:76-92 | a non-2xx reply calls typing on, typing off, then `on_error` with that status, the body's detail and `anthropic_http_<status>` |
| Anthropic.StreamShape | backend/src/modules/chat/services/anthropic_service.ts:56-154 | every stream starts with `ai_typing: true`, and an `on_error` can only be the last call, right after `ai_typing: false` |
| Anthropic.ShapeOfItems | backend/src/modules/chat/services/anthropic_service.ts:98-146 | typing on, the decoded calls and an optional failure tail form a well-shaped stream |
| Anthropic.ShapeOfRun | backend/src/modules/chat/services/anthropic_service.ts:98-146 | calls without `on_error`, between typing on and an optional failure tail, form a well-shaped stream |
| Anthropic.RunHasNoError | backend/src/modules/chat/services/anthropic_service.ts:98-146 | decoding items never calls `on_error` |
| Paths.SafeJoinAsWritten | backend/src/utils.ts:11-17 | as written: accepts exactly when the resolved join's text starts with the resolved base's text, and otherwise fails with `invalid_path` |
| Paths.SafeJoin | backend/src/utils.ts:11-17 | corrected: accepts exactly when the resolved base's segments are a prefix of the resolved join's segments, and then returns the resolved join |
| Paths.GuardedJoin | backend/src/utils.ts:11-17 | either containment test fails only with `invalid_path` |
| Paths.SegmentsClean | backend/src/utils.ts:12-14 | a resolved path has no empty, `.` or `..` segment |
| Paths.ResolveIdempotent | backend/src/utils.ts:13-14 | resolving a resolved path changes nothing |
| Paths.WalkDescends | backend/src/utils.ts:12-13 | walking relative segments without `..` only descends from the start |
| Paths.SafeJoinContained | backend/src/utils.ts:11-17 | every accepted path lies inside the base, segment by segment, and is the resolved join |
| Paths.SafeJoinAcceptsDescent | backend/src/utils.ts:11-17 | with a non-empty base, a target without `..` segments is always accepted |
| Paths.SafeJoinNarrowsAsWritten | backend/src/utils.ts:15 | whatever the corrected check accepts, the written check accepts with the same path |
| Paths.SiblingEscapesAsWritten | backend/src/utils.ts:15 | with base `/ws`, the target `../ws2/f` passes the written check and resolves to `/ws2/f`, outside the base |
| Paths.SiblingRejected | backend/src/utils.ts:15 | the corrected check rejects that target |
| Utf16.Utf8LengthConcat | backend/src/modules/chat/services/mcp_tool_service.ts:42 | the byte length of two texts is the sum of their byte lengths when the cut does not split a surrogate pair |
| Utf16.Utf8LengthStraddle | backend/src/modules/chat/services/mcp_tool_service.ts:42 | a cut through a surrogate pair counts two bytes more than the whole text |
| Utf16.Utf8LengthOfEncode | backend/src/modules/chat/services/mcp_tool_service.ts:42 | an encoded text's byte length is its characters' UTF-8 byte count, and the encoding never ends inside a surrogate pair |
| ToolService.ToolExecutionError | backend/src/modules/chat/services/mcp_tool_service.ts:6-11 | the error is a `ToolExecutionError` carrying the given code and message |
| ToolService.Rethrown | backend/src/modules/chat/services/mcp_tool_service.ts:47-49 | a `ToolExecutionError` passes unchanged; any other error becomes `tool_error` with its message, or `unknown_tool_error` when not an `Error` |
| ToolService.WriteFailed | backend/src/modules/chat/services/mcp_tool_service.ts:37-41 | an append failure becomes `write_failed` with the error's message, or `write_failed` when not an `Error` |
| ToolService.SplitChunks | backend/src/modules/chat/services/mcp_tool_service.ts:55-60 | the loop produces the slices of the chunking specification |
| ToolService.ChunksFromFlatten | backend/src/modules/chat/services/mcp_tool_service.ts:58 | the slices from any offset concatenate to the text from that offset |
| ToolService.ChunksFromShape | backend/src/modules/chat/services/mcp_tool_service.ts:56-58 | the slices from any offset are 1 to 120 units long, all but the last exactly 120, and there are ceil(rest/120) of them |
| ToolService.SplitChunksProperties | backend/src/modules/chat/services/mcp_tool_service.ts:55-60 | the slices concatenate to the text, are 1 to 120 units long with only the last shorter, number ceil(n/120), and are none exactly for the empty text |
| ToolService.WrittenAligned | backend/src/modules/chat/services/mcp_tool_service.ts:42 | when no cut splits a surrogate pair, the running byte total ends at the whole text's byte length |
| ToolService.Workspace.constructor | backend/src/modules/chat/services/mcp_tool_service.ts:21-23 | a new workspace has no files and no open handles |
| ToolService.Workspace.StreamCreateFile | backend/src/modules/chat/services/mcp_tool_service.ts:21-53 | for the containment test given (the as-written `safe_join` in the source), the generator's events and failure are those of the stream specification; the handle count is restored; the target file holds exactly the slices appended |
| ToolService.Workspace.WriteFile | backend/src/modules/chat/services/mcp_tool_service.ts:33-46 | the write loop yields one event per appended slice, then `done`, or stops at the first append failure; the file holds the slices appended |
| ToolService.ChunkEventsAt | backend/src/modules/chat/services/mcp_tool_service.ts:42-43 | the j-th progress event carries the j-th slice and the byte total of slices 0..j |
| ToolService.WriteRunShape | backend/src/modules/chat/services/mcp_tool_service.ts:36-46 | a run succeeds exactly when every slice was appended; it then has one event per slice plus a final `done` with the path and the total bytes |
| ToolService.StreamSuccess | backend/src/modules/chat/services/mcp_tool_service.ts:21-46 | for either containment test, a successful run had an accepted path and yields a progress event per slice, then `done` with the resolved path and size |
| ToolService.DoneOnlyAtEnd | backend/src/modules/chat/services/mcp_tool_service.ts:43-46 | `done` appears only as the last event, and only when the run succeeds |
| ToolService.RejectedPathYieldsNothing | backend/src/modules/chat/services/mcp_tool_service.ts:24-29 | for either containment test, a path it rejects yields nothing, fails with `invalid_path`, and touches no file |
| ToolService.AppendFailureStops | backend/src/modules/chat/services/mcp_tool_service.ts:36-41 | a failure appending slice k yields exactly the k earlier progress events, then `write_failed` |
| ToolService.FailuresAreTyped | backend/src/modules/chat/services/mcp_tool_service.ts:24-49 | every failure after the directories exist is a `ToolExecutionError` coded `invalid_path`, `write_failed` or `tool_error`, or the open's own typed error |
| ToolService.SizeOfAlignedContent | backend/src/modules/chat/services/mcp_tool_service.ts:42-46 | when the slicing splits no surrogate pair, the reported size is the content's UTF-8 byte length, an unpaired surrogate counting three bytes |
| ToolService.SizeOfAlignedText | backend/src/modules/chat/services/mcp_tool_service.ts:42-46 | for content that encodes a string of Unicode characters, that size is the string's UTF-8 byte count |
| ToolService.LoneSurrogateCountsThree | backend/src/modules/chat/services/mcp_tool_service.ts:42-46 | a lone high surrogate is written as one slice reported as three bytes, then `done` with size three |
| ToolService.SiblingWrittenAsWritten | backend/src/modules/chat/services/mcp_tool_service.ts:26 | with `safe_join` as written, base `/ws` and path `../ws2/f`, the file `/ws2/f` is opened and written, and `done` names it |
| ToolService.SiblingRefusedCorrected | backend/src/modules/chat/services/mcp_tool_service.ts:26-29 | with the corrected test, the same call fails with `invalid_path`, yields nothing and opens no file |
| Metrics.Inc | backend/src/metrics.ts:4-7 | the named counter grows by the value; other counters and the histograms are unchanged; a new name is added last |
| Metrics.Observe | backend/src/metrics.ts:9-14 | the named histogram gains one sample and the duration, starting from zero; others unchanged |
| Metrics.CounterBlockWidth | backend/src/metrics.ts:26 | each counter renders as two lines |
| Metrics.HistogramBlockWidth | backend/src/metrics.ts:27-29 | each histogram renders as three lines |
| Metrics.CounterLinesAt | backend/src/metrics.ts:26 | lines 2i and 2i+1 are the i-th counter's `# TYPE name counter` and `name value` |
| Metrics.CounterLines | backend/src/metrics.ts:26 | every counter appears with its type line and its value line |
| Metrics.HistogramLinesAt | backend/src/metrics.ts:27-29 | each histogram's block is its gauge type line, its `_count` line and its `_sum` line |
| Metrics.HistogramLines | backend/src/metrics.ts:27-29 | every histogram appears with its three lines after the counters |
| Metrics.RenderEmpty | backend/src/metrics.ts:24-31 | the empty registry renders as a single newline |
| Metrics.Registry.constructor | backend/src/metrics.ts:1-2 | a new registry has no counters and no histograms, and its name lists match its tables |
| Metrics.Registry.IncrementCounter | backend/src/metrics.ts:4-7 | the registry's tables become their increment, and name lists that matched the tables still do |
| Metrics.Registry.ObserveDuration | backend/src/metrics.ts:9-14 | the registry's tables become their observation, and name lists that matched the tables still do |
| Metrics.Registry.RenderMetrics | backend/src/metrics.ts:24-31 | the text returned is the rendering of the tables, which are unchanged |
| Metrics.Registry.ResetMetrics | backend/src/metrics.ts:33-36 | both tables become empty, with empty name lists |
| JsString.TrimStartDropsWhitespace | backend/src/utils.ts:36 | the part `trimStart` removes is whitespace |
| JsString.TrimEndDropsWhitespace | backend/src/utils.ts:36 | the part `trimEnd` removes is whitespace |
| JsString.TrimSlice | backend/src/utils.ts:36 | `trim` keeps a slice, removing only whitespace at each end, and the result neither starts nor ends with whitespace |
| JsString.TrimIdempotent | frontend/lib/use_chat_client.ts:230-235 | trimming twice is trimming once |
| JsString.TrimEmptyIff | backend/src/utils.ts:46 | `trim` gives the empty text exactly when every character is whitespace |
| JsString.IndexOfFromLeast | backend/src/utils.ts:30 | `indexOf` returns the first occurrence at or after the start, or reports that there is none |
| JsString.IndexOfExtend | backend/src/utils.ts:28-30 | an occurrence found in a buffer is still found after more text is appended |
| JsString.ContainsIff | backend/src/modules/chat/usecases/process_client_event.usecase.ts:80 | `includes` holds exactly when some position starts the pattern |
| JsString.ToLowerAscii | backend/src/modules/chat/usecases/process_client_event.usecase.ts:79 | lowercasing keeps the length and maps each letter A-Z to its lowercase form |
| JsString.LowerAppend | backend/src/modules/chat/usecases/process_client_event.usecase.ts:79 | lowercasing a concatenation is concatenating the lowercased parts |
| JsString.ContainsWithin | backend/src/modules/chat/usecases/process_client_event.usecase.ts:79-80 | a pattern found in a part is found in any text containing that part |
| JsString.Split | backend/src/utils.ts:33 | `split` always returns at least one piece, and a text without the separator is that one piece |
| JsString.SplitNoSep | backend/src/utils.ts:33 | a text without the separator splits into itself alone |
| JsString.SplitAppend | backend/src/utils.ts:33 | splitting `a + sep + b` gives the pieces of `a`, then the pieces of `b` |
| JsString.SplitJoin | backend/src/utils.ts:33 | joining the pieces with the separator rebuilds the text |
| JsString.JoinSplit | backend/src/utils.ts:33 | splitting the join of separator-free pieces gives back those pieces |
| JsString.NatToString | backend/src/metrics.ts:26 | the decimal text of a number is non-empty |
| JsString.NatToStringDigits | backend/src/metrics.ts:26 | every character of the decimal text is a digit, and there is no leading zero |
| UsecaseSpec.DetailString | backend/src/modules/chat/usecases/process_client_event.usecase.ts:46-58 | a detail renders as text only as a non-empty string |
| UsecaseSpec.MapAiError | backend/src/modules/chat/usecases/process_client_event.usecase.ts:45-93 | the credit phrase anywhere wins as `ai_saldo_insuficiente`; otherwise the code follows the status; the detail is the error message if non-empty, else the detail text |
| UsecaseSpec.ForwardedStatus | backend/src/modules/chat/usecases/process_client_event.usecase.ts:266-273 | nothing is forwarded exactly when none of `ai_typing`, `tool_running`, `file_path` and `busy` has the right type; otherwise exactly those four are copied |
| ProcessClientEvent.Usecase.constructor | backend/src/modules/chat/usecases/process_client_event.usecase.ts:37-43 | a new usecase starts from the session's history, pending tool and activity, with no staged result and nothing sent |
| ProcessClientEvent.Usecase.SendEvent | backend/src/modules/chat/usecases/process_client_event.usecase.ts:41 | one event is sent to the socket, nothing else changes |
| ProcessClientEvent.Usecase.Counter | backend/src/modules/chat/usecases/process_client_event.usecase.ts:111 | the state becomes that counter's increment by one |
| ProcessClientEvent.Usecase.StatusPayload | backend/src/modules/chat/usecases/process_client_event.usecase.ts:267-271 | the outgoing status carries exactly the four typed fields of the provider status |
| ProcessClientEvent.Usecase.ForwardStatus | backend/src/modules/chat/usecases/process_client_event.usecase.ts:266-273 | the state becomes its forwarding specification |
| ProcessClientEvent.Usecase.HandleToolUse | backend/src/modules/chat/usecases/process_client_event.usecase.ts:244-264 | the state becomes its tool-use specification: valid input pends and is shown, invalid input is reported and staged |
| ProcessClientEvent.Usecase.FailTurn | backend/src/modules/chat/usecases/process_client_event.usecase.ts:126-135 | the state becomes its failure specification |
| ProcessClientEvent.Usecase.CompleteTurn | backend/src/modules/chat/usecases/process_client_event.usecase.ts:120-123 | the state becomes its completion specification |
| ProcessClientEvent.Usecase.FirstCallback | backend/src/modules/chat/usecases/process_client_event.usecase.ts:117-135 | one callback of the first turn updates the state as its specification |
| ProcessClientEvent.Usecase.ResumeCallback | backend/src/modules/chat/usecases/process_client_event.usecase.ts:209-227 | one callback of a resumed turn updates the state as its specification |
| ProcessClientEvent.Usecase.StartStream | backend/src/modules/chat/usecases/process_client_event.usecase.ts:113-116 | the request over the current history is logged and the next scripted turn is taken |
| ProcessClientEvent.Usecase.EndStream | backend/src/modules/chat/usecases/process_client_event.usecase.ts:137-149 | a thrown turn is reported as a failure, then the turn's duration is recorded in the histogram |
| ProcessClientEvent.Usecase.ResumeAfterTool | backend/src/modules/chat/usecases/process_client_event.usecase.ts:203-242 | the state becomes its resume specification |
| ProcessClientEvent.Usecase.ProcessDeferredToolResult | backend/src/modules/chat/usecases/process_client_event.usecase.ts:275-282 | the state becomes its drain specification |
| ProcessClientEvent.Usecase.HandleUserMessage | backend/src/modules/chat/usecases/process_client_event.usecase.ts:103-150 | the state becomes its user-message specification |
| ProcessClientEvent.Usecase.ExecuteTool | backend/src/modules/chat/usecases/process_client_event.usecase.ts:171-197 | the state and the result become the execution specification's |
| ProcessClientEvent.Usecase.RecordAndResume | backend/src/modules/chat/usecases/process_client_event.usecase.ts:198-200 | the state becomes record-then-resume |
| ProcessClientEvent.Usecase.HandleToolApproval | backend/src/modules/chat/usecases/process_client_event.usecase.ts:152-201 | the state becomes its approval specification |
| ProcessClientEvent.Usecase.HandleEvent | backend/src/modules/chat/usecases/process_client_event.usecase.ts:95-101 | the state becomes its event specification |
| UsecaseProperties.EmitGrows | backend/src/modules/chat/usecases/process_client_event.usecase.ts:41 | sending an event only extends the logs |
| UsecaseProperties.FailGrows | backend/src/modules/chat/usecases/process_client_event.usecase.ts:126-135 | a failure only extends history, events and requests |
| UsecaseProperties.ResumeStepGrows | backend/src/modules/chat/usecases/process_client_event.usecase.ts:209-227 | each resumed callback only extends, and does not run the writer |
| UsecaseProperties.ResumeCallsGrows | backend/src/modules/chat/usecases/process_client_event.usecase.ts:209-227 | any sequence of resumed callbacks only extends |
| UsecaseProperties.StartTurnGrows | backend/src/modules/chat/usecases/process_client_event.usecase.ts:113-116 | starting a turn logs one request carrying the current history |
| UsecaseProperties.FinishTurnGrows | backend/src/modules/chat/usecases/process_client_event.usecase.ts:137-149 | finishing a turn only extends |
| UsecaseProperties.ResumeGrows | backend/src/modules/chat/usecases/process_client_event.usecase.ts:203-242 | a resume only extends, and its first request is a resumed stream over the current history |
| UsecaseProperties.RecordGrows | backend/src/modules/chat/usecases/process_client_event.usecase.ts:198-199 | recording a result only extends |
| UsecaseProperties.DrainGrows | backend/src/modules/chat/usecases/process_client_event.usecase.ts:275-282 | draining the staged result only extends |
| UsecaseProperties.FirstStepGrows | backend/src/modules/chat/usecases/process_client_event.usecase.ts:117-135 | each first-turn callback only extends |
| UsecaseProperties.FirstCallsGrows | backend/src/modules/chat/usecases/process_client_event.usecase.ts:117-135 | any sequence of first-turn callbacks only extends |
| UsecaseProperties.UserMessageGrows | backend/src/modules/chat/usecases/process_client_event.usecase.ts:103-150 | a user message only extends, and when accepted its first request is a fresh stream over the history with that message |
| UsecaseProperties.ExecuteGrows | backend/src/modules/chat/usecases/process_client_event.usecase.ts:171-197 | running the tool leaves history and requests unchanged and runs the writer once on the input |
| UsecaseProperties.ApprovalGrows | backend/src/modules/chat/usecases/process_client_event.usecase.ts:152-201 | an approval or denial only extends |
| UsecaseProperties.HistoryOnlyGrows | backend/src/modules/chat/domain/chat_session.ts:21-32 | whatever event arrives, the history, the events sent, the requests and the writer runs are only extended |
| UsecaseProperties.BusyRejectsMessage | backend/src/modules/chat/usecases/process_client_event.usecase.ts:104-108 | a message during a turn only sends `busy: true`; nothing else changes |
| UsecaseProperties.FirstEndCompletes | backend/src/modules/chat/usecases/process_client_event.usecase.ts:120-125 | without a staged result, `on_end` records the blocks, ends the turn and sends `ok` |
| UsecaseProperties.CompletedTurn | backend/src/modules/chat/usecases/process_client_event.usecase.ts:103-150 | a reply that only ends adds the user and assistant messages, sends `ok` and leaves the session idle |
| UsecaseProperties.FailureReported | backend/src/modules/chat/usecases/process_client_event.usecase.ts:126-135 | a failure sends typing off, the mapped error and `error` completion, clears the pending tool and goes idle, history unchanged |
| UsecaseProperties.RejectedFirstTurn | backend/src/modules/chat/usecases/process_client_event.usecase.ts:137-145 | a stream that throws keeps the user message and is reported as a failure |
| UsecaseProperties.NoPendingToolRejected | backend/src/modules/chat/usecases/process_client_event.usecase.ts:153-157 | an approval for no pending tool or another id only sends `no_pending_tool` |
| UsecaseProperties.ApprovedInvalidInputStalls | backend/src/modules/chat/usecases/process_client_event.usecase.ts:165-170 | an approved input that fails validation sends `tool_input_invalid`, clears the tool, runs nothing and does not resume |
| UsecaseProperties.DenialRecordsAndResumes | backend/src/modules/chat/usecases/process_client_event.usecase.ts:158-163 | a denial records a `denied` result for that id and resumes with it, without running the writer |
| UsecaseProperties.DenialThenCompletion | backend/src/modules/chat/usecases/process_client_event.usecase.ts:158-163 | a denial followed by a reply that only ends leaves denied result and reply in history, idle, with `ok` sent |
| UsecaseProperties.ApprovedToolRuns | backend/src/modules/chat/usecases/process_client_event.usecase.ts:164-200 | an approved valid tool runs the writer once, sends running, chunks, any error and stopped, records one result and resumes with it |
| UsecaseProperties.ExecuteShape | backend/src/modules/chat/usecases/process_client_event.usecase.ts:171-197 | running the tool sends running, the chunks, any `tool_error` and stopped, and gives the outcome of the writer's run |
| UsecaseProperties.ChunkEventsRelay | backend/src/modules/chat/usecases/process_client_event.usecase.ts:175-178 | every non-empty progress chunk is relayed as one `tool_chunk`, in order |
| UsecaseProperties.ChunkEventsSilent | backend/src/modules/chat/usecases/process_client_event.usecase.ts:175-178 | events without a chunk relay nothing |
| UsecaseProperties.FinalStatsLastDone | backend/src/modules/chat/usecases/process_client_event.usecase.ts:175-178 | the last `done` event decides the reported path and size |
| UsecaseProperties.FinalStatsNoDone | backend/src/modules/chat/usecases/process_client_event.usecase.ts:175-178 | without `done`, no path or size is remembered |
| UsecaseProperties.SuccessFallsBack | backend/src/modules/chat/usecases/process_client_event.usecase.ts:179-183 | a run with no `done` reports the requested path and the content's length |
| UsecaseProperties.FailureCode | backend/src/modules/chat/usecases/process_client_event.usecase.ts:184-194 | a failure is an `error` result with its message, coded by its `code` or `tool_execution_failed` |
| UsecaseProperties.InvalidToolUseStaged | backend/src/modules/chat/usecases/process_client_event.usecase.ts:245-256 | an invalid tool call sends `tool_input_invalid` and stages an `invalid_tool_input` result |
| UsecaseProperties.ValidToolUsePends | backend/src/modules/chat/usecases/process_client_event.usecase.ts:257-263 | a valid tool call becomes the pending tool and is shown |
| UsecaseProperties.FirstEndDrains | backend/src/modules/chat/usecases/process_client_event.usecase.ts:120-125 | with a staged result, `on_end` sends `ok`, records blocks and the staged result, and resumes over them |
| UsecaseProperties.InvalidToolAutoResumes | backend/src/modules/chat/usecases/process_client_event.usecase.ts:103-150 | a reply with an invalid tool call records it and the rejection, resumes once, and ends idle with no staged or pending tool |
| UsecaseProperties.FreshStart | backend/src/modules/chat/usecases/process_client_event.usecase.ts:109-116 | an accepted message is recorded, the session becomes active and a fresh request over it is logged |
| UsecaseProperties.FreshTurnRuns | backend/src/modules/chat/usecases/process_client_event.usecase.ts:109-150 | an accepted message plays the turn's callbacks from that start and records the duration |
| UsecaseProperties.InvalidToolTurn | backend/src/modules/chat/usecases/process_client_event.usecase.ts:117-125 | invalid tool then `on_end` records, rejects, resumes and completes |
| UsecaseProperties.StagedResultResumes | backend/src/modules/chat/usecases/process_client_event.usecase.ts:275-282 | the staged result is taken once: the resumed reply ends the turn with the slot empty |
| UsecaseProperties.DrainEmptiesSlot | backend/src/modules/chat/usecases/process_client_event.usecase.ts:275-282 | draining empties the slot and the pending tool, records the result, then resumes |
| UsecaseProperties.ResumeEndKeepsSlot | backend/src/modules/chat/usecases/process_client_event.usecase.ts:213-217 | a resumed `on_end` records the blocks and sends `ok` without draining |
| UsecaseProperties.FirstCallsAppend | backend/src/modules/chat/usecases/process_client_event.usecase.ts:116-135 | playing two runs of callbacks is playing their concatenation |
| UsecaseProperties.StreamTurnStartsTyping | backend/src/modules/chat/services/anthropic_service.ts:59 | the first event of every streamed turn is `ai_typing: true` |
| UsecaseProperties.TypingForwarded | backend/src/modules/chat/usecases/process_client_event.usecase.ts:266-273 | a typing status is forwarded unchanged |
| UsecaseProperties.MistypedStatusDropped | backend/src/modules/chat/usecases/process_client_event.usecase.ts:266-273 | a status whose fields have the wrong types is not forwarded |
| UsecaseProperties.CreditBalanceWins | backend/src/modules/chat/usecases/process_client_event.usecase.ts:79-82 | the credit phrase in message or detail gives `ai_saldo_insuficiente` whatever the status |
| UsecaseProperties.MappedCodes | backend/src/modules/chat/usecases/process_client_event.usecase.ts:80-92 | every error maps to one of the five codes |
| UsecaseProperties.ProviderErrorMessage | backend/src/modules/chat/usecases/process_client_event.usecase.ts:69-77 | a provider error body's nested `error.message` is the message and becomes the detail |
| Gateway.OriginAllowed | backend/src/modules/chat/gateways/chat.gateway.ts:84-88 | `*` allows every origin; otherwise an origin is allowed exactly when it is non-empty and listed |
| Gateway.ChatGateway.constructor | backend/src/modules/chat/gateways/chat.gateway.ts:23 | a new gateway has no sessions and has done nothing |
| Gateway.ChatGateway.SafeSend | backend/src/modules/chat/gateways/chat.gateway.ts:90-96 | one event is sent to the socket |
| Gateway.ChatGateway.HandleConnection | backend/src/modules/chat/gateways/chat.gateway.ts:23-51 | the state becomes its connection specification |
| Gateway.ChatGateway.HandleDisconnect | backend/src/modules/chat/gateways/chat.gateway.ts:53-59 | the state becomes its disconnection specification |
| Gateway.ChatGateway.HandleMessage | backend/src/modules/chat/gateways/chat.gateway.ts:61-82 | the state becomes its message specification |
| GatewayProperties.RefusedOriginRegistersNothing | backend/src/modules/chat/gateways/chat.gateway.ts:24-28 | a refused origin is closed with 1008 `origin_not_allowed` and registers nothing |
| GatewayProperties.AdmittedOriginRegisters | backend/src/modules/chat/gateways/chat.gateway.ts:30-42 | an admitted socket gets one entry, one count and one `session_created` |
| GatewayProperties.DisconnectRemovesEntry | backend/src/modules/chat/gateways/chat.gateway.ts:53-59 | disconnecting removes that entry and no other |
| GatewayProperties.UnknownDisconnectIsNoop | backend/src/modules/chat/gateways/chat.gateway.ts:55 | an unknown socket's disconnect changes nothing |
| GatewayProperties.ConnectThenDisconnect | backend/src/modules/chat/gateways/chat.gateway.ts:23-59 | connecting and disconnecting a new socket restores the session map |
| GatewayProperties.UnknownMessageIsNoop | backend/src/modules/chat/gateways/chat.gateway.ts:62-63 | a message from an unregistered socket does nothing |
| GatewayProperties.NonJsonRejected | backend/src/modules/chat/gateways/chat.gateway.ts:78-81 | text that is not JSON gets exactly `invalid_json` |
| GatewayProperties.InvalidPayloadRejected | backend/src/modules/chat/gateways/chat.gateway.ts:66-70 | JSON that is not a client event gets exactly `invalid_payload` |
| GatewayProperties.DispatchExactlyWhenValid | backend/src/modules/chat/gateways/chat.gateway.ts:61-82 | the usecase is called exactly when the socket is registered and the text parses and validates, once, first, with that event |
| GatewayProperties.BrowserEventDispatched | backend/src/modules/chat/gateways/chat.gateway.ts:71-77 | an event the browser wrote reaches the usecase unchanged; a throwing usecase is answered with `internal_error` |
| GatewayProperties.InitialInv | backend/src/modules/chat/gateways/chat.gateway.ts:23 | the empty gateway satisfies the invariant |
| GatewayProperties.ConnectKeepsInv | backend/src/modules/chat/gateways/chat.gateway.ts:23-51 | connections keep the invariant: every registered socket was told its session id, and every usecase call follows its socket's `session_created` |
| GatewayProperties.DisconnectKeepsInv | backend/src/modules/chat/gateways/chat.gateway.ts:53-59 | disconnections keep the invariant |
| GatewayProperties.MessageKeepsInv | backend/src/modules/chat/gateways/chat.gateway.ts:61-82 | messages keep the invariant |
| ChatClient.ReconnectDelay | frontend/lib/use_chat_client.ts:200-201 | the delay is at most 8000 ms, at least 1000 ms after a failure, and either 8000 or 1000 ms per attempt |
| ChatClient.ChatClientHook.constructor | frontend/lib/use_chat_client.ts:14-38 | the hook starts in the initial state with no attempts, socket, timer or sent events |
| ChatClient.ChatClientHook.Dispatch | frontend/lib/use_chat_client.ts:53-116 | the state becomes its reduction by the action; nothing else changes |
| ChatClient.ChatClientHook.Connect | frontend/lib/use_chat_client.ts:179-211 | the connection shows reconnecting after failures, else connecting; a failed socket creation is reported and leaves no socket |
| ChatClient.ChatClientHook.OnOpen | frontend/lib/use_chat_client.ts:186-189 | an open resets the attempts and marks the connection open; a stale socket changes nothing |
| ChatClient.ChatClientHook.OnClose | frontend/lib/use_chat_client.ts:198-203 | a close marks reconnecting, counts one more attempt and schedules the backoff delay |
| ChatClient.ChatClientHook.OnSocketError | frontend/lib/use_chat_client.ts:204-207 | an error is reported as `socket_error` and the socket is closed |
| ChatClient.ChatClientHook.OnMessage | frontend/lib/use_chat_client.ts:190-197 | an unparsable frame is reported as `invalid_server_payload`; a parsed one is handled |
| ChatClient.ChatClientHook.DispatchServerEvent | frontend/lib/use_chat_client.ts:150-177 | the state becomes its server-event reduction |
| ChatClient.ChatClientHook.SendEvent | frontend/lib/use_chat_client.ts:221-228 | an open socket sends the event; otherwise `socket_not_ready` and nothing is sent |
| ChatClient.ChatClientHook.SendMessage | frontend/lib/use_chat_client.ts:230-235 | blank text does nothing; otherwise the trimmed text is shown and sent |
| ChatClient.ChatClientHook.AnswerTool | frontend/lib/use_chat_client.ts:237-247 | without a pending tool nothing happens; otherwise the tool is cleared and its id is answered |
| ChatClient.ChatClientHook.ApproveTool | frontend/lib/use_chat_client.ts:237-241 | the pending tool's id is approved and the tool is cleared |
| ChatClient.ChatClientHook.DenyTool | frontend/lib/use_chat_client.ts:243-247 | the pending tool's id is denied and the tool is cleared |
| ChatClient.ChatClientHook.Reconnect | frontend/lib/use_chat_client.ts:249-252 | the attempts are reset and a fresh connection is started |
| ChatClient.ChatClientHook.ClearError | frontend/lib/use_chat_client.ts:254 | the state becomes its `clear_error` reduction |
| ChatClientProperties.ChunkExtendsTranscript | frontend/lib/use_chat_client.ts:68-79 | an `ai_chunk` adds exactly its text, opens a message only after a non-assistant one, and keeps earlier messages |
| ChatClientProperties.ChunksMerge | frontend/lib/use_chat_client.ts:68-79 | a reply's chunks after a user message form one assistant message with their concatenation |
| ChatClientProperties.UserMessageStartsWaiting | frontend/lib/use_chat_client.ts:98-108 | a sent message is shown, clears errors and the tool, and blocks sending until the reply |
| ChatClientProperties.CompletionResets | frontend/lib/use_chat_client.ts:80-86 | completion stops typing and waiting, sets the incomplete-reply text only for `error`, and clears the tool |
| ChatClientProperties.ReplyRoundTrip | frontend/lib/use_chat_client.ts:68-108 | message, chunks and completion leave user and assistant messages and restore sending |
| ChatClientProperties.StatusLookup | frontend/lib/use_chat_client.ts:59-67 | each status field reads back what was sent |
| ChatClientProperties.ServerStatusApplied | frontend/lib/use_chat_client.ts:59-67 | a status sets exactly the fields it carries |
| ChatClientProperties.StatusFields | frontend/lib/use_chat_client.ts:59-67 | the typed fields of a status read back exactly |
| ChatClientProperties.StatusTouchesOnlyItsFields | frontend/lib/use_chat_client.ts:59-67 | a status changes no field outside its five |
| ChatClientProperties.MistypedStatusIgnored | frontend/lib/use_chat_client.ts:59-67 | fields of the wrong type are ignored |
| ChatClientProperties.ToolChunksAccumulate | frontend/lib/use_chat_client.ts:94-95 | tool chunks are appended in order and change nothing else |
| ChatClientProperties.ToolRunShown | frontend/lib/use_chat_client.ts:87-95 | a tool request and its chunks show the tool with exactly those chunks |
| ChatClientProperties.ErrorThenClear | frontend/lib/use_chat_client.ts:96-97 | an error then `clear_error` leaves only the error fields cleared |
| ChatClientProperties.ReconnectBackoff | frontend/lib/use_chat_client.ts:200-201 | the delay grows with the attempts, 1000 ms each, capped at 8000 ms |
| ChatClientProperties.SentMessageAccepted | frontend/lib/use_chat_client.ts:230-235 | the client's `user_message` passes the server's validation unchanged |
| Page.ErrorText | frontend/app/page.tsx:42 | a text is shown exactly for a non-empty error message, and it is that message formatted |
| Page.ToolErrorShowsDetail | frontend/app/page.tsx:14-15 | a tool failure shows its detail or the fallback hint |
| Page.TranslatedIgnoresDetail | frontend/app/page.tsx:12-21 | translated codes other than `tool_error` ignore the detail |
| Page.UntranslatedShowsCode | frontend/app/page.tsx:22-23 | any other code is shown, followed by the detail exactly when there is one |
| Page.FormatEmptyIff | frontend/app/page.tsx:10-25 | the text is empty exactly for an empty code without a detail |
| Page.SubmitSendsTrimmed | frontend/app/page.tsx:33-40 | the form sends exactly when allowed and the trim is not blank, sends the trimmed text, and clears the draft only after a send |
| Page.SubmittedTextSurvivesSend | frontend/app/page.tsx:33-40 | the text submitted is already trimmed and non-empty when `sendMessage` trims again |

## Left out

- Request building and `fetch` to the provider are replaced by a `Response` value for each stream. The response is a network failure or a reply with a status, body chunks and a possible read error. Headers, the request body and the model name are not modelled.
- `TextDecoder`: the body arrives as already decoded text chunks.
- `JSON.parse` is a parameter as described above. `JSON.stringify` covers strings, integers, booleans, `null`, arrays and objects; floating-point numbers are not modelled.
- File-system calls (`mkdir`, `open`, `appendFile`, `close`) are scripted `Faults`. A workspace object records the slices each file receives. `close` is always reached and is modelled by the unchanged handle count.
- `delay(80)` between slices is a pause with no effect on results and is left out.
- Node's `path.join` and `path.resolve` are modelled as a POSIX segment walk. The working directory is a parameter.
- Timing: `start_timer` and the clock are left out. Each turn's duration is a whole number of milliseconds taken from its script, so histogram sums are integers.
- The deferred drain launched with `void` in `on_end` runs at once, nested inside the callback. Interleaving with other events is not modelled.
- `gen_id`, `randomUUID` and `now_iso` are parameters. `to_public_state` has no `updated_at` field.
- Logging (`console.*`, the logger) is left out, along with its failures.
- Environment values (allowed origins, workspace directory) are constructor or call parameters.
- Nest's decorators and dependency wiring are left out.
- Gateway.ChatGateway.HandleMessage: the usecase is not run inside the gateway. The call is recorded as a `Dispatched` effect, and whether it throws is a parameter. Its own behaviour is `ProcessClientEvent.Usecase.HandleEvent`.
- A failing `client.send` inside `safe_send` is only logged by the source and is not modelled.
- ChatClient.ChatClientHook.OnClose: the reconnect timer's firing is not modelled; only the scheduled delay is recorded. `cleanupSocket`'s detaching of handlers is modelled by handlers on a detached socket doing nothing.
- ChatClient.ChatClientHook.OnMessage: the `as WsEvent` cast is a parsed `Option<ServerEvent>`. Frames of unknown event types and the reducer's default case are not modelled.
- A `status_update` whose data is not an object is not modelled.
- Rendering of the page and the React effects are left out.
- zod: the schemas are hand-written validators with the same accept and refuse rules.
- `status_update_schema` is not used by the core and is not modelled.
- JsString.ToLowerAscii: only ASCII letters are lowercased, not the whole of Unicode. `trim` uses the ECMAScript whitespace set listed in the module.
- The session's history is handed to the stream by reference; the model passes a snapshot. `on_end` receives the block list as a snapshot, not the live array.
- Concurrency between sockets, and between a turn and a new event of the same socket, is not modelled.

## Findings

| source | as written | input that shows it | evidently intended | confidence | as-written member | corrected member |
|---|---|---|---|---|---|---|
| backend/src/utils.ts:15 | the resolved path is accepted when its text starts with the resolved base's text | base `/ws`, target `../ws2/f`: the join resolves to `/ws2/f`, whose text starts with `/ws` | accept only paths inside the base directory, comparing whole path segments | not executed | Paths.SafeJoinAsWritten, Paths.SiblingEscapesAsWritten, ToolService.SiblingWrittenAsWritten | Paths.SafeJoin, Paths.SafeJoinContained, Paths.SiblingRejected, ToolService.SiblingRefusedCorrected |

The writer (`ToolService.Workspace.StreamCreateFile`) takes the containment test as a
parameter. With `Paths.AsWritten`, as the source calls it, it writes into the sibling
directory (`ToolService.SiblingWrittenAsWritten`); with `Paths.Corrected` it refuses that
path, and `Paths.SafeJoinContained` bounds every path it accepts.
