/** What the session orchestrator guarantees, proved about the functions of `UsecaseSpec`
    that its methods are proved to follow. */
module UsecaseProperties {
  import opened Wrappers
  import opened JsString
  import opened Json
  import opened SeqLemmas
  import opened Domain
  import opened ChatSessions
  import opened ToolResultCodec
  import opened Anthropic
  import opened UsecaseSpec
  import Metrics
  import opened Schemas
  import Utf16

  // ---------------------------------------------------------------- only extended

  /** The history, the sent events and the logs of `b` continue those of `a`. */
  predicate Grows(a: UsecaseState, b: UsecaseState) {
    && IsPrefix(a.history, b.history)
    && IsPrefix(a.sent, b.sent)
    && IsPrefix(a.requests, b.requests)
    && IsPrefix(a.execRuns, b.execRuns)
  }

  /** ... and the writer was not called in between. */
  predicate GrowsWithoutTool(a: UsecaseState, b: UsecaseState) {
    Grows(a, b) && b.execRuns == a.execRuns && b.execs == a.execs
  }

  lemma GrowsTrans(a: UsecaseState, b: UsecaseState, c: UsecaseState)
    requires Grows(a, b) && Grows(b, c)
    ensures Grows(a, c)
  {
    PrefixTrans(a.history, b.history, c.history);
    PrefixTrans(a.sent, b.sent, c.sent);
    PrefixTrans(a.requests, b.requests, c.requests);
    PrefixTrans(a.execRuns, b.execRuns, c.execRuns);
  }

  lemma EmitGrows(st: UsecaseState, e: ServerEvent)
    ensures GrowsWithoutTool(st, Emit(st, e))
  {
    PrefixOfAppend(st.sent, [e]);
  }

  lemma FailGrows(st: UsecaseState, e: AiError, parse: JsonParser)
    ensures GrowsWithoutTool(st, FailSpec(st, e, parse))
  {
    var m := MapAiError(e, parse);
    var s := Count(st, "anthropic_errors_total").(active := false, pendingTool := None);
    var s1 := Emit(s, StatusUpdate(AiTypingStatus(false)));
    var s2 := Emit(s1, ErrorEvent(m.message, m.detail));
    EmitGrows(s, StatusUpdate(AiTypingStatus(false)));
    EmitGrows(s1, ErrorEvent(m.message, m.detail));
    EmitGrows(s2, AssistantCompleted(Some(ReasonError)));
    GrowsTrans(s, s1, s2);
    GrowsTrans(s, s2, FailSpec(st, e, parse));
  }

  lemma ResumeStepGrows(st: UsecaseState, c: Callback, parse: JsonParser)
    ensures GrowsWithoutTool(st, ResumeStep(st, c, parse))
  {
    match c
    case OnText(t) => EmitGrows(st, AiChunk(t));
    case OnTool(tool) =>
      var parsed := Validate(tool.input);
      if parsed.None? {
        EmitGrows(st, ErrorEvent("tool_input_invalid", None));
      } else {
        var normalized := tool.(input := parsed.value);
        EmitGrows(Count(st.(pendingTool := Some(normalized)), "tool_requests_total"), ToolRequest(normalized));
      }
    case OnStatus(j) =>
      if ForwardedStatus(j).Some? {
        EmitGrows(st, StatusUpdate(ForwardedStatus(j).value));
      }
    case OnEnd(blocks) =>
      PrefixOfAppend(st.history, [AssistantMessage(blocks)]);
      var s := st.(history := st.history + [AssistantMessage(blocks)], active := false);
      EmitGrows(s, AssistantCompleted(Some(ReasonOk)));
      GrowsTrans(st, s, EndSpec(st, blocks));
    case OnError(e) => FailGrows(st, e, parse);
  }

  lemma {:induction false} ResumeCallsGrows(st: UsecaseState, calls: seq<Callback>, parse: JsonParser)
    decreases |calls|
    ensures GrowsWithoutTool(st, ResumeCalls(st, calls, parse))
  {
    if calls != [] {
      var prev := ResumeCalls(st, calls[..|calls| - 1], parse);
      ResumeCallsGrows(st, calls[..|calls| - 1], parse);
      ResumeStepGrows(prev, calls[|calls| - 1], parse);
      GrowsTrans(st, prev, ResumeCalls(st, calls, parse));
    }
  }

  lemma StartTurnGrows(st: UsecaseState, kind: StreamKind)
    ensures GrowsWithoutTool(st, StartTurn(st, kind).1)
    ensures StartTurn(st, kind).1.requests == st.requests + [Request(kind, st.history)]
    ensures StartTurn(st, kind).1.history == st.history
  {
    PrefixOfAppend(st.requests, [Request(kind, st.history)]);
  }

  lemma FinishTurnGrows(st: UsecaseState, turn: TurnScript, histogram: string, parse: JsonParser)
    ensures GrowsWithoutTool(st, FinishTurn(st, turn, histogram, parse))
  {
    if turn.throws.Some? {
      FailGrows(st, turn.throws.value, parse);
    }
  }

  /** A resume turn extends the history and the events, logs its own call first, and never
      runs the writer. */
  lemma ResumeGrows(st: UsecaseState, parse: JsonParser)
    ensures GrowsWithoutTool(st, ResumeSpec(st, parse))
    ensures |ResumeSpec(st, parse).requests| > |st.requests|
    ensures ResumeSpec(st, parse).requests[|st.requests|] == Request(Resumed, st.history)
  {
    var s := Count(st.(active := true), "anthropic_requests_total");
    var (turn, s') := StartTurn(s, Resumed);
    StartTurnGrows(s, Resumed);
    var s2 := ResumeCalls(s', turn.calls, parse);
    ResumeCallsGrows(s', turn.calls, parse);
    FinishTurnGrows(s2, turn, "anthropic_resume_duration_ms", parse);
    GrowsTrans(s', s2, ResumeSpec(st, parse));
    GrowsTrans(s, s', ResumeSpec(st, parse));
    assert s'.requests[|st.requests|] == Request(Resumed, st.history) by {
      SnocParts(s.requests, Request(Resumed, st.history));
    }
  }

  lemma RecordGrows(st: UsecaseState, toolUseId: string, result: ToolResultPayload)
    ensures GrowsWithoutTool(st, RecordSpec(st, toolUseId, result))
  {
    PrefixOfAppend(st.history, [ToolResultMessage(toolUseId, result)]);
  }

  lemma DrainGrows(st: UsecaseState, parse: JsonParser)
    ensures GrowsWithoutTool(st, DrainSpec(st, parse))
  {
    if st.deferred.Some? {
      var d := st.deferred.value;
      var s := RecordSpec(st.(deferred := None), d.toolUseId, d.result);
      RecordGrows(st.(deferred := None), d.toolUseId, d.result);
      ResumeGrows(s, parse);
      GrowsTrans(st, s, DrainSpec(st, parse));
    }
  }

  lemma FirstStepGrows(st: UsecaseState, c: Callback, parse: JsonParser)
    ensures GrowsWithoutTool(st, FirstStep(st, c, parse))
  {
    ResumeStepGrows(st, c, parse);
    if c.OnEnd? {
      var s := EndSpec(st, c.blocks);
      DrainGrows(s, parse);
      GrowsTrans(st, s, FirstStep(st, c, parse));
    }
  }

  lemma {:induction false} FirstCallsGrows(st: UsecaseState, calls: seq<Callback>, parse: JsonParser)
    decreases |calls|
    ensures GrowsWithoutTool(st, FirstCalls(st, calls, parse))
  {
    if calls != [] {
      var prev := FirstCalls(st, calls[..|calls| - 1], parse);
      FirstCallsGrows(st, calls[..|calls| - 1], parse);
      FirstStepGrows(prev, calls[|calls| - 1], parse);
      GrowsTrans(st, prev, FirstCalls(st, calls, parse));
    }
  }

  /** A user message extends the history and the events and never runs the writer; when
      accepted, the stream is called with the history ending in that message. */
  lemma UserMessageGrows(st: UsecaseState, text: string, parse: JsonParser)
    ensures GrowsWithoutTool(st, UserMessageSpec(st, text, parse))
    ensures !st.active ==>
              && |UserMessageSpec(st, text, parse).requests| > |st.requests|
              && UserMessageSpec(st, text, parse).requests[|st.requests|] == Request(Fresh, st.history + [UserTextMessage(text)])
  {
    var r := UserMessageSpec(st, text, parse);
    if st.active {
      EmitGrows(st, StatusUpdate(BusyStatus()));
    } else {
      var s := st.(history := st.history + [UserTextMessage(text)], active := true);
      PrefixOfAppend(st.history, [UserTextMessage(text)]);
      var s1 := Count(Count(s, "ws_user_messages_total"), "anthropic_requests_total");
      var (turn, s2) := StartTurn(s1, Fresh);
      StartTurnGrows(s1, Fresh);
      var s3 := FirstCalls(s2, turn.calls, parse);
      FirstCallsGrows(s2, turn.calls, parse);
      FinishTurnGrows(s3, turn, "anthropic_stream_duration_ms", parse);
      GrowsTrans(s2, s3, r);
      GrowsTrans(s1, s2, r);
      GrowsTrans(st, s1, r);
      SnocParts(s1.requests, Request(Fresh, s.history));
    }
  }

  lemma ExecuteGrows(st: UsecaseState, input: ToolInput)
    ensures Grows(st, ExecuteSpec(st, input).0)
    ensures ExecuteSpec(st, input).0.history == st.history
    ensures ExecuteSpec(st, input).0.requests == st.requests
    ensures ExecuteSpec(st, input).0.execRuns == st.execRuns + [input]
  {
    var exec := if st.execs == [] then NoExec else st.execs[0];
    var s := Emit(st, StatusUpdate(RunningStatus(input.path)));
    EmitGrows(st, StatusUpdate(RunningStatus(input.path)));
    var s1 := s.(execs := if st.execs == [] then [] else st.execs[1..], execRuns := s.execRuns + [input]);
    PrefixOfAppend(s.execRuns, [input]);
    var s2 := s1.(sent := s1.sent + ChunkEvents(exec.events));
    PrefixOfAppend(s1.sent, ChunkEvents(exec.events));
    GrowsTrans(st, s1, s2);
    var s3 := match exec.failure
              case None => s2
              case Some(f) => Emit(Count(s2, "tool_errors_total"), ErrorEvent("tool_error", Some(f.message)));
    if exec.failure.Some? {
      EmitGrows(Count(s2, "tool_errors_total"), ErrorEvent("tool_error", Some(exec.failure.value.message)));
    }
    GrowsTrans(st, s2, s3);
    EmitGrows(s3, StatusUpdate(StoppedStatus));
    GrowsTrans(st, s3, ExecuteSpec(st, input).0);
  }

  lemma ApprovalGrows(st: UsecaseState, toolUseId: string, approved: bool, parse: JsonParser)
    ensures Grows(st, ApprovalSpec(st, toolUseId, approved, parse))
  {
    var r := ApprovalSpec(st, toolUseId, approved, parse);
    if st.pendingTool.None? || st.pendingTool.value.id != toolUseId {
      EmitGrows(st, ErrorEvent("no_pending_tool", None));
    } else if !approved {
      var s := RecordSpec(st, toolUseId, ResultDenied);
      RecordGrows(st, toolUseId, ResultDenied);
      ResumeGrows(s, parse);
      GrowsTrans(st, s, r);
    } else {
      var s := Count(st, "tool_approvals_total");
      match Validate(st.pendingTool.value.input)
      case None => EmitGrows(s, ErrorEvent("tool_input_invalid", None));
      case Some(input) =>
        var (s', result) := ExecuteSpec(s, input);
        ExecuteGrows(s, input);
        var s2 := RecordSpec(s', toolUseId, result);
        RecordGrows(s', toolUseId, result);
        ResumeGrows(s2, parse);
        GrowsTrans(s', s2, r);
        GrowsTrans(s, s', r);
    }
  }

  /** Handling a client event only ever extends the history and the sent events: nothing
      recorded is shortened or rewritten. */
  lemma HistoryOnlyGrows(st: UsecaseState, e: ClientEvent, parse: JsonParser)
    ensures Grows(st, HandleEventSpec(st, e, parse))
  {
    match e
    case UserMessageEvent(text) => UserMessageGrows(st, text, parse);
    case ToolApproval(id, approved) => ApprovalGrows(st, id, approved, parse);
  }

  // ---------------------------------------------------------------- user messages

  /** While a turn runs, a user message gets one `busy` status and nothing else of the
      session changes. */
  lemma BusyRejectsMessage(st: UsecaseState, text: string, parse: JsonParser)
    requires st.active
    ensures var r := UserMessageSpec(st, text, parse);
            && r.sent == st.sent + [StatusUpdate(BusyStatus())]
            && r.history == st.history && r.pendingTool == st.pendingTool && r.active
            && r.deferred == st.deferred && r.requests == st.requests && r.turns == st.turns
  {
  }

  /** The first turn's `on_end` with nothing staged appends the blocks as one assistant
      message, clears `active` and reports an ok completion. */
  lemma FirstEndCompletes(st: UsecaseState, blocks: seq<AssistantBlock>, parse: JsonParser)
    requires st.deferred.None?
    ensures FirstStep(st, OnEnd(blocks), parse) ==
              st.(history := st.history + [AssistantMessage(blocks)], active := false,
                  sent := st.sent + [AssistantCompleted(Some(ReasonOk))])
  {
  }

  /** A turn that only completes: the user's text and the blocks are appended, in that order,
      and the stream saw the history ending in the user's text. */
  lemma CompletedTurn(st: UsecaseState, text: string, blocks: seq<AssistantBlock>, ms: int,
                      rest: seq<TurnScript>, parse: JsonParser)
    requires !st.active && st.deferred.None?
    requires st.turns == [TurnScript([OnEnd(blocks)], None, ms)] + rest
    ensures var r := UserMessageSpec(st, text, parse);
            && r.history == st.history + [UserTextMessage(text), AssistantMessage(blocks)]
            && !r.active && r.pendingTool == st.pendingTool && r.deferred.None?
            && r.sent == st.sent + [AssistantCompleted(Some(ReasonOk))]
            && r.requests == st.requests + [Request(Fresh, st.history + [UserTextMessage(text)])]
            && r.turns == rest
  {
    var s := st.(history := st.history + [UserTextMessage(text)], active := true);
    var s1 := Count(Count(s, "ws_user_messages_total"), "anthropic_requests_total");
    var turn := TurnScript([OnEnd(blocks)], None, ms);
    TailOfCons(turn, rest);
    var s2 := s1.(turns := rest, requests := s1.requests + [Request(Fresh, s1.history)]);
    assert StartTurn(s1, Fresh) == (turn, s2);
    FirstCallsOne(s2, OnEnd(blocks), parse);
    FirstEndCompletes(s2, blocks, parse);
    PairSnoc(st.history, UserTextMessage(text), AssistantMessage(blocks));
  }

  lemma FirstCallsOne(st: UsecaseState, c: Callback, parse: JsonParser)
    ensures FirstCalls(st, [c], parse) == FirstStep(st, c, parse)
  {
    assert [c][..0] == [];
  }

  lemma ResumeCallsOne(st: UsecaseState, c: Callback, parse: JsonParser)
    ensures ResumeCalls(st, [c], parse) == ResumeStep(st, c, parse)
  {
    assert [c][..0] == [];
  }

  /** `on_error` and a rejected stream alike end the turn, drop the pending tool, leave the
      history alone and send `ai_typing: false`, the mapped error and an error completion, in
      that order. */
  lemma FailureReported(st: UsecaseState, e: AiError, parse: JsonParser)
    ensures var r := FailSpec(st, e, parse);
            var m := MapAiError(e, parse);
            && !r.active && r.pendingTool.None? && r.history == st.history && r.deferred == st.deferred
            && r.requests == st.requests
            && r.sent == st.sent + [StatusUpdate(AiTypingStatus(false)), ErrorEvent(m.message, m.detail),
                                    AssistantCompleted(Some(ReasonError))]
  {
    var m := MapAiError(e, parse);
    var a := StatusUpdate(AiTypingStatus(false));
    var b := ErrorEvent(m.message, m.detail);
    var c := AssistantCompleted(Some(ReasonError));
    TripleSnoc(st.sent, a, b, c);
  }

  lemma TripleSnoc<T>(s: seq<T>, a: T, b: T, c: T)
    ensures s + [a] + [b] + [c] == s + [a, b, c]
  {
  }

  /** A first turn whose stream rejects at once keeps the user's text in the history and
      reports the failure. */
  lemma RejectedFirstTurn(st: UsecaseState, text: string, e: AiError, ms: int,
                          rest: seq<TurnScript>, parse: JsonParser)
    requires !st.active && st.turns == [TurnScript([], Some(e), ms)] + rest
    ensures var r := UserMessageSpec(st, text, parse);
            var m := MapAiError(e, parse);
            && r.history == st.history + [UserTextMessage(text)]
            && !r.active && r.pendingTool.None?
            && r.sent == st.sent + [StatusUpdate(AiTypingStatus(false)), ErrorEvent(m.message, m.detail),
                                    AssistantCompleted(Some(ReasonError))]
  {
    TailOfCons(TurnScript([], Some(e), ms), rest);
    var s := st.(history := st.history + [UserTextMessage(text)], active := true);
    var s1 := Count(Count(s, "ws_user_messages_total"), "anthropic_requests_total");
    FailureReported(StartTurn(s1, Fresh).1, e, parse);
  }

  // ---------------------------------------------------------------- tool approvals

  /** Without a pending tool of that id, the answer is `no_pending_tool` and nothing else
      changes. */
  lemma NoPendingToolRejected(st: UsecaseState, toolUseId: string, approved: bool, parse: JsonParser)
    requires st.pendingTool.None? || st.pendingTool.value.id != toolUseId
    ensures ApprovalSpec(st, toolUseId, approved, parse) == st.(sent := st.sent + [ErrorEvent("no_pending_tool", None)])
  {
  }

  /** An approved tool whose input fails validation again is dropped with
      `tool_input_invalid`: the writer is not called and no turn is resumed. */
  lemma ApprovedInvalidInputStalls(st: UsecaseState, toolUseId: string, parse: JsonParser)
    requires st.pendingTool.Some? && st.pendingTool.value.id == toolUseId
    requires st.pendingTool.value.input.path == ""
    ensures var r := ApprovalSpec(st, toolUseId, true, parse);
            && r.sent == st.sent + [ErrorEvent("tool_input_invalid", None)]
            && r.pendingTool.None? && r.history == st.history && r.active == st.active
            && r.deferred == st.deferred && r.requests == st.requests
            && r.execRuns == st.execRuns && r.execs == st.execs && r.turns == st.turns
  {
    ToolInputRoundTrip(st.pendingTool.value.input);
  }

  /** A denial records one `denied` result for the tool, which reads back as such, and
      resumes with the history ending in it; the writer is not called. */
  lemma DenialRecordsAndResumes(st: UsecaseState, toolUseId: string, parse: JsonParser)
    requires st.pendingTool.Some? && st.pendingTool.value.id == toolUseId
    ensures var r := ApprovalSpec(st, toolUseId, false, parse);
            var h := st.history + [ToolResultMessage(toolUseId, ResultDenied)];
            && IsPrefix(h, r.history)
            && |r.requests| > |st.requests| && r.requests[|st.requests|] == Request(Resumed, h)
            && r.execRuns == st.execRuns
            && h[|st.history|].userContent[0].toolUseId == toolUseId
            && DecodeToolResult(h[|st.history|].userContent[0].content) == Some(ResultDenied)
  {
    var s := RecordSpec(st, toolUseId, ResultDenied);
    ResumeGrows(s, parse);
    ToolResultMessageDecodes(toolUseId, ResultDenied);
    SnocParts(st.history, ToolResultMessage(toolUseId, ResultDenied));
  }

  /** A denial followed by a turn that only completes, as in the session test: the pending
      tool is gone, the turn is over, and the history holds the denial then the blocks. */
  lemma DenialThenCompletion(st: UsecaseState, toolUseId: string, blocks: seq<AssistantBlock>, ms: int,
                             rest: seq<TurnScript>, parse: JsonParser)
    requires st.pendingTool.Some? && st.pendingTool.value.id == toolUseId
    requires st.turns == [TurnScript([OnEnd(blocks)], None, ms)] + rest
    ensures var r := ApprovalSpec(st, toolUseId, false, parse);
            && r.pendingTool.None? && !r.active
            && r.history == st.history + [ToolResultMessage(toolUseId, ResultDenied), AssistantMessage(blocks)]
            && r.sent == st.sent + [AssistantCompleted(Some(ReasonOk))]
  {
    var s := RecordSpec(st, toolUseId, ResultDenied);
    var s1 := Count(s.(active := true), "anthropic_requests_total");
    var turn := TurnScript([OnEnd(blocks)], None, ms);
    TailOfCons(turn, rest);
    var s2 := s1.(turns := rest, requests := s1.requests + [Request(Resumed, s1.history)]);
    assert StartTurn(s1, Resumed) == (turn, s2);
    ResumeCallsOne(s2, OnEnd(blocks), parse);
    ResumeEndKeepsSlot(s2, blocks, parse);
    PairSnoc(st.history, ToolResultMessage(toolUseId, ResultDenied), AssistantMessage(blocks));
  }

  /** The `tool_error` event a failed run adds. */
  function ToolErrorEvents(exec: ExecScript): seq<ServerEvent> {
    if exec.failure.Some? then [ErrorEvent("tool_error", Some(exec.failure.value.message))] else []
  }

  /** An approved valid tool runs the writer once on its input; the browser sees
      `tool_running: true` with the path, the chunks, the error if any, and always
      `tool_running: false`; one result is recorded and the turn resumes with it. */
  lemma ApprovedToolRuns(st: UsecaseState, toolUseId: string, parse: JsonParser)
    requires st.pendingTool.Some? && st.pendingTool.value.id == toolUseId
    requires st.pendingTool.value.input.path != ""
    ensures var input := st.pendingTool.value.input;
            var exec := if st.execs == [] then NoExec else st.execs[0];
            var r := ApprovalSpec(st, toolUseId, true, parse);
            var h := st.history + [ToolResultMessage(toolUseId, ToolOutcome(input, exec))];
            && r.execRuns == st.execRuns + [input]
            && IsPrefix(st.sent + [StatusUpdate(RunningStatus(input.path))] + ChunkEvents(exec.events)
                          + ToolErrorEvents(exec) + [StatusUpdate(StoppedStatus)], r.sent)
            && IsPrefix(h, r.history)
            && |r.requests| > |st.requests| && r.requests[|st.requests|] == Request(Resumed, h)
  {
    var input := st.pendingTool.value.input;
    ToolInputRoundTrip(input);
    var s := Count(st, "tool_approvals_total");
    var (s', result) := ExecuteSpec(s, input);
    ExecuteShape(s, input);
    var s2 := RecordSpec(s', toolUseId, result);
    ResumeGrows(s2, parse);
  }

  lemma ExecuteShape(st: UsecaseState, input: ToolInput)
    ensures var exec := if st.execs == [] then NoExec else st.execs[0];
            var r := ExecuteSpec(st, input);
            && r.0.sent == st.sent + [StatusUpdate(RunningStatus(input.path))] + ChunkEvents(exec.events)
                             + ToolErrorEvents(exec) + [StatusUpdate(StoppedStatus)]
            && r.0.history == st.history && r.0.requests == st.requests
            && r.0.execRuns == st.execRuns + [input]
            && r.1 == ToolOutcome(input, exec)
  {
    var exec := if st.execs == [] then NoExec else st.execs[0];
    var a := st.sent + [StatusUpdate(RunningStatus(input.path))] + ChunkEvents(exec.events);
    if exec.failure.None? {
      AppendEmpty(a);
    }
  }

  /** One `tool_chunk` per yielded value with a non-empty chunk, in order. */
  lemma {:induction false} ChunkEventsRelay(events: seq<ExecEvent>)
    requires forall k :: 0 <= k < |events| ==> events[k].chunk.Some? && events[k].chunk.value != ""
    decreases |events|
    ensures |ChunkEvents(events)| == |events|
    ensures forall k :: 0 <= k < |events| ==> ChunkEvents(events)[k] == ToolChunk(events[k].chunk.value)
  {
    if events != [] {
      var n := |events| - 1;
      var front := events[..n];
      ChunkEventsRelay(front);
      SnocParts(ChunkEvents(front), ToolChunk(events[n].chunk.value));
    }
  }

  /** Values without a chunk, or with an empty one, are not relayed. */
  lemma {:induction false} ChunkEventsSilent(events: seq<ExecEvent>)
    requires forall k :: 0 <= k < |events| ==> events[k].chunk.None? || events[k].chunk.value == ""
    decreases |events|
    ensures ChunkEvents(events) == []
  {
    if events != [] {
      ChunkEventsSilent(events[..|events| - 1]);
    }
  }

  /** The recorded path and size come from the last `done` value. */
  lemma {:induction false} FinalStatsLastDone(events: seq<ExecEvent>, k: nat)
    requires k < |events| && events[k].done
    requires forall j :: k < j < |events| ==> !events[j].done
    decreases |events|
    ensures FinalStats(events) == (events[k].filePath, events[k].size)
  {
    if k < |events| - 1 {
      FinalStatsLastDone(events[..|events| - 1], k);
    }
  }

  /** Without a `done` value, or with one lacking them, the result falls back to the input's
      path and its length in UTF-16 code units. */
  lemma {:induction false} FinalStatsNoDone(events: seq<ExecEvent>)
    requires forall j :: 0 <= j < |events| ==> !events[j].done
    decreases |events|
    ensures FinalStats(events) == (None, None)
  {
    if events != [] {
      FinalStatsNoDone(events[..|events| - 1]);
    }
  }

  lemma SuccessFallsBack(input: ToolInput, exec: ExecScript)
    requires exec.failure.None? && FinalStats(exec.events) == (None, None)
    ensures ToolOutcome(input, exec) == ResultOk(input.path, Utf16.JsLength(input.content))
  {
  }

  /** A thrown `Error` with a `code` is recorded with that code, anything else with
      `tool_execution_failed`; the message is kept either way. */
  lemma FailureCode(input: ToolInput, events: seq<ExecEvent>, f: ExecFailure)
    ensures var r := ToolOutcome(input, ExecScript(events, Some(f)));
            && r.ResultError? && r.message == f.message
            && (f.isError && f.code.Some? ==> r.errorCode == f.code.value)
            && (!f.isError || f.code.None? ==> r.errorCode == "tool_execution_failed")
  {
  }

  // ---------------------------------------------------------------- tool requests in a turn

  /** A requested tool with an invalid input is answered with `tool_input_invalid` and an
      `invalid_tool_input` result is staged, replacing any staged before; nothing is made
      pending. */
  lemma InvalidToolUseStaged(st: UsecaseState, tool: ToolUse)
    requires tool.input.path == ""
    ensures ToolUseSpec(st, tool) ==
              st.(sent := st.sent + [ErrorEvent("tool_input_invalid", None)],
                  deferred := Some(Deferred(tool.id, InvalidInputResult)))
  {
    ToolInputRoundTrip(tool.input);
  }

  /** A requested tool with a valid input becomes the pending tool and is announced. */
  lemma ValidToolUsePends(st: UsecaseState, tool: ToolUse)
    requires tool.input.path != ""
    ensures var r := ToolUseSpec(st, tool);
            && r.pendingTool == Some(tool) && r.sent == st.sent + [ToolRequest(tool)]
            && r.deferred == st.deferred && r.history == st.history && r.active == st.active
  {
    ToolInputRoundTrip(tool.input);
  }

  /** The first turn's `on_end` with a staged result: after the blocks comes the staged
      result, the slot and the pending tool are cleared, and a resume turn starts with that
      history. */
  lemma FirstEndDrains(st: UsecaseState, blocks: seq<AssistantBlock>, parse: JsonParser)
    requires st.deferred.Some?
    ensures var d := st.deferred.value;
            var r := FirstStep(st, OnEnd(blocks), parse);
            var h := st.history + [AssistantMessage(blocks), ToolResultMessage(d.toolUseId, d.result)];
            && IsPrefix(st.sent + [AssistantCompleted(Some(ReasonOk))], r.sent)
            && IsPrefix(h, r.history)
            && |r.requests| > |st.requests| && r.requests[|st.requests|] == Request(Resumed, h)
            && r.execRuns == st.execRuns
  {
    var d := st.deferred.value;
    var e := EndSpec(st, blocks);
    var s := RecordSpec(e.(deferred := None), d.toolUseId, d.result);
    ResumeGrows(s, parse);
    PairSnoc(st.history, AssistantMessage(blocks), ToolResultMessage(d.toolUseId, d.result));
  }

  /** The session test with an invalid tool request: the first turn asks for a tool with an
      empty path, then completes; the staged result follows the blocks in the history, and
      the resume turn that completes comes after it. */
  lemma InvalidToolAutoResumes(st: UsecaseState, text: string, bad: ToolUse,
                               blocks: seq<AssistantBlock>, blocks2: seq<AssistantBlock>,
                               ms1: int, ms2: int, rest: seq<TurnScript>, parse: JsonParser)
    requires !st.active && st.deferred.None? && bad.input.path == ""
    requires st.turns == [TurnScript([OnTool(bad), OnEnd(blocks)], None, ms1),
                          TurnScript([OnEnd(blocks2)], None, ms2)] + rest
    ensures var r := UserMessageSpec(st, text, parse);
            var h1 := st.history + [UserTextMessage(text)];
            var h2 := h1 + [AssistantMessage(blocks), ToolResultMessage(bad.id, InvalidInputResult)];
            && r.history == h2 + [AssistantMessage(blocks2)]
            && r.requests == st.requests + [Request(Fresh, h1), Request(Resumed, h2)]
            && r.sent == st.sent + [ErrorEvent("tool_input_invalid", None), AssistantCompleted(Some(ReasonOk)),
                                    AssistantCompleted(Some(ReasonOk))]
            && r.deferred.None? && r.pendingTool.None? && !r.active && r.turns == rest
  {
    var t1 := TurnScript([OnTool(bad), OnEnd(blocks)], None, ms1);
    var t2 := TurnScript([OnEnd(blocks2)], None, ms2);
    var h1 := st.history + [UserTextMessage(text)];
    assert [t1, t2] + rest == [t1] + ([t2] + rest);
    FreshTurnRuns(st, text, t1, [t2] + rest, parse);
    InvalidToolTurn(FreshStart(st, text, [t2] + rest), bad, blocks, blocks2, ms2, rest, parse);
    SnocPair(st.requests, Request(Fresh, h1), Request(Resumed, h1 + [AssistantMessage(blocks), ToolResultMessage(bad.id, InvalidInputResult)]));
  }

  /** The state the first turn's callbacks start from, when its script is taken off `turns`
      and `rest` is left. */
  function FreshStart(st: UsecaseState, text: string, rest: seq<TurnScript>): (r: UsecaseState)
    ensures r.history == st.history + [UserTextMessage(text)] && r.active && r.turns == rest
    ensures r.requests == st.requests + [Request(Fresh, st.history + [UserTextMessage(text)])]
    ensures r.sent == st.sent && r.deferred == st.deferred && r.pendingTool == st.pendingTool
  {
    var s := st.(history := st.history + [UserTextMessage(text)], active := true);
    Count(Count(s, "ws_user_messages_total"), "anthropic_requests_total")
      .(turns := rest, requests := st.requests + [Request(Fresh, st.history + [UserTextMessage(text)])])
  }

  /** A user message on an idle session runs the next turn's callbacks from `FreshStart`;
      a turn that does not throw changes nothing after them but the duration histogram. */
  lemma FreshTurnRuns(st: UsecaseState, text: string, t: TurnScript, rest: seq<TurnScript>, parse: JsonParser)
    requires !st.active && st.turns == [t] + rest && t.throws.None?
    ensures UserMessageSpec(st, text, parse) ==
              var f := FirstCalls(FreshStart(st, text, rest), t.calls, parse);
              f.(metrics := Metrics.Observe(f.metrics, "anthropic_stream_duration_ms", t.elapsedMs))
  {
    TailOfCons(t, rest);
  }

  /** The calls of the first turn in `InvalidToolAutoResumes`. */
  lemma InvalidToolTurn(st: UsecaseState, bad: ToolUse, blocks: seq<AssistantBlock>,
                        blocks2: seq<AssistantBlock>, ms: int, rest: seq<TurnScript>, parse: JsonParser)
    requires st.deferred.None? && bad.input.path == ""
    requires st.turns == [TurnScript([OnEnd(blocks2)], None, ms)] + rest
    ensures var r := FirstCalls(st, [OnTool(bad), OnEnd(blocks)], parse);
            var h := st.history + [AssistantMessage(blocks), ToolResultMessage(bad.id, InvalidInputResult)];
            && r.history == h + [AssistantMessage(blocks2)]
            && r.requests == st.requests + [Request(Resumed, h)]
            && r.sent == st.sent + [ErrorEvent("tool_input_invalid", None), AssistantCompleted(Some(ReasonOk)),
                                    AssistantCompleted(Some(ReasonOk))]
            && r.deferred.None? && r.pendingTool.None? && !r.active && r.turns == rest
  {
    FirstCallsTwo(st, OnTool(bad), OnEnd(blocks), parse);
    InvalidToolUseStaged(st, bad);
    var s3 := st.(sent := st.sent + [ErrorEvent("tool_input_invalid", None)],
                  deferred := Some(Deferred(bad.id, InvalidInputResult)));
    assert FirstStep(st, OnTool(bad), parse) == s3;
    StagedResultResumes(s3, blocks, blocks2, ms, rest, parse);
    EventsOfAutoResume(st.sent, ErrorEvent("tool_input_invalid", None), AssistantCompleted(Some(ReasonOk)));
  }

  lemma SnocPair<T>(s: seq<T>, a: T, b: T)
    ensures s + [a] + [b] == s + [a, b]
  {
  }

  /** The first turn's `on_end` with a staged result, followed by a resume turn that only
      completes. */
  lemma StagedResultResumes(st: UsecaseState, blocks: seq<AssistantBlock>, blocks2: seq<AssistantBlock>,
                            ms: int, rest: seq<TurnScript>, parse: JsonParser)
    requires st.deferred.Some? && st.turns == [TurnScript([OnEnd(blocks2)], None, ms)] + rest
    ensures var d := st.deferred.value;
            var r := FirstStep(st, OnEnd(blocks), parse);
            var h := st.history + [AssistantMessage(blocks), ToolResultMessage(d.toolUseId, d.result)];
            && r.history == h + [AssistantMessage(blocks2)]
            && r.requests == st.requests + [Request(Resumed, h)]
            && r.sent == st.sent + [AssistantCompleted(Some(ReasonOk))] + [AssistantCompleted(Some(ReasonOk))]
            && r.deferred.None? && r.pendingTool.None? && !r.active && r.turns == rest
  {
    var d := st.deferred.value;
    var s4 := EndSpec(st, blocks);
    var h := st.history + [AssistantMessage(blocks), ToolResultMessage(d.toolUseId, d.result)];
    PairSnoc(st.history, AssistantMessage(blocks), ToolResultMessage(d.toolUseId, d.result));
    var s5 := RecordSpec(s4.(deferred := None), d.toolUseId, d.result);
    assert s5.history == h;
    var s6 := Count(s5.(active := true), "anthropic_requests_total");
    var t2 := TurnScript([OnEnd(blocks2)], None, ms);
    TailOfCons(t2, rest);
    var s7 := s6.(turns := rest, requests := s6.requests + [Request(Resumed, h)]);
    assert StartTurn(s6, Resumed) == (t2, s7);
    ResumeCallsOne(s7, OnEnd(blocks2), parse);
    ResumeEndKeepsSlot(s7, blocks2, parse);
  }

  lemma EventsOfAutoResume<T>(s: seq<T>, a: T, b: T)
    ensures s + [a] + [b] + [b] == s + [a, b, b]
  {
  }

  lemma FirstCallsTwo(st: UsecaseState, c: Callback, c2: Callback, parse: JsonParser)
    ensures FirstCalls(st, [c, c2], parse) == FirstStep(FirstStep(st, c, parse), c2, parse)
  {
    assert [c, c2][..1] == [c];
    FirstCallsOne(st, c, parse);
  }

  /** The slot is cleared before the resume turn runs. */
  lemma DrainEmptiesSlot(st: UsecaseState, parse: JsonParser)
    requires st.deferred.Some?
    ensures var d := st.deferred.value;
            DrainSpec(st, parse) ==
              ResumeSpec(st.(deferred := None, pendingTool := None,
                             history := st.history + [ToolResultMessage(d.toolUseId, d.result)]), parse)
  {
  }

  /** A resume turn's `on_end` leaves the slot alone and starts nothing. */
  lemma ResumeEndKeepsSlot(st: UsecaseState, blocks: seq<AssistantBlock>, parse: JsonParser)
    ensures var r := ResumeStep(st, OnEnd(blocks), parse);
            && r.deferred == st.deferred && r.requests == st.requests
            && r.history == st.history + [AssistantMessage(blocks)] && !r.active
            && r.sent == st.sent + [AssistantCompleted(Some(ReasonOk))]
  {
  }

  // ---------------------------------------------------------------- status and errors

  lemma {:induction false} FirstCallsAppend(st: UsecaseState, a: seq<Callback>, b: seq<Callback>, parse: JsonParser)
    decreases |b|
    ensures FirstCalls(st, a + b, parse) == FirstCalls(FirstCalls(st, a, parse), b, parse)
  {
    if b == [] {
      assert a + b == a;
    } else {
      var n := |b| - 1;
      assert (a + b)[..|a + b| - 1] == a + b[..n];
      assert (a + b)[|a + b| - 1] == b[n];
      FirstCallsAppend(st, a, b[..n], parse);
    }
  }

  /** Whatever the provider answers, the first event a user's turn sends to the browser is
      the typing status the stream announces first. */
  lemma StreamTurnStartsTyping(st: UsecaseState, resp: Response, parse: JsonParser)
    ensures var r := FirstCalls(st, StreamCalls(resp, parse), parse);
            |r.sent| > |st.sent| && r.sent[|st.sent|] == StatusUpdate(AiTypingStatus(true))
  {
    var calls := StreamCalls(resp, parse);
    StreamShape(resp, parse);
    assert calls == [calls[0]] + calls[1..];
    FirstCallsAppend(st, [calls[0]], calls[1..], parse);
    FirstCallsOne(st, calls[0], parse);
    TypingForwarded(true);
    var s1 := FirstStep(st, calls[0], parse);
    assert s1 == Emit(st, StatusUpdate(AiTypingStatus(true)));
    FirstCallsGrows(s1, calls[1..], parse);
  }

  /** The stream's `ai_typing` status reaches the browser as it is. */
  lemma TypingForwarded(b: bool)
    ensures ForwardedStatus(TypingJson(b)) == Some(AiTypingStatus(b))
  {
  }

  /** A field of the wrong type is dropped, and a status with nothing usable sends nothing. */
  lemma MistypedStatusDropped(st: UsecaseState)
    ensures ForwardStatusSpec(st, JObj([("ai_typing", JStr("true")), ("busy", JNum(1))])) == st
  {
  }

  /** The credit-balance text, in any ASCII case, in the message or in the detail, decides
      the classification whatever the status. */
  lemma CreditBalanceWins(e: AiError, status: Option<int>, parse: JsonParser)
    requires || Contains(ToLowerAscii(ErrorMessage(e, parse).GetOr("")), CreditPhrase)
             || Contains(ToLowerAscii(DetailString(e.detail).GetOr("")), CreditPhrase)
    ensures MapAiError(e.(status := status), parse).message == "ai_saldo_insuficiente"
  {
    var e' := e.(status := status);
    assert ErrorMessage(e', parse) == ErrorMessage(e, parse);
    PatternInParts(ErrorMessage(e, parse).GetOr(""), DetailString(e.detail).GetOr(""), CreditPhrase);
  }

  lemma PatternInParts(m: string, d: string, pat: string)
    requires Contains(ToLowerAscii(m), pat) || Contains(ToLowerAscii(d), pat)
    ensures Contains(ToLowerAscii(m + " " + d), pat)
  {
    var lm := ToLowerAscii(m);
    var ls := ToLowerAscii(" ");
    var ld := ToLowerAscii(d);
    LowerAppend(m + " ", d);
    LowerAppend(m, " ");
    assert ToLowerAscii(m + " " + d) == lm + ls + ld;
    if Contains(lm, pat) {
      ContainsWithin([], lm, ls + ld, pat);
      PrependEmpty(lm);
      SeqAssoc(lm, ls, ld);
    } else {
      ContainsWithin(lm + ls, ld, [], pat);
      AppendEmpty(lm + ls + ld);
    }
  }




  /** Every error maps to one of five codes. */
  lemma MappedCodes(e: AiError, parse: JsonParser)
    ensures MapAiError(e, parse).message in
              {"ai_saldo_insuficiente", "ai_nao_autorizado", "ai_limite_excedido", "ai_indisponivel", "ai_error"}
  {
  }

  /** The provider's error body `{"type": "error", "error": {"type": t, "message": m}}`,
      parsed or as text, replaces the client's own message with `m`, which is also the
      detail when it is not empty. */
  lemma ProviderErrorMessage(status: int, t: string, m: string, asText: bool, parse: JsonParser)
    requires var body := JObj([("type", JStr("error")), ("error", JObj([("type", JStr(t)), ("message", JStr(m))]))]);
             asText ==> parse(Stringify(body)) == Some(body)
    ensures var body := JObj([("type", JStr("error")), ("error", JObj([("type", JStr(t)), ("message", JStr(m))]))]);
            var e := HttpError(status, if asText then DetailText(Stringify(body)) else DetailJson(body));
            && ErrorMessage(e, parse) == Some(m)
            && (m != "" ==> MapAiError(e, parse).detail == Some(m))
  {
    var inner := JObj([("type", JStr(t)), ("message", JStr(m))]);
    var body := JObj([("type", JStr("error")), ("error", inner)]);
    assert "type" != "error" && "type" != "message";
    assert body.fields[1..] == [("error", inner)];
    assert Lookup(body.fields, "error") == Some(inner);
    assert inner.fields[1..] == [("message", JStr(m))];
    assert Lookup(inner.fields, "message") == Some(JStr(m));
  }
}
