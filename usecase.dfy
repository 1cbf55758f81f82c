/** `Process_client_event_usecase`: the object that handles one session's client events.
    It changes the session in place, keeps the staged tool result in a field and sends its
    events to a sink, here the `sent` log. The stream functions and the file writer it was
    constructed with are replaced by the scripts they play (`turns`, `execs`), and the calls
    made to them are logged (`requests`, `execRuns`). Every method leaves the usecase in the
    state the matching function of `UsecaseSpec` computes from the state before the call. */
module ProcessClientEvent {
  import opened Wrappers
  import opened Json
  import opened Domain
  import opened ChatSessions
  import opened Anthropic
  import opened Metrics
  import opened SeqLemmas
  import opened UsecaseSpec
  import Utf16

  class Usecase {
    const session: ChatSession
    const registry: Registry
    /** `JSON.parse`, as `map_ai_error` uses it. */
    const parse: JsonParser
    var deferred: Option<Deferred>
    var sent: seq<ServerEvent>
    var turns: seq<TurnScript>
    var execs: seq<ExecScript>
    var requests: seq<Request>
    var execRuns: seq<ToolInput>

    function State(): UsecaseState
      reads this, session, registry
    {
      UsecaseState(session.history, session.pendingTool, session.active, deferred, sent,
                   turns, execs, requests, execRuns, registry.State())
    }

    constructor (session: ChatSession, registry: Registry, parse: JsonParser,
                 turns: seq<TurnScript>, execs: seq<ExecScript>)
      ensures this.session == session && this.registry == registry && this.parse == parse
      ensures State() == UsecaseState(session.history, session.pendingTool, session.active, None, [],
                                      turns, execs, [], [], registry.State())
    {
      this.session := session;
      this.registry := registry;
      this.parse := parse;
      deferred := None;
      sent := [];
      this.turns := turns;
      this.execs := execs;
      requests := [];
      execRuns := [];
    }

    /** `send_event`. */
    method SendEvent(e: ServerEvent)
      modifies this
      ensures State() == Emit(old(State()), e)
    {
      sent := sent + [e];
    }

    method Counter(name: string)
      modifies registry
      ensures State() == Count(old(State()), name)
    {
      registry.IncrementCounter(name, 1);
    }

    /** The payload `forward_status` builds: each of the four typed fields it finds. */
    static method StatusPayload(status: Json) returns (payload: StatusData)
      ensures payload == StatusData(GetBool(status, "ai_typing"), GetBool(status, "tool_running"),
                                    GetString(status, "file_path"), GetBool(status, "busy"), None, None)
    {
      payload := NoStatus;
      var aiTyping := GetBool(status, "ai_typing");
      if aiTyping.Some? { payload := payload.(aiTyping := aiTyping); }
      var toolRunning := GetBool(status, "tool_running");
      if toolRunning.Some? { payload := payload.(toolRunning := toolRunning); }
      var filePath := GetString(status, "file_path");
      if filePath.Some? { payload := payload.(filePath := filePath); }
      var busy := GetBool(status, "busy");
      if busy.Some? { payload := payload.(busy := busy); }
    }

    method ForwardStatus(status: Json)
      modifies this
      ensures State() == ForwardStatusSpec(old(State()), status)
    {
      var payload := StatusPayload(status);
      if payload != NoStatus {
        SendEvent(StatusUpdate(payload));
      }
    }

    method HandleToolUse(tool: ToolUse)
      modifies this, session, registry
      ensures State() == ToolUseSpec(old(State()), tool)
    {
      var parsed := Validate(tool.input);
      if parsed.None? {
        SendEvent(ErrorEvent("tool_input_invalid", None));
        deferred := Some(Deferred(tool.id, InvalidInputResult));
        return;
      }
      var normalized := tool.(input := parsed.value);
      session.SetPendingTool(normalized);
      Counter("tool_requests_total");
      SendEvent(ToolRequest(normalized));
    }

    /** The body shared by `on_error` and the `catch` around a stream. */
    method FailTurn(e: AiError)
      modifies this, session, registry
      ensures State() == FailSpec(old(State()), e, parse)
    {
      Counter("anthropic_errors_total");
      session.active := false;
      session.ClearPendingTool();
      SendEvent(StatusUpdate(AiTypingStatus(false)));
      var mapped := MapAiError(e, parse);
      SendEvent(ErrorEvent(mapped.message, mapped.detail));
      SendEvent(AssistantCompleted(Some(ReasonError)));
    }

    method CompleteTurn(blocks: seq<AssistantBlock>)
      modifies this, session
      ensures State() == EndSpec(old(State()), blocks)
    {
      session.AddAssistantBlocks(blocks);
      session.active := false;
      SendEvent(AssistantCompleted(Some(ReasonOk)));
    }

    /** A callback of the resume turn. */
    method ResumeCallback(c: Callback)
      modifies this, session, registry
      ensures State() == ResumeStep(old(State()), c, parse)
    {
      match c
      case OnText(t) => SendEvent(AiChunk(t));
      case OnTool(tool) => HandleToolUse(tool);
      case OnStatus(j) => ForwardStatus(j);
      case OnEnd(blocks) => CompleteTurn(blocks);
      case OnError(e) => FailTurn(e);
    }

    /** A callback of the first turn. */
    method FirstCallback(c: Callback)
      modifies this, session, registry
      ensures State() == FirstStep(old(State()), c, parse)
    {
      if c.OnEnd? {
        CompleteTurn(c.blocks);
        ProcessDeferredToolResult();
      } else {
        ResumeCallback(c);
      }
    }

    /** Calls the stream with the current history and takes the script it plays. */
    method StartStream(kind: StreamKind) returns (turn: TurnScript)
      modifies this
      ensures (turn, State()) == StartTurn(old(State()), kind)
    {
      requests := requests + [Request(kind, session.history)];
      if turns == [] {
        turn := NoTurn;
      } else {
        turn := turns[0];
        turns := turns[1..];
      }
    }

    method EndStream(turn: TurnScript, histogram: string)
      modifies this, session, registry
      ensures State() == FinishTurn(old(State()), turn, histogram, parse)
    {
      if turn.throws.Some? {
        FailTurn(turn.throws.value);
      }
      registry.ObserveDuration(histogram, turn.elapsedMs);
    }

    method ResumeAfterTool()
      modifies this, session, registry
      ensures State() == ResumeSpec(old(State()), parse)
    {
      session.active := true;
      Counter("anthropic_requests_total");
      var turn := StartStream(Resumed);
      ghost var start := State();
      for i := 0 to |turn.calls|
        invariant State() == ResumeCalls(start, turn.calls[..i], parse)
      {
        TakeSnoc(turn.calls, i);
        ResumeCallback(turn.calls[i]);
      }
      TakeAll(turn.calls);
      EndStream(turn, "anthropic_resume_duration_ms");
    }

    method ProcessDeferredToolResult()
      modifies this, session, registry
      ensures State() == DrainSpec(old(State()), parse)
    {
      if deferred.None? {
        return;
      }
      var d := deferred.value;
      deferred := None;
      RecordAndResume(d.toolUseId, d.result);
    }

    method HandleUserMessage(text: string)
      modifies this, session, registry
      ensures State() == UserMessageSpec(old(State()), text, parse)
    {
      if session.active {
        SendEvent(StatusUpdate(BusyStatus()));
        Counter("ws_busy_rejections_total");
        return;
      }
      session.AddUserMessage(text);
      session.active := true;
      Counter("ws_user_messages_total");
      Counter("anthropic_requests_total");
      var turn := StartStream(Fresh);
      ghost var start := State();
      for i := 0 to |turn.calls|
        invariant State() == FirstCalls(start, turn.calls[..i], parse)
      {
        TakeSnoc(turn.calls, i);
        FirstCallback(turn.calls[i]);
      }
      TakeAll(turn.calls);
      EndStream(turn, "anthropic_stream_duration_ms");
    }

    /** Announces the run, relays the writer's chunks and settles on the tool result. */
    method ExecuteTool(input: ToolInput) returns (result: ToolResultPayload)
      modifies this, registry
      ensures (State(), result) == ExecuteSpec(old(State()), input)
    {
      SendEvent(StatusUpdate(RunningStatus(input.path)));
      var exec := NoExec;
      if execs != [] {
        exec := execs[0];
        execs := execs[1..];
      }
      execRuns := execRuns + [input];
      ghost var start := State();
      var stats: (Option<string>, Option<nat>) := (None, None);
      for i := 0 to |exec.events|
        invariant State() == start.(sent := start.sent + ChunkEvents(exec.events[..i]))
        invariant stats == FinalStats(exec.events[..i])
      {
        TakeSnoc(exec.events, i);
        var event := exec.events[i];
        if event.chunk.Some? && event.chunk.value != "" {
          SeqAssoc(start.sent, ChunkEvents(exec.events[..i]), [ToolChunk(event.chunk.value)]);
          SendEvent(ToolChunk(event.chunk.value));
        } else {
          AppendEmpty(ChunkEvents(exec.events[..i]));
        }
        if event.done {
          stats := (event.filePath, event.size);
        }
      }
      TakeAll(exec.events);
      if exec.failure.None? {
        result := ResultOk(stats.0.GetOr(input.path), stats.1.GetOr(Utf16.JsLength(input.content)));
      } else {
        var failure := exec.failure.value;
        Counter("tool_errors_total");
        var code := if failure.isError && failure.code.Some? then failure.code.value else "tool_execution_failed";
        SendEvent(ErrorEvent("tool_error", Some(failure.message)));
        result := ResultError(code, failure.message);
      }
      SendEvent(StatusUpdate(StoppedStatus));
    }

    /** Records the tool result, clears the pending tool and resumes the conversation. */
    method RecordAndResume(toolUseId: string, result: ToolResultPayload)
      modifies this, session, registry
      ensures State() == ResumeSpec(RecordSpec(old(State()), toolUseId, result), parse)
    {
      session.RecordToolResult(toolUseId, result);
      session.ClearPendingTool();
      ResumeAfterTool();
    }

    method HandleToolApproval(toolUseId: string, approved: bool)
      modifies this, session, registry
      ensures State() == ApprovalSpec(old(State()), toolUseId, approved, parse)
    {
      var pending := session.pendingTool;
      if pending.None? || pending.value.id != toolUseId {
        SendEvent(ErrorEvent("no_pending_tool", None));
        return;
      }
      if !approved {
        RecordAndResume(toolUseId, ResultDenied);
        return;
      }
      Counter("tool_approvals_total");
      var input := Validate(pending.value.input);
      if input.None? {
        SendEvent(ErrorEvent("tool_input_invalid", None));
        session.ClearPendingTool();
        return;
      }
      var result := ExecuteTool(input.value);
      RecordAndResume(toolUseId, result);
    }

    method HandleEvent(e: ClientEvent)
      modifies this, session, registry
      ensures State() == HandleEventSpec(old(State()), e, parse)
    {
      match e
      case UserMessageEvent(text) => HandleUserMessage(text);
      case ToolApproval(id, approved) => HandleToolApproval(id, approved);
    }
  }
}
