/** What `Process_client_event_usecase` does to one session, as functions on a snapshot of
    everything it touches: the session's history, pending tool and `active` flag, the staged
    `deferred_tool_result`, the events sent to the browser, the counters and histograms, and
    the scripted dependencies.

    A model turn (`anthropic_stream` or `anthropic_resume`) is a script: the callbacks it
    invokes, in order, then possibly a rejection. The file writer is a script too: the
    progress events it yields, then possibly a thrown value. Each call takes the next script;
    once the scripts run out, a call does nothing, like the no-op stubs of the tests. The
    drain launched with `void` at the end of the first turn runs to completion at that
    point. */
module UsecaseSpec {
  import opened Wrappers
  import opened JsString
  import opened Json
  import opened Domain
  import opened Schemas
  import opened ChatSessions
  import opened Anthropic
  import opened Metrics
  import Utf16

  // ---------------------------------------------------------------- scripted dependencies

  /** A model turn: the callbacks the stream makes, whether its promise then rejects (and
      with what), and the time the timer measures around it. */
  datatype TurnScript = TurnScript(calls: seq<Callback>, throws: Option<AiError>, elapsedMs: int)

  const NoTurn := TurnScript([], None, 0)

  /** One value yielded by `stream_create_file`, as the loop reads it. */
  datatype ExecEvent = ExecEvent(chunk: Option<string>, done: bool, filePath: Option<string>, size: Option<nat>)

  /** A value the writer throws: whether it is an `Error`, `String(error.code)` when it has a
      `code` property, and its text (`error.message`, or `String(error)`). */
  datatype ExecFailure = ExecFailure(isError: bool, code: Option<string>, message: string)

  datatype ExecScript = ExecScript(events: seq<ExecEvent>, failure: Option<ExecFailure>)

  const NoExec := ExecScript([], None)

  datatype StreamKind = Fresh | Resumed

  /** A call of `anthropic_stream` (Fresh) or `anthropic_resume` (Resumed) with the history
      it was given. */
  datatype Request = Request(kind: StreamKind, messages: seq<Message>)

  /** `deferred_tool_result`. */
  datatype Deferred = Deferred(toolUseId: string, result: ToolResultPayload)

  datatype UsecaseState = UsecaseState(
    history: seq<Message>,
    pendingTool: Option<ToolUse>,
    active: bool,
    deferred: Option<Deferred>,
    sent: seq<ServerEvent>,
    turns: seq<TurnScript>,
    execs: seq<ExecScript>,
    requests: seq<Request>,
    execRuns: seq<ToolInput>,
    metrics: Tables)

  // ---------------------------------------------------------------- map_ai_error

  datatype Mapped = Mapped(message: string, detail: Option<string>)

  const CreditPhrase := "credit balance is too low"

  /** `toStringDetail`: nothing for a falsy value, a string as itself, anything else as its
      JSON text. */
  function DetailString(d: Detail): (r: Option<string>)
    ensures r.Some? ==> r.value != ""
  {
    match d
    case NoDetail => None
    case DetailText(s) => if s == "" then None else Some(s)
    case DetailJson(v) =>
      if !Truthy(v) then None
      else if v.JStr? then Some(v.s)
      else Some(Stringify(v))
  }

  /** The detail as an object: the parse of a string detail, or the value itself. */
  function RawDetail(d: Detail, parse: JsonParser): Option<Json> {
    match d
    case NoDetail => None
    case DetailText(s) => parse(s)
    case DetailJson(v) => if v.JStr? then parse(v.s) else Some(v)
  }

  /** `raw.error.message` when it is a string. */
  function NestedMessage(raw: Option<Json>): Option<string> {
    match raw
    case None => None
    case Some(r) =>
      match Get(r, "error")
      case None => None
      case Some(inner) => GetString(inner, "message")
  }

  /** The message the classifier reads: the nested one when there is one. */
  function ErrorMessage(e: AiError, parse: JsonParser): Option<string> {
    var nested := NestedMessage(RawDetail(e.detail, parse));
    if nested.Some? then nested else e.message
  }

  /** The lowered text the credit-balance probe searches. */
  function Haystack(e: AiError, parse: JsonParser): string {
    ToLowerAscii(ErrorMessage(e, parse).GetOr("") + " " + DetailString(e.detail).GetOr(""))
  }

  function StatusCode(status: Option<int>): string {
    if status == Some(401) || status == Some(403) then "ai_nao_autorizado"
    else if status == Some(429) then "ai_limite_excedido"
    else if status.Some? && status.value >= 500 then "ai_indisponivel"
    else "ai_error"
  }

  /** `map_ai_error`. */
  function MapAiError(e: AiError, parse: JsonParser): (r: Mapped)
    ensures Contains(Haystack(e, parse), CreditPhrase) ==> r.message == "ai_saldo_insuficiente"
    ensures !Contains(Haystack(e, parse), CreditPhrase) ==> r.message == StatusCode(e.status)
    ensures var m := ErrorMessage(e, parse);
            r.detail == if m.Some? && m.value != "" then m else DetailString(e.detail)
  {
    var m := ErrorMessage(e, parse);
    var detail := if m.Some? && m.value != "" then m else DetailString(e.detail);
    if Contains(Haystack(e, parse), CreditPhrase) then Mapped("ai_saldo_insuficiente", detail)
    else Mapped(StatusCode(e.status), detail)
  }

  // ---------------------------------------------------------------- forward_status

  /** The correctly typed status fields, or None when there are none. */
  function ForwardedStatus(j: Json): (r: Option<StatusData>)
    ensures r.None? <==>
              && GetBool(j, "ai_typing").None? && GetBool(j, "tool_running").None?
              && GetString(j, "file_path").None? && GetBool(j, "busy").None?
    ensures r.Some? ==>
              && r.value.aiTyping == GetBool(j, "ai_typing")
              && r.value.toolRunning == GetBool(j, "tool_running")
              && r.value.filePath == GetString(j, "file_path")
              && r.value.busy == GetBool(j, "busy")
              && r.value.reconnecting.None? && r.value.error.None?
  {
    var s := StatusData(GetBool(j, "ai_typing"), GetBool(j, "tool_running"), GetString(j, "file_path"),
                        GetBool(j, "busy"), None, None);
    if s == NoStatus then None else Some(s)
  }

  // ---------------------------------------------------------------- steps

  function Emit(st: UsecaseState, e: ServerEvent): UsecaseState {
    st.(sent := st.sent + [e])
  }

  /** `increment_counter(name)`. */
  function Count(st: UsecaseState, name: string): UsecaseState {
    st.(metrics := Inc(st.metrics, name, 1))
  }

  /** `tool_input_schema.safeParse` of a tool's input. */
  function Validate(i: ToolInput): Option<ToolInput> {
    ParseToolInput(ToolInputJson(i))
  }

  const InvalidInputResult := ResultError("invalid_tool_input", "Payload inválido recebido para a ferramenta")

  function RunningStatus(path: string): StatusData {
    NoStatus.(toolRunning := Some(true), filePath := Some(path))
  }

  const StoppedStatus := NoStatus.(toolRunning := Some(false))

  /** `on_error`, and the `catch` around the stream. */
  function FailSpec(st: UsecaseState, e: AiError, parse: JsonParser): UsecaseState {
    var m := MapAiError(e, parse);
    var s := Count(st, "anthropic_errors_total").(active := false, pendingTool := None);
    Emit(Emit(Emit(s, StatusUpdate(AiTypingStatus(false))), ErrorEvent(m.message, m.detail)),
         AssistantCompleted(Some(ReasonError)))
  }

  /** `handle_tool_use`. */
  function ToolUseSpec(st: UsecaseState, tool: ToolUse): UsecaseState {
    match Validate(tool.input)
    case None =>
      Emit(st, ErrorEvent("tool_input_invalid", None)).(deferred := Some(Deferred(tool.id, InvalidInputResult)))
    case Some(input) =>
      var normalized := tool.(input := input);
      Emit(Count(st.(pendingTool := Some(normalized)), "tool_requests_total"), ToolRequest(normalized))
  }

  /** `forward_status`. */
  function ForwardStatusSpec(st: UsecaseState, status: Json): UsecaseState {
    match ForwardedStatus(status)
    case None => st
    case Some(s) => Emit(st, StatusUpdate(s))
  }

  /** What both `on_end` callbacks do before the first turn's one drains the slot. */
  function EndSpec(st: UsecaseState, blocks: seq<AssistantBlock>): UsecaseState {
    Emit(st.(history := st.history + [AssistantMessage(blocks)], active := false), AssistantCompleted(Some(ReasonOk)))
  }

  /** `record_tool_result` followed by `clear_pending_tool`. */
  function RecordSpec(st: UsecaseState, toolUseId: string, result: ToolResultPayload): UsecaseState {
    st.(history := st.history + [ToolResultMessage(toolUseId, result)], pendingTool := None)
  }

  /** One callback of a resume turn. */
  function ResumeStep(st: UsecaseState, c: Callback, parse: JsonParser): UsecaseState {
    match c
    case OnText(t) => Emit(st, AiChunk(t))
    case OnTool(tool) => ToolUseSpec(st, tool)
    case OnStatus(j) => ForwardStatusSpec(st, j)
    case OnEnd(blocks) => EndSpec(st, blocks)
    case OnError(e) => FailSpec(st, e, parse)
  }

  function ResumeCalls(st: UsecaseState, calls: seq<Callback>, parse: JsonParser): UsecaseState {
    if calls == [] then st
    else ResumeStep(ResumeCalls(st, calls[..|calls| - 1], parse), calls[|calls| - 1], parse)
  }

  /** The next turn script, and the state once the call that takes it is logged. */
  function StartTurn(st: UsecaseState, kind: StreamKind): (TurnScript, UsecaseState) {
    if st.turns == [] then (NoTurn, st.(requests := st.requests + [Request(kind, st.history)]))
    else (st.turns[0], st.(turns := st.turns[1..], requests := st.requests + [Request(kind, st.history)]))
  }

  /** The rejection of the stream, if any, then the `finally`. */
  function FinishTurn(st: UsecaseState, turn: TurnScript, histogram: string, parse: JsonParser): UsecaseState {
    var s := if turn.throws.Some? then FailSpec(st, turn.throws.value, parse) else st;
    s.(metrics := Observe(s.metrics, histogram, turn.elapsedMs))
  }

  /** `resume_after_tool`. */
  function ResumeSpec(st: UsecaseState, parse: JsonParser): UsecaseState {
    var s := Count(st.(active := true), "anthropic_requests_total");
    var (turn, s') := StartTurn(s, Resumed);
    FinishTurn(ResumeCalls(s', turn.calls, parse), turn, "anthropic_resume_duration_ms", parse)
  }

  /** `process_deferred_tool_result`. */
  function DrainSpec(st: UsecaseState, parse: JsonParser): UsecaseState {
    match st.deferred
    case None => st
    case Some(d) => ResumeSpec(RecordSpec(st.(deferred := None), d.toolUseId, d.result), parse)
  }

  /** One callback of the first turn: its `on_end` also drains the slot. */
  function FirstStep(st: UsecaseState, c: Callback, parse: JsonParser): UsecaseState {
    if c.OnEnd? then DrainSpec(EndSpec(st, c.blocks), parse) else ResumeStep(st, c, parse)
  }

  function FirstCalls(st: UsecaseState, calls: seq<Callback>, parse: JsonParser): UsecaseState {
    if calls == [] then st
    else FirstStep(FirstCalls(st, calls[..|calls| - 1], parse), calls[|calls| - 1], parse)
  }

  /** `handle_user_message`. */
  function UserMessageSpec(st: UsecaseState, text: string, parse: JsonParser): UsecaseState {
    if st.active then Count(Emit(st, StatusUpdate(BusyStatus())), "ws_busy_rejections_total")
    else
      var s := st.(history := st.history + [UserTextMessage(text)], active := true);
      var s1 := Count(Count(s, "ws_user_messages_total"), "anthropic_requests_total");
      var (turn, s2) := StartTurn(s1, Fresh);
      FinishTurn(FirstCalls(s2, turn.calls, parse), turn, "anthropic_stream_duration_ms", parse)
  }

  // ---------------------------------------------------------------- the tool run

  /** The `tool_chunk` events for the yielded values: one per non-empty chunk. */
  function ChunkEvents(events: seq<ExecEvent>): seq<ServerEvent> {
    if events == [] then []
    else
      var e := events[|events| - 1];
      ChunkEvents(events[..|events| - 1]) + (if e.chunk.Some? && e.chunk.value != "" then [ToolChunk(e.chunk.value)] else [])
  }

  /** `final_stats`: the path and size of the last `done` value, if any. */
  function FinalStats(events: seq<ExecEvent>): (Option<string>, Option<nat>) {
    if events == [] then (None, None)
    else
      var e := events[|events| - 1];
      if e.done then (e.filePath, e.size) else FinalStats(events[..|events| - 1])
  }

  function ErrorCode(f: ExecFailure): string {
    if f.isError && f.code.Some? then f.code.value else "tool_execution_failed"
  }

  /** The tool result recorded for a run of the writer. */
  function ToolOutcome(input: ToolInput, exec: ExecScript): ToolResultPayload {
    match exec.failure
    case None =>
      var stats := FinalStats(exec.events);
      ResultOk(stats.0.GetOr(input.path), stats.1.GetOr(Utf16.JsLength(input.content)))
    case Some(f) => ResultError(ErrorCode(f), f.message)
  }

  /** The `try`/`catch`/`finally` around the writer, with the result it settles on. */
  function ExecuteSpec(st: UsecaseState, input: ToolInput): (UsecaseState, ToolResultPayload) {
    var exec := if st.execs == [] then NoExec else st.execs[0];
    var s := Emit(st, StatusUpdate(RunningStatus(input.path)));
    var s1 := s.(execs := if st.execs == [] then [] else st.execs[1..], execRuns := s.execRuns + [input]);
    var s2 := s1.(sent := s1.sent + ChunkEvents(exec.events));
    var s3 := match exec.failure
              case None => s2
              case Some(f) => Emit(Count(s2, "tool_errors_total"), ErrorEvent("tool_error", Some(f.message)));
    (Emit(s3, StatusUpdate(StoppedStatus)), ToolOutcome(input, exec))
  }

  /** `handle_tool_approval`. */
  function ApprovalSpec(st: UsecaseState, toolUseId: string, approved: bool, parse: JsonParser): UsecaseState {
    if st.pendingTool.None? || st.pendingTool.value.id != toolUseId then
      Emit(st, ErrorEvent("no_pending_tool", None))
    else if !approved then
      ResumeSpec(RecordSpec(st, toolUseId, ResultDenied), parse)
    else
      var s := Count(st, "tool_approvals_total");
      match Validate(st.pendingTool.value.input)
      case None => Emit(s, ErrorEvent("tool_input_invalid", None)).(pendingTool := None)
      case Some(input) =>
        var (s', result) := ExecuteSpec(s, input);
        ResumeSpec(RecordSpec(s', toolUseId, result), parse)
  }

  /** `handle_event`. */
  function HandleEventSpec(st: UsecaseState, e: ClientEvent, parse: JsonParser): UsecaseState {
    match e
    case UserMessageEvent(text) => UserMessageSpec(st, text, parse)
    case ToolApproval(id, approved) => ApprovalSpec(st, id, approved, parse)
  }
}
