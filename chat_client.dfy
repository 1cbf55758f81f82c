/** The browser's chat client (`use_chat_client`): a reducer over the client state, the
    mapping from server events to its actions, and the hook that owns the socket, the
    reconnect counter and the timer. */
module ChatClient {
  import opened Wrappers
  import opened Json
  import opened JsString
  import opened Domain

  // ---------------------------------------------------------------- the state

  datatype Connection = Connecting | Open | Reconnecting | Closed

  datatype Role = UserRole | AssistantRole

  /** `ChatMessage`; the id is drawn from `crypto.randomUUID`, here a parameter. */
  datatype ChatMessage = ChatMessage(id: string, role: Role, text: string)

  /** `ChatClientState`; an optional field of the source is an `Option` here. */
  datatype ClientState = ClientState(
    sessionId: Option<string>,
    connection: Connection,
    aiTyping: bool,
    busy: bool,
    toolRunning: bool,
    filePath: Option<string>,
    messages: seq<ChatMessage>,
    pendingTool: Option<ToolUse>,
    toolChunks: seq<string>,
    errorMessage: Option<string>,
    errorDetail: Option<string>,
    assistantError: Option<string>,
    awaitingAssistant: bool)

  const InitialState := ClientState(None, Connecting, false, false, false, None, [], None, [], None, None, None, false)

  /** The text shown for a reply that ended in an error. */
  const IncompleteReply := "A resposta da IA não foi concluída."

  /** `Action`; a message-creating action carries the id of the message it may create. */
  datatype Action =
    | ConnectionAction(status: Connection)
    | SessionAction(sessionId: string)
    | StatusAction(data: Json)
    | ChunkAction(text: string, newId: string)
    | CompleteAction(reason: Option<Reason>)
    | ToolRequestAction(tool: ToolUse)
    | ToolChunkAction(chunk: string)
    | ErrorAction(message: string, detail: Option<string>)
    | UserMessageAction(text: string, newId: string)
    | ClearErrorAction
    | ResetToolAction

  // ---------------------------------------------------------------- the reducer

  /** The `status_update` case: each field is copied only when it has the expected type. */
  function ApplyStatus(s: ClientState, data: Json): ClientState {
    var aiTyping := GetBool(data, "ai_typing");
    var toolRunning := GetBool(data, "tool_running");
    var busy := GetBool(data, "busy");
    var filePath := GetString(data, "file_path");
    var error := GetString(data, "error");
    s.(aiTyping := aiTyping.GetOr(s.aiTyping),
       toolRunning := toolRunning.GetOr(s.toolRunning),
       busy := busy.GetOr(s.busy),
       filePath := if filePath.Some? then filePath else s.filePath,
       errorMessage := if error.Some? then error else s.errorMessage)
  }

  /** The `ai_chunk` case: the text extends a trailing assistant message, or opens one. */
  function AppendChunk(messages: seq<ChatMessage>, text: string, newId: string): seq<ChatMessage> {
    if messages == [] || messages[|messages| - 1].role != AssistantRole then
      messages + [ChatMessage(newId, AssistantRole, text)]
    else
      var last := messages[|messages| - 1];
      messages[|messages| - 1 := last.(text := last.text + text)]
  }

  /** `reducer`. */
  function Reduce(s: ClientState, a: Action): ClientState {
    match a
    case ConnectionAction(status) => s.(connection := status)
    case SessionAction(id) => s.(sessionId := Some(id))
    case StatusAction(data) => ApplyStatus(s, data)
    case ChunkAction(text, newId) => s.(messages := AppendChunk(s.messages, text, newId))
    case CompleteAction(reason) =>
      s.(aiTyping := false, awaitingAssistant := false,
         assistantError := if reason == Some(ReasonError) then Some(IncompleteReply) else None)
    case ToolRequestAction(tool) => s.(pendingTool := Some(tool), toolChunks := [], assistantError := None)
    case ToolChunkAction(chunk) => s.(toolChunks := s.toolChunks + [chunk])
    case ErrorAction(message, detail) => s.(errorMessage := Some(message), errorDetail := detail)
    case UserMessageAction(text, newId) =>
      s.(messages := s.messages + [ChatMessage(newId, UserRole, text)], awaitingAssistant := true,
         assistantError := None, errorMessage := None, errorDetail := None, toolChunks := [], pendingTool := None)
    case ClearErrorAction => s.(errorMessage := None, errorDetail := None)
    case ResetToolAction => s.(pendingTool := None, toolChunks := [])
  }

  /** Actions dispatched one after the other. */
  function ReduceAll(s: ClientState, actions: seq<Action>): ClientState
    decreases |actions|
  {
    if actions == [] then s else ReduceAll(Reduce(s, actions[0]), actions[1..])
  }

  // ---------------------------------------------------------------- server events

  function OptField(key: string, value: Option<Json>): seq<(string, Json)> {
    if value.Some? then [(key, value.value)] else []
  }

  function OptBool(b: Option<bool>): Option<Json> {
    if b.Some? then Some(JBool(b.value)) else None
  }

  function OptStr(t: Option<string>): Option<Json> {
    if t.Some? then Some(JStr(t.value)) else None
  }

  /** The `data` of a `status_update` on the wire: `JSON.stringify` leaves out the fields
      that are `undefined`. */
  function StatusJson(d: StatusData): Json {
    JObj(OptField("ai_typing", OptBool(d.aiTyping)) + OptField("tool_running", OptBool(d.toolRunning))
         + OptField("file_path", OptStr(d.filePath)) + OptField("busy", OptBool(d.busy))
         + OptField("reconnecting", OptBool(d.reconnecting)) + OptField("error", OptStr(d.error)))
  }

  /** The actions `handleServerEvent` dispatches for one event; `newId` is the id of the
      assistant message a chunk may open. */
  function EventActions(e: ServerEvent, newId: string): seq<Action> {
    match e
    case SessionCreated(id) => [SessionAction(id)]
    case StatusUpdate(d) => [StatusAction(StatusJson(d))]
    case AiChunk(text) => [ChunkAction(text, newId)]
    case AssistantCompleted(reason) => [CompleteAction(reason), ResetToolAction]
    case ToolRequest(tool) => [ToolRequestAction(tool)]
    case ToolChunk(chunk) => [ToolChunkAction(chunk)]
    case ErrorEvent(message, detail) => [ErrorAction(message, detail)]
  }

  function HandleServerEvent(s: ClientState, e: ServerEvent, newId: string): ClientState {
    ReduceAll(s, EventActions(e, newId))
  }

  lemma ReduceFew(s: ClientState, actions: seq<Action>)
    ensures |actions| == 1 ==> ReduceAll(s, actions) == Reduce(s, actions[0])
    ensures |actions| == 2 ==> ReduceAll(s, actions) == Reduce(Reduce(s, actions[0]), actions[1])
  {
    if |actions| == 1 {
      assert actions[1..] == [];
    } else if |actions| == 2 {
      var rest := actions[1..];
      assert rest[1..] == [] && rest[0] == actions[1];
      assert ReduceAll(s, actions) == ReduceAll(Reduce(s, actions[0]), rest);
      assert ReduceAll(Reduce(s, actions[0]), rest) == ReduceAll(Reduce(Reduce(s, actions[0]), rest[0]), rest[1..]);
    }
  }

  /** `canSend`. */
  predicate CanSend(s: ClientState) {
    s.connection == Open && !s.busy && !s.awaitingAssistant
  }

  /** The wait before the next reconnect, `Math.min(8000, 1000 * attempts)`. */
  function ReconnectDelay(attempts: nat): (r: nat)
    ensures r <= 8000 && (attempts >= 1 ==> r >= 1000)
    ensures r == 8000 || r == 1000 * attempts
  {
    if 1000 * attempts < 8000 then 1000 * attempts else 8000
  }

  // ---------------------------------------------------------------- the hook

  /** `WebSocket.readyState` of the socket in `socketRef`, or no socket. */
  datatype SocketState = NoSocket | SocketConnecting | SocketOpen | SocketClosing | SocketClosed

  /** `useChatClient`: the reducer's state, `reconnectAttempts`, `socketRef`,
      `reconnectTimerRef` (the delay of the scheduled reconnect) and what was sent on the
      socket. A method per handler and action of the hook. */
  class ChatClientHook {
    var state: ClientState
    var attempts: nat
    var socket: SocketState
    var timer: Option<nat>
    var outbox: seq<ClientEvent>

    constructor ()
      ensures state == InitialState && attempts == 0 && socket == NoSocket && timer == None && outbox == []
    {
      state := InitialState;
      attempts := 0;
      socket := NoSocket;
      timer := None;
      outbox := [];
    }

    method Dispatch(a: Action)
      modifies this
      ensures state == Reduce(old(state), a)
      ensures attempts == old(attempts) && socket == old(socket) && timer == old(timer) && outbox == old(outbox)
    {
      state := Reduce(state, a);
    }

    /** `connect`; `initFails` says whether `new WebSocket` throws, and `detail` is then the
        error's message. */
    method Connect(initFails: bool, detail: string)
      modifies this
      ensures var s := Reduce(old(state), ConnectionAction(if old(attempts) > 0 then Reconnecting else Connecting));
              state == (if initFails then Reduce(s, ErrorAction("socket_init_failed", Some(detail))) else s)
      ensures socket == (if initFails then NoSocket else SocketConnecting)
      ensures timer == None && attempts == old(attempts) && outbox == old(outbox)
    {
      timer := None;
      socket := NoSocket;
      Dispatch(ConnectionAction(if attempts > 0 then Reconnecting else Connecting));
      if initFails {
        Dispatch(ErrorAction("socket_init_failed", Some(detail)));
      } else {
        socket := SocketConnecting;
      }
    }

    /** `ws.onopen`; a socket already cleaned up has no handler. */
    method OnOpen()
      modifies this
      ensures old(socket) == NoSocket ==> state == old(state) && attempts == old(attempts) && socket == NoSocket
      ensures old(socket) != NoSocket ==>
                state == Reduce(old(state), ConnectionAction(Open)) && attempts == 0 && socket == SocketOpen
      ensures timer == old(timer) && outbox == old(outbox)
    {
      if socket == NoSocket {
        return;
      }
      attempts := 0;
      Dispatch(ConnectionAction(Open));
      socket := SocketOpen;
    }

    /** `ws.onclose`: counts the attempt and schedules the reconnect. */
    method OnClose()
      modifies this
      ensures old(socket) == NoSocket ==> state == old(state) && attempts == old(attempts) && timer == old(timer)
      ensures old(socket) != NoSocket ==>
                && state == Reduce(old(state), ConnectionAction(Reconnecting))
                && attempts == old(attempts) + 1 && timer == Some(ReconnectDelay(attempts))
      ensures socket == (if old(socket) == NoSocket then NoSocket else SocketClosed) && outbox == old(outbox)
    {
      if socket == NoSocket {
        return;
      }
      Dispatch(ConnectionAction(Reconnecting));
      attempts := attempts + 1;
      timer := Some(ReconnectDelay(attempts));
      socket := SocketClosed;
    }

    /** `ws.onerror`: reports the error and closes the socket. */
    method OnSocketError()
      modifies this
      ensures old(socket) == NoSocket ==> state == old(state) && socket == NoSocket
      ensures old(socket) != NoSocket ==>
                state == Reduce(old(state), ErrorAction("socket_error", None)) && socket == SocketClosing
      ensures attempts == old(attempts) && timer == old(timer) && outbox == old(outbox)
    {
      if socket == NoSocket {
        return;
      }
      Dispatch(ErrorAction("socket_error", None));
      socket := SocketClosing;
    }

    /** `ws.onmessage`: `parsed` is `None` where `JSON.parse` throws, with `detail` the
        error's message; `newId` is the id a new assistant message would take. */
    method OnMessage(parsed: Option<ServerEvent>, detail: string, newId: string)
      modifies this
      ensures state == (if parsed.None? then Reduce(old(state), ErrorAction("invalid_server_payload", Some(detail)))
                        else HandleServerEvent(old(state), parsed.value, newId))
      ensures attempts == old(attempts) && socket == old(socket) && timer == old(timer) && outbox == old(outbox)
    {
      if parsed.None? {
        Dispatch(ErrorAction("invalid_server_payload", Some(detail)));
        return;
      }
      DispatchServerEvent(parsed.value, newId);
    }

    /** `handleServerEvent`. */
    method DispatchServerEvent(e: ServerEvent, newId: string)
      modifies this
      ensures state == HandleServerEvent(old(state), e, newId)
      ensures attempts == old(attempts) && socket == old(socket) && timer == old(timer) && outbox == old(outbox)
    {
      ReduceFew(state, EventActions(e, newId));
      match e
      case SessionCreated(id) => Dispatch(SessionAction(id));
      case StatusUpdate(d) => Dispatch(StatusAction(StatusJson(d)));
      case AiChunk(text) => Dispatch(ChunkAction(text, newId));
      case AssistantCompleted(reason) =>
        Dispatch(CompleteAction(reason));
        Dispatch(ResetToolAction);
      case ToolRequest(tool) => Dispatch(ToolRequestAction(tool));
      case ToolChunk(chunk) => Dispatch(ToolChunkAction(chunk));
      case ErrorEvent(message, detail) => Dispatch(ErrorAction(message, detail));
    }

    /** `sendEvent`: only an open socket sends; otherwise the client reports it. */
    method SendEvent(e: ClientEvent)
      modifies this
      ensures socket == SocketOpen ==> state == old(state) && outbox == old(outbox) + [e]
      ensures socket != SocketOpen ==>
                state == Reduce(old(state), ErrorAction("socket_not_ready", None)) && outbox == old(outbox)
      ensures attempts == old(attempts) && socket == old(socket) && timer == old(timer)
    {
      if socket != SocketOpen {
        Dispatch(ErrorAction("socket_not_ready", None));
        return;
      }
      outbox := outbox + [e];
    }

    /** `sendMessage`: blank text is dropped; otherwise the trimmed text is shown and sent. */
    method SendMessage(text: string, newId: string)
      modifies this
      ensures Trim(text) == "" ==> state == old(state) && outbox == old(outbox)
      ensures Trim(text) != "" ==>
                var s := Reduce(old(state), UserMessageAction(Trim(text), newId));
                if socket == SocketOpen then state == s && outbox == old(outbox) + [UserMessageEvent(Trim(text))]
                else state == Reduce(s, ErrorAction("socket_not_ready", None)) && outbox == old(outbox)
      ensures attempts == old(attempts) && socket == old(socket) && timer == old(timer)
    {
      var trimmed := Trim(text);
      if trimmed == "" {
        return;
      }
      Dispatch(UserMessageAction(trimmed, newId));
      SendEvent(UserMessageEvent(trimmed));
    }

    /** The common body of `approveTool` and `denyTool`: the id is the pending tool's before
        `reset_tool` clears it. */
    method AnswerTool(approved: bool)
      modifies this
      ensures old(state).pendingTool.None? ==> state == old(state) && outbox == old(outbox)
      ensures old(state).pendingTool.Some? ==>
                var s := Reduce(old(state), ResetToolAction);
                var e := ToolApproval(old(state).pendingTool.value.id, approved);
                if socket == SocketOpen then state == s && outbox == old(outbox) + [e]
                else state == Reduce(s, ErrorAction("socket_not_ready", None)) && outbox == old(outbox)
      ensures attempts == old(attempts) && socket == old(socket) && timer == old(timer)
    {
      var pending := state.pendingTool;
      if pending.None? {
        return;
      }
      Dispatch(ResetToolAction);
      SendEvent(ToolApproval(pending.value.id, approved));
    }

    method ApproveTool()
      modifies this
      ensures old(state).pendingTool.Some? && socket == SocketOpen ==>
                outbox == old(outbox) + [ToolApproval(old(state).pendingTool.value.id, true)]
      ensures old(state).pendingTool.None? || socket != SocketOpen ==> outbox == old(outbox)
      ensures state.pendingTool.None? && attempts == old(attempts) && socket == old(socket) && timer == old(timer)
    {
      AnswerTool(true);
    }

    method DenyTool()
      modifies this
      ensures old(state).pendingTool.Some? && socket == SocketOpen ==>
                outbox == old(outbox) + [ToolApproval(old(state).pendingTool.value.id, false)]
      ensures old(state).pendingTool.None? || socket != SocketOpen ==> outbox == old(outbox)
      ensures state.pendingTool.None? && attempts == old(attempts) && socket == old(socket) && timer == old(timer)
    {
      AnswerTool(false);
    }

    /** `reconnect`: starts over from the first attempt. */
    method Reconnect(initFails: bool, detail: string)
      modifies this
      ensures var s := Reduce(old(state), ConnectionAction(Connecting));
              state == (if initFails then Reduce(s, ErrorAction("socket_init_failed", Some(detail))) else s)
      ensures attempts == 0 && timer == None && outbox == old(outbox)
      ensures socket == (if initFails then NoSocket else SocketConnecting)
    {
      attempts := 0;
      Connect(initFails, detail);
    }

    method ClearError()
      modifies this
      ensures state == Reduce(old(state), ClearErrorAction)
      ensures attempts == old(attempts) && socket == old(socket) && timer == old(timer) && outbox == old(outbox)
    {
      Dispatch(ClearErrorAction);
    }
  }
}
