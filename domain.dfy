/** The entities the backend passes around: conversation history in the provider's message
    format, the pending tool call, the three tool-result payloads and the events exchanged
    with the browser over the WebSocket. */
module Domain {
  import opened Wrappers

  /** `CreateFileToolInput`. */
  datatype ToolInput = ToolInput(path: string, content: string)

  /** `ToolUseContentBlock`, which is also the `PendingToolCall`. The declared name type is
      `'create_file'`, but the stream decoder copies whatever name the provider sends. */
  datatype ToolUse = ToolUse(id: string, name: string, input: ToolInput)

  datatype AssistantBlock =
    | AText(text: string)
    | AToolUse(tool: ToolUse)

  datatype UserBlock =
    | UText(text: string)
    | UToolResult(toolUseId: string, content: string)

  datatype Message =
    | UserMessage(userContent: seq<UserBlock>)
    | AssistantMessage(assistantContent: seq<AssistantBlock>)

  datatype ToolResultPayload =
    | ResultOk(filePath: string, size: nat)
    | ResultDenied
    | ResultError(errorCode: string, message: string)

  /** `StatusUpdateData`: every field optional. */
  datatype StatusData = StatusData(
    aiTyping: Option<bool>,
    toolRunning: Option<bool>,
    filePath: Option<string>,
    busy: Option<bool>,
    reconnecting: Option<bool>,
    error: Option<string>)

  const NoStatus := StatusData(None, None, None, None, None, None)

  function AiTypingStatus(b: bool): StatusData { NoStatus.(aiTyping := Some(b)) }
  function BusyStatus(): StatusData { NoStatus.(busy := Some(true)) }

  datatype Reason = ReasonOk | ReasonError

  datatype ServerEvent =
    | SessionCreated(sessionId: string)
    | StatusUpdate(status: StatusData)
    | AiChunk(text: string)
    | AssistantCompleted(reason: Option<Reason>)
    | ToolRequest(tool: ToolUse)
    | ToolChunk(chunk: string)
    | ErrorEvent(message: string, detail: Option<string>)

  datatype ClientEvent =
    | UserMessageEvent(text: string)
    | ToolApproval(toolUseId: string, approved: bool)
}
