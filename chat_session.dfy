/** One conversation: its history in the provider's message format, the tool call waiting
    for the user's decision, and whether a model turn is running. */
module ChatSessions {
  import opened Wrappers
  import opened Domain
  import opened ToolResultCodec

  /** The history entry `add_user_message` appends. */
  function UserTextMessage(text: string): Message {
    UserMessage([UText(text)])
  }

  /** The history entry `record_tool_result` appends: the payload stored as JSON text. */
  function ToolResultMessage(toolUseId: string, result: ToolResultPayload): Message {
    UserMessage([UToolResult(toolUseId, EncodeToolResult(result))])
  }

  /** Reading back the content of a recorded tool result gives the payload that was recorded. */
  lemma ToolResultMessageDecodes(toolUseId: string, result: ToolResultPayload)
    ensures ToolResultMessage(toolUseId, result).userContent[0].toolUseId == toolUseId
    ensures DecodeToolResult(ToolResultMessage(toolUseId, result).userContent[0].content) == Some(result)
  {
    DecodeEncode(result);
  }

  /** `to_public_state()` without the timestamp. */
  datatype PublicState = PublicState(
    sessionId: string,
    history: seq<Message>,
    pendingTool: Option<ToolUse>,
    active: bool)

  class ChatSession {
    const sessionId: string
    var history: seq<Message>
    var pendingTool: Option<ToolUse>
    var active: bool

    /** The identifier comes from `gen_id` in the source; here the caller supplies it. */
    constructor (id: string)
      ensures sessionId == id && history == [] && pendingTool == None && !active
    {
      sessionId := id;
      history := [];
      pendingTool := None;
      active := false;
    }

    function ToPublicState(): (s: PublicState)
      reads this
      ensures s.sessionId == sessionId && s.history == history
      ensures s.pendingTool == pendingTool && s.active == active
    {
      PublicState(sessionId, history, pendingTool, active)
    }

    method AddUserMessage(text: string)
      modifies this
      ensures history == old(history) + [UserTextMessage(text)]
      ensures pendingTool == old(pendingTool) && active == old(active)
    {
      history := history + [UserMessage([UText(text)])];
    }

    method AddAssistantBlocks(blocks: seq<AssistantBlock>)
      modifies this
      ensures history == old(history) + [AssistantMessage(blocks)]
      ensures pendingTool == old(pendingTool) && active == old(active)
    {
      history := history + [AssistantMessage(blocks)];
    }

    method RecordToolResult(toolUseId: string, result: ToolResultPayload)
      modifies this
      ensures history == old(history) + [ToolResultMessage(toolUseId, result)]
      ensures pendingTool == old(pendingTool) && active == old(active)
    {
      var content := EncodeToolResult(result);
      history := history + [UserMessage([UToolResult(toolUseId, content)])];
    }

    method SetPendingTool(tool: ToolUse)
      modifies this
      ensures pendingTool == Some(tool)
      ensures history == old(history) && active == old(active)
    {
      pendingTool := Some(tool);
    }

    method ClearPendingTool()
      modifies this
      ensures pendingTool == None
      ensures history == old(history) && active == old(active)
    {
      pendingTool := None;
    }
  }
}
