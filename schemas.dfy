/** The validators of the backend as functions from a parsed JSON value to the typed value
    they accept, or None where validation fails. An object schema ignores keys it does not
    name; an `.optional()` field may be absent but not present with another type. */
module Schemas {
  import opened Wrappers
  import opened Json
  import opened Domain

  // ---------------------------------------------------------------- tool input

  /** `tool_input_schema`: a non-empty string `path` and a string `content`. */
  function ParseToolInput(j: Json): (r: Option<ToolInput>)
    ensures r.Some? <==>
              && GetString(j, "path").Some? && GetString(j, "path").value != ""
              && GetString(j, "content").Some?
    ensures r.Some? ==>
              r.value == ToolInput(GetString(j, "path").value, GetString(j, "content").value)
  {
    match (GetString(j, "path"), GetString(j, "content"))
    case (Some(p), Some(c)) => if |p| >= 1 then Some(ToolInput(p, c)) else None
    case _ => None
  }

  /** The object a tool input is sent and received as. */
  function ToolInputJson(i: ToolInput): Json {
    JObj([("path", JStr(i.path)), ("content", JStr(i.content))])
  }

  /** A tool input survives validation exactly when its path is non-empty. */
  lemma ToolInputRoundTrip(i: ToolInput)
    ensures ParseToolInput(ToolInputJson(i)) == if i.path != "" then Some(i) else None
  {
    var fields := ToolInputJson(i).fields;
    assert "content"[0] != "path"[0];
    LookupTwo(fields[0], fields[1], "path");
    LookupTwo(fields[0], fields[1], "content");
  }

  // ---------------------------------------------------------------- client events

  /** `client_event_schema`: a union discriminated by `type`. */
  function ParseClientEvent(j: Json): (r: Option<ClientEvent>)
    ensures GetString(j, "type") != Some("user_message") && GetString(j, "type") != Some("tool_approval")
            ==> r.None?
    ensures r.Some? && r.value.UserMessageEvent? ==>
              GetString(j, "type") == Some("user_message") && r.value.text != ""
    ensures r.Some? && r.value.ToolApproval? ==>
              GetString(j, "type") == Some("tool_approval") && r.value.toolUseId != ""
  {
    var t := GetString(j, "type");
    match Get(j, "data")
    case None => None
    case Some(d) =>
      if t == Some("user_message") then
        match GetString(d, "text")
        case Some(text) => if |text| >= 1 then Some(UserMessageEvent(text)) else None
        case None => None
      else if t == Some("tool_approval") then
        match (GetString(d, "tool_use_id"), GetBool(d, "approved"))
        case (Some(id), Some(b)) => if |id| >= 1 then Some(ToolApproval(id, b)) else None
        case _ => None
      else None
  }

  /** The JSON the browser sends for an event. */
  function ClientEventJson(e: ClientEvent): Json {
    match e
    case UserMessageEvent(text) =>
      JObj([("type", JStr("user_message")), ("data", JObj([("text", JStr(text))]))])
    case ToolApproval(id, b) =>
      JObj([("type", JStr("tool_approval")),
            ("data", JObj([("tool_use_id", JStr(id)), ("approved", JBool(b))]))])
  }

  /** What the browser sends is accepted back unchanged, unless the text or the id is empty. */
  lemma ClientEventRoundTrip(e: ClientEvent)
    ensures ParseClientEvent(ClientEventJson(e)) ==
              match e
              case UserMessageEvent(text) => if text != "" then Some(e) else None
              case ToolApproval(id, _) => if id != "" then Some(e) else None
  {
    var j := ClientEventJson(e);
    assert "data"[0] != "type"[0];
    LookupTwo(j.fields[0], j.fields[1], "type");
    LookupTwo(j.fields[0], j.fields[1], "data");
    match e
    case UserMessageEvent(text) =>
    case ToolApproval(id, b) =>
      var d := j.fields[1].1;
      assert "approved"[0] != "tool_use_id"[0];
      LookupTwo(d.fields[0], d.fields[1], "tool_use_id");
      LookupTwo(d.fields[0], d.fields[1], "approved");
  }

  // ---------------------------------------------------------------- tool results

  /** `tool_result_schema`: a union discriminated by `status`. */
  function ParseToolResult(j: Json): (r: Option<ToolResultPayload>)
    ensures r == Some(ResultDenied) <==> GetString(j, "status") == Some("denied")
    ensures r.Some? && r.value.ResultOk? ==>
              && GetString(j, "status") == Some("ok")
              && GetString(j, "file_path") == Some(r.value.filePath)
              && Get(j, "size") == Some(JNum(r.value.size))
    ensures r.Some? && r.value.ResultError? ==>
              && GetString(j, "status") == Some("error")
              && GetString(j, "error_code") == Some(r.value.errorCode)
              && GetString(j, "message") == Some(r.value.message)
  {
    var st := GetString(j, "status");
    if st == Some("ok") then
      match (GetString(j, "file_path"), Get(j, "size"))
      case (Some(fp), Some(JNum(n))) => if n >= 0 then Some(ResultOk(fp, n)) else None
      case _ => None
    else if st == Some("denied") then Some(ResultDenied)
    else if st == Some("error") then
      match (GetString(j, "error_code"), GetString(j, "message"))
      case (Some(code), Some(msg)) => Some(ResultError(code, msg))
      case _ => None
    else None
  }

  /** The object `JSON.stringify` is given for a payload, keys in declaration order. */
  function ToolResultJson(p: ToolResultPayload): Json {
    match p
    case ResultOk(fp, size) => JObj([("status", JStr("ok")), ("file_path", JStr(fp)), ("size", JNum(size))])
    case ResultDenied => JObj([("status", JStr("denied"))])
    case ResultError(code, msg) =>
      JObj([("status", JStr("error")), ("error_code", JStr(code)), ("message", JStr(msg))])
  }

  lemma ToolResultJsonRoundTrip(p: ToolResultPayload)
    ensures ParseToolResult(ToolResultJson(p)) == Some(p)
  {
    match p
    case ResultOk(fp, size) => OkRoundTrip(fp, size);
    case ResultDenied =>
    case ResultError(code, msg) => ErrorRoundTrip(code, msg);
  }

  lemma OkRoundTrip(fp: string, size: nat)
    ensures ParseToolResult(ToolResultJson(ResultOk(fp, size))) == Some(ResultOk(fp, size))
  {
    var j := ToolResultJson(ResultOk(fp, size));
    assert "file_path"[0] != "status"[0] && "size"[1] != "status"[1] && "size"[0] != "file_path"[0];
    assert j.fields[0].0 != "file_path" && j.fields[1].0 == "file_path";
    assert Get(j, "file_path") == Some(JStr(fp));
    assert j.fields[1..][1..] == [j.fields[2]];
    assert Get(j, "size") == Some(JNum(size));
  }

  lemma ErrorRoundTrip(code: string, msg: string)
    ensures ParseToolResult(ToolResultJson(ResultError(code, msg))) == Some(ResultError(code, msg))
  {
    var j := ToolResultJson(ResultError(code, msg));
    assert "error_code"[0] != "status"[0] && "message"[0] != "status"[0];
    assert "message"[0] != "error_code"[0];
    assert j.fields[0].0 != "error_code" && j.fields[1].0 == "error_code";
    assert Lookup(j.fields[1..], "error_code") == Some(JStr(code));
    assert j.fields[1..][1..] == [j.fields[2]];
    assert Get(j, "error_code") == Some(JStr(code));
    assert GetString(j, "message") == Some(msg);
  }

  // ---------------------------------------------------------------- provider stream events

  datatype BlockKind = TextBlock | ToolUseBlock

  datatype Delta =
    | TextDelta(text: Option<string>)
    | InputJsonDelta(partialJson: Option<string>)

  /** `AnthropicEvent`: the members of `anthropic_event_schema`, the last one being the
      catch-all that keeps only `type`. */
  datatype ProviderEvent =
    | BlockStart(index: int, kind: BlockKind, id: Option<string>, name: Option<string>)
    | BlockDelta(deltaIndex: Option<int>, delta: Option<Delta>)
    | BlockStop(stopIndex: Option<int>)
    | MessageStop
    | OtherEvent(eventType: string)

  function EventType(e: ProviderEvent): string {
    match e
    case BlockStart(_, _, _, _) => "content_block_start"
    case BlockDelta(_, _) => "content_block_delta"
    case BlockStop(_) => "content_block_stop"
    case MessageStop => "message_stop"
    case OtherEvent(t) => t
  }

  /** An `.optional()` string field: Some(None) when absent, None when of another type. */
  function OptString(j: Json, key: string): Option<Option<string>> {
    match Get(j, key)
    case None => Some(None)
    case Some(JStr(s)) => Some(Some(s))
    case Some(_) => None
  }

  function OptNumber(j: Json, key: string): Option<Option<int>> {
    match Get(j, key)
    case None => Some(None)
    case Some(JNum(n)) => Some(Some(n))
    case Some(_) => None
  }

  /** The union of `anthropic_text_delta_schema` and `anthropic_input_json_delta_schema`. */
  function ParseDelta(j: Json): Option<Delta> {
    var t := GetString(j, "type");
    if t == Some("text_delta") then
      match OptString(j, "text")
      case Some(text) => Some(TextDelta(text))
      case None => None
    else if t == Some("input_json_delta") then
      match OptString(j, "partial_json")
      case Some(pj) => Some(InputJsonDelta(pj))
      case None => None
    else None
  }

  function ParseBlockStart(j: Json): Option<ProviderEvent> {
    if GetString(j, "type") != Some("content_block_start") then None
    else
      match (Get(j, "index"), Get(j, "content_block"))
      case (Some(JNum(i)), Some(cb)) =>
        var kind := GetString(cb, "type");
        if cb.JObj? && (kind == Some("text") || kind == Some("tool_use")) then
          match (OptString(cb, "id"), OptString(cb, "name"))
          case (Some(id), Some(name)) =>
            Some(BlockStart(i, if kind == Some("text") then TextBlock else ToolUseBlock, id, name))
          case _ => None
        else None
      case _ => None
  }

  function ParseBlockDelta(j: Json): Option<ProviderEvent> {
    if GetString(j, "type") != Some("content_block_delta") then None
    else
      match OptNumber(j, "index")
      case None => None
      case Some(i) =>
        match Get(j, "delta")
        case None => Some(BlockDelta(i, None))
        case Some(d) =>
          match ParseDelta(d)
          case Some(delta) => Some(BlockDelta(i, Some(delta)))
          case None => None
  }

  function ParseBlockStop(j: Json): Option<ProviderEvent> {
    if GetString(j, "type") != Some("content_block_stop") then None
    else
      match OptNumber(j, "index")
      case Some(i) => Some(BlockStop(i))
      case None => None
  }

  /** `anthropic_event_schema`: the first member that accepts the value wins. */
  function ParseProviderEvent(j: Json): (r: Option<ProviderEvent>)
    ensures r.Some? <==> GetString(j, "type").Some?
    ensures r.Some? ==> EventType(r.value) == GetString(j, "type").value
    ensures r.Some? && r.value.OtherEvent? ==> r.value.eventType != "message_stop"
  {
    if ParseBlockStart(j).Some? then ParseBlockStart(j)
    else if ParseBlockDelta(j).Some? then ParseBlockDelta(j)
    else if ParseBlockStop(j).Some? then ParseBlockStop(j)
    else if GetString(j, "type") == Some("message_stop") then Some(MessageStop)
    else
      match GetString(j, "type")
      case Some(t) => Some(OtherEvent(t))
      case None => None
  }

  /** A stop event whose index is not a number still reaches the decoder with its type. */
  lemma MalformedStopKeepsType(j: Json)
    requires GetString(j, "type") == Some("content_block_stop") && OptNumber(j, "index").None?
    ensures ParseProviderEvent(j) == Some(OtherEvent("content_block_stop"))
  {
  }
}
