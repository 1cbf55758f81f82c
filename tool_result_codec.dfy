/** The text a tool result is stored as in the history (`JSON.stringify` of the payload), and
    reading it back the way the tests do (`JSON.parse`, then `tool_result_schema`). */
module ToolResultCodec {
  import opened Wrappers
  import opened Json
  import opened Domain
  import opened Schemas

  function EncodeToolResult(p: ToolResultPayload): string {
    Stringify(ToolResultJson(p))
  }

  function DecodeToolResult(text: string): Option<ToolResultPayload> {
    match ParseFlatObject(text)
    case Some(j) => ParseToolResult(j)
    case None => None
  }

  /** Every payload, ok, denied or error, is read back from its stored text unchanged. */
  lemma DecodeEncode(p: ToolResultPayload)
    ensures DecodeToolResult(EncodeToolResult(p)) == Some(p)
  {
    var fields := ToolResultJson(p).fields;
    assert IsFlat(fields);
    FlatObjectRoundTrip(fields);
    ToolResultJsonRoundTrip(p);
  }

  /** Distinct payloads are stored as distinct texts. */
  lemma EncodeInjective(p: ToolResultPayload, q: ToolResultPayload)
    requires EncodeToolResult(p) == EncodeToolResult(q)
    ensures p == q
  {
    DecodeEncode(p);
    DecodeEncode(q);
  }
}
