/** The provider client: one streamed model turn, seen as the callbacks it makes.

    The request is not modelled; its outcome is a `Response`: a network failure, or a status
    with an optional body given as the text of its successive reads. The body's events go
    through the SSE framer and the provider-event schema and are folded into an ordered list
    of assistant blocks. The open tool block is tracked by its position in that list, so
    that storing its parsed input later changes the block already pushed. */
module Anthropic {
  import opened Wrappers
  import opened JsString
  import opened Json
  import opened SeqLemmas
  import opened Domain
  import opened Schemas
  import Sse

  // ---------------------------------------------------------------- errors and callbacks

  /** The `detail` property of an error: absent, a string, or a parsed JSON value. */
  datatype Detail = NoDetail | DetailText(text: string) | DetailJson(value: Json)

  /** A thrown value as `map_ai_error` reads it: its numeric `status`, its `detail` and its
      string `message`, each when present. */
  datatype AiError = AiError(status: Option<int>, detail: Detail, message: Option<string>)

  /** One invocation of a callback passed to the stream. */
  datatype Callback =
    | OnText(text: string)
    | OnTool(tool: ToolUse)
    | OnStatus(status: Json)
    | OnEnd(blocks: seq<AssistantBlock>)
    | OnError(error: AiError)

  function TypingJson(b: bool): Json {
    JObj([("ai_typing", JBool(b))])
  }

  /** `on_status({ai_typing: false})` then `on_error(error)`: the `catch` of the stream. */
  function Failure(e: AiError): seq<Callback> {
    [OnStatus(TypingJson(false)), OnError(e)]
  }

  // ---------------------------------------------------------------- the response

  datatype Response =
    | NetworkFailure(message: string)
    | Reply(status: int, body: Option<seq<string>>, readError: Option<string>)

  predicate IsOk(status: int) { 200 <= status < 300 }

  /** The detail of a failed reply: the body text parsed as JSON, or the text itself; nothing
      when reading the body fails. A missing body reads as the empty text. */
  function ErrorDetail(body: Option<seq<string>>, readError: Option<string>, parse: JsonParser): Detail {
    if body.Some? && readError.Some? then NoDetail
    else
      var text := if body.Some? then Sse.Concat(body.value) else "";
      match parse(text)
      case Some(j) => DetailJson(j)
      case None => DetailText(text)
  }

  function HttpError(status: int, detail: Detail): AiError {
    AiError(Some(status), detail, Some("anthropic_http_" + IntToString(status)))
  }

  // ---------------------------------------------------------------- the fold

  const Placeholder := ToolInput("", "")
  const DefaultToolName := "create_file"

  /** `parse_tool_input(raw)`. */
  function ParseToolInputText(raw: string, parse: JsonParser): (r: Option<ToolInput>)
    ensures raw == "" ==> r.None?
    ensures raw != "" && parse(raw).None? ==> r.None?
    ensures raw != "" && parse(raw).Some? ==> r == ParseToolInput(parse(raw).value)
    ensures r.Some? ==> r.value.path != ""
  {
    if raw == "" then None
    else
      match parse(raw)
      case None => None
      case Some(j) => ParseToolInput(j)
  }

  /** `assistant_blocks`, the open tool block's position in it, and `input_json_str`. */
  datatype Decoder = Decoder(blocks: seq<AssistantBlock>, openTool: Option<nat>, inputJson: string)

  const Start := Decoder([], None, "")

  predicate Valid(d: Decoder) {
    d.openTool.Some? ==> d.openTool.value < |d.blocks| && d.blocks[d.openTool.value].AToolUse?
  }

  predicate LastIsText(blocks: seq<AssistantBlock>) {
    |blocks| > 0 && blocks[|blocks| - 1].AText?
  }

  function WithTextLast(blocks: seq<AssistantBlock>): (r: seq<AssistantBlock>)
    ensures LastIsText(r)
  {
    if LastIsText(blocks) then blocks else blocks + [AText("")]
  }

  function AppendText(blocks: seq<AssistantBlock>, text: string): seq<AssistantBlock>
    requires LastIsText(blocks)
  {
    blocks[|blocks| - 1 := AText(blocks[|blocks| - 1].text + text)]
  }

  /** `content_block_stop` with a tool open: store the parsed input into the pushed block and
      report it, or report the block with the placeholder input; then close the tool. */
  function StopTool(d: Decoder, parse: JsonParser): (r: (Decoder, seq<Callback>))
    requires Valid(d) && d.openTool.Some?
  {
    var idx := d.openTool.value;
    var tool := d.blocks[idx].tool;
    match ParseToolInputText(d.inputJson, parse)
    case Some(input) =>
      (Decoder(d.blocks[idx := AToolUse(tool.(input := input))], None, ""), [OnTool(tool.(input := input))])
    case None =>
      (Decoder(d.blocks, None, ""), [OnTool(tool.(input := Placeholder))])
  }

  /** What one decoded provider event does to the decoder, and the callbacks it makes. */
  function Step(d: Decoder, e: ProviderEvent, parse: JsonParser): (r: (Decoder, seq<Callback>))
    requires Valid(d)
    ensures Valid(r.0)
  {
    match e
    case BlockStart(_, TextBlock, _, _) => (d.(blocks := WithTextLast(d.blocks)), [])
    case BlockStart(_, ToolUseBlock, id, name) =>
      var tool := ToolUse(id.GetOr(""), name.GetOr(DefaultToolName), Placeholder);
      (Decoder(d.blocks + [AToolUse(tool)], Some(|d.blocks|), ""), [])
    case BlockDelta(_, Some(TextDelta(t))) =>
      var text := t.GetOr("");
      (d.(blocks := AppendText(WithTextLast(d.blocks), text)), [OnText(text)])
    case BlockDelta(_, Some(InputJsonDelta(pj))) => (d.(inputJson := d.inputJson + pj.GetOr("")), [])
    case BlockDelta(_, None) => (d, [])
    case MessageStop => (d, [OnStatus(TypingJson(false)), OnEnd(d.blocks)])
    case _ =>
      if EventType(e) == "content_block_stop" && d.openTool.Some? then StopTool(d, parse) else (d, [])
  }

  /** A raw item that fails the event schema is skipped. */
  function RawStep(d: Decoder, raw: Json, parse: JsonParser): (r: (Decoder, seq<Callback>))
    requires Valid(d)
    ensures Valid(r.0)
  {
    match ParseProviderEvent(raw)
    case None => (d, [])
    case Some(e) => Step(d, e, parse)
  }

  /** The `for await` loop over the framer's items: the decoder reached and the callbacks made. */
  function Run(items: seq<Json>, parse: JsonParser): (r: (Decoder, seq<Callback>))
    ensures Valid(r.0)
  {
    if items == [] then (Start, [])
    else
      var prev := Run(items[..|items| - 1], parse);
      var next := RawStep(prev.0, items[|items| - 1], parse);
      (next.0, prev.1 + next.1)
  }

  /** `anthropic_stream` for one response. */
  function StreamCalls(resp: Response, parse: JsonParser): seq<Callback> {
    [OnStatus(TypingJson(true))] +
    match resp
    case NetworkFailure(msg) => Failure(AiError(None, NoDetail, Some(msg)))
    case Reply(status, body, readError) =>
      if !IsOk(status) || body.None? then Failure(HttpError(status, ErrorDetail(body, readError, parse)))
      else if readError.None? then Run(Sse.SseItems(body.value, parse), parse).1
      else
        Run(Sse.RecordsItems(Sse.Frame(Sse.Concat(body.value)).records, parse), parse).1
        + Failure(AiError(None, NoDetail, readError))
  }

  // ---------------------------------------------------------------- the methods

  method AnthropicStream(resp: Response, parse: JsonParser) returns (calls: seq<Callback>)
    ensures calls == StreamCalls(resp, parse)
  {
    calls := [OnStatus(TypingJson(true))];
    match resp
    case NetworkFailure(msg) =>
      calls := calls + Failure(AiError(None, NoDetail, Some(msg)));
    case Reply(status, body, readError) =>
      if !IsOk(status) || body.None? {
        calls := calls + Failure(HttpError(status, ErrorDetail(body, readError, parse)));
        return;
      }
      var items: seq<Json>;
      if readError.None? {
        items := Sse.SseIter(body.value, parse);
      } else {
        // the read that fails ends the framer before its trailing record
        var rest;
        items, rest := Sse.DrainRecords(Sse.Concat(body.value), parse);
      }
      var more := DecodeEvents(items, parse);
      calls := calls + more;
      if readError.Some? {
        SeqAssoc([OnStatus(TypingJson(true))], more, Failure(AiError(None, NoDetail, readError)));
        calls := calls + Failure(AiError(None, NoDetail, readError));
      }
  }

  /** `anthropic_resume_after_tool`: the same stream. */
  method AnthropicResume(resp: Response, parse: JsonParser) returns (calls: seq<Callback>)
    ensures calls == StreamCalls(resp, parse)
  {
    calls := AnthropicStream(resp, parse);
  }

  method DecodeEvents(items: seq<Json>, parse: JsonParser) returns (calls: seq<Callback>)
    ensures calls == Run(items, parse).1
  {
    var blocks: seq<AssistantBlock> := [];
    var openTool: Option<nat> := None;
    var inputJson := "";
    calls := [];
    for i := 0 to |items|
      invariant Run(items[..i], parse) == (Decoder(blocks, openTool, inputJson), calls)
    {
      TakeSnoc(items, i);
      var ev := ParseProviderEvent(items[i]);
      if ev.Some? {
        var more;
        blocks, openTool, inputJson, more := HandleEvent(blocks, openTool, inputJson, ev.value, parse);
        calls := calls + more;
      } else {
        AppendEmpty(calls);
      }
    }
    TakeAll(items);
  }

  /** The body of the loop for one event that passed the schema. */
  method HandleEvent(blocks0: seq<AssistantBlock>, openTool0: Option<nat>, inputJson0: string,
                     e: ProviderEvent, parse: JsonParser)
    returns (blocks: seq<AssistantBlock>, openTool: Option<nat>, inputJson: string, more: seq<Callback>)
    requires Valid(Decoder(blocks0, openTool0, inputJson0))
    ensures (Decoder(blocks, openTool, inputJson), more) == Step(Decoder(blocks0, openTool0, inputJson0), e, parse)
  {
    blocks, openTool, inputJson, more := blocks0, openTool0, inputJson0, [];
    if e.BlockStart? && e.kind == TextBlock && !LastIsText(blocks) {
      blocks := blocks + [AText("")];
    }
    if e.BlockDelta? && e.delta.Some? && e.delta.value.TextDelta? {
      var text := e.delta.value.text.GetOr("");
      more := [OnText(text)];
      if !LastIsText(blocks) {
        blocks := blocks + [AText("")];
      }
      blocks := blocks[|blocks| - 1 := AText(blocks[|blocks| - 1].text + text)];
    }
    if e.BlockStart? && e.kind == ToolUseBlock {
      var tool := ToolUse(e.id.GetOr(""), e.name.GetOr(DefaultToolName), Placeholder);
      openTool := Some(|blocks|);
      inputJson := "";
      blocks := blocks + [AToolUse(tool)];
    }
    if e.BlockDelta? && e.delta.Some? && e.delta.value.InputJsonDelta? {
      inputJson := inputJson + e.delta.value.partialJson.GetOr("");
    }
    if EventType(e) == "content_block_stop" && openTool.Some? {
      var idx := openTool.value;
      var tool := blocks[idx].tool;
      var parsed := ParseToolInputText(inputJson, parse);
      if parsed.Some? {
        // the block in the list is the object being updated
        blocks := blocks[idx := AToolUse(tool.(input := parsed.value))];
        more := [OnTool(tool.(input := parsed.value))];
      } else {
        more := [OnTool(tool.(input := Placeholder))];
      }
      openTool := None;
      inputJson := "";
    }
    if e.MessageStop? {
      more := [OnStatus(TypingJson(false)), OnEnd(blocks)];
    }
  }

  // ---------------------------------------------------------------- what the fold keeps

  function BlockText(b: AssistantBlock): string {
    if b.AText? then b.text else ""
  }

  /** The text of all text blocks, in order. */
  function BlocksText(blocks: seq<AssistantBlock>): string {
    if blocks == [] then "" else BlocksText(blocks[..|blocks| - 1]) + BlockText(blocks[|blocks| - 1])
  }

  function CallText(c: Callback): string {
    if c.OnText? then c.text else ""
  }

  /** The arguments of all `on_text` calls, concatenated. */
  function CallsText(calls: seq<Callback>): string {
    if calls == [] then "" else CallsText(calls[..|calls| - 1]) + CallText(calls[|calls| - 1])
  }

  function Ends(calls: seq<Callback>): nat {
    if calls == [] then 0 else Ends(calls[..|calls| - 1]) + (if calls[|calls| - 1].OnEnd? then 1 else 0)
  }

  /** How many of the items decode to `message_stop`. */
  function Stops(items: seq<Json>): nat {
    if items == [] then 0
    else Stops(items[..|items| - 1]) + (if ParseProviderEvent(items[|items| - 1]) == Some(MessageStop) then 1 else 0)
  }

  predicate NoAdjacentText(blocks: seq<AssistantBlock>) {
    forall k :: 0 <= k < |blocks| - 1 ==> !(blocks[k].AText? && blocks[k + 1].AText?)
  }

  /** Every `on_end` comes right after `on_status({ai_typing: false})`. */
  predicate EndsAnnounced(calls: seq<Callback>) {
    forall p :: 0 <= p < |calls| && calls[p].OnEnd? ==> p > 0 && calls[p - 1] == OnStatus(TypingJson(false))
  }

  predicate Inv(blocks: seq<AssistantBlock>, calls: seq<Callback>) {
    && NoAdjacentText(blocks)
    && BlocksText(blocks) == CallsText(calls)
    && EndsAnnounced(calls)
  }

  lemma BlocksTextSnoc(blocks: seq<AssistantBlock>, b: AssistantBlock)
    ensures BlocksText(blocks + [b]) == BlocksText(blocks) + BlockText(b)
  {
    SnocParts(blocks, b);
  }

  lemma CallsTextSnoc(calls: seq<Callback>, c: Callback)
    ensures CallsText(calls + [c]) == CallsText(calls) + CallText(c)
    ensures Ends(calls + [c]) == Ends(calls) + (if c.OnEnd? then 1 else 0)
  {
    SnocParts(calls, c);
  }

  /** Adding to the last text block adds to the text of the whole list. */
  lemma BlocksTextAppend(blocks: seq<AssistantBlock>, text: string)
    requires LastIsText(blocks)
    ensures BlocksText(AppendText(blocks, text)) == BlocksText(blocks) + text
  {
    var n := |blocks| - 1;
    UpdatePrefix(blocks, n, AText(blocks[n].text + text), n);
  }

  /** Storing a tool block's input leaves the text of the list alone. */
  lemma {:induction false} BlocksTextSetTool(blocks: seq<AssistantBlock>, idx: nat, tool: ToolUse)
    requires idx < |blocks| && blocks[idx].AToolUse?
    decreases |blocks|
    ensures BlocksText(blocks[idx := AToolUse(tool)]) == BlocksText(blocks)
  {
    var n := |blocks| - 1;
    var updated := blocks[idx := AToolUse(tool)];
    UpdatePrefix(blocks, idx, AToolUse(tool), n);
    assert BlocksText(updated) == BlocksText(updated[..n]) + BlockText(updated[n]);
    if idx < n {
      BlocksTextSetTool(blocks[..n], idx, tool);
      assert updated[n] == blocks[n];
    } else {
      assert BlockText(updated[n]) == "" == BlockText(blocks[n]);
    }
  }

  lemma StepKeepsInv(d: Decoder, calls: seq<Callback>, e: ProviderEvent, parse: JsonParser)
    requires Valid(d) && Inv(d.blocks, calls)
    ensures Inv(Step(d, e, parse).0.blocks, calls + Step(d, e, parse).1)
  {
    match e
    case BlockStart(_, TextBlock, _, _) =>
      AppendEmpty(calls);
      InvTextStart(d.blocks, calls);
    case BlockStart(_, ToolUseBlock, id, name) =>
      AppendEmpty(calls);
      InvToolStart(d.blocks, calls, ToolUse(id.GetOr(""), name.GetOr(DefaultToolName), Placeholder));
    case BlockDelta(_, Some(TextDelta(t))) =>
      InvTextDelta(d.blocks, calls, t.GetOr(""));
    case BlockDelta(_, Some(InputJsonDelta(_))) => AppendEmpty(calls);
    case BlockDelta(_, None) => AppendEmpty(calls);
    case MessageStop =>
      InvMessageStop(d.blocks, calls);
    case _ =>
      if EventType(e) == "content_block_stop" && d.openTool.Some? {
        InvToolStop(d, calls, parse);
      } else {
        AppendEmpty(calls);
      }
  }

  lemma InvTextStart(blocks: seq<AssistantBlock>, calls: seq<Callback>)
    requires Inv(blocks, calls)
    ensures Inv(WithTextLast(blocks), calls)
  {
    if !LastIsText(blocks) {
      BlocksTextSnoc(blocks, AText(""));
    }
  }

  lemma InvToolStart(blocks: seq<AssistantBlock>, calls: seq<Callback>, tool: ToolUse)
    requires Inv(blocks, calls)
    ensures Inv(blocks + [AToolUse(tool)], calls)
  {
    BlocksTextSnoc(blocks, AToolUse(tool));
  }

  lemma InvTextDelta(blocks: seq<AssistantBlock>, calls: seq<Callback>, text: string)
    requires Inv(blocks, calls)
    ensures Inv(AppendText(WithTextLast(blocks), text), calls + [OnText(text)])
  {
    var pushed := WithTextLast(blocks);
    InvTextStart(blocks, calls);
    BlocksTextAppend(pushed, text);
    CallsTextSnoc(calls, OnText(text));
    AppendTextKeepsSeparation(pushed, text);
    EndsAnnouncedSnoc(calls, OnText(text));
  }

  lemma AppendTextKeepsSeparation(blocks: seq<AssistantBlock>, text: string)
    requires LastIsText(blocks) && NoAdjacentText(blocks)
    ensures NoAdjacentText(AppendText(blocks, text))
  {
    var after := AppendText(blocks, text);
    forall k | 0 <= k < |after| - 1
      ensures !(after[k].AText? && after[k + 1].AText?)
    {
      assert after[k] == blocks[k];
    }
  }

  lemma EndsAnnouncedSnoc(calls: seq<Callback>, c: Callback)
    requires EndsAnnounced(calls) && !c.OnEnd?
    ensures EndsAnnounced(calls + [c])
  {
    var after := calls + [c];
    forall p | 0 <= p < |after| && after[p].OnEnd?
      ensures p > 0 && after[p - 1] == OnStatus(TypingJson(false))
    {
      assert after[p] == calls[p];
      assert after[p - 1] == calls[p - 1];
    }
  }

  lemma InvMessageStop(blocks: seq<AssistantBlock>, calls: seq<Callback>)
    requires Inv(blocks, calls)
    ensures Inv(blocks, calls + [OnStatus(TypingJson(false)), OnEnd(blocks)])
  {
    var s := OnStatus(TypingJson(false));
    PairSnoc(calls, s, OnEnd(blocks));
    CallsTextSnoc(calls, s);
    CallsTextSnoc(calls + [s], OnEnd(blocks));
    var after := calls + [s] + [OnEnd(blocks)];
    assert EndsAnnounced(after) by {
      forall p | 0 <= p < |after| && after[p].OnEnd?
        ensures p > 0 && after[p - 1] == s
      {
        if p < |calls| {
          assert after[p] == calls[p];
          assert after[p - 1] == calls[p - 1];
        }
      }
    }
  }

  lemma InvToolStop(d: Decoder, calls: seq<Callback>, parse: JsonParser)
    requires Valid(d) && d.openTool.Some? && Inv(d.blocks, calls)
    ensures Inv(StopTool(d, parse).0.blocks, calls + StopTool(d, parse).1)
  {
    var idx := d.openTool.value;
    var tool := d.blocks[idx].tool;
    var r := StopTool(d, parse);
    var c := r.1[0];
    assert r.1 == [c] && !c.OnText? && !c.OnEnd?;
    CallsTextSnoc(calls, c);
    SnocParts(calls, c);
    if r.0.blocks != d.blocks {
      BlocksTextSetTool(d.blocks, idx, r.0.blocks[idx].tool);
      assert r.0.blocks == d.blocks[idx := r.0.blocks[idx]];
    }
  }

  /** Throughout the fold: no two adjacent blocks are both text, the text blocks hold exactly
      what was passed to `on_text`, every `on_end` is announced by `on_status({ai_typing:
      false})`, and there are as many `on_end` calls as `message_stop` events. */
  lemma {:induction false} RunInv(items: seq<Json>, parse: JsonParser)
    decreases |items|
    ensures Inv(Run(items, parse).0.blocks, Run(items, parse).1)
    ensures Ends(Run(items, parse).1) == Stops(items)
  {
    if items != [] {
      var prefix := items[..|items| - 1];
      var prev := Run(prefix, parse);
      RunInv(prefix, parse);
      match ParseProviderEvent(items[|items| - 1])
      case None =>
        AppendEmpty(prev.1);
      case Some(e) =>
        StepKeepsInv(prev.0, prev.1, e, parse);
        StepEnds(prev.0, prev.1, e, parse);
    }
  }

  lemma StepEnds(d: Decoder, calls: seq<Callback>, e: ProviderEvent, parse: JsonParser)
    requires Valid(d)
    ensures Ends(calls + Step(d, e, parse).1) == Ends(calls) + (if e == MessageStop then 1 else 0)
  {
    var more := Step(d, e, parse).1;
    if more == [] {
      AppendEmpty(calls);
    } else if e == MessageStop {
      PairSnoc(calls, OnStatus(TypingJson(false)), OnEnd(d.blocks));
      CallsTextSnoc(calls, OnStatus(TypingJson(false)));
      CallsTextSnoc(calls + [OnStatus(TypingJson(false))], OnEnd(d.blocks));
    } else {
      assert |more| == 1 && !more[0].OnEnd?;
      SingletonOf(more);
      CallsTextSnoc(calls, more[0]);
    }
  }

  /** The blocks handed to `on_end` hold exactly the text passed to `on_text` before it, and
      no two of them next to each other are both text. */
  lemma EndCarriesText(items: seq<Json>, raw: Json, parse: JsonParser)
    requires ParseProviderEvent(raw) == Some(MessageStop)
    ensures var calls := Run(items + [raw], parse).1;
            var before := Run(items, parse).1;
            && |calls| == |before| + 2
            && calls[|calls| - 1].OnEnd?
            && BlocksText(calls[|calls| - 1].blocks) == CallsText(before)
            && NoAdjacentText(calls[|calls| - 1].blocks)
  {
    RunSnoc(items, raw, parse);
    RunInv(items, parse);
    var prev := Run(items, parse);
    var stop := OnStatus(TypingJson(false));
    PairSnoc(prev.1, stop, OnEnd(prev.0.blocks));
    SnocParts(prev.1 + [stop], OnEnd(prev.0.blocks));
  }

  lemma RunSnoc(items: seq<Json>, raw: Json, parse: JsonParser)
    ensures var prev := Run(items, parse);
            var next := RawStep(prev.0, raw, parse);
            Run(items + [raw], parse) == (next.0, prev.1 + next.1)
  {
    SnocParts(items, raw);
  }

  /** A tool block is pushed with the placeholder input, the id defaulting to "" and the name
      to `create_file`, and the JSON buffer restarts. */
  lemma ToolStartPushesPlaceholder(d: Decoder, i: int, id: Option<string>, name: Option<string>, parse: JsonParser)
    requires Valid(d)
    ensures var r := Step(d, BlockStart(i, ToolUseBlock, id, name), parse);
            && r.1 == []
            && r.0.blocks[..|d.blocks|] == d.blocks
            && r.0.blocks[|d.blocks|] == AToolUse(ToolUse(id.GetOr(""), name.GetOr("create_file"), ToolInput("", "")))
            && r.0.openTool == Some(|d.blocks|) && r.0.inputJson == ""
  {
    SnocParts(d.blocks, AToolUse(ToolUse(id.GetOr(""), name.GetOr("create_file"), ToolInput("", ""))));
  }

  /** At a stop with a tool open: with an input that parses, the block already in the list
      takes that input and is what `on_tool` receives; otherwise `on_tool` receives the block
      with the placeholder input and the list is unchanged. Either way the tool is closed. */
  lemma StopWithOpenTool(d: Decoder, e: ProviderEvent, parse: JsonParser)
    requires Valid(d) && d.openTool.Some? && EventType(e) == "content_block_stop"
    ensures var r := Step(d, e, parse);
            var idx := d.openTool.value;
            var parsed := ParseToolInputText(d.inputJson, parse);
            && r.0.openTool.None? && r.0.inputJson == ""
            && |r.0.blocks| == |d.blocks| && |r.1| == 1 && r.1[0].OnTool?
            && (parsed.Some? ==> r.0.blocks[idx] == AToolUse(r.1[0].tool) && r.1[0].tool.input == parsed.value)
            && (parsed.None? ==> r.0.blocks == d.blocks && r.1[0].tool.input == Placeholder)
            && (forall k :: 0 <= k < |d.blocks| && k != idx ==> r.0.blocks[k] == d.blocks[k])
            && r.1[0].tool.id == d.blocks[idx].tool.id && r.1[0].tool.name == d.blocks[idx].tool.name
  {
  }

  /** A stop with no tool open changes nothing and calls nothing. */
  lemma StopWithoutToolIsNoop(d: Decoder, e: ProviderEvent, parse: JsonParser)
    requires Valid(d) && d.openTool.None? && EventType(e) == "content_block_stop"
    ensures Step(d, e, parse) == (d, [])
  {
  }

  /** An item the event schema refuses is skipped: nothing is called and the fold goes on. */
  lemma InvalidItemSkipped(items: seq<Json>, raw: Json, parse: JsonParser)
    requires ParseProviderEvent(raw).None?
    ensures Run(items + [raw], parse) == Run(items, parse)
  {
    SnocParts(items, raw);
    AppendEmpty(Run(items, parse).1);
  }

  /** Without a `message_stop`, `on_end` is never called. */
  lemma NoStopNoEnd(items: seq<Json>, parse: JsonParser)
    requires forall k :: 0 <= k < |items| ==> ParseProviderEvent(items[k]) != Some(MessageStop)
    ensures forall p :: 0 <= p < |Run(items, parse).1| ==> !Run(items, parse).1[p].OnEnd?
  {
    StopsZero(items);
    RunInv(items, parse);
    EndsZero(Run(items, parse).1);
  }

  lemma {:induction false} StopsZero(items: seq<Json>)
    requires forall k :: 0 <= k < |items| ==> ParseProviderEvent(items[k]) != Some(MessageStop)
    decreases |items|
    ensures Stops(items) == 0
  {
    if items != [] {
      var prefix := items[..|items| - 1];
      assert forall k :: 0 <= k < |prefix| ==> prefix[k] == items[k];
      StopsZero(prefix);
    }
  }

  lemma {:induction false} EndsZero(calls: seq<Callback>)
    requires Ends(calls) == 0
    decreases |calls|
    ensures forall p :: 0 <= p < |calls| ==> !calls[p].OnEnd?
  {
    if calls != [] {
      var prefix := calls[..|calls| - 1];
      EndsZero(prefix);
      assert forall p :: 0 <= p < |prefix| ==> prefix[p] == calls[p];
    }
  }

  /** A failed request announces typing, then stops it and reports the error with the
      status and the detail read from the body. */
  lemma FailedReplyIsReported(status: int, body: Option<seq<string>>, readError: Option<string>, parse: JsonParser)
    requires !IsOk(status) || body.None?
    ensures StreamCalls(Reply(status, body, readError), parse) ==
              [OnStatus(TypingJson(true)), OnStatus(TypingJson(false)),
               OnError(AiError(Some(status), ErrorDetail(body, readError, parse),
                               Some("anthropic_http_" + IntToString(status))))]
  {
  }

  /** A stream's calls start by announcing typing, and an error comes only last, right after
      typing is stopped. */
  predicate Shaped(calls: seq<Callback>) {
    && |calls| >= 1 && calls[0] == OnStatus(TypingJson(true))
    && (forall p :: 0 <= p < |calls| && calls[p].OnError? ==>
          p == |calls| - 1 && calls[p - 1] == OnStatus(TypingJson(false)))
  }

  /** Every stream starts by announcing typing, and a stream that reports an error does so
      last, right after stopping typing. */
  lemma StreamShape(resp: Response, parse: JsonParser)
    ensures Shaped(StreamCalls(resp, parse))
  {
    match resp
    case NetworkFailure(msg) =>
      ShapeOfRun([], Failure(AiError(None, NoDetail, Some(msg))));
      assert StreamCalls(resp, parse) == [OnStatus(TypingJson(true))] + [] + Failure(AiError(None, NoDetail, Some(msg)));
    case Reply(status, body, readError) =>
      if !IsOk(status) || body.None? {
        var tail := Failure(HttpError(status, ErrorDetail(body, readError, parse)));
        ShapeOfRun([], tail);
        assert StreamCalls(resp, parse) == [OnStatus(TypingJson(true))] + [] + tail;
      } else if readError.None? {
        var items := Sse.SseItems(body.value, parse);
        ShapeOfItems(items, [], parse);
        assert StreamCalls(resp, parse) == [OnStatus(TypingJson(true))] + Run(items, parse).1 + [];
      } else {
        var items := Sse.RecordsItems(Sse.Frame(Sse.Concat(body.value)).records, parse);
        var tail := Failure(AiError(None, NoDetail, readError));
        ShapeOfItems(items, tail, parse);
        assert StreamCalls(resp, parse) == [OnStatus(TypingJson(true))] + Run(items, parse).1 + tail;
      }
  }

  lemma ShapeOfItems(items: seq<Json>, tail: seq<Callback>, parse: JsonParser)
    requires tail == [] || (exists e :: tail == Failure(e))
    ensures Shaped([OnStatus(TypingJson(true))] + Run(items, parse).1 + tail)
  {
    RunHasNoError(items, parse);
    ShapeOfRun(Run(items, parse).1, tail);
  }

  /** The shape `StreamShape` states, for a run without errors and a tail that is empty or
      one failure. */
  lemma ShapeOfRun(run: seq<Callback>, tail: seq<Callback>)
    requires forall p :: 0 <= p < |run| ==> !run[p].OnError?
    requires tail == [] || (exists e :: tail == Failure(e))
    ensures Shaped([OnStatus(TypingJson(true))] + run + tail)
  {
    var calls := [OnStatus(TypingJson(true))] + run + tail;
    assert forall p :: 1 <= p <= |run| ==> calls[p] == run[p - 1];
    assert forall p :: |run| < p < |calls| ==> calls[p] == tail[p - 1 - |run|];
  }

  lemma {:induction false} RunHasNoError(items: seq<Json>, parse: JsonParser)
    decreases |items|
    ensures forall p :: 0 <= p < |Run(items, parse).1| ==> !Run(items, parse).1[p].OnError?
  {
    if items != [] {
      var prefix := items[..|items| - 1];
      RunHasNoError(prefix, parse);
      var prev := Run(prefix, parse);
      var next := RawStep(prev.0, items[|items| - 1], parse);
      assert forall p :: 0 <= p < |next.1| ==> !next.1[p].OnError?;
    }
  }
}
