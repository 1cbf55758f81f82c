/** What the browser's reducer and hook promise. */
module ChatClientProperties {
  import opened Wrappers
  import opened Json
  import opened JsString
  import opened Domain
  import opened Schemas
  import opened ChatClient

  // ---------------------------------------------------------------- the transcript

  /** All message texts, in order. */
  function Transcript(messages: seq<ChatMessage>): string {
    if messages == [] then "" else Transcript(messages[..|messages| - 1]) + messages[|messages| - 1].text
  }

  /** An `ai_chunk` adds exactly its text to the transcript and at most one message; it
      opens a message exactly when the last one is not the assistant's, and every earlier
      message stays as it was. */
  lemma ChunkExtendsTranscript(messages: seq<ChatMessage>, text: string, newId: string)
    ensures var r := AppendChunk(messages, text, newId);
            && Transcript(r) == Transcript(messages) + text
            && (|r| == |messages| + 1 <==> messages == [] || messages[|messages| - 1].role != AssistantRole)
            && (|r| == |messages| || |r| == |messages| + 1)
            && r[|r| - 1].role == AssistantRole
            && (forall i :: 0 <= i < |messages| - 1 ==> r[i] == messages[i])
  {
    var r := AppendChunk(messages, text, newId);
    if messages == [] || messages[|messages| - 1].role != AssistantRole {
      assert r[..|r| - 1] == messages;
    } else {
      var n := |messages| - 1;
      assert r[..n] == messages[..n];
      assert Transcript(messages) == Transcript(messages[..n]) + messages[n].text;
      StringAssoc(Transcript(messages[..n]), messages[n].text, text);
    }
  }

  lemma StringAssoc(a: string, b: string, c: string)
    ensures a + b + c == a + (b + c)
  {
  }

  /** The `ai_chunk` actions for a run of chunks, message ids drawn in order. */
  function ApplyChunks(messages: seq<ChatMessage>, chunks: seq<string>, ids: seq<string>): seq<ChatMessage>
    requires |ids| == |chunks|
  {
    if chunks == [] then messages
    else AppendChunk(ApplyChunks(messages, chunks[..|chunks| - 1], ids[..|ids| - 1]), chunks[|chunks| - 1], ids[|ids| - 1])
  }

  function Concat(chunks: seq<string>): string {
    if chunks == [] then "" else Concat(chunks[..|chunks| - 1]) + chunks[|chunks| - 1]
  }

  /** The chunks of one reply that follows a user message become one assistant message
      holding their concatenation, with the first chunk's id. */
  lemma {:induction false} ChunksMerge(messages: seq<ChatMessage>, chunks: seq<string>, ids: seq<string>)
    requires |ids| == |chunks| && chunks != []
    requires messages == [] || messages[|messages| - 1].role == UserRole
    decreases |chunks|
    ensures ApplyChunks(messages, chunks, ids) == messages + [ChatMessage(ids[0], AssistantRole, Concat(chunks))]
  {
    var n := |chunks| - 1;
    if n == 0 {
      assert chunks[..0] == [] && ids[..0] == [];
      assert Concat(chunks) == Concat(chunks[..0]) + chunks[0] == chunks[0];
      assert ApplyChunks(messages, chunks, ids) == AppendChunk(messages, chunks[0], ids[0]);
    } else {
      ChunksMerge(messages, chunks[..n], ids[..n]);
      assert chunks[..n][..n - 1] == chunks[..n - 1];
      assert ids[..n][0] == ids[0];
      var prev := messages + [ChatMessage(ids[0], AssistantRole, Concat(chunks[..n]))];
      assert ApplyChunks(messages, chunks, ids) == AppendChunk(prev, chunks[n], ids[n]);
      assert prev[|prev| - 1].role == AssistantRole;
      assert AppendChunk(prev, chunks[n], ids[n]) ==
               messages + [ChatMessage(ids[0], AssistantRole, Concat(chunks[..n]) + chunks[n])];
    }
  }

  // ---------------------------------------------------------------- user messages and replies

  /** A user message is appended and the client waits for the reply: the errors, the tool
      output and the pending tool are cleared, and nothing can be sent until the reply. */
  lemma UserMessageStartsWaiting(s: ClientState, text: string, newId: string)
    ensures var r := Reduce(s, UserMessageAction(text, newId));
            && r.messages == s.messages + [ChatMessage(newId, UserRole, text)]
            && r.awaitingAssistant && !CanSend(r)
            && r.errorMessage.None? && r.errorDetail.None? && r.assistantError.None?
            && r.toolChunks == [] && r.pendingTool.None?
            && r.connection == s.connection && r.busy == s.busy && r.aiTyping == s.aiTyping
            && Transcript(r.messages) == Transcript(s.messages) + text
  {
    var r := Reduce(s, UserMessageAction(text, newId));
    assert r.messages[..|r.messages| - 1] == s.messages;
  }

  /** `assistant_message_completed` stops typing and waiting, reports an error reply exactly
      when the reason is `error`, and resets the tool panel; the messages stay as they are. */
  lemma CompletionResets(s: ClientState, reason: Option<Reason>, newId: string)
    ensures var r := HandleServerEvent(s, AssistantCompleted(reason), newId);
            && !r.aiTyping && !r.awaitingAssistant
            && (r.assistantError.Some? <==> reason == Some(ReasonError))
            && (r.assistantError.Some? ==> r.assistantError.value == IncompleteReply)
            && r.pendingTool.None? && r.toolChunks == []
            && r.messages == s.messages && r.errorMessage == s.errorMessage
            && (CanSend(r) <==> s.connection == Open && !s.busy)
  {
    ReduceFew(s, EventActions(AssistantCompleted(reason), newId));
  }

  /** After a user message, a reply of chunks and its completion, the client shows the user's
      text and the reply as two messages and can send again on an open, idle connection. */
  lemma ReplyRoundTrip(s: ClientState, text: string, userId: string, chunks: seq<string>,
                       ids: seq<string>, reason: Option<Reason>, lastId: string)
    requires |ids| == |chunks| && chunks != []
    ensures var u := Reduce(s, UserMessageAction(text, userId));
            var replied := u.(messages := ApplyChunks(u.messages, chunks, ids));
            var r := HandleServerEvent(replied, AssistantCompleted(reason), lastId);
            && r.messages == s.messages + [ChatMessage(userId, UserRole, text),
                                           ChatMessage(ids[0], AssistantRole, Concat(chunks))]
            && (CanSend(r) <==> s.connection == Open && !s.busy)
  {
    var u := Reduce(s, UserMessageAction(text, userId));
    ChunksMerge(u.messages, chunks, ids);
    CompletionResets(u.(messages := ApplyChunks(u.messages, chunks, ids)), reason, lastId);
  }

  // ---------------------------------------------------------------- status updates

  lemma {:induction false} LookupAppend(a: seq<(string, Json)>, b: seq<(string, Json)>, key: string)
    decreases |b|
    ensures Lookup(a + b, key) == if Lookup(b, key).Some? then Lookup(b, key) else Lookup(a, key)
  {
    if b == [] {
      assert a + b == a;
    } else {
      var n := |b| - 1;
      assert (a + b)[|a + b| - 1] == b[n] && (a + b)[..|a + b| - 1] == a + b[..n];
      if b[n].0 != key {
        LookupAppend(a, b[..n], key);
      }
    }
  }

  lemma LookupOptField(k: string, v: Option<Json>, key: string)
    ensures Lookup(OptField(k, v), key) == if k == key then v else None
  {
  }

  lemma StatusKeysDistinct()
    ensures "ai_typing" != "tool_running" && "ai_typing" != "file_path" && "ai_typing" != "busy"
    ensures "ai_typing" != "reconnecting" && "ai_typing" != "error"
    ensures "tool_running" != "file_path" && "tool_running" != "busy" && "tool_running" != "reconnecting"
    ensures "tool_running" != "error" && "file_path" != "busy" && "file_path" != "reconnecting"
    ensures "file_path" != "error" && "busy" != "reconnecting" && "busy" != "error" && "reconnecting" != "error"
  {
    assert "ai_typing"[0] != "file_path"[0];
    assert "tool_running"[0] != "reconnecting"[0];
  }

  /** Reading a key of the wire form gives back the field of that name. */
  lemma StatusLookup(d: StatusData, key: string)
    ensures Lookup(StatusJson(d).fields, key) ==
              if key == "ai_typing" then OptBool(d.aiTyping)
              else if key == "tool_running" then OptBool(d.toolRunning)
              else if key == "file_path" then OptStr(d.filePath)
              else if key == "busy" then OptBool(d.busy)
              else if key == "reconnecting" then OptBool(d.reconnecting)
              else if key == "error" then OptStr(d.error)
              else None
  {
    StatusKeysDistinct();
    var p1 := OptField("ai_typing", OptBool(d.aiTyping));
    var p2 := OptField("tool_running", OptBool(d.toolRunning));
    var p3 := OptField("file_path", OptStr(d.filePath));
    var p4 := OptField("busy", OptBool(d.busy));
    var p5 := OptField("reconnecting", OptBool(d.reconnecting));
    var p6 := OptField("error", OptStr(d.error));
    LookupAppend(p1 + p2 + p3 + p4 + p5, p6, key);
    LookupAppend(p1 + p2 + p3 + p4, p5, key);
    LookupAppend(p1 + p2 + p3, p4, key);
    LookupAppend(p1 + p2, p3, key);
    LookupAppend(p1, p2, key);
    LookupOptField("ai_typing", OptBool(d.aiTyping), key);
    LookupOptField("tool_running", OptBool(d.toolRunning), key);
    LookupOptField("file_path", OptStr(d.filePath), key);
    LookupOptField("busy", OptBool(d.busy), key);
    LookupOptField("reconnecting", OptBool(d.reconnecting), key);
    LookupOptField("error", OptStr(d.error), key);
  }

  /** A status the server sends reaches the client field by field: a present field
      overwrites, an absent one keeps the old value, `reconnecting` is ignored, and `error`
      becomes the error message. */
  lemma ServerStatusApplied(s: ClientState, d: StatusData, newId: string)
    ensures HandleServerEvent(s, StatusUpdate(d), newId) ==
              s.(aiTyping := d.aiTyping.GetOr(s.aiTyping),
                 toolRunning := d.toolRunning.GetOr(s.toolRunning),
                 busy := d.busy.GetOr(s.busy),
                 filePath := if d.filePath.Some? then d.filePath else s.filePath,
                 errorMessage := if d.error.Some? then d.error else s.errorMessage)
  {
    ReduceFew(s, EventActions(StatusUpdate(d), newId));
    StatusFields(d);
  }

  lemma StatusFields(d: StatusData)
    ensures GetBool(StatusJson(d), "ai_typing") == d.aiTyping
    ensures GetBool(StatusJson(d), "tool_running") == d.toolRunning
    ensures GetBool(StatusJson(d), "busy") == d.busy
    ensures GetString(StatusJson(d), "file_path") == d.filePath
    ensures GetString(StatusJson(d), "error") == d.error
  {
    StatusLookup(d, "ai_typing");
    StatusLookup(d, "tool_running");
    StatusLookup(d, "busy");
    StatusLookup(d, "file_path");
    StatusLookup(d, "error");
    BoolField(d, "ai_typing", d.aiTyping);
    BoolField(d, "tool_running", d.toolRunning);
    BoolField(d, "busy", d.busy);
    StringField(d, "file_path", d.filePath);
    StringField(d, "error", d.error);
  }

  lemma BoolField(d: StatusData, key: string, v: Option<bool>)
    requires Lookup(StatusJson(d).fields, key) == OptBool(v)
    ensures GetBool(StatusJson(d), key) == v
  {
  }

  lemma StringField(d: StatusData, key: string, v: Option<string>)
    requires Lookup(StatusJson(d).fields, key) == OptStr(v)
    ensures GetString(StatusJson(d), key) == v
  {
  }

  /** A `status_update` changes no field but the five it reads. */
  lemma StatusTouchesOnlyItsFields(s: ClientState, data: Json)
    ensures ApplyStatus(s, data).(aiTyping := s.aiTyping, toolRunning := s.toolRunning, busy := s.busy,
                                  filePath := s.filePath, errorMessage := s.errorMessage) == s
  {
  }

  /** Fields of the wrong type are ignored. */
  lemma MistypedStatusIgnored(s: ClientState)
    ensures ApplyStatus(s, JObj([("ai_typing", JStr("yes")), ("busy", JNum(1)), ("file_path", JBool(true))])) == s
  {
  }

  // ---------------------------------------------------------------- the tool panel

  function ChunkActions(chunks: seq<string>): seq<Action> {
    if chunks == [] then [] else [ToolChunkAction(chunks[0])] + ChunkActions(chunks[1..])
  }

  /** `tool_chunk` actions append their chunks in order and change nothing else. */
  lemma {:induction false} ToolChunksAccumulate(s: ClientState, chunks: seq<string>)
    decreases |chunks|
    ensures ReduceAll(s, ChunkActions(chunks)) == s.(toolChunks := s.toolChunks + chunks)
  {
    if chunks == [] {
      assert s.toolChunks + chunks == s.toolChunks;
    } else {
      var s1 := Reduce(s, ToolChunkAction(chunks[0]));
      assert ([ToolChunkAction(chunks[0])] + ChunkActions(chunks[1..]))[1..] == ChunkActions(chunks[1..]);
      ToolChunksAccumulate(s1, chunks[1..]);
      assert s.toolChunks + [chunks[0]] + chunks[1..] == s.toolChunks + chunks;
    }
  }

  /** A tool request opens an empty panel that then holds exactly the chunks of the run. */
  lemma ToolRunShown(s: ClientState, tool: ToolUse, chunks: seq<string>)
    ensures var r := ReduceAll(Reduce(s, ToolRequestAction(tool)), ChunkActions(chunks));
            && r.pendingTool == Some(tool) && r.toolChunks == chunks && r.assistantError.None?
            && r.messages == s.messages
  {
    ToolChunksAccumulate(Reduce(s, ToolRequestAction(tool)), chunks);
  }

  /** `clear_error` after an error restores the absent error and nothing else changes. */
  lemma ErrorThenClear(s: ClientState, message: string, detail: Option<string>)
    ensures Reduce(Reduce(s, ErrorAction(message, detail)), ClearErrorAction) ==
              s.(errorMessage := None, errorDetail := None)
  {
  }

  // ---------------------------------------------------------------- reconnecting and sending

  /** The reconnect wait grows by one second per attempt up to eight seconds. */
  lemma ReconnectBackoff(a: nat, b: nat)
    requires a <= b
    ensures ReconnectDelay(a) <= ReconnectDelay(b)
    ensures a <= 8 ==> ReconnectDelay(a) == 1000 * a
    ensures a >= 8 ==> ReconnectDelay(a) == 8000
  {
  }

  /** What `sendMessage` sends passes the server's `client_event_schema` unchanged. */
  lemma SentMessageAccepted(text: string)
    requires Trim(text) != ""
    ensures ParseClientEvent(ClientEventJson(UserMessageEvent(Trim(text)))) == Some(UserMessageEvent(Trim(text)))
  {
    ClientEventRoundTrip(UserMessageEvent(Trim(text)));
  }
}
