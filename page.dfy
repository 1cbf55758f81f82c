/** The chat page's own logic: the text shown for an error code, and the guard of the
    message form. */
module Page {
  import opened Wrappers
  import opened JsString
  import opened ChatClient

  const ModelFailedText := "O modelo falhou ao responder. Tente novamente."
  const ToolFailedPrefix := "A tool falhou: "
  const ToolFailedFallback := "verifique o arquivo no backend."
  const InvalidToolText := "Solicitação de tool inválida. A execução foi abortada."
  const NoPendingToolText := "Não há tool pendente para aprovar."
  const SocketNotReadyText := "Conexão indisponível. Aguarde a reconexão."

  /** JavaScript truthiness of an optional string. */
  predicate Present(detail: Option<string>) {
    detail.Some? && detail.value != ""
  }

  /** The codes `formatError` translates. */
  predicate Translated(message: string) {
    message in {"ai_error", "tool_error", "tool_input_invalid", "no_pending_tool", "socket_not_ready"}
  }

  /** `formatError`. */
  function FormatError(message: string, detail: Option<string>): string {
    if message == "ai_error" then ModelFailedText
    else if message == "tool_error" then ToolFailedPrefix + (if Present(detail) then detail.value else ToolFailedFallback)
    else if message == "tool_input_invalid" then InvalidToolText
    else if message == "no_pending_tool" then NoPendingToolText
    else if message == "socket_not_ready" then SocketNotReadyText
    else if Present(detail) then message + ": " + detail.value
    else message
  }

  /** `errorText`: shown only for a non-empty error message. */
  function ErrorText(s: ClientState): (r: Option<string>)
    ensures r.Some? <==> s.errorMessage.Some? && s.errorMessage.value != ""
    ensures r.Some? ==> r.value == FormatError(s.errorMessage.value, s.errorDetail)
  {
    if s.errorMessage.Some? && s.errorMessage.value != "" then Some(FormatError(s.errorMessage.value, s.errorDetail))
    else None
  }

  /** What `onSubmit` does: the text handed to `sendMessage`, if any, and the draft after. */
  datatype Submission = Submission(sent: Option<string>, draft: string)

  /** `onSubmit`. */
  function OnSubmit(canSend: bool, draft: string): Submission {
    if !canSend then Submission(None, draft)
    else
      var text := Trim(draft);
      if text == "" then Submission(None, draft) else Submission(Some(text), "")
  }

  // ---------------------------------------------------------------- properties

  /** The tool failure shows its detail, or the fallback hint when there is none. */
  lemma ToolErrorShowsDetail(detail: Option<string>)
    ensures FormatError("tool_error", detail) ==
              ToolFailedPrefix + (if Present(detail) then detail.value else ToolFailedFallback)
    ensures FormatError("tool_error", Some("disk full")) == "A tool falhou: disk full"
  {
  }

  /** A translated code other than `tool_error` shows a fixed text whatever the detail. */
  lemma TranslatedIgnoresDetail(message: string, d1: Option<string>, d2: Option<string>)
    requires Translated(message) && message != "tool_error"
    ensures FormatError(message, d1) == FormatError(message, d2)
  {
  }

  /** Any other code is shown as it is, followed by the detail when there is one. */
  lemma UntranslatedShowsCode(message: string, detail: Option<string>)
    requires !Translated(message)
    ensures var r := FormatError(message, detail);
            && |r| >= |message| && r[..|message|] == message
            && (r == message <==> !Present(detail))
  {
    if Present(detail) {
      var r := FormatError(message, detail);
      assert r == message + (": " + detail.value);
      assert r[..|message|] == message;
    }
  }

  /** The text is empty only for an empty code without a detail. */
  lemma FormatEmptyIff(message: string, detail: Option<string>)
    ensures FormatError(message, detail) == "" <==> message == "" && !Present(detail)
  {
    if !Translated(message) {
      UntranslatedShowsCode(message, detail);
    }
  }

  /** The form sends exactly when sending is allowed and the trimmed draft is not blank, and
      sends that trimmed text; a send clears the draft, a refusal keeps it. */
  lemma SubmitSendsTrimmed(canSend: bool, draft: string)
    ensures var r := OnSubmit(canSend, draft);
            && (r.sent.Some? <==> canSend && Trim(draft) != "")
            && (r.sent.Some? ==> r.sent.value == Trim(draft) && r.draft == "")
            && (r.sent.None? ==> r.draft == draft)
  {
  }

  /** `sendMessage` trims again; that changes nothing, so the text sent is the trimmed draft. */
  lemma SubmittedTextSurvivesSend(canSend: bool, draft: string)
    requires OnSubmit(canSend, draft).sent.Some?
    ensures var t := OnSubmit(canSend, draft).sent.value;
            Trim(t) == t && t != ""
  {
    TrimIdempotent(draft);
  }
}
