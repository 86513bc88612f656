/** The backend's chat bookkeeping: the conversation history kept between
    turns, the `/api/ask` endpoint's parameter checks, and the white-list filter
    applied to every answer before it is spoken. The language model itself is
    outside: its reply is a parameter, absent when the call fails. */
module Conversation {
  import opened Base
  import opened Text

  datatype Role = System | User | Assistant

  /** A chat message; the content is whatever JSON value the caller supplied. */
  datatype ChatMessage = ChatMessage(role: Role, content: Json)

  /** The answer given when the model call fails. */
  const Apology: string := "抱歉，我现在无法回答您的问题。"

  /** After appending the user's message, a history longer than 10 keeps its last 8. */
  function Trimmed(history: seq<ChatMessage>): (r: seq<ChatMessage>)
    ensures |history| > 10 ==> r == history[|history| - 8..]
    ensures |history| <= 10 ==> r == history
  {
    if |history| > 10 then history[|history| - 8..] else history
  }

  /** The history after one `get_response` turn: the user's message is added and
      the history trimmed; the stripped reply is added when the model answered. */
  function NextHistory(history: seq<ChatMessage>, userText: Json, reply: Option<string>): seq<ChatMessage> {
    var kept := Trimmed(history + [ChatMessage(User, userText)]);
    if reply.Some? then kept + [ChatMessage(Assistant, JStr(Trim(reply.value, Py)))] else kept
  }

  /** A history of at most 11 messages stays at most 11 long. */
  lemma HistoryBounded(history: seq<ChatMessage>, userText: Json, reply: Option<string>)
    requires |history| <= 11
    ensures |NextHistory(history, userText, reply)| <= 11
  {
  }

  /** The newest messages survive a turn: the user's message, followed by the
      reply when there is one, ends the history, and what stays of the old
      history is a suffix of it. */
  lemma HistoryKeepsNewest(history: seq<ChatMessage>, userText: Json, reply: Option<string>)
    ensures var h, n := NextHistory(history, userText, reply), if reply.Some? then 2 else 1;
      && |h| >= n
      && h[|h| - n] == ChatMessage(User, userText)
      && (reply.Some? ==> h[|h| - 1] == ChatMessage(Assistant, JStr(Trim(reply.value, Py))))
      && h[..|h| - n] == history[|history| - (|h| - n)..]
  {
    var appended := history + [ChatMessage(User, userText)];
    var kept := Trimmed(appended);
    assert kept[..|kept| - 1] == appended[|appended| - |kept|..|appended| - 1];
  }

  predicate NoSystemMessage(history: seq<ChatMessage>) {
    forall i | 0 <= i < |history| :: history[i].role != System
  }

  /** The system prompt goes only into the request, never into the history. */
  lemma HistoryHasNoSystemPrompt(history: seq<ChatMessage>, userText: Json, reply: Option<string>)
    requires NoSystemMessage(history)
    ensures NoSystemMessage(NextHistory(history, userText, reply))
  {
    var appended := history + [ChatMessage(User, userText)];
    assert NoSystemMessage(appended);
  }

  class ConversationManager {
    var systemPrompt: Json
    var history: seq<ChatMessage>

    constructor(systemPrompt: Json)
      ensures this.systemPrompt == systemPrompt && history == []
    {
      this.systemPrompt := systemPrompt;
      history := [];
    }

    /** `get_response`; `reply` is the model's answer, absent when the call fails.
        `request` is the message list sent to the model. */
    method GetResponse(userText: Json, reply: Option<string>) returns (answer: string, request: seq<ChatMessage>)
      modifies this
      ensures history == NextHistory(old(history), userText, reply)
      ensures request == [ChatMessage(System, systemPrompt)] + Trimmed(old(history) + [ChatMessage(User, userText)])
      ensures answer == if reply.Some? then Trim(reply.value, Py) else Apology
      ensures systemPrompt == old(systemPrompt)
    {
      history := history + [ChatMessage(User, userText)];
      if |history| > 10 {
        history := history[|history| - 8..];
      }
      request := [ChatMessage(System, systemPrompt)] + history;
      if reply.None? {
        return Apology, request;
      }
      answer := Trim(reply.value, Py);
      history := history + [ChatMessage(Assistant, JStr(answer))];
    }
  }

  // ------------------------------------------------------------ answer filter

  /** The characters `re.sub` keeps in an answer: CJK U+4E00..U+9FA5, ASCII
      letters and digits, Python whitespace, the full-width punctuation
      ，。！？、；：（）【】《》, the ASCII apostrophe and the hyphen.
      (The double quote is not in the class: the two adjacent string literals
      of the pattern join into one.) */
  predicate AnswerChar(c: char) {
    ('\U{4E00}' <= c <= '\U{9FA5}') || ('a' <= c <= 'z') || ('A' <= c <= 'Z') || IsAsciiDigit(c)
    || IsPySpace(c)
    || c in {'，', '。', '！', '？', '、', '；', '：', '\'', '（', '）', '【', '】', '《', '》', '-'}
  }

  /** `re.sub` with the negated class: every character outside the white-list
      is removed and the rest keep their order. */
  function FilterAnswer(s: string): string {
    Filter(s, AnswerChar)
  }

  /** Every character left by the answer filter is white-listed. */
  lemma FilterLeavesAllowed(s: string)
    ensures forall i | 0 <= i < |FilterAnswer(s)| :: AnswerChar(FilterAnswer(s)[i])
  {
    FilterLeavesKept(s, AnswerChar);
  }

  /** Filtering twice is filtering once. */
  lemma FilterIdempotent(s: string)
    ensures FilterAnswer(FilterAnswer(s)) == FilterAnswer(s)
  {
    FilterLeavesAllowed(s);
    FilterKeepsAll(FilterAnswer(s), AnswerChar);
  }

  /** A white-listed character survives, any other is removed. */
  lemma FilterOneChar(c: char)
    ensures FilterAnswer([c]) == if AnswerChar(c) then [c] else []
  {
    assert [c][1..] == [];
  }

  // ----------------------------------------------------------------- /api/ask

  datatype AskResult =
    | Answered(answer: string, audioUrl: Option<string>)
    | BadRequest
    | InternalError

  /** The 400 condition: no truthy `userText`, or a non-initial request without
      a truthy `systemContent`. */
  predicate MissingParameters(data: map<string, Json>) {
    !PyTruthy(Field(data, "userText"))
    || (!PyTruthy(Field(data, "is_initial")) && !PyTruthy(Field(data, "systemContent")))
  }

  /** `/api/ask`. `body` is the parsed JSON body (absent when the body is not
      JSON), `reply` the model's answer (absent when the call fails) and
      `ttsFile` the name of the speech file produced (absent when synthesis fails).
      A missing or falsy `userText`, or a missing or falsy `systemContent` on a
      non-initial request, is a 400; a body that is not an object, or an initial
      request whose text is not a string, fails inside the handler and is a 500. */
  function Ask(body: Option<Json>, reply: Option<string>, ttsFile: Option<string>): (r: AskResult)
    ensures r == InternalError <==>
      body.None? || !body.value.JObj?
      || (!MissingParameters(body.value.fields) && PyTruthy(Field(body.value.fields, "is_initial"))
          && !Field(body.value.fields, "userText").JStr?)
    ensures r == BadRequest <==> (body.Some? && body.value.JObj? && MissingParameters(body.value.fields))
    ensures r.Answered? <==>
      body.Some? && body.value.JObj? && !MissingParameters(body.value.fields)
      && (PyTruthy(Field(body.value.fields, "is_initial")) ==> Field(body.value.fields, "userText").JStr?)
    ensures r.Answered? ==> forall i | 0 <= i < |r.answer| :: AnswerChar(r.answer[i])
    ensures r.Answered? && PyTruthy(Field(body.value.fields, "is_initial")) ==>
      Field(body.value.fields, "userText").JStr? && r.answer == FilterAnswer(Field(body.value.fields, "userText").s)
    ensures r.Answered? && !PyTruthy(Field(body.value.fields, "is_initial")) ==>
      r.answer == FilterAnswer(if reply.Some? then Trim(reply.value, Py) else Apology)
  {
    if body.None? || !body.value.JObj? then InternalError
    else
      var data := body.value.fields;
      var userText := Field(data, "userText");
      var isInitial := Field(data, "is_initial");
      if MissingParameters(data) then BadRequest
      else if PyTruthy(isInitial) && !userText.JStr? then InternalError
      else
        var answer := if PyTruthy(isInitial) then userText.s
                      else if reply.Some? then Trim(reply.value, Py) else Apology;
        var audioUrl := if ttsFile.Some? && ttsFile.value != "" then Some("/audio/" + ttsFile.value) else None;
        FilterLeavesAllowed(answer);
        Answered(FilterAnswer(answer), audioUrl)
  }

  /** An answered request hands the answer to speech synthesis exactly when a
      file was produced, and the URL names that file. */
  lemma AskAudioUrl(body: Option<Json>, reply: Option<string>, ttsFile: Option<string>)
    requires Ask(body, reply, ttsFile).Answered?
    ensures Ask(body, reply, ttsFile).audioUrl.Some? <==> ttsFile.Some? && ttsFile.value != ""
    ensures Ask(body, reply, ttsFile).audioUrl.Some? ==> Ask(body, reply, ttsFile).audioUrl.value == "/audio/" + ttsFile.value
  {
  }

  /** An initial request echoes its (filtered) text without consulting the
      model, so the model's reply makes no difference. */
  lemma InitialIgnoresModel(body: Option<Json>, reply1: Option<string>, reply2: Option<string>, ttsFile: Option<string>)
    requires body.Some? && body.value.JObj? && PyTruthy(Field(body.value.fields, "is_initial"))
    ensures Ask(body, reply1, ttsFile) == Ask(body, reply2, ttsFile)
  {
  }
}
