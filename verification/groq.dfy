/**
 * The Groq client (services/groq.ts). It refuses a missing or placeholder
 * key, sends a system prompt and the user's text (prefixed with the name of
 * an attached file), and streams the reply. Lines are not trimmed, blank
 * lines are not dropped, and `data: [DONE]` is skipped rather than ending the
 * read. Every failure inside the `try` is rethrown, whatever the signal's
 * state.
 */
module Groq {
  import opened Wrappers
  import opened JsString
  import opened StreamLines

  const KEY_MISSING_ERROR: string := "Groq Key Missing. Get one at console.groq.com"
  const PLACEHOLDER: string := "PLACE_YOUR_KEY"
  const ENDPOINT: string := "https://api.groq.com/openai/v1/chat/completions"
  const DEFAULT_MODEL: string := "llama-3.3-70b-versatile"
  const SYSTEM_PROMPT: string := "You are Dark AI, a sophisticated, highly capable AI assistant. Be concise, precise, and helpful."
  const MAX_TOKENS: nat := 1024
  const TEMPERATURE: real := 0.7

  datatype Role = SystemRole | UserRole | AssistantRole

  datatype GroqMessage = GroqMessage(role: Role, content: string)

  datatype Request = Request(url: string, authorization: string, model: string, messages: seq<GroqMessage>,
                             maxTokens: nat, temperature: real, stream: bool)

  /** What `fetch` gives: a response (status, status text, the
      `error.message` of a JSON error body when it has one, and the body's
      chunks), or a rejection. */
  datatype Reply =
    | Http(status: int, statusText: string, errorMessage: Option<string>, chunks: seq<string>)
    | Rejected(message: string)

  /** How the call ends: it returns after streaming, or it throws. */
  datatype Sent = Sent(scanned: Scanned) | Threw(message: string)

  /** The key is missing or still the placeholder of the example configuration. */
  predicate KeyUnusable(apiKey: string) {
    apiKey == "" || Contains(apiKey, PLACEHOLDER)
  }

  /** `modelId || "llama-3.3-70b-versatile"`. */
  function ModelFor(modelId: string): (m: string)
    ensures m != ""
    ensures modelId != "" ==> m == modelId
  {
    if modelId == "" then DEFAULT_MODEL else modelId
  }

  /** The content of the user message: with a file, a line naming it comes first. */
  function UserContent(text: string, fileName: Option<string>): (c: string)
    ensures fileName.None? ==> c == text
  {
    if fileName.Some? then "[Attached File: " + fileName.value + "]\n" + text else text
  }

  /** The user's text always closes the user message, and a file's name
      appears in it. */
  lemma UserContentEndsWithText(text: string, fileName: Option<string>)
    ensures var c := UserContent(text, fileName);
      |text| <= |c| && c[|c| - |text|..] == text
    ensures fileName.Some? ==> OccursAt(UserContent(text, fileName), fileName.value, 16)
  {
    var c := UserContent(text, fileName);
    if fileName.Some? {
      var name := fileName.value;
      assert c == "[Attached File: " + name + "]\n" + text;
      assert c[16..16 + |name|] == name;
    }
  }

  /** The messages array: the system prompt, then the user message, whose
      content is replaced when a file is attached. */
  method BuildMessages(text: string, fileName: Option<string>) returns (messages: seq<GroqMessage>)
    ensures |messages| == 2
    ensures messages[0] == GroqMessage(SystemRole, SYSTEM_PROMPT)
    ensures messages[1] == GroqMessage(UserRole, UserContent(text, fileName))
  {
    messages := [GroqMessage(SystemRole, SYSTEM_PROMPT), GroqMessage(UserRole, text)];
    if fileName.Some? {
      messages := messages[1 := messages[1].(content := "[Attached File: " + fileName.value + "]\n" + text)];
    }
  }

  predicate Ok(status: int) {
    200 <= status <= 299
  }

  /** `errData.error?.message || "Groq API Error: <status> <statusText>"`. */
  function HttpError(status: int, statusText: string, errorMessage: Option<string>): (e: string)
    ensures errorMessage.Some? && errorMessage.value != "" ==> e == errorMessage.value
  {
    if errorMessage.Some? && errorMessage.value != "" then errorMessage.value
    else "Groq API Error: " + IntToString(status) + " " + statusText
  }

  /** One streamed line, as it is: a `data: ` line other than
      `data: [DONE]` forwards its payload's content when that parses, is not
      empty, and there is a stream callback; every other line is skipped. */
  function ClassifyLine(line: string, parse: string -> Option<string>, hasStreamCallback: bool): (a: LineAction)
    ensures a != Stop
    ensures a.Forward? <==> hasStreamCallback && StartsWith(line, DATA_PREFIX) && line != DONE_LINE
                            && parse(line[6..]).Some? && parse(line[6..]).value != ""
    ensures a.Forward? ==> a.content == parse(line[6..]).value
  {
    if StartsWith(line, DATA_PREFIX) && line != DONE_LINE then
      match parse(line[|DATA_PREFIX|..])
      case None => Skip
      case Some(content) => if content != "" && hasStreamCallback then Forward(content) else Skip
    else Skip
  }

  function Classify(parse: string -> Option<string>, hasStreamCallback: bool): string -> LineAction {
    (line: string) => ClassifyLine(line, parse, hasStreamCallback)
  }

  /** Unlike the other clients, a line with whitespace before `data: ` is skipped. */
  lemma IndentedLineSkipped(line: string, parse: string -> Option<string>, hasStreamCallback: bool)
    requires |line| > 0 && IsJsWhitespace(line[0])
    ensures ClassifyLine(line, parse, hasStreamCallback) == Skip
  {
  }

  /** Without a stream callback nothing is forwarded, and in any case the body is read to its end. */
  lemma StreamReadToEnd(chunks: seq<string>, parse: string -> Option<string>, hasStreamCallback: bool)
    ensures !Scan(Actions(chunks, Classify(parse, hasStreamCallback), false)).stopped
    ensures !hasStreamCallback ==> Scan(Actions(chunks, Classify(parse, hasStreamCallback), false)).forwarded == []
  {
    NeverStops(chunks, Classify(parse, hasStreamCallback), false);
    if !hasStreamCallback {
      NoForwardInActions(chunks, Classify(parse, hasStreamCallback), false);
      NothingForwarded(Actions(chunks, Classify(parse, hasStreamCallback), false));
    }
  }

  /** How the call ends for a reply. */
  function ReplyOutcome(reply: Reply, parse: string -> Option<string>, hasStreamCallback: bool): (r: Sent)
    ensures reply.Rejected? ==> r == Threw(reply.message)
    ensures reply.Http? && !Ok(reply.status) ==> r == Threw(HttpError(reply.status, reply.statusText, reply.errorMessage))
    ensures r.Sent? <==> reply.Http? && Ok(reply.status)
  {
    match reply
    case Rejected(message) => Threw(message)
    case Http(status, statusText, errorMessage, chunks) =>
      if !Ok(status) then Threw(HttpError(status, statusText, errorMessage))
      else Sent(Scan(Actions(chunks, Classify(parse, hasStreamCallback), false)))
  }

  /** `sendMessageToGroq`: check the key, build the request, then fail on a
      rejection or a non-OK status, or read the body to its end. */
  method SendMessageToGroq(apiKey: string, text: string, fileName: Option<string>, modelId: string,
                           reply: Reply, parse: string -> Option<string>, hasStreamCallback: bool)
    returns (request: Option<Request>, result: Sent)
    ensures KeyUnusable(apiKey) ==> request == None && result == Threw(KEY_MISSING_ERROR)
    ensures !KeyUnusable(apiKey) ==>
      && request.Some?
      && request.value.url == ENDPOINT && request.value.authorization == "Bearer " + apiKey
      && request.value.model == ModelFor(modelId) && request.value.stream
      && request.value.messages == [GroqMessage(SystemRole, SYSTEM_PROMPT), GroqMessage(UserRole, UserContent(text, fileName))]
      && result == ReplyOutcome(reply, parse, hasStreamCallback)
  {
    if KeyUnusable(apiKey) {
      return None, Threw(KEY_MISSING_ERROR);
    }
    var model := ModelFor(modelId);
    var messages := BuildMessages(text, fileName);
    request := Some(Request(ENDPOINT, "Bearer " + apiKey, model, messages, MAX_TOKENS, TEMPERATURE, true));
    match reply {
      case Rejected(message) =>
        result := Threw(message);
      case Http(status, statusText, errorMessage, chunks) =>
        if !Ok(status) {
          result := Threw(HttpError(status, statusText, errorMessage));
        } else {
          var scanned := ReadStream(chunks, Classify(parse, hasStreamCallback), false);
          result := Sent(scanned);
        }
    }
  }
}
