/**
 * The OpenRouter client (services/openrouter.ts): the key check, the list
 * of models to try (the requested one, then three free fallbacks, without
 * repeats), the ladder that tries them in order, the shape of one request
 * and the handling of its streamed lines.
 *
 * The network is abstract: what an attempt on a model gets back is the
 * parameter `attempts`, together with whether the caller's signal is
 * aborted by the time that attempt has failed. Parsing a `data: ` payload
 * is the parameter `parse`, which gives `None` when `JSON.parse` (or the
 * lookup of `choices[0]`) throws and otherwise the content, `""` when the
 * payload has none. A file is represented by the data URL `FileReader`
 * makes of it.
 */
module OpenRouter {
  import opened Wrappers
  import opened JsString
  import opened Lists
  import opened StreamLines

  const FALLBACK_MODELS: seq<string> := [
    "google/gemini-2.0-flash-lite-preview-02-05:free",
    "mistralai/mistral-small-24b-instruct-2501:free",
    "meta-llama/llama-3.3-70b-instruct:free"
  ]

  const ENDPOINT: string := "https://openrouter.ai/api/v1/chat/completions"
  const KEY_MISSING_ERROR: string := "OpenRouter API Key is missing. Please set VITE_OPENROUTER_KEY in your .env file."
  const ALL_FAILED_ERROR: string := "All OpenRouter connection attempts failed."
  const REROUTE_PREFIX: string := "Rerouting Neural Link... Connected to "

  /** A key that is absent or still holds the placeholder. */
  predicate KeyUnusable(apiKey: string) {
    apiKey == "" || Contains(apiKey, "PLACE_YOUR_KEY")
  }

  function NonEmpty(m: string): bool {
    m != ""
  }

  /** `candidates`: the requested model, if any, then the fallbacks, each model once. */
  function Candidates(modelId: string): seq<string> {
    Dedupe(Filter([modelId] + FALLBACK_MODELS, NonEmpty))
  }

  lemma FallbacksDistinct()
    ensures Distinct(FALLBACK_MODELS)
  {
    forall i, j | 0 <= i < j < 3 ensures FALLBACK_MODELS[i] != FALLBACK_MODELS[j] {
      assert |FALLBACK_MODELS[i]| != |FALLBACK_MODELS[j]|;
    }
  }

  /** Only an absent requested model is filtered out. */
  lemma CandidatesKept(modelId: string)
    ensures Filter([modelId] + FALLBACK_MODELS, NonEmpty) == if modelId == "" then FALLBACK_MODELS else [modelId] + FALLBACK_MODELS
  {
    FilterConcat([modelId], FALLBACK_MODELS, NonEmpty);
    FilterAll(FALLBACK_MODELS, NonEmpty);
    assert Filter([modelId], NonEmpty) == if modelId == "" then [] else [modelId];
  }

  /** The candidates are three or four models without repeats: the
      requested one first when there is one, and all the fallbacks. */
  lemma CandidatesShape(modelId: string)
    ensures var r := Candidates(modelId);
      Distinct(r) && 3 <= |r| <= 4
      && (forall x :: x in r <==> (x == modelId && modelId != "") || x in FALLBACK_MODELS)
      && (modelId == "" ==> r == FALLBACK_MODELS)
      && (modelId != "" && modelId !in FALLBACK_MODELS ==> r == [modelId] + FALLBACK_MODELS)
      && (modelId != "" ==> r[0] == modelId)
  {
    CandidatesKept(modelId);
    if modelId == "" {
      FallbacksDistinct();
      DedupeDistinct(FALLBACK_MODELS);
    } else if modelId !in FALLBACK_MODELS {
      NewModelFirst(modelId);
    } else {
      KnownModelFirst(modelId);
    }
  }

  /** A requested model that is not a fallback is tried before all three. */
  lemma NewModelFirst(modelId: string)
    requires modelId !in FALLBACK_MODELS
    ensures Distinct([modelId] + FALLBACK_MODELS)
    ensures Dedupe([modelId] + FALLBACK_MODELS) == [modelId] + FALLBACK_MODELS
  {
    FallbacksDistinct();
    DedupeDistinct([modelId] + FALLBACK_MODELS);
  }

  /** A requested model that is a fallback is tried first, and only once. */
  lemma KnownModelFirst(modelId: string)
    requires modelId in FALLBACK_MODELS
    ensures var r := Dedupe([modelId] + FALLBACK_MODELS);
      |r| == 3 && r[0] == modelId && forall x :: x in r <==> x in FALLBACK_MODELS
  {
    var r := Dedupe([modelId] + FALLBACK_MODELS);
    FallbacksDistinct();
    DistinctCard(r);
    DistinctCard(FALLBACK_MODELS);
    assert (set x | x in r) == (set x | x in FALLBACK_MODELS);
  }

  /** The part of a model id after its first `/`, as `split('/')[1]`
      gives it; `undefined` when there is none. */
  function ModelName(model: string): string {
    var parts := Split(model, '/');
    if |parts| > 1 then parts[1] else "undefined"
  }

  function RerouteMessage(model: string): string {
    REROUTE_PREFIX + ModelName(model)
  }

  /** The status messages for a run of attempts: one for every attempt after the first. */
  function Reroutes(tried: seq<string>): (r: seq<string>)
    ensures |r| == if tried == [] then 0 else |tried| - 1
    ensures forall i :: 0 <= i < |r| ==> r[i] == RerouteMessage(tried[i + 1])
  {
    if |tried| <= 1 then [] else seq(|tried| - 1, i requires 0 <= i < |tried| - 1 => RerouteMessage(tried[i + 1]))
  }

  lemma RerouteStep(tried: seq<string>, m: string)
    ensures Reroutes(tried + [m]) == Reroutes(tried) + (if tried == [] then [] else [RerouteMessage(m)])
  {
    var r := Reroutes(tried + [m]);
    if tried != [] {
      assert r[|tried| - 1] == RerouteMessage(m);
    }
  }

  /** One part of a user message's content. */
  datatype ContentPart = TextPart(text: string) | ImageUrlPart(url: string)

  /** A message's content: plain text, or a list of parts. */
  datatype Content = PlainText(text: string) | Parts(parts: seq<ContentPart>)

  datatype ChatMessage = ChatMessage(role: string, content: Content)

  /** The request `attemptRequest` sends. */
  datatype Request = Request(url: string, authorization: string, title: string, model: string,
                             messages: seq<ChatMessage>, stream: bool)

  /** What `fetch` gives back: a response, or a rejection (an abort among them). */
  datatype Reply = Http(status: int, body: string, chunks: seq<string>) | Rejected(message: string)

  /** An attempt's reply, and whether the signal is aborted once it has failed. */
  datatype Attempt = Attempt(reply: Reply, abortedOnFailure: bool)

  datatype AttemptResult = Completed(scanned: Scanned) | Failed(message: string)

  /** How a call ends: it returns, having streamed, or it throws. */
  datatype Sent = Sent(scanned: Scanned) | Threw(message: string)

  predicate Ok(status: int) {
    200 <= status <= 299
  }

  function HttpError(status: int, body: string): string {
    "OpenRouter Error " + IntToString(status) + ": " + body
  }

  /** One streamed line: `data: [DONE]` ends the read; another `data: ` line
      forwards its payload's content when that parses and is not empty;
      every other line is skipped. Blank lines never get here. */
  function ClassifyLine(line: string, parse: string -> Option<string>): (a: LineAction)
    ensures a == Stop <==> line == DONE_LINE
    ensures a.Forward? <==> line != DONE_LINE && StartsWith(line, DATA_PREFIX)
                            && parse(line[6..]).Some? && parse(line[6..]).value != ""
    ensures a.Forward? ==> a.content == parse(line[6..]).value
  {
    if line == DONE_LINE then Stop
    else if StartsWith(line, DATA_PREFIX) then
      // `line.replace("data: ", "")` removes the first `data: `, which is the prefix.
      match parse(line[|DATA_PREFIX|..])
      case None => Skip
      case Some(content) => if content != "" then Forward(content) else Skip
    else Skip
  }

  function Classify(parse: string -> Option<string>): string -> LineAction {
    (line: string) => ClassifyLine(line, parse)
  }

  /** Dropping blank lines first changes nothing: a blank line is skipped anyway. */
  lemma BlankLineSkipped(line: string, parse: string -> Option<string>)
    requires IsBlank(line)
    ensures ClassifyLine(line, parse) == Skip
  {
    if |line| > 0 {
      assert IsJsWhitespace(line[0]);
    }
  }

  /** The outcome of `attemptRequest` for a reply. */
  function AttemptOutcome(reply: Reply, parse: string -> Option<string>): (r: AttemptResult)
    ensures reply.Rejected? ==> r == Failed(reply.message)
    ensures reply.Http? && !Ok(reply.status) ==> r == Failed(HttpError(reply.status, reply.body))
    ensures reply.Http? && Ok(reply.status) ==> r.Completed?
  {
    match reply
    case Rejected(message) => Failed(message)
    case Http(status, body, chunks) =>
      if !Ok(status) then Failed(HttpError(status, body))
      else Completed(Scan(Actions(chunks, Classify(parse), true)))
  }

  /** The user message: plain text, or with a file the text part then the image part. */
  function UserMessage(text: string, fileDataUrl: Option<string>): (m: ChatMessage)
    ensures m.role == "user"
    ensures fileDataUrl.None? ==> m.content == PlainText(text)
    ensures fileDataUrl.Some? ==> m.content == Parts([TextPart(text), ImageUrlPart(fileDataUrl.value)])
  {
    if fileDataUrl.Some? then ChatMessage("user", Parts([TextPart(text), ImageUrlPart(fileDataUrl.value)]))
    else ChatMessage("user", PlainText(text))
  }

  /** `attemptRequest`: build the request for one model, then either fail
      (rejection, non-OK status) or read the body until it ends or a
      `data: [DONE]` line arrives. */
  method AttemptRequest(modelId: string, text: string, fileDataUrl: Option<string>, apiKey: string,
                        reply: Reply, parse: string -> Option<string>) returns (request: Request, r: AttemptResult)
    ensures request.url == ENDPOINT && request.model == modelId && request.stream
    ensures request.authorization == "Bearer " + apiKey
    ensures request.messages == [UserMessage(text, fileDataUrl)]
    ensures r == AttemptOutcome(reply, parse)
  {
    var messages: seq<ChatMessage> := [];
    if fileDataUrl.Some? {
      messages := messages + [ChatMessage("user", Parts([TextPart(text), ImageUrlPart(fileDataUrl.value)]))];
    } else {
      messages := messages + [ChatMessage("user", PlainText(text))];
    }
    request := Request(ENDPOINT, "Bearer " + apiKey, "DARK AI", modelId, messages, true);
    match reply {
      case Rejected(message) =>
        r := Failed(message);
      case Http(status, body, chunks) =>
        if !Ok(status) {
          r := Failed(HttpError(status, body));
        } else {
          var scanned := ReadStream(chunks, Classify(parse), true);
          r := Completed(scanned);
        }
    }
  }

  /** An attempt that ends the ladder: it completed, or it failed with the signal aborted. */
  predicate Ends(a: Attempt, parse: string -> Option<string>) {
    AttemptOutcome(a.reply, parse).Completed? || a.abortedOnFailure
  }

  function EndsOn(attempts: string -> Attempt, parse: string -> Option<string>): string -> bool {
    (m: string) => Ends(attempts(m), parse)
  }

  /** The models the ladder tries: in order, up to and including the first
      attempt that ends it, or all of them. */
  function Tried(candidates: seq<string>, attempts: string -> Attempt, parse: string -> Option<string>): (r: seq<string>)
    ensures |r| <= |candidates| && r == candidates[..|r|]
    ensures candidates != [] ==> r != []
    ensures forall j :: 0 <= j < |r| - 1 ==> !Ends(attempts(candidates[j]), parse)
    ensures |r| < |candidates| ==> Ends(attempts(candidates[|r| - 1]), parse)
    ensures |r| == |candidates| ==> forall j :: 0 <= j < |r| - 1 ==> !Ends(attempts(r[j]), parse)
  {
    match FindIndex(candidates, EndsOn(attempts, parse))
    case None => candidates
    case Some(k) => candidates[..k + 1]
  }

  /** How the ladder ends: like its last attempt. A completed attempt
      returns; a failed one, aborted or the last of all, throws its error. */
  function Verdict(last: Attempt, parse: string -> Option<string>): Sent {
    match AttemptOutcome(last.reply, parse)
    case Completed(s) => Sent(s)
    case Failed(m) => Threw(m)
  }

  /** How the ladder over some candidates ends: like its last attempt, or
      with the generic error when there was nothing to try. */
  function LadderResult(candidates: seq<string>, attempts: string -> Attempt, parse: string -> Option<string>): Sent {
    var tried := Tried(candidates, attempts, parse);
    if tried == [] then Threw(ALL_FAILED_ERROR) else Verdict(attempts(tried[|tried| - 1]), parse)
  }

  /** The `for` loop over the candidates: try each in order, reporting every
      attempt after the first, until one completes, one fails with the signal
      aborted (its error is rethrown), or all have failed (the last error is
      thrown). */
  method Ladder(candidates: seq<string>, text: string, fileDataUrl: Option<string>, apiKey: string,
                attempts: string -> Attempt, parse: string -> Option<string>, hasStatusCallback: bool)
    returns (result: Sent, statuses: seq<string>, tried: seq<string>)
    ensures tried == Tried(candidates, attempts, parse)
    ensures statuses == (if hasStatusCallback then Reroutes(tried) else [])
    ensures result == LadderResult(candidates, attempts, parse)
  {
    var lastError: Option<string> := None;
    statuses := [];
    tried := [];
    for i := 0 to |candidates|
      invariant LadderSoFar(candidates, attempts, parse, hasStatusCallback, i, tried, statuses, lastError)
    {
      ghost var tried0, statuses0, lastError0 := tried, statuses, lastError;
      var current := candidates[i];
      if i > 0 && hasStatusCallback {
        statuses := statuses + [RerouteMessage(current)];
      }
      tried := tried + [current];
      var request, outcome := AttemptRequest(current, text, fileDataUrl, apiKey, attempts(current).reply, parse);
      match outcome {
        case Completed(scanned) =>
          LadderEnds(candidates, attempts, parse, hasStatusCallback, i, tried0, statuses0, lastError0);
          return Sent(scanned), statuses, tried;
        case Failed(message) =>
          if attempts(current).abortedOnFailure {
            LadderEnds(candidates, attempts, parse, hasStatusCallback, i, tried0, statuses0, lastError0);
            return Threw(message), statuses, tried;
          }
          LadderGoesOn(candidates, attempts, parse, hasStatusCallback, i, tried0, statuses0, lastError0);
          lastError := Some(message);
      }
    }
    LadderExhausted(candidates, attempts, parse, hasStatusCallback, tried, statuses, lastError);
    result := Threw(lastError.GetOr(ALL_FAILED_ERROR));
  }

  /** What the loop has done after trying the first `i` candidates, none of
      which ended it: every one of them tried and, after the first, reported,
      and the last one's error kept. */
  ghost predicate LadderSoFar(candidates: seq<string>, attempts: string -> Attempt, parse: string -> Option<string>,
                              hasStatusCallback: bool, i: nat, tried: seq<string>, statuses: seq<string>, lastError: Option<string>) {
    && i <= |candidates| && tried == candidates[..i]
    && (forall j :: 0 <= j < i ==> !Ends(attempts(candidates[j]), parse))
    && statuses == (if hasStatusCallback then Reroutes(tried) else [])
    && (i == 0 ==> lastError == None)
    && (i > 0 ==> lastError == Some(AttemptOutcome(attempts(candidates[i - 1]).reply, parse).message)
                  && AttemptOutcome(attempts(candidates[i - 1]).reply, parse).Failed?)
  }

  /** A candidate that does not end the ladder is tried, reported and left behind. */
  lemma LadderGoesOn(candidates: seq<string>, attempts: string -> Attempt, parse: string -> Option<string>,
                     hasStatusCallback: bool, i: nat, tried: seq<string>, statuses: seq<string>, lastError: Option<string>)
    requires i < |candidates| && LadderSoFar(candidates, attempts, parse, hasStatusCallback, i, tried, statuses, lastError)
    requires !Ends(attempts(candidates[i]), parse)
    ensures LadderSoFar(candidates, attempts, parse, hasStatusCallback, i + 1, tried + [candidates[i]],
                        if i > 0 && hasStatusCallback then statuses + [RerouteMessage(candidates[i])] else statuses,
                        Some(AttemptOutcome(attempts(candidates[i]).reply, parse).message))
  {
    RerouteStep(tried, candidates[i]);
    assert candidates[..i + 1] == tried + [candidates[i]];
  }

  /** A candidate that ends the ladder is the last one tried, and the ladder ends like it. */
  lemma LadderEnds(candidates: seq<string>, attempts: string -> Attempt, parse: string -> Option<string>,
                   hasStatusCallback: bool, i: nat, tried: seq<string>, statuses: seq<string>, lastError: Option<string>)
    requires i < |candidates| && LadderSoFar(candidates, attempts, parse, hasStatusCallback, i, tried, statuses, lastError)
    requires Ends(attempts(candidates[i]), parse)
    ensures tried + [candidates[i]] == Tried(candidates, attempts, parse)
    ensures (if i > 0 && hasStatusCallback then statuses + [RerouteMessage(candidates[i])] else statuses)
         == (if hasStatusCallback then Reroutes(tried + [candidates[i]]) else [])
    ensures LadderResult(candidates, attempts, parse) == Verdict(attempts(candidates[i]), parse)
  {
    assert candidates[..i + 1] == tried + [candidates[i]];
    LadderStopsAt(candidates, attempts, parse, i);
    assert |tried| == i;
    RerouteStep(tried, candidates[i]);
  }

  /** When no candidate ends the ladder, all are tried and the last error is thrown. */
  lemma LadderExhausted(candidates: seq<string>, attempts: string -> Attempt, parse: string -> Option<string>,
                        hasStatusCallback: bool, tried: seq<string>, statuses: seq<string>, lastError: Option<string>)
    requires LadderSoFar(candidates, attempts, parse, hasStatusCallback, |candidates|, tried, statuses, lastError)
    ensures tried == Tried(candidates, attempts, parse)
    ensures statuses == (if hasStatusCallback then Reroutes(tried) else [])
    ensures Threw(lastError.GetOr(ALL_FAILED_ERROR)) == LadderResult(candidates, attempts, parse)
  {
    assert candidates[..|candidates|] == candidates;
    FindNone(candidates, EndsOn(attempts, parse));
  }

  /** `sendMessageToOpenRouter`: check the key before anything else, then
      run the ladder over the candidates. */
  method SendMessageToOpenRouter(apiKey: string, text: string, fileDataUrl: Option<string>, modelId: string,
                                 attempts: string -> Attempt, parse: string -> Option<string>, hasStatusCallback: bool)
    returns (result: Sent, statuses: seq<string>, tried: seq<string>)
    ensures KeyUnusable(apiKey) ==> result == Threw(KEY_MISSING_ERROR) && statuses == [] && tried == []
    ensures !KeyUnusable(apiKey) ==>
      tried == Tried(Candidates(modelId), attempts, parse)
      && statuses == (if hasStatusCallback then Reroutes(tried) else [])
      && result == LadderResult(Candidates(modelId), attempts, parse)
  {
    if KeyUnusable(apiKey) {
      return Threw(KEY_MISSING_ERROR), [], [];
    }
    var candidates := Candidates(modelId);
    result, statuses, tried := Ladder(candidates, text, fileDataUrl, apiKey, attempts, parse, hasStatusCallback);
  }

  /** With candidates, which the ladder always has, the generic error is
      never thrown: the call ends like its last attempt. */
  lemma LadderEndsLikeLastAttempt(modelId: string, attempts: string -> Attempt, parse: string -> Option<string>)
    ensures var tried := Tried(Candidates(modelId), attempts, parse);
      tried != [] && LadderResult(Candidates(modelId), attempts, parse) == Verdict(attempts(tried[|tried| - 1]), parse)
  {
    CandidatesShape(modelId);
  }

  /** The ladder stops at the first attempt that ends it. */
  lemma LadderStopsAt(candidates: seq<string>, attempts: string -> Attempt, parse: string -> Option<string>, i: nat)
    requires i < |candidates| && Ends(attempts(candidates[i]), parse)
    requires forall j :: 0 <= j < i ==> !EndsOn(attempts, parse)(candidates[j])
    ensures Tried(candidates, attempts, parse) == candidates[..i + 1]
    ensures LadderResult(candidates, attempts, parse) == Verdict(attempts(candidates[i]), parse)
  {
    FindFirst(candidates, EndsOn(attempts, parse), i);
  }

  lemma FindFirst(s: seq<string>, p: string -> bool, i: nat)
    requires i < |s| && p(s[i]) && forall j :: 0 <= j < i ==> !p(s[j])
    ensures FindIndex(s, p) == Some(i)
  {
  }

  lemma FindNone(s: seq<string>, p: string -> bool)
    requires forall j :: 0 <= j < |s| ==> !p(s[j])
    ensures FindIndex(s, p) == None
  {
  }

  /** A completed attempt ends the ladder: no candidate after it is tried. */
  lemma CompletedStopsLadder(candidates: seq<string>, attempts: string -> Attempt, parse: string -> Option<string>, k: nat)
    requires k < |candidates| && AttemptOutcome(attempts(candidates[k]).reply, parse).Completed?
    ensures |Tried(candidates, attempts, parse)| <= k + 1
  {
  }
}
