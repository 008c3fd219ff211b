/**
 * The Hugging Face client (services/huggingface.ts). It refuses to start
 * without a token, posts one chat-completion request through the development
 * proxy, and waits and retries for as long as the model answers 503 (still
 * loading). The first other answer decides the call: 404 and 410 name a
 * missing model, another non-OK status reports the body, and an OK answer is
 * streamed line by line. A failure caught while the signal is aborted ends the
 * call quietly.
 *
 * The recursion `makeRequest(retryCount + 1)` is a loop here. The replies the
 * server would give to successive requests are a parameter, and so are the
 * JSON parser and the abort state; the waits the client would sleep are an
 * output.
 */
module HuggingFace {
  import opened Wrappers
  import opened JsString
  import opened Lists
  import opened StreamLines

  const KEY_MISSING_ERROR: string := "Missing Hugging Face API Token (VITE_HF_TOKEN). Please check your .env configuration."

  /** The development proxy (vite.config.ts): requests under `/hf-api` go
      to this origin with the prefix rewritten to `/models`. */
  const PROXY_PREFIX: string := "/hf-api"
  const PROXY_TARGET: string := "https://router.huggingface.co/hf-inference"

  const WAKE_PREFIX: string := "Waking up the Neural Core... Please wait (~"
  const WAKE_SUFFIX: string := "s)."
  const MAX_TOKENS: nat := 4000
  const TEMPERATURE: real := 0.7

  /** The wait, in seconds, when the 503 body gives none. */
  const DEFAULT_WAIT: real := 10.0

  datatype ChatMessage = ChatMessage(role: string, content: string)

  datatype Request = Request(path: string, authorization: string, model: string, messages: seq<ChatMessage>,
                             maxTokens: nat, stream: bool, temperature: real)

  /** What one `fetch` gives: a response (status, status text, body text,
      the `estimated_time` of a JSON body when it is a number, and the
      body's chunks), or a rejection. */
  datatype Reply =
    | Http(status: int, statusText: string, body: string, estimatedTime: Option<real>, chunks: seq<string>)
    | Rejected(message: string)

  /** How the call ends: it returns after streaming, it returns quietly
      because the signal was aborted when a failure was caught, or it throws.
      `StillWaiting` is a call that was still retrying when the given
      replies ran out. */
  datatype Outcome = Returned(scanned: Scanned) | Aborted | Threw(message: string) | StillWaiting

  /** The proxy path of a model's chat-completion endpoint. */
  function Endpoint(modelId: string): string {
    PROXY_PREFIX + "/" + modelId + "/v1/chat/completions"
  }

  /** `path.replace(/^\/hf-api/, '/models')`. */
  function ProxyRewrite(path: string): (r: string)
    ensures !StartsWith(path, PROXY_PREFIX) ==> r == path
  {
    if StartsWith(path, PROXY_PREFIX) then "/models" + path[|PROXY_PREFIX|..] else path
  }

  /** Through the proxy, the request reaches the router's model endpoint. */
  lemma UpstreamUrl(modelId: string)
    ensures PROXY_TARGET + ProxyRewrite(Endpoint(modelId))
         == "https://router.huggingface.co/hf-inference/models/" + modelId + "/v1/chat/completions"
  {
    var e := Endpoint(modelId);
    assert e[..|PROXY_PREFIX|] == PROXY_PREFIX;
    assert e[|PROXY_PREFIX|..] == "/" + modelId + "/v1/chat/completions";
  }

  /** The request every attempt sends: the same one each time. */
  function RequestFor(apiKey: string, modelId: string, text: string): (r: Request)
    ensures r.path == Endpoint(modelId) && r.model == modelId && r.stream
    ensures r.messages == [ChatMessage("user", text)]
  {
    Request(Endpoint(modelId), "Bearer " + apiKey, modelId, [ChatMessage("user", text)], MAX_TOKENS, true, TEMPERATURE)
  }

  predicate Ok(status: int) {
    200 <= status <= 299
  }

  /** A reply that asks the client to wait and retry. */
  predicate IsWaking(reply: Reply) {
    reply.Http? && reply.status == 503
  }

  function Decides(reply: Reply): bool {
    !IsWaking(reply)
  }

  /** `errorData.estimated_time || 10`: a missing or zero estimate gives the default. */
  function WaitSeconds(estimated: Option<real>): (w: real)
    ensures estimated.None? ==> w == DEFAULT_WAIT
    ensures estimated.Some? ==> w == if estimated.value == 0.0 then DEFAULT_WAIT else estimated.value
  {
    match estimated
    case None => DEFAULT_WAIT
    case Some(e) => if e == 0.0 then DEFAULT_WAIT else e
  }

  /** The estimate a reply carries, if any. */
  function Estimate(reply: Reply): Option<real> {
    if reply.Http? then reply.estimatedTime else None
  }

  /** `Math.ceil`. */
  function Ceil(x: real): (n: int)
    ensures n as real - 1.0 < x <= n as real
  {
    -((-x).Floor)
  }

  /** The status message sent while the model is loading. */
  function WakeMessage(estimated: Option<real>): string {
    WAKE_PREFIX + IntToString(Ceil(WaitSeconds(estimated))) + WAKE_SUFFIX
  }

  function NotFoundError(status: int): string {
    "Model not found or endpoint deprecated (" + IntToString(status) + "). Verify model ID."
  }

  function ApiError(status: int, statusText: string, body: string): string {
    "HF API Error: " + IntToString(status) + " " + statusText + " - " + body
  }

  /** One streamed line, trimmed first: `data: [DONE]` and blank lines are
      skipped, and a `data: ` line forwards its payload's content when that
      parses and is not empty. No line ends the read. */
  function ClassifyLine(line: string, parse: string -> Option<string>): (a: LineAction)
    ensures a != Stop
    ensures a.Forward? <==> var t := Trim(line);
      t != DONE_LINE && StartsWith(t, DATA_PREFIX) && parse(t[6..]).Some? && parse(t[6..]).value != ""
    ensures a.Forward? ==> a.content == parse(Trim(line)[6..]).value
  {
    var t := Trim(line);
    if t == "" || t == DONE_LINE then Skip
    else if StartsWith(t, DATA_PREFIX) then
      match parse(t[|DATA_PREFIX|..])
      case None => Skip
      case Some(content) => if content != "" then Forward(content) else Skip
    else Skip
  }

  function Classify(parse: string -> Option<string>): string -> LineAction {
    (line: string) => ClassifyLine(line, parse)
  }

  /** Whitespace around a line makes no difference. */
  lemma PaddingIgnored(line: string, parse: string -> Option<string>)
    ensures ClassifyLine(line, parse) == ClassifyLine(Trim(line), parse)
  {
    TrimIdempotent(line);
  }

  /** A failure ends the call quietly when the signal is aborted, and is rethrown otherwise. */
  function Failure(message: string, aborted: bool): (o: Outcome)
    ensures aborted <==> o == Aborted
    ensures !aborted ==> o == Threw(message)
  {
    if aborted then Aborted else Threw(message)
  }

  /** How the call ends on a reply other than 503. */
  function ReplyOutcome(reply: Reply, aborted: bool, parse: string -> Option<string>): (o: Outcome)
    requires !IsWaking(reply)
    ensures reply.Rejected? ==> o == Failure(reply.message, aborted)
    ensures reply.Http? && (reply.status == 404 || reply.status == 410) ==> o == Failure(NotFoundError(reply.status), aborted)
    ensures reply.Http? && reply.status != 404 && reply.status != 410 && !Ok(reply.status)
            ==> o == Failure(ApiError(reply.status, reply.statusText, reply.body), aborted)
    ensures o.Returned? <==> reply.Http? && Ok(reply.status)
    ensures o.Returned? ==> o.scanned == Scan(Actions(reply.chunks, Classify(parse), false))
  {
    match reply
    case Rejected(message) => Failure(message, aborted)
    case Http(status, statusText, body, _, chunks) =>
      if status == 404 || status == 410 then Failure(NotFoundError(status), aborted)
      else if !Ok(status) then Failure(ApiError(status, statusText, body), aborted)
      else Returned(Scan(Actions(chunks, Classify(parse), false)))
  }

  /** A streamed reply is read to its end and forwards every content it carries. */
  lemma StreamReadToEnd(chunks: seq<string>, parse: string -> Option<string>)
    ensures !Scan(Actions(chunks, Classify(parse), false)).stopped
    ensures Scan(Actions(chunks, Classify(parse), false)).forwarded == Forwarded(Actions(chunks, Classify(parse), false))
  {
    NeverStops(chunks, Classify(parse), false);
  }

  /** The number of leading 503 replies: the retries before the reply that decides the call. */
  function Waking(replies: seq<Reply>): (k: nat)
    ensures k <= |replies|
    ensures forall i :: 0 <= i < k ==> IsWaking(replies[i])
    ensures k < |replies| ==> !IsWaking(replies[k])
  {
    match FindIndex(replies, Decides)
    case None => |replies|
    case Some(k) => k
  }

  /** There is no retry limit: any number of 503 replies is waited out. */
  lemma {:induction false} RetriesUnbounded(n: nat, wake: Reply, last: Reply)
    requires IsWaking(wake) && !IsWaking(last)
    ensures Waking(seq(n, _ => wake) + [last]) == n
  {
    var replies := seq(n, _ => wake) + [last];
    assert replies[n] == last;
    assert forall i :: 0 <= i < n ==> replies[i] == wake;
  }

  /** The wait slept for one 503 reply. */
  function WaitOf(): Reply -> real {
    (reply: Reply) => WaitSeconds(Estimate(reply))
  }

  /** The status message sent for one 503 reply. */
  function WakeOf(): Reply -> string {
    (reply: Reply) => WakeMessage(Estimate(reply))
  }

  /** The waits slept for a run of 503 replies, in order. */
  function WaitsFor(replies: seq<Reply>): (w: seq<real>)
    ensures |w| == |replies|
    ensures forall i :: 0 <= i < |w| ==> w[i] == WaitSeconds(Estimate(replies[i]))
  {
    Map(replies, WaitOf())
  }

  /** The status messages sent for a run of 503 replies, in order. */
  function WakeMessages(replies: seq<Reply>): (m: seq<string>)
    ensures |m| == |replies|
    ensures forall i :: 0 <= i < |m| ==> m[i] == WakeMessage(Estimate(replies[i]))
  {
    Map(replies, WakeOf())
  }

  /** The call after the token check: one request per reply, waiting and
      retrying on 503, until a reply decides the outcome. */
  method MakeRequests(apiKey: string, modelId: string, text: string, replies: seq<Reply>,
                      aborted: bool, parse: string -> Option<string>, hasStatusCallback: bool)
    returns (outcome: Outcome, requests: seq<Request>, statuses: seq<string>, waits: seq<real>)
    ensures var k := Waking(replies);
      && |requests| == (if k < |replies| then k + 1 else k)
      && (forall i :: 0 <= i < |requests| ==> requests[i] == RequestFor(apiKey, modelId, text))
      && waits == WaitsFor(replies[..k])
      && statuses == (if hasStatusCallback then WakeMessages(replies[..k]) else [])
      && outcome == (if k < |replies| then ReplyOutcome(replies[k], aborted, parse) else StillWaiting)
  {
    var retryCount := 0;
    requests, statuses, waits := [], [], [];
    while retryCount < |replies|
      invariant retryCount <= |replies|
      invariant forall i :: 0 <= i < retryCount ==> IsWaking(replies[i])
      invariant |requests| == retryCount
      invariant forall i :: 0 <= i < retryCount ==> requests[i] == RequestFor(apiKey, modelId, text)
      invariant waits == WaitsFor(replies[..retryCount])
      invariant statuses == if hasStatusCallback then WakeMessages(replies[..retryCount]) else []
    {
      requests := requests + [RequestFor(apiKey, modelId, text)];
      var reply := replies[retryCount];
      if reply.Http? && reply.status == 503 {
        assert replies[..retryCount + 1][..retryCount] == replies[..retryCount];
        if hasStatusCallback {
          statuses := statuses + [WakeMessage(Estimate(reply))];
        }
        waits := waits + [WaitSeconds(Estimate(reply))];
        retryCount := retryCount + 1;
      } else {
        assert Waking(replies) == retryCount;
        outcome := Respond(reply, aborted, parse);
        return;
      }
    }
    assert Waking(replies) == |replies|;
    outcome := StillWaiting;
  }

  /** One deciding reply: throw on a missing model or a non-OK status,
      otherwise read the body; a failure with the signal aborted returns. */
  method Respond(reply: Reply, aborted: bool, parse: string -> Option<string>) returns (o: Outcome)
    requires !IsWaking(reply)
    ensures o == ReplyOutcome(reply, aborted, parse)
  {
    match reply {
      case Rejected(message) =>
        o := Failure(message, aborted);
      case Http(status, statusText, body, _, chunks) =>
        if status == 404 || status == 410 {
          o := Failure(NotFoundError(status), aborted);
        } else if !Ok(status) {
          o := Failure(ApiError(status, statusText, body), aborted);
        } else {
          var scanned := ReadStream(chunks, Classify(parse), false);
          o := Returned(scanned);
        }
    }
  }

  /** `sendMessageToHuggingFace`: the token check comes first and is
      outside the `try`, so it throws whatever the signal's state. */
  method SendMessageToHuggingFace(apiKey: string, modelId: string, text: string, replies: seq<Reply>,
                                  aborted: bool, parse: string -> Option<string>, hasStatusCallback: bool)
    returns (outcome: Outcome, requests: seq<Request>, statuses: seq<string>, waits: seq<real>)
    ensures apiKey == "" ==> outcome == Threw(KEY_MISSING_ERROR) && requests == [] && statuses == [] && waits == []
    ensures apiKey != "" ==> var k := Waking(replies);
      && |requests| == (if k < |replies| then k + 1 else k)
      && (forall i :: 0 <= i < |requests| ==> requests[i] == RequestFor(apiKey, modelId, text))
      && waits == WaitsFor(replies[..k])
      && statuses == (if hasStatusCallback then WakeMessages(replies[..k]) else [])
      && outcome == (if k < |replies| then ReplyOutcome(replies[k], aborted, parse) else StillWaiting)
  {
    if apiKey == "" {
      return Threw(KEY_MISSING_ERROR), [], [], [];
    }
    outcome, requests, statuses, waits := MakeRequests(apiKey, modelId, text, replies, aborted, parse, hasStatusCallback);
  }
}
