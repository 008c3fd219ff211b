/**
 * The chat screen's state and handlers (App.tsx): the model list and
 * provider routing, the startup key check, sending a message and streaming
 * its reply, stopping, the session history, and the message and session
 * actions.
 *
 * React state is the set of fields of `ChatApp`; a `setX(prev => ...)`
 * updater is a function on the old value, and the handler a method that
 * assigns its result. `Date.now()` is the parameter `now` (all readings
 * within one handler taken equal), the request itself is left to the
 * provider clients, and its outcome arrives as `StreamChunk`,
 * `StatusUpdate`, `FinishSend` or `FailSend`.
 */
module ChatApp {
  import opened Wrappers
  import opened JsString
  import opened ChatTypes
  import opened Lists
  import opened SessionOrder

  /** `CHAT_MODELS`. */
  const CHAT_MODELS: seq<Model> := [
    Model("gemini-3-flash-preview", "Gemini 3 Flash (Native)", Gemini, false),
    Model("gemini-2.0-flash-exp", "Gemini 2.0 Flash (Native)", Gemini, false),
    Model("gemini-1.5-pro", "Gemini 1.5 Pro (Native)", Gemini, false),
    Model("openai/gpt-oss-120b:free", "GPT OSS 120B (Free)", OpenRouter, true),
    Model("deepseek/deepseek-v3:free", "DeepSeek V3 (Free)", OpenRouter, true),
    Model("meta-llama/llama-4-maverick:free", "Llama 4 Maverick (Free)", OpenRouter, true),
    Model("deepseek/deepseek-r1:free", "DeepSeek R1 (Free)", OpenRouter, true),
    Model("google/gemini-2.0-flash-exp:free", "Gemini 2.0 Flash Exp (Free)", OpenRouter, true),
    Model("meta-llama/Meta-Llama-3-8B-Instruct", "Llama 3 8B Instruct", HuggingFace, false),
    Model("meta-llama/Meta-Llama-3.1-8B-Instruct", "Llama 3.1 8B Instruct", HuggingFace, false),
    Model("microsoft/Phi-3-mini-4k-instruct", "Phi 3 Mini 4k", HuggingFace, false),
    Model("llama-3.3-70b-versatile", "Llama 3.3 (Groq Hyper-Speed)", Groq, false),
    Model("llama-3.1-8b-instant", "Llama 3.1 8B (Groq Instant)", Groq, false),
    Model("puter-chat", "Puter.js (Llama/GPT Fallback)", Puter, false)
  ]

  const PUTER_CHAT: string := "puter-chat"
  /** The model the startup check picks when only the Gemini key is missing, as written. */
  const AS_WRITTEN_OPENROUTER_DEFAULT: string := "deepseek/deepseek-chat:free"
  /** The OpenRouter model that startup default evidently stands for: DeepSeek's free chat model as listed. */
  const OPENROUTER_DEFAULT: string := "deepseek/deepseek-v3:free"

  const STOPPED_SUFFIX: string := " [Stopped]"
  const FAILURE_PREFIX: string := "\U{26A0}\U{FE0F} Neural Link Interrupted. Attempting fallback... \n\nError: "
  const FAILURE_FALLBACK: string := "Service unavailable."

  /** `models.find(m => m.id === id)?.provider || 'puter'`: the provider of
      the first model with that id, Puter when there is none. */
  function ProviderIn(models: seq<Model>, id: string): (p: Provider)
    ensures (forall k :: 0 <= k < |models| ==> models[k].id != id) ==> p == Puter
    ensures forall k :: 0 <= k < |models| && models[k].id == id && (forall j :: 0 <= j < k ==> models[j].id != id) ==>
      p == models[k].provider
  {
    match FindIndex(models, ModelHasId(id))
    case None => Puter
    case Some(k) => models[k].provider
  }

  /** The provider a chat model id is routed to. */
  function ProviderFor(id: string): Provider {
    ProviderIn(CHAT_MODELS, id)
  }

  /** Each listed id routes to its own model's provider, since no two
      listed models share an id. */
  lemma ListedRoute(k: nat)
    requires k < |CHAT_MODELS|
    ensures ProviderFor(CHAT_MODELS[k].id) == CHAT_MODELS[k].provider
  {
    ModelIdsDistinct();
  }

  /** An id that is not listed routes to Puter. */
  lemma UnlistedRoute(id: string)
    requires forall k :: 0 <= k < |CHAT_MODELS| ==> CHAT_MODELS[k].id != id
    ensures ProviderFor(id) == Puter
  {
  }

  /** No two listed models share an id. */
  lemma ModelIdsDistinct()
    ensures forall i, j :: 0 <= i < j < |CHAT_MODELS| ==> CHAT_MODELS[i].id != CHAT_MODELS[j].id
  {
    forall i, j | 0 <= i < j < |CHAT_MODELS| ensures CHAT_MODELS[i].id != CHAT_MODELS[j].id {
      if i < 7 {
        IdsDistinctFrom(i, j, 0, 7);
      } else {
        IdsDistinctFrom(i, j, 7, 14);
      }
    }
  }

  /** Ids that differ in length, or else in one of three places, differ; the
      first of two listed models, taken from a band of the list, has an id of
      its own. */
  lemma IdsDistinctFrom(i: nat, j: nat, lo: nat, hi: nat)
    requires (lo == 0 && hi == 7) || (lo == 7 && hi == 14)
    requires lo <= i < hi && i < j < |CHAT_MODELS|
    ensures CHAT_MODELS[i].id != CHAT_MODELS[j].id
  {
    var a, b := CHAT_MODELS[i].id, CHAT_MODELS[j].id;
    if |a| == |b| {
      assert a[0] != b[0] || a[1] != b[1] || a[18] != b[18];
    }
  }

  /** The startup default as written is not a listed id: no listed id has its length. */
  lemma DefaultUnlisted()
    ensures forall k :: 0 <= k < |CHAT_MODELS| ==> CHAT_MODELS[k].id != AS_WRITTEN_OPENROUTER_DEFAULT
  {
    forall k | 0 <= k < |CHAT_MODELS| ensures |CHAT_MODELS[k].id| != |AS_WRITTEN_OPENROUTER_DEFAULT| {
    }
  }

  function ModelHasId(id: string): Model -> bool {
    (m: Model) => m.id == id
  }

  function HasId(id: string): Message -> bool {
    (m: Message) => m.id == id
  }

  function SessionHasId(id: string): ChatSession -> bool {
    (s: ChatSession) => s.id == id
  }

  /** A key the startup check treats as missing: absent, or still a placeholder. */
  predicate KeyMissing(key: string) {
    key == "" || Contains(key, "PLACE_YOUR_KEY") || Contains(key, "ENTER_YOUR_KEY")
  }

  /** The startup choice of model as written: Puter when both keys are
      missing, `deepseek/deepseek-chat:free` when only the Gemini key is,
      and the current model otherwise. */
  function StartupModelAsWritten(geminiKey: string, openRouterKey: string, current: string): (r: string)
    ensures KeyMissing(geminiKey) && KeyMissing(openRouterKey) ==> r == PUTER_CHAT
    ensures KeyMissing(geminiKey) && !KeyMissing(openRouterKey) ==> r == AS_WRITTEN_OPENROUTER_DEFAULT
    ensures !KeyMissing(geminiKey) ==> r == current
  {
    if KeyMissing(geminiKey) && KeyMissing(openRouterKey) then PUTER_CHAT
    else if KeyMissing(geminiKey) then AS_WRITTEN_OPENROUTER_DEFAULT
    else current
  }

  /** With only the Gemini key missing, the startup default as written is
      routed to Puter, not to OpenRouter, whatever the keys are. */
  lemma StartupDefaultMisrouted(geminiKey: string, openRouterKey: string, current: string)
    requires KeyMissing(geminiKey) && !KeyMissing(openRouterKey)
    ensures ProviderFor(StartupModelAsWritten(geminiKey, openRouterKey, current)) == Puter
  {
    DefaultUnlisted();
    UnlistedRoute(AS_WRITTEN_OPENROUTER_DEFAULT);
  }

  /** As written, a missing Gemini key always ends with the startup model
      served by Puter, whether or not the OpenRouter key is set. */
  lemma StartupAsWrittenOnPuter(geminiKey: string, openRouterKey: string, current: string)
    requires KeyMissing(geminiKey)
    ensures ProviderFor(StartupModelAsWritten(geminiKey, openRouterKey, current)) == Puter
  {
    if KeyMissing(openRouterKey) {
      ListedRoute(13);
      PuterListed();
    } else {
      StartupDefaultMisrouted(geminiKey, openRouterKey, current);
    }
  }

  /** The startup choice of model: Puter when both keys are missing, a
      listed OpenRouter model when only the Gemini key is, and the current
      model otherwise. */
  function StartupModel(geminiKey: string, openRouterKey: string, current: string): (r: string)
    ensures KeyMissing(geminiKey) && KeyMissing(openRouterKey) ==> r == PUTER_CHAT
    ensures KeyMissing(geminiKey) && !KeyMissing(openRouterKey) ==> r == OPENROUTER_DEFAULT
    ensures !KeyMissing(geminiKey) ==> r == current
  {
    if KeyMissing(geminiKey) && KeyMissing(openRouterKey) then PUTER_CHAT
    else if KeyMissing(geminiKey) then OPENROUTER_DEFAULT
    else current
  }

  /** The startup choice routes as its comment intends: to Puter when both
      keys are missing and to OpenRouter when only the Gemini key is. */
  lemma StartupRouting(geminiKey: string, openRouterKey: string, current: string)
    requires KeyMissing(geminiKey)
    ensures KeyMissing(openRouterKey) ==> ProviderFor(StartupModel(geminiKey, openRouterKey, current)) == Puter
    ensures !KeyMissing(openRouterKey) ==> ProviderFor(StartupModel(geminiKey, openRouterKey, current)) == OpenRouter
  {
    if KeyMissing(openRouterKey) {
      ListedRoute(13);
      PuterListed();
    } else {
      ListedRoute(4);
      DefaultListed();
    }
  }

  lemma PuterListed()
    ensures CHAT_MODELS[13].id == PUTER_CHAT && CHAT_MODELS[13].provider == Puter
  {
  }

  lemma DefaultListed()
    ensures CHAT_MODELS[4].id == OPENROUTER_DEFAULT && CHAT_MODELS[4].provider == OpenRouter
  {
  }

  /** `m.isStreaming ? { ...m, isStreaming: false, content: m.content + ' [Stopped]' } : m`. */
  function StopOne(m: Message): Message {
    if m.isStreaming then m.(isStreaming := false, content := m.content + STOPPED_SUFFIX) else m
  }

  /** The updater of `handleStop`: every streaming message is finished with
      ` [Stopped]` after what it had; the others are left alone. */
  function Stopped(ms: seq<Message>): (r: seq<Message>)
    ensures |r| == |ms|
    ensures forall i :: 0 <= i < |ms| ==> !r[i].isStreaming && r[i].id == ms[i].id && r[i].role == ms[i].role
    ensures forall i :: 0 <= i < |ms| && ms[i].isStreaming ==> r[i].content == ms[i].content + STOPPED_SUFFIX
    ensures forall i :: 0 <= i < |ms| && !ms[i].isStreaming ==> r[i] == ms[i]
  {
    seq(|ms|, i requires 0 <= i < |ms| => StopOne(ms[i]))
  }

  /** A second stop changes nothing: no suffix is added twice. */
  lemma StoppedIdempotent(ms: seq<Message>)
    ensures Stopped(Stopped(ms)) == Stopped(ms)
  {
  }

  /** `m.id === id ? { ...m, content } : m` over the list: the content of
      the messages with that id replaced, everything else as it was. */
  function WithContent(ms: seq<Message>, id: string, content: string): (r: seq<Message>)
    ensures |r| == |ms|
    ensures forall i :: 0 <= i < |ms| && ms[i].id == id ==> r[i] == ms[i].(content := content)
    ensures forall i :: 0 <= i < |ms| && ms[i].id != id ==> r[i] == ms[i]
  {
    UpdateWhere(ms, HasId(id), SetContent(content))
  }

  function SetContent(content: string): Message -> Message {
    (m: Message) => m.(content := content)
  }

  /** The last content written wins, which is what lets each stream chunk
      rewrite the reply with the whole text so far. */
  lemma WithContentLastWins(ms: seq<Message>, id: string, a: string, b: string)
    ensures WithContent(WithContent(ms, id, a), id, b) == WithContent(ms, id, b)
  {
  }

  /** The updater after the reply ends: the messages with that id stop streaming. */
  function Finished(ms: seq<Message>, id: string): (r: seq<Message>)
    ensures |r| == |ms|
    ensures forall i :: 0 <= i < |ms| && ms[i].id == id ==> r[i] == ms[i].(isStreaming := false)
    ensures forall i :: 0 <= i < |ms| && ms[i].id != id ==> r[i] == ms[i]
  {
    UpdateWhere(ms, HasId(id), StopStreaming())
  }

  function StopStreaming(): Message -> Message {
    (m: Message) => m.(isStreaming := false)
  }

  /** The text shown in place of a reply that failed. */
  function FailureText(errorMessage: string): (r: string)
    ensures StartsWith(r, FAILURE_PREFIX)
    ensures errorMessage != "" ==> r == FAILURE_PREFIX + errorMessage
    ensures errorMessage == "" ==> r == FAILURE_PREFIX + FAILURE_FALLBACK
  {
    FAILURE_PREFIX + (if errorMessage == "" then FAILURE_FALLBACK else errorMessage)
  }

  /** The updater after a failure that is not an abort: every streaming
      message becomes a finished error message showing the failure. */
  function Failed(ms: seq<Message>, errorMessage: string): (r: seq<Message>)
    ensures |r| == |ms|
    ensures forall i :: 0 <= i < |ms| ==> !r[i].isStreaming && r[i].id == ms[i].id
    ensures forall i :: 0 <= i < |ms| && ms[i].isStreaming ==>
      r[i] == ms[i].(content := FailureText(errorMessage), isStreaming := false, isError := true)
    ensures forall i :: 0 <= i < |ms| && !ms[i].isStreaming ==> r[i] == ms[i]
  {
    seq(|ms|, i requires 0 <= i < |ms| =>
      if ms[i].isStreaming then ms[i].(content := FailureText(errorMessage), isStreaming := false, isError := true) else ms[i])
  }

  datatype Feedback = Like | Dislike

  /** The updater of `handleFeedback`: the messages with that id are liked
      or disliked, the other flag cleared. */
  function WithFeedback(ms: seq<Message>, id: string, kind: Feedback): (r: seq<Message>)
    ensures |r| == |ms|
    ensures forall i :: 0 <= i < |ms| && ms[i].id == id ==>
      r[i] == ms[i].(liked := kind == Like, disliked := kind == Dislike)
    ensures forall i :: 0 <= i < |ms| && ms[i].id != id ==> r[i] == ms[i]
  {
    UpdateWhere(ms, HasId(id), SetFeedback(kind))
  }

  function SetFeedback(kind: Feedback): Message -> Message {
    (m: Message) => m.(liked := kind == Like, disliked := kind == Dislike)
  }

  /** No message is ever both liked and disliked: feedback keeps that true. */
  lemma FeedbackExclusive(ms: seq<Message>, id: string, kind: Feedback)
    requires forall i :: 0 <= i < |ms| ==> !(ms[i].liked && ms[i].disliked)
    ensures forall i :: 0 <= i < |WithFeedback(ms, id, kind)| ==>
      !(WithFeedback(ms, id, kind)[i].liked && WithFeedback(ms, id, kind)[i].disliked)
  {
  }

  function NotId(id: string): Message -> bool {
    (m: Message) => m.id != id
  }

  /** `prev.filter(m => m.id !== id)`: no message with that id is left,
      every other message is kept, in order. */
  function WithoutMessage(ms: seq<Message>, id: string): (r: seq<Message>)
    ensures forall i :: 0 <= i < |r| ==> r[i].id != id && r[i] in ms
    ensures forall i :: 0 <= i < |ms| && ms[i].id != id ==> ms[i] in r
  {
    Filter(ms, NotId(id))
  }

  /** Deleting is piecewise (so the kept messages keep their order), and a
      second delete of the same id changes nothing. */
  lemma WithoutMessageLaws(a: seq<Message>, b: seq<Message>, id: string)
    ensures WithoutMessage(a + b, id) == WithoutMessage(a, id) + WithoutMessage(b, id)
    ensures WithoutMessage(WithoutMessage(a, id), id) == WithoutMessage(a, id)
  {
    FilterConcat(a, b, NotId(id));
    FilterIdempotent(a, NotId(id));
  }

  /** The session-side updater of `handleMessageDelete`: the current session loses those messages. */
  function SessionsWithoutMessage(ss: seq<ChatSession>, sessionId: string, id: string): (r: seq<ChatSession>)
    ensures |r| == |ss|
    ensures forall i :: 0 <= i < |ss| && ss[i].id == sessionId ==>
      r[i] == ss[i].(messages := WithoutMessage(ss[i].messages, id))
    ensures forall i :: 0 <= i < |ss| && ss[i].id != sessionId ==> r[i] == ss[i]
  {
    UpdateWhere(ss, SessionHasId(sessionId), DropMessage(id))
  }

  function DropMessage(id: string): ChatSession -> ChatSession {
    (s: ChatSession) => s.(messages := WithoutMessage(s.messages, id))
  }

  /** The first step of `pinSession`: the pin of the sessions with that id flipped. */
  function Toggled(ss: seq<ChatSession>, id: string): (r: seq<ChatSession>)
    ensures |r| == |ss|
    ensures forall i :: 0 <= i < |ss| && ss[i].id == id ==> r[i] == ss[i].(pinned := !ss[i].pinned)
    ensures forall i :: 0 <= i < |ss| && ss[i].id != id ==> r[i] == ss[i]
  {
    UpdateWhere(ss, SessionHasId(id), FlipPin())
  }

  function FlipPin(): ChatSession -> ChatSession {
    (s: ChatSession) => s.(pinned := !s.pinned)
  }

  /** Pinning twice restores every pin. */
  lemma ToggledTwice(ss: seq<ChatSession>, id: string)
    ensures Toggled(Toggled(ss, id), id) == ss
  {
  }

  /** The updater of `renameSession`. */
  function Renamed(ss: seq<ChatSession>, id: string, title: string): (r: seq<ChatSession>)
    ensures |r| == |ss|
    ensures forall i :: 0 <= i < |ss| && ss[i].id == id ==> r[i] == ss[i].(title := title)
    ensures forall i :: 0 <= i < |ss| && ss[i].id != id ==> r[i] == ss[i]
  {
    UpdateWhere(ss, SessionHasId(id), Retitle(title))
  }

  function Retitle(title: string): ChatSession -> ChatSession {
    (s: ChatSession) => s.(title := title)
  }

  function SessionNotId(id: string): ChatSession -> bool {
    (s: ChatSession) => s.id != id
  }

  /** `prev.filter(s => s.id !== id)`. */
  function WithoutSession(ss: seq<ChatSession>, id: string): (r: seq<ChatSession>)
    ensures forall i :: 0 <= i < |r| ==> r[i].id != id && r[i] in ss
    ensures forall i :: 0 <= i < |ss| && ss[i].id != id ==> ss[i] in r
  {
    Filter(ss, SessionNotId(id))
  }

  /** The title a new session takes from its first message. */
  function TitleOf(content: string): (r: string)
    ensures r <= content && |r| == if |content| <= 30 then |content| else 30
  {
    Prefix(content, 30)
  }

  /** The preview a session takes from its first message: its start, then `...`. */
  function PreviewOf(content: string): (r: string)
    ensures |r| == 3 + (if |content| <= 40 then |content| else 40)
    ensures r[..|r| - 3] <= content && r[|r| - 3..] == "..."
  {
    Prefix(content, 40) + "..."
  }

  /** The user message of a send. */
  function UserMessage(text: string, file: Option<Attachment>, now: nat): (m: Message)
    ensures m.role == User && m.content == text && m.file == file && m.id == NatToString(now)
    ensures !m.isStreaming && !m.isError
  {
    Message(NatToString(now), User, text, now, file, false, false, false, false)
  }

  /** The empty assistant message a send adds for the reply to stream into. */
  function PendingReply(now: nat): (m: Message)
    ensures m.role == Assistant && m.content == "" && m.isStreaming && m.id == NatToString(now + 1)
  {
    Message(NatToString(now + 1), Assistant, "", now, None, true, false, false, false)
  }

  /** Streaming into a send's reply, which is addressed by the id
      `String(now + 1)`, leaves the user message `String(now)` alone. */
  lemma StreamSparesUserMessage(before: seq<Message>, text: string, file: Option<Attachment>, now: nat, content: string)
    ensures var ms := WithContent(before + [UserMessage(text, file, now), PendingReply(now)], NatToString(now + 1), content);
      ms[|before|] == UserMessage(text, file, now) && ms[|before| + 1] == PendingReply(now).(content := content)
  {
    NatToStringInjective(now, now + 1);
  }

  /** A send still running: its user message, the id of its reply, the
      reply text received so far, the provider it went to, and the session
      id of the render it started in, which is where `updateSessionHistory`
      records it. */
  datatype Exchange = Exchange(userMsg: Message, botId: string, responseText: string, provider: Provider, sessionId: string)

  class ChatApp {
    var activeTab: AppTab
    var currentModelId: string
    var messages: seq<Message>
    var loading: bool
    var currentSessionId: string
    var sessions: seq<ChatSession>
    var showMissingKeyToast: bool
    /** `abortControllerRef.current`, by creation number. */
    var controller: Option<nat>
    /** How many abort controllers have been created. */
    var controllers: nat
    /** `CHAT_MODELS`, the list the component routes by. */
    const models: seq<Model>
    /** The locals of every `handleSendMessage` call still running, oldest first. */
    var pending: seq<Exchange>
    /** The controllers aborted so far. */
    ghost var aborted: seq<nat>

    /** Loading exactly while a controller is held, and a held controller
        belongs to a send still running. */
    ghost predicate Valid()
      reads this
    {
      (loading <==> controller.Some?)
      && (controller.Some? ==> controller.value < controllers && |pending| > 0)
    }

    /** First render: the chat tab, the first listed model, no messages, a
        session id from the clock, no sessions. */
    constructor (now: nat)
      ensures Valid()
      ensures models == CHAT_MODELS
      ensures activeTab == ChatTab && currentModelId == CHAT_MODELS[0].id
      ensures messages == [] && sessions == [] && currentSessionId == NatToString(now)
      ensures !loading && controller == None && pending == [] && !showMissingKeyToast
    {
      models := CHAT_MODELS;
      activeTab := ChatTab;
      currentModelId := CHAT_MODELS[0].id;
      messages := [];
      loading := false;
      currentSessionId := NatToString(now);
      sessions := [];
      showMissingKeyToast := false;
      controller := None;
      controllers := 0;
      pending := [];
      aborted := [];
    }

    /** The startup effect's key check as written: both keys missing
        switches to Puter and shows the toast; only the Gemini key missing
        switches to `deepseek/deepseek-chat:free`, which the component then
        routes to Puter since it is not a listed id. Saved sessions and the
        theme are not part of this model. */
    method InitKeys(geminiKey: string, openRouterKey: string)
      requires Valid()
      modifies this`currentModelId, this`showMissingKeyToast
      ensures Valid()
      ensures currentModelId == StartupModelAsWritten(geminiKey, openRouterKey, old(currentModelId))
      ensures showMissingKeyToast == ((KeyMissing(geminiKey) && KeyMissing(openRouterKey)) || old(showMissingKeyToast))
    {
      var geminiMissing := KeyMissing(geminiKey);
      var openRouterMissing := KeyMissing(openRouterKey);
      if geminiMissing && openRouterMissing {
        currentModelId := PUTER_CHAT;
        showMissingKeyToast := true;
      } else if geminiMissing && !openRouterMissing {
        currentModelId := AS_WRITTEN_OPENROUTER_DEFAULT;
      }
    }

    /** `handleStop`: with a controller, abort it, drop it, stop loading and
        finish every streaming message with ` [Stopped]`; otherwise nothing. */
    method HandleStop()
      requires Valid()
      modifies this`controller, this`loading, this`messages, this`aborted
      ensures Valid()
      ensures old(controller).None? ==> messages == old(messages) && aborted == old(aborted) && !loading
      ensures old(controller).Some? ==>
        controller == None && !loading && messages == Stopped(old(messages))
        && aborted == old(aborted) + [old(controller).value]
    {
      if controller.Some? {
        aborted := aborted + [controller.value];
        controller := None;
        loading := false;
        messages := Stopped(messages);
      }
    }

    /** The synchronous part of `handleSendMessage`: blank text without a
        file is ignored; otherwise a running send is stopped, a fresh
        controller taken, the user message and an empty streaming reply
        appended, loading set, and the provider of the current model chosen. */
    method SendMessage(text: string, file: Option<Attachment>, now: nat) returns (started: bool)
      requires Valid()
      modifies this`controller, this`controllers, this`loading, this`messages, this`aborted, this`pending
      ensures Valid()
      ensures started <==> !(IsBlank(text) && file.None?)
      ensures !started ==>
        messages == old(messages) && controller == old(controller) && pending == old(pending)
        && loading == old(loading) && controllers == old(controllers) && aborted == old(aborted)
      ensures started ==> aborted == old(aborted) + (if old(controller).Some? then [old(controller).value] else [])
      ensures started ==>
        var before := if old(controller).Some? then Stopped(old(messages)) else old(messages);
        messages == before + [UserMessage(text, file, now), PendingReply(now)]
        && loading && controller == Some(old(controllers)) && controllers == old(controllers) + 1
        && pending == old(pending) + [Exchange(UserMessage(text, file, now), NatToString(now + 1), "",
                                               ProviderIn(models, currentModelId), currentSessionId)]
    {
      // `!text.trim()` holds exactly for blank text (TrimEmptyIffBlank).
      if IsBlank(text) && file.None? {
        return false;
      }
      if loading {
        HandleStop();
      }
      var userMsg := UserMessage(text, file, now);
      var reply := PendingReply(now);
      var provider := ProviderIn(models, currentModelId);
      controller := Some(controllers);
      controllers := controllers + 1;
      messages := messages + [userMsg, reply];
      loading := true;
      pending := pending + [Exchange(userMsg, reply.id, "", provider, currentSessionId)];
      started := true;
    }

    /** `onStream(chunk)` of the `j`-th running send: the chunk is added to
        its reply text, and its reply message shows the whole text so far. */
    method StreamChunk(j: nat, chunk: string)
      requires Valid() && j < |pending|
      modifies this`pending, this`messages
      ensures Valid()
      ensures pending == old(pending)[j := old(pending)[j].(responseText := old(pending)[j].responseText + chunk)]
      ensures messages == WithContent(old(messages), pending[j].botId, pending[j].responseText)
    {
      var x := pending[j];
      pending := pending[j := x.(responseText := x.responseText + chunk)];
      messages := WithContent(messages, x.botId, x.responseText + chunk);
    }

    /** The Hugging Face status callback of the `j`-th running send: its
        reply shows `_status_` in italics. */
    method StatusUpdate(j: nat, status: string)
      requires Valid() && j < |pending|
      modifies this`messages
      ensures messages == WithContent(old(messages), pending[j].botId, "_" + status + "_")
    {
      messages := WithContent(messages, pending[j].botId, "_" + status + "_");
    }

    /** The provider call of the `j`-th running send returned: its reply
        stops streaming, the exchange is recorded, with the text received,
        under the session id of the render the send started in, and the
        `finally` clause stops loading and drops the shared controller, even
        when a later send is the one holding it. */
    method FinishSend(j: nat, now: int)
      requires Valid() && j < |pending|
      modifies this`messages, this`sessions, this`loading, this`controller, this`pending
      ensures Valid()
      ensures !loading && controller == None && pending == old(pending)[..j] + old(pending)[j + 1..]
      ensures messages == Finished(old(messages), old(pending)[j].botId)
      ensures var x := old(pending)[j];
        sessions == Recorded(old(sessions), x.sessionId, x.userMsg,
                             Message(x.botId, Assistant, x.responseText, now, None, false, false, false, false), now)
      ensures currentSessionId == old(currentSessionId) && currentModelId == old(currentModelId)
    {
      var x := pending[j];
      messages := Finished(messages, x.botId);
      RecordExchange(x.sessionId, x.userMsg, Message(x.botId, Assistant, x.responseText, now, None, false, false, false, false), now);
      loading := false;
      controller := None;
      pending := pending[..j] + pending[j + 1..];
    }

    /** The provider call of the `j`-th running send threw: unless it was an
        abort, every streaming message turns into an error message; either
        way loading stops and the shared controller is dropped. Nothing is
        recorded in the history. */
    method FailSend(j: nat, isAbort: bool, errorMessage: string)
      requires Valid() && j < |pending|
      modifies this`messages, this`loading, this`controller, this`pending
      ensures Valid()
      ensures !loading && controller == None && pending == old(pending)[..j] + old(pending)[j + 1..]
      ensures messages == if isAbort then old(messages) else Failed(old(messages), errorMessage)
    {
      if !isAbort {
        messages := Failed(messages, errorMessage);
      }
      loading := false;
      controller := None;
      pending := pending[..j] + pending[j + 1..];
    }

    /** `updateSessionHistory(userMsg, botMsg)` as seen from the render whose
        current session id was `sessionId`: that session, when it exists, has
        the two messages pushed onto it in place and its time updated, its
        title and preview rewritten only if these are its first two
        messages; otherwise a new session holding just the two is put first. */
    method RecordExchange(sessionId: string, userMsg: Message, botMsg: Message, now: int)
      modifies this`sessions
      ensures sessions == Recorded(old(sessions), sessionId, userMsg, botMsg, now)
    {
      var k := FindIndex(sessions, SessionHasId(sessionId));
      if k.Some? {
        var session := sessions[k.value];
        session := session.(messages := session.messages + [userMsg, botMsg]);
        session := session.(lastUpdated := now);
        if |session.messages| <= 2 {
          session := session.(preview := PreviewOf(userMsg.content));
          session := session.(title := TitleOf(userMsg.content));
        }
        sessions := sessions[k.value := session];
      } else {
        sessions := [ChatSession(sessionId, TitleOf(userMsg.content), [userMsg, botMsg], now, PreviewOf(userMsg.content), false)] + sessions;
      }
    }

    /** `pinSession(id)`: flip the pin of that session, then sort the list in
        place, pinned first, most recently updated first within each group. */
    method PinSession(id: string)
      modifies this`sessions
      ensures Sorted(sessions)
      ensures multiset(sessions) == multiset(Toggled(old(sessions), id))
    {
      var updated := Toggled(sessions, id);
      var a := new ChatSession[|updated|](i requires 0 <= i < |updated| => updated[i]);
      assert a[..] == updated;
      SortSessions(a);
      sessions := a[..];
    }

    /** `handleMessageDelete(id)`: the message goes from the screen and from the current session. */
    method DeleteMessage(id: string)
      modifies this`messages, this`sessions
      ensures messages == WithoutMessage(old(messages), id)
      ensures sessions == SessionsWithoutMessage(old(sessions), currentSessionId, id)
    {
      messages := WithoutMessage(messages, id);
      sessions := SessionsWithoutMessage(sessions, currentSessionId, id);
    }

    /** `handleMessageEdit(id, content)`: only the message on screen changes; the history does not. */
    method EditMessage(id: string, content: string)
      modifies this`messages
      ensures messages == WithContent(old(messages), id, content)
    {
      messages := WithContent(messages, id, content);
    }

    /** `handleFeedback(id, type)`. */
    method GiveFeedback(id: string, kind: Feedback)
      modifies this`messages
      ensures messages == WithFeedback(old(messages), id, kind)
    {
      messages := WithFeedback(messages, id, kind);
    }

    /** `handleRegenerate(botMsgId)`: when the reply is not the first
        message and follows a user message, the list is cut just before the
        reply and that user message is sent again; otherwise nothing happens. */
    method Regenerate(botMsgId: string, now: nat) returns (resent: bool)
      requires Valid()
      modifies this`controller, this`controllers, this`loading, this`messages, this`aborted, this`pending
      ensures Valid()
      ensures var k := FindIndex(old(messages), HasId(botMsgId));
        if k.Some? && k.value > 0 && old(messages)[k.value - 1].role == User then
          var userMsg := old(messages)[k.value - 1];
          var kept := old(messages)[..k.value];
          resent == !IsBlank(userMsg.content)
          && (resent ==>
                messages == (if old(controller).Some? then Stopped(kept) else kept)
                            + [UserMessage(userMsg.content, None, now), PendingReply(now)]
                && pending == old(pending) + [Exchange(UserMessage(userMsg.content, None, now), NatToString(now + 1), "",
                                                       ProviderIn(models, currentModelId), currentSessionId)])
          && (!resent ==> messages == kept && pending == old(pending))
        else
          !resent && messages == old(messages) && pending == old(pending)
      ensures resent ==>
        loading && controller == Some(old(controllers)) && controllers == old(controllers) + 1
        && aborted == old(aborted) + (if old(controller).Some? then [old(controller).value] else [])
      ensures !resent ==>
        loading == old(loading) && controller == old(controller)
        && controllers == old(controllers) && aborted == old(aborted)
    {
      var k := FindIndex(messages, HasId(botMsgId));
      resent := false;
      if k.Some? && k.value > 0 {
        var userMsg := messages[k.value - 1];
        if userMsg.role == User {
          messages := messages[..k.value];
          resent := SendMessage(userMsg.content, None, now);
        }
      }
    }

    /** `deleteSession(id)`: the session leaves the list; deleting the
        current one also starts a new chat under a fresh id. */
    method DeleteSession(id: string, now: nat)
      modifies this`sessions, this`currentSessionId, this`messages, this`activeTab
      ensures sessions == WithoutSession(old(sessions), id)
      ensures old(currentSessionId) == id ==>
        currentSessionId == NatToString(now) && messages == [] && activeTab == ChatTab
      ensures old(currentSessionId) != id ==>
        currentSessionId == old(currentSessionId) && messages == old(messages) && activeTab == old(activeTab)
    {
      sessions := WithoutSession(sessions, id);
      if currentSessionId == id {
        currentSessionId := NatToString(now);
        messages := [];
        activeTab := ChatTab;
      }
    }

    /** `renameSession(id, title)`. */
    method RenameSession(id: string, title: string)
      modifies this`sessions
      ensures sessions == Renamed(old(sessions), id, title)
    {
      sessions := Renamed(sessions, id, title);
    }
  }

  /** The history after one exchange, as `updateSessionHistory` leaves it. */
  function Recorded(ss: seq<ChatSession>, sessionId: string, userMsg: Message, botMsg: Message, now: int): (r: seq<ChatSession>)
    ensures var k := FindIndex(ss, SessionHasId(sessionId));
      k.Some? ==> |r| == |ss| && r[k.value].messages == ss[k.value].messages + [userMsg, botMsg]
    ensures (forall i :: 0 <= i < |ss| ==> ss[i].id != sessionId) ==>
      r == [ChatSession(sessionId, TitleOf(userMsg.content), [userMsg, botMsg], now, PreviewOf(userMsg.content), false)] + ss
  {
    match FindIndex(ss, SessionHasId(sessionId))
    case Some(k) =>
      var session := ss[k].(messages := ss[k].messages + [userMsg, botMsg], lastUpdated := now);
      if |session.messages| <= 2 then
        ss[k := session.(preview := PreviewOf(userMsg.content), title := TitleOf(userMsg.content))]
      else ss[k := session]
    case None =>
      [ChatSession(sessionId, TitleOf(userMsg.content), [userMsg, botMsg], now, PreviewOf(userMsg.content), false)] + ss
  }

  /** Recording touches only the current session: every other one is left
      as it was, the current one keeps its id and pin and gets exactly the
      two messages and the new time, and its title and preview change only
      on its first exchange. */
  lemma RecordedOnlyCurrent(ss: seq<ChatSession>, sessionId: string, userMsg: Message, botMsg: Message, now: int, k: nat)
    requires k < |ss| && ss[k].id == sessionId && forall i :: 0 <= i < k ==> ss[i].id != sessionId
    ensures var r := Recorded(ss, sessionId, userMsg, botMsg, now);
      |r| == |ss|
      && (forall i :: 0 <= i < |ss| && i != k ==> r[i] == ss[i])
      && r[k].id == sessionId && r[k].pinned == ss[k].pinned && r[k].lastUpdated == now
      && r[k].messages == ss[k].messages + [userMsg, botMsg]
      && (ss[k].messages == [] ==> r[k].title == TitleOf(userMsg.content) && r[k].preview == PreviewOf(userMsg.content))
      && (ss[k].messages != [] ==> r[k].title == ss[k].title && r[k].preview == ss[k].preview)
  {
    var f := FindIndex(ss, SessionHasId(sessionId));
    assert f == Some(k);
  }
}
