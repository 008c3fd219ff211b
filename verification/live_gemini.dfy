/**
 * `GeminiLiveClient` (services/liveGemini.ts): a duplex voice session over a
 * WebSocket. The socket, the audio context, the microphone stream and the
 * script processor are abstract handles; every platform callback (`onopen`,
 * `onmessage`, `onerror`, `onclose`, `onaudioprocess`, the microphone
 * promise settling, a frame's `onended`) is a method the environment calls.
 * What the client emits, sends and schedules is recorded in ghost traces.
 */
module LiveGemini {
  import opened Wrappers
  import opened JsString
  import opened PcmCodec
  import opened Base64
  import opened LiveAudio

  const DEFAULT_URL: string := "wss://generativelanguage.googleapis.com/ws/google.ai.generativelanguage.v1alpha.GenericMultimodalService.Root"
  const DEFAULT_MODEL: string := "models/gemini-2.0-flash-exp"
  /** The only response modality the setup envelope asks for. */
  const AUDIO: string := "AUDIO"
  /** The tag of every captured chunk. */
  const INPUT_MIME: string := "audio/pcm;rate=16000"
  /** Inbound parts whose type starts with this are played. */
  const AUDIO_PREFIX: string := "audio/pcm"
  /** The script processor's buffer size: samples per captured block. */
  const BLOCK_SIZE: nat := 4096

  /** `WebSocket.readyState`. */
  datatype ReadyState = Connecting | Open | Closing | Closed

  /** A socket the client created: the URL it dialled, the model its
      `onopen` closure will ask for, and its state. */
  datatype Socket = Socket(url: string, model: string, state: ReadyState)

  datatype ErrorCause = NoApiKey | MicrophoneFailed | MicrophoneSetupFailed | SocketError

  /** What the client emits to its listeners. */
  datatype Event = Connected | Disconnected | Speaking(on: bool) | TurnComplete | Error(cause: ErrorCause)

  datatype MediaChunk = MediaChunk(mimeType: string, data: string)

  /** The JSON envelopes the client sends. */
  datatype Envelope =
    | Setup(model: string, responseModalities: seq<string>)
    | RealtimeInput(mediaChunks: seq<MediaChunk>)

  /** An inbound message, as parsed. */
  datatype InlineData = InlineData(mimeType: string, data: string)
  datatype Part = Part(inlineData: Option<InlineData>)
  datatype ModelTurn = ModelTurn(parts: Option<seq<Part>>)
  datatype ServerContent = ServerContent(modelTurn: Option<ModelTurn>, turnComplete: bool)
  datatype ServerMessage = ServerMessage(serverContent: Option<ServerContent>)

  /** `apiKey || VITE_GEMINI_API_KEY`: the argument unless it is empty. */
  function FinalKey(apiKey: string, envKey: string): (k: string)
    ensures k == "" <==> apiKey == "" && envKey == ""
  {
    if apiKey != "" then apiKey else envKey
  }

  /** `ws.close()`: a connecting or open socket starts closing; otherwise nothing happens. */
  function CloseState(st: ReadyState): (r: ReadyState)
    ensures r == Closing || r == Closed
    ensures st == Closed ==> r == Closed
  {
    match st
    case Connecting => Closing
    case Open => Closing
    case Closing => Closing
    case Closed => Closed
  }

  /** The sockets after `ws.close()` on the current one, if any. */
  function AfterClose(ss: seq<Socket>, ws: Option<nat>): (r: seq<Socket>)
    ensures |r| == |ss|
    ensures forall s :: 0 <= s < |ss| && ws != Some(s) ==> r[s] == ss[s]
    ensures ws.Some? && ws.value < |ss| ==> r[ws.value] == ss[ws.value].(state := CloseState(ss[ws.value].state))
  {
    if ws.Some? && ws.value < |ss| then ss[ws.value := ss[ws.value].(state := CloseState(ss[ws.value].state))] else ss
  }

  /** The payloads of the parts `onmessage` plays, in part order. */
  function AudioData(parts: seq<Part>): (r: seq<string>)
    ensures |r| <= |parts|
  {
    if parts == [] then []
    else
      var last := parts[|parts| - 1];
      AudioData(parts[..|parts| - 1]) + (if IsAudio(last) then [last.inlineData.value.data] else [])
  }

  /** A part `onmessage` plays: inline data whose type starts with `audio/pcm`. */
  predicate IsAudio(p: Part) {
    p.inlineData.Some? && StartsWith(p.inlineData.value.mimeType, AUDIO_PREFIX)
  }

  /** Every payload kept comes from an audio part, and every audio part's payload is kept. */
  lemma {:induction false} AudioDataFaithful(parts: seq<Part>)
    ensures forall d :: d in AudioData(parts) ==>
      exists i :: 0 <= i < |parts| && IsAudio(parts[i]) && parts[i].inlineData.value.data == d
    ensures forall i :: 0 <= i < |parts| && IsAudio(parts[i]) ==> parts[i].inlineData.value.data in AudioData(parts)
  {
    if parts != [] {
      var prefix := parts[..|parts| - 1];
      AudioDataFaithful(prefix);
      forall d | d in AudioData(parts)
        ensures exists i :: 0 <= i < |parts| && IsAudio(parts[i]) && parts[i].inlineData.value.data == d
      {
        if d in AudioData(prefix) {
          var i :| 0 <= i < |prefix| && IsAudio(prefix[i]) && prefix[i].inlineData.value.data == d;
          assert parts[i] == prefix[i];
        } else {
          assert IsAudio(parts[|parts| - 1]) && parts[|parts| - 1].inlineData.value.data == d;
        }
      }
      forall i | 0 <= i < |parts| && IsAudio(parts[i]) ensures parts[i].inlineData.value.data in AudioData(parts) {
        if i < |prefix| {
          assert prefix[i] == parts[i];
        }
      }
    }
  }

  /** The parts of a message's model turn (none when any level is missing). */
  function MessageParts(msg: ServerMessage): seq<Part> {
    match msg.serverContent
    case None => []
    case Some(sc) =>
      match sc.modelTurn
      case None => []
      case Some(turn) => turn.parts.GetOr([])
  }

  /** The audio payloads of a message's model turn. */
  function MessageAudio(msg: ServerMessage): seq<string> {
    AudioData(MessageParts(msg))
  }

  function MessageTurnComplete(msg: ServerMessage): bool {
    msg.serverContent.Some? && msg.serverContent.value.turnComplete
  }

  /** The events `onmessage` ends with once its parts are done: `turnComplete` when the message says so. */
  function TurnEnd(msg: ServerMessage): seq<Event> {
    if MessageTurnComplete(msg) then [TurnComplete] else []
  }

  /** `k` copies of one event. */
  function Repeat(e: Event, k: nat): (r: seq<Event>)
    ensures |r| == k && (k > 0 ==> r[k - 1] == e)
  {
    if k == 0 then [] else Repeat(e, k - 1) + [e]
  }

  lemma AppendAssoc<T>(a: seq<T>, b: seq<T>, c: seq<T>)
    ensures a + b + c == a + (b + c)
  {
  }

  /** `float32ToInt16` as a value: every sample encoded. */
  function EncodeBlock(samples: seq<real>): (pcm: seq<Int16>)
    ensures |pcm| == |samples|
    ensures forall i :: 0 <= i < |samples| ==> pcm[i] == EncodeSample(samples[i])
  {
    seq(|samples|, i requires 0 <= i < |samples| => EncodeSample(samples[i]))
  }

  /** The envelope `onaudioprocess` sends for one captured block: one chunk,
      tagged as 16 kHz PCM, holding the base64 of the block's little-endian
      int16 bytes. */
  function CaptureEnvelope(samples: seq<real>): (e: Envelope)
    ensures e.RealtimeInput? && |e.mediaChunks| == 1 && e.mediaChunks[0].mimeType == INPUT_MIME
    ensures |samples| > 0 ==> Pcm(e.mediaChunks[0].data) == Some(EncodeBlock(samples))
  {
    var e := RealtimeInput([MediaChunk(INPUT_MIME, Encode(LittleEndianBytes(EncodeBlock(samples))))]);
    if |samples| > 0 then PcmOfEncoded(EncodeBlock(samples)); e else e
  }

  /** The first envelope sent on socket `s`, if any. */
  function FirstOn(sent: seq<(nat, Envelope)>, s: nat): Option<Envelope> {
    if sent == [] then None
    else
      var earlier := FirstOn(sent[..|sent| - 1], s);
      if earlier.Some? then earlier
      else if sent[|sent| - 1].0 == s then Some(sent[|sent| - 1].1)
      else None
  }

  /** `FirstOn` finds the earliest envelope on `s`, and finds one exactly when there is one. */
  lemma {:induction false} FirstOnIsFirst(sent: seq<(nat, Envelope)>, s: nat)
    ensures FirstOn(sent, s).Some? ==>
      exists k :: 0 <= k < |sent| && sent[k] == (s, FirstOn(sent, s).value) && forall j :: 0 <= j < k ==> sent[j].0 != s
    ensures FirstOn(sent, s).None? ==> forall k :: 0 <= k < |sent| ==> sent[k].0 != s
  {
    if sent != [] {
      var prefix := sent[..|sent| - 1];
      FirstOnIsFirst(prefix, s);
      if FirstOn(prefix, s).Some? {
        var k :| 0 <= k < |prefix| && prefix[k] == (s, FirstOn(prefix, s).value) && forall j :: 0 <= j < k ==> prefix[j].0 != s;
        assert sent[k] == prefix[k];
        assert forall j :: 0 <= j < k ==> sent[j] == prefix[j];
      } else {
        assert forall k :: 0 <= k < |prefix| ==> sent[k] == prefix[k];
      }
    }
  }

  /** Nothing has been sent on a socket newer than every entry of the trace. */
  lemma {:induction false} FirstOnUnused(sent: seq<(nat, Envelope)>, s: nat)
    requires forall k :: 0 <= k < |sent| ==> sent[k].0 < s
    ensures FirstOn(sent, s).None?
  {
    if sent != [] {
      FirstOnUnused(sent[..|sent| - 1], s);
    }
  }

  /** The protocol rule the client keeps: the first envelope on every socket is its setup. */
  ghost predicate SetupFirst(sent: seq<(nat, Envelope)>) {
    forall s :: FirstOn(sent, s).Some? ==> FirstOn(sent, s).value.Setup?
  }

  /** Appending to the trace can only set the first envelope of a socket that had none. */
  lemma FirstOnAppend(sent: seq<(nat, Envelope)>, x: nat, e: Envelope, s: nat)
    ensures FirstOn(sent + [(x, e)], s) == if FirstOn(sent, s).Some? then FirstOn(sent, s) else if x == s then Some(e) else None
  {
    assert (sent + [(x, e)])[..|sent|] == sent;
  }

  /** Only the current socket may still be connecting or open; connected means the current socket is open or closing. */
  ghost predicate SocketsOk(ss: seq<Socket>, ws: Option<nat>, connected: bool) {
    (ws.Some? ==> ws.value < |ss|)
    && (forall s :: 0 <= s < |ss| && ws != Some(s) ==> ss[s].state == Closing || ss[s].state == Closed)
    && (connected ==> ws.Some? && (ss[ws.value].state == Open || ss[ws.value].state == Closing))
  }

  /** Sends only go to sockets the client created; nothing has gone out on a
      connecting socket; an open socket has had its setup; every socket's first envelope is its setup. */
  ghost predicate TraceOk(ss: seq<Socket>, sent: seq<(nat, Envelope)>) {
    (forall k :: 0 <= k < |sent| ==> sent[k].0 < |ss|)
    && (forall s :: 0 <= s < |ss| && ss[s].state == Connecting ==> FirstOn(sent, s).None?)
    && (forall s :: 0 <= s < |ss| && ss[s].state == Open ==> FirstOn(sent, s).Some?)
    && SetupFirst(sent)
  }

  /** Frames never overlap and all end by the cursor. */
  ghost predicate PlaybackOk(frames: seq<Frame>, cursor: real) {
    Chained(frames) && (|frames| > 0 ==> End(frames[|frames| - 1]) <= cursor)
  }

  /** A newly dialled socket keeps the trace rules. */
  lemma TraceNewSocket(ss: seq<Socket>, sent: seq<(nat, Envelope)>, sock: Socket)
    requires TraceOk(ss, sent) && sock.state == Connecting
    ensures TraceOk(ss + [sock], sent)
  {
    FirstOnUnused(sent, |ss|);
    var ss' := ss + [sock];
    forall s | 0 <= s < |ss'| && ss'[s].state == Connecting ensures FirstOn(sent, s).None? {
      if s < |ss| { assert ss'[s] == ss[s]; }
    }
    forall s | 0 <= s < |ss'| && ss'[s].state == Open ensures FirstOn(sent, s).Some? {
      assert s < |ss| && ss'[s] == ss[s];
    }
  }

  /** A socket starting to close, or closed, keeps the trace rules. */
  lemma TraceWindDown(ss: seq<Socket>, sent: seq<(nat, Envelope)>, sock: nat, st: ReadyState)
    requires TraceOk(ss, sent) && sock < |ss| && (st == Closing || st == Closed)
    ensures TraceOk(ss[sock := ss[sock].(state := st)], sent)
  {
  }

  /** Opening a connecting socket and sending its setup keeps the trace rules. */
  lemma TraceOpen(ss: seq<Socket>, sent: seq<(nat, Envelope)>, sock: nat, model: string)
    requires TraceOk(ss, sent) && sock < |ss| && ss[sock].state == Connecting
    ensures TraceOk(ss[sock := ss[sock].(state := Open)], sent + [(sock, Setup(model, [AUDIO]))])
    ensures FirstOn(sent + [(sock, Setup(model, [AUDIO]))], sock) == Some(Setup(model, [AUDIO]))
  {
    var e := Setup(model, [AUDIO]);
    var sent' := sent + [(sock, e)];
    var ss' := ss[sock := ss[sock].(state := Open)];
    FirstOnAppend(sent, sock, e, sock);
    forall s | FirstOn(sent', s).Some? ensures FirstOn(sent', s).value.Setup? {
      FirstOnAppend(sent, sock, e, s);
    }
    forall s | 0 <= s < |ss'| && ss'[s].state == Connecting ensures FirstOn(sent', s).None? {
      FirstOnAppend(sent, sock, e, s);
    }
    forall s | 0 <= s < |ss'| && ss'[s].state == Open ensures FirstOn(sent', s).Some? {
      FirstOnAppend(sent, sock, e, s);
    }
    assert forall k :: 0 <= k < |sent'| ==> sent'[k].0 < |ss'| by {
      forall k | 0 <= k < |sent'| ensures sent'[k].0 < |ss'| {
        if k < |sent| { assert sent'[k] == sent[k]; }
      }
    }
  }

  /** Sending on an open socket keeps the trace rules. */
  lemma TraceSend(ss: seq<Socket>, sent: seq<(nat, Envelope)>, sock: nat, e: Envelope)
    requires TraceOk(ss, sent) && sock < |ss| && ss[sock].state == Open
    ensures TraceOk(ss, sent + [(sock, e)])
  {
    var sent' := sent + [(sock, e)];
    forall s | FirstOn(sent', s).Some? ensures FirstOn(sent', s).value.Setup? {
      FirstOnAppend(sent, sock, e, s);
    }
    forall s | 0 <= s < |ss| && ss[s].state == Connecting ensures FirstOn(sent', s).None? {
      FirstOnAppend(sent, sock, e, s);
    }
    forall s | 0 <= s < |ss| && ss[s].state == Open ensures FirstOn(sent', s).Some? {
      FirstOnAppend(sent, sock, e, s);
    }
    assert forall k :: 0 <= k < |sent'| ==> sent'[k].0 < |ss| by {
      forall k | 0 <= k < |sent'| ensures sent'[k].0 < |ss| {
        if k < |sent| { assert sent'[k] == sent[k]; }
      }
    }
  }

  /** One more frame at the later of the cursor and `now` keeps playback
      frames disjoint and behind the advanced cursor. */
  lemma PlaybackStep(frames: seq<Frame>, cursor: real, now: real, block: seq<real>)
    requires PlaybackOk(frames, cursor)
    ensures PlaybackOk(frames + [Frame(Max(cursor, now), block)], Max(cursor, now) + Duration(|block|))
  {
    ChainedAppend(frames, [Frame(Max(cursor, now), block)]);
  }

  class GeminiLiveClient {
    const url: string
    /** Every socket this client created, indexed by creation order. */
    var sockets: seq<Socket>
    var ws: Option<nat>
    var audioContext: Option<nat>
    var mediaStream: Option<nat>
    var audioProcessor: Option<nat>
    var nextAudioTime: real
    var isConnected: bool
    /** How many audio handles have been created; the next one gets this number. */
    var handles: nat
    /** The current audio context's clock as last observed. */
    ghost var clock: real
    /** Microphone requests not yet settled. */
    ghost var pendingMicrophone: nat
    ghost var events: seq<Event>
    ghost var sent: seq<(nat, Envelope)>
    ghost var frames: seq<Frame>

    ghost predicate Valid()
      reads this
    {
      SocketsOk(sockets, ws, isConnected) && PlaybackOk(frames, nextAudioTime) && TraceOk(sockets, sent)
    }

    /** `new GeminiLiveClient(url?)`: nothing open, the cursor at 0. */
    constructor (url: Option<string>)
      ensures Valid()
      ensures this.url == url.GetOr(DEFAULT_URL)
      ensures sockets == [] && ws == None && !isConnected && nextAudioTime == 0.0
      ensures audioContext == None && mediaStream == None && audioProcessor == None
      ensures events == [] && sent == [] && frames == [] && pendingMicrophone == 0
    {
      this.url := url.GetOr(DEFAULT_URL);
      sockets := [];
      ws := None;
      audioContext := None;
      mediaStream := None;
      audioProcessor := None;
      nextAudioTime := 0.0;
      isConnected := false;
      handles := 0;
      clock := 0.0;
      pendingMicrophone := 0;
      events := [];
      sent := [];
      frames := [];
    }

    /** `connect`: tear down an existing session, refuse an empty key with
        an `error` event and no socket, otherwise dial a new socket. */
    method Connect(apiKey: string, model: Option<string>, envKey: string)
      requires Valid()
      modifies this
      ensures Valid()
      ensures !isConnected
      ensures var ss := AfterClose(old(sockets), old(ws));
        if FinalKey(apiKey, envKey) == "" then
          sockets == ss && ws == None && events == old(events) + [Error(NoApiKey)]
        else
          sockets == ss + [Socket(url + "?key=" + FinalKey(apiKey, envKey), model.GetOr(DEFAULT_MODEL), Connecting)]
          && ws == Some(|ss|) && events == old(events)
      ensures old(ws).Some? ==> audioContext == None && mediaStream == None && audioProcessor == None
      ensures old(ws).None? ==> audioContext == old(audioContext) && mediaStream == old(mediaStream) && audioProcessor == old(audioProcessor)
      ensures nextAudioTime == old(nextAudioTime) && frames == old(frames) && sent == old(sent)
      ensures handles == old(handles) && clock == old(clock) && pendingMicrophone == old(pendingMicrophone)
    {
      if ws.Some? {
        Disconnect();
      }
      var key := FinalKey(apiKey, envKey);
      if key == "" {
        events := events + [Error(NoApiKey)];
        return;
      }
      TraceNewSocket(sockets, sent, Socket(url + "?key=" + key, model.GetOr(DEFAULT_MODEL), Connecting));
      sockets := sockets + [Socket(url + "?key=" + key, model.GetOr(DEFAULT_MODEL), Connecting)];
      ws := Some(|sockets| - 1);
    }

    /** `onopen` of a connecting socket (necessarily the current one): mark
        connected, emit `connected`, send the setup envelope, then start
        capture (a new audio context, a microphone request). */
    method HandleOpen(sock: nat)
      requires Valid() && sock < |sockets| && sockets[sock].state == Connecting
      modifies this
      ensures Valid()
      ensures old(ws) == Some(sock) && ws == old(ws)
      ensures sockets == old(sockets)[sock := old(sockets)[sock].(state := Open)]
      ensures isConnected
      ensures events == old(events) + [Connected]
      ensures sent == old(sent) + [(sock, Setup(old(sockets)[sock].model, [AUDIO]))]
      ensures FirstOn(sent, sock) == Some(Setup(old(sockets)[sock].model, [AUDIO]))
      ensures audioContext == Some(old(handles)) && handles == old(handles) + 1 && clock == 0.0
      ensures pendingMicrophone == old(pendingMicrophone) + 1
      ensures mediaStream == old(mediaStream) && audioProcessor == old(audioProcessor)
      ensures nextAudioTime == old(nextAudioTime) && frames == old(frames)
    {
      TraceOpen(sockets, sent, sock, sockets[sock].model);
      sockets := sockets[sock := sockets[sock].(state := Open)];
      isConnected := true;
      events := events + [Connected];
      if ws.Some? {
        sent := sent + [(ws.value, Setup(sockets[sock].model, [AUDIO]))];
      }
      StartAudioInput();
    }

    /** The synchronous part of `startAudioInput`: a new audio context (its
        clock starting at 0) and a pending microphone request. */
    method StartAudioInput()
      requires Valid()
      modifies this`audioContext, this`handles, this`clock, this`pendingMicrophone
      ensures Valid()
      ensures audioContext == Some(old(handles)) && handles == old(handles) + 1 && clock == 0.0
      ensures pendingMicrophone == old(pendingMicrophone) + 1
    {
      audioContext := Some(handles);
      handles := handles + 1;
      clock := 0.0;
      pendingMicrophone := pendingMicrophone + 1;
    }

    /** The rest of `startAudioInput`, once `getUserMedia` settles. A refusal
        emits `error`. A granted stream is kept; wiring it needs the audio
        context, and when a disconnect has dropped that in the meantime the
        `TypeError` is reported as an `error` while the stream stays held. */
    method HandleMicrophone(granted: bool)
      requires Valid() && pendingMicrophone > 0
      modifies this
      ensures Valid()
      ensures pendingMicrophone == old(pendingMicrophone) - 1
      ensures !granted ==> (events == old(events) + [Error(MicrophoneFailed)]
        && handles == old(handles) && mediaStream == old(mediaStream) && audioProcessor == old(audioProcessor))
      ensures granted ==> mediaStream == Some(old(handles))
      ensures granted && old(audioContext).None? ==> (events == old(events) + [Error(MicrophoneSetupFailed)]
        && audioProcessor == old(audioProcessor) && handles == old(handles) + 1)
      ensures granted && old(audioContext).Some? ==> (events == old(events)
        && audioProcessor == Some(old(handles) + 1) && handles == old(handles) + 2)
      ensures audioContext == old(audioContext) && sockets == old(sockets) && ws == old(ws)
      ensures isConnected == old(isConnected) && nextAudioTime == old(nextAudioTime)
      ensures sent == old(sent) && frames == old(frames) && clock == old(clock)
    {
      pendingMicrophone := pendingMicrophone - 1;
      if !granted {
        events := events + [Error(MicrophoneFailed)];
        return;
      }
      mediaStream := Some(handles);
      handles := handles + 1;
      if audioContext.None? {
        events := events + [Error(MicrophoneSetupFailed)];
        return;
      }
      audioProcessor := Some(handles);
      handles := handles + 1;
    }

    /** `onaudioprocess`: a captured block goes out as exactly one envelope,
        and only while the client is connected and the socket is open. */
    method HandleAudioProcess(samples: seq<real>)
      requires Valid() && |samples| == BLOCK_SIZE
      modifies this`sent
      ensures Valid()
      ensures var gate := isConnected && ws.Some? && sockets[ws.value].state == Open;
        sent == old(sent) + (if gate then [(ws.value, CaptureEnvelope(samples))] else [])
    {
      if !isConnected {
        return;
      }
      var pcm := Float32ToInt16(samples);
      assert pcm == EncodeBlock(samples);
      var text := ArrayBufferToBase64(LittleEndianBytes(pcm));
      if ws.Some? && sockets[ws.value].state == Open {
        TraceSend(sockets, sent, ws.value, RealtimeInput([MediaChunk(INPUT_MIME, text)]));
        sent := sent + [(ws.value, RealtimeInput([MediaChunk(INPUT_MIME, text)]))];
      }
    }

    /** `queueAudio` at audio time `now`. Without an audio context nothing
        happens. Otherwise a chunk that cannot be decoded throws (`ok` is
        false, nothing changes); a decodable one is scheduled at the later of
        the cursor and `now`, the cursor moves past it and `speaking(true)`
        is emitted. */
    method QueueAudio(data: string, now: real) returns (ok: bool)
      requires PlaybackOk(frames, nextAudioTime) && (audioContext.Some? ==> now >= clock)
      modifies this`nextAudioTime, this`frames, this`events, this`clock
      ensures PlaybackOk(frames, nextAudioTime)
      ensures old(audioContext).None? ==> (ok && nextAudioTime == old(nextAudioTime)
        && frames == old(frames) && events == old(events) && clock == old(clock))
      ensures old(audioContext).Some? ==> ok == Pcm(data).Some? && clock == now
      ensures old(audioContext).Some? && ok ==>
        var block := DecodeBlock(Pcm(data).value);
        frames == old(frames) + [Frame(Max(old(nextAudioTime), now), block)]
        && nextAudioTime == Max(old(nextAudioTime), now) + Duration(|block|)
        && events == old(events) + [Speaking(true)]
      ensures old(audioContext).Some? && !ok ==>
        (nextAudioTime == old(nextAudioTime) && frames == old(frames) && events == old(events))
      ensures nextAudioTime >= old(nextAudioTime)
    {
      ok := true;
      if audioContext.None? {
        return;
      }
      clock := now;
      var decoded := DecodeChunk(data);
      if decoded.None? {
        ok := false;
        return;
      }
      var samples := decoded.value;
      PlaybackStep(frames, nextAudioTime, now, samples);
      if nextAudioTime < now {
        nextAudioTime := now;
      }
      frames := frames + [Frame(nextAudioTime, samples)];
      nextAudioTime := nextAudioTime + Duration(|samples|);
      events := events + [Speaking(true)];
    }

    /** `onmessage` on the open socket at audio time `now`: the audio parts
        are queued in part order until one throws, which ends the handler;
        `turnComplete` is emitted after them when the handler got that far. */
    method HandleMessage(sock: nat, msg: ServerMessage, now: real)
      requires Valid() && sock < |sockets| && sockets[sock].state == Open
      requires audioContext.Some? ==> now >= clock
      modifies this`nextAudioTime, this`frames, this`events, this`clock
      ensures Valid()
      ensures old(audioContext).None? ==>
        frames == old(frames) && nextAudioTime == old(nextAudioTime) && events == old(events) + TurnEnd(msg)
      ensures old(audioContext).Some? ==>
        var blocks := Blocks(Chunks(MessageAudio(msg)));
        var p := PlaybackOf(blocks, now, old(nextAudioTime), old(frames), old(events));
        frames == p.frames && nextAudioTime == p.cursor
        && events == p.events + (if |blocks| == |MessageAudio(msg)| then TurnEnd(msg) else [])
    {
      var parts := MessageParts(msg);
      var completed := PlayParts(parts, now);
      if !completed {
        return;
      }
      if MessageTurnComplete(msg) {
        events := events + [TurnComplete];
      }
    }

    /** The `for (const part of parts)` loop of `onmessage`: `completed` is
        false when a `queueAudio` call threw and cut the handler short. */
    method PlayParts(parts: seq<Part>, now: real) returns (completed: bool)
      requires PlaybackOk(frames, nextAudioTime) && (audioContext.Some? ==> now >= clock)
      modifies this`nextAudioTime, this`frames, this`events, this`clock
      ensures PlaybackOk(frames, nextAudioTime) && audioContext == old(audioContext)
      ensures old(audioContext).None? ==>
        (completed && frames == old(frames) && nextAudioTime == old(nextAudioTime) && events == old(events))
      ensures old(audioContext).Some? ==>
        var blocks := Blocks(Chunks(AudioData(parts)));
        completed == (|blocks| == |AudioData(parts)|)
        && Playback(frames, nextAudioTime, events) == PlaybackOf(blocks, now, old(nextAudioTime), old(frames), old(events))
    {
      ghost var c0, f0, e0 := nextAudioTime, frames, events;
      ghost var playing := audioContext.Some?;
      PlayedNothing(parts, now, c0, f0, e0);
      completed := true;
      var i := 0;
      while i < |parts|
        invariant 0 <= i <= |parts|
        invariant PlaybackOk(frames, nextAudioTime)
        invariant audioContext == old(audioContext) && (audioContext.Some? ==> now >= clock)
        invariant PlayedSoFar(parts, i, now, c0, f0, e0, playing, Playback(frames, nextAudioTime, events))
      {
        var ok := PlayPart(parts, i, now, c0, f0, e0);
        if !ok {
          completed := false;
          break;
        }
        i := i + 1;
      }
      PartsPlayed(parts, i, now, c0, f0, e0, playing, Playback(frames, nextAudioTime, events), completed);
    }

    /** One turn of the part loop: skip a part that is not audio, queue one that is. */
    method PlayPart(parts: seq<Part>, i: nat, now: real, ghost c0: real, ghost f0: seq<Frame>, ghost e0: seq<Event>)
      returns (ok: bool)
      requires PlaybackOk(frames, nextAudioTime) && i < |parts| && (audioContext.Some? ==> now >= clock)
      requires PlayedSoFar(parts, i, now, c0, f0, e0, audioContext.Some?, Playback(frames, nextAudioTime, events))
      modifies this`nextAudioTime, this`frames, this`events, this`clock
      ensures PlaybackOk(frames, nextAudioTime) && audioContext == old(audioContext) && (audioContext.Some? ==> now >= clock)
      ensures ok ==> PlayedSoFar(parts, i + 1, now, c0, f0, e0, audioContext.Some?, Playback(frames, nextAudioTime, events))
      ensures !ok ==> PartsFailed(parts, i, now, c0, f0, e0, audioContext.Some?, Playback(frames, nextAudioTime, events))
    {
      var part := parts[i];
      if audioContext.Some? {
        PlayedStep(parts, i, now, c0, f0, e0);
      }
      if !IsAudio(part) {
        return true;
      }
      ok := QueueAudio(part.inlineData.value.data, now);
    }

    /** A frame's `onended` at audio time `now`: `speaking(false)` only with
        an audio context whose clock has reached the cursor. */
    method HandleFrameEnded(now: real)
      requires Valid() && (audioContext.Some? ==> now >= clock)
      modifies this`events, this`clock
      ensures Valid()
      ensures events == old(events) + (if audioContext.Some? && now >= nextAudioTime then [Speaking(false)] else [])
      ensures clock == (if audioContext.Some? then now else old(clock))
    {
      if audioContext.Some? {
        clock := now;
        if now >= nextAudioTime {
          events := events + [Speaking(false)];
        }
      }
    }

    /** `onerror`: an `error` event, nothing else; the close that follows does the teardown. */
    method HandleError(sock: nat)
      requires Valid() && sock < |sockets|
      modifies this`events
      ensures Valid()
      ensures events == old(events) + [Error(SocketError)]
    {
      events := events + [Error(SocketError)];
    }

    /** The peer starts the closing handshake: the socket is no longer open,
        though `onclose` has not run yet. No client code runs. */
    method PeerClosing(sock: nat)
      requires Valid() && sock < |sockets| && sockets[sock].state == Open
      modifies this`sockets
      ensures Valid()
      ensures sockets == old(sockets)[sock := old(sockets)[sock].(state := Closing)]
    {
      TraceWindDown(sockets, sent, sock, Closing);
      sockets := sockets[sock := sockets[sock].(state := Closing)];
    }

    /** `onclose` of any socket this client created, current or stale:
        not connected any more, `disconnected` emitted, capture stopped.
        `ws` keeps pointing at the closed socket. */
    method HandleClose(sock: nat)
      requires Valid() && sock < |sockets| && sockets[sock].state != Closed
      modifies this
      ensures Valid()
      ensures sockets == old(sockets)[sock := old(sockets)[sock].(state := Closed)]
      ensures !isConnected && ws == old(ws)
      ensures events == old(events) + [Disconnected]
      ensures audioContext == None && mediaStream == None && audioProcessor == None
      ensures nextAudioTime == old(nextAudioTime) && frames == old(frames) && sent == old(sent)
      ensures handles == old(handles) && clock == old(clock) && pendingMicrophone == old(pendingMicrophone)
    {
      TraceWindDown(sockets, sent, sock, Closed);
      sockets := sockets[sock := sockets[sock].(state := Closed)];
      isConnected := false;
      events := events + [Disconnected];
      StopAudioInput();
    }

    /** `stopAudioInput`: stop the stream, disconnect the processor, close
        the context, and drop all three; with none of them it does nothing. */
    method StopAudioInput()
      modifies this`mediaStream, this`audioProcessor, this`audioContext
      ensures audioContext == None && mediaStream == None && audioProcessor == None
    {
      if mediaStream.Some? {
        mediaStream := None;
      }
      if audioProcessor.Some? {
        audioProcessor := None;
      }
      if audioContext.Some? {
        audioContext := None;
      }
    }

    /** `disconnect`: close and drop the socket, stop capture, not connected.
        The cursor is not reset. A second call changes nothing more. */
    method Disconnect()
      requires Valid()
      modifies this
      ensures Valid()
      ensures sockets == AfterClose(old(sockets), old(ws))
      ensures ws == None && !isConnected
      ensures audioContext == None && mediaStream == None && audioProcessor == None
      ensures nextAudioTime == old(nextAudioTime) && frames == old(frames)
      ensures events == old(events) && sent == old(sent)
      ensures handles == old(handles) && clock == old(clock) && pendingMicrophone == old(pendingMicrophone)
    {
      if ws.Some? {
        TraceWindDown(sockets, sent, ws.value, CloseState(sockets[ws.value].state));
        sockets := AfterClose(sockets, ws);
        ws := None;
      }
      StopAudioInput();
      isConnected := false;
    }
  }

  /** The decoding half of `queueAudio`: `base64ToArrayBuffer`, the
      `Int16Array` view, `int16ToFloat32`, and the refusal of an empty
      buffer by `createBuffer`; `None` where one of them throws. */
  method DecodeChunk(data: string) returns (samples: Option<seq<real>>)
    ensures samples.Some? <==> Pcm(data).Some?
    ensures samples.Some? ==> samples.value == DecodeBlock(Pcm(data).value)
  {
    var bytes := Base64ToArrayBuffer(data);
    if bytes.None? {
      return None;
    }
    var view := Int16View(bytes.value);
    if view.None? {
      return None;
    }
    var decoded := Int16ToFloat32(view.value);
    if |decoded| == 0 {
      return None;
    }
    assert Pcm(data) == Some(view.value);
    return Some(decoded);
  }

  /** The payloads played from the first `i` parts lead those of the whole list. */
  lemma {:induction false} AudioDataPrefix(parts: seq<Part>, i: nat)
    requires i <= |parts|
    ensures AudioData(parts[..i]) <= AudioData(parts)
    decreases |parts|
  {
    if i < |parts| {
      var prefix := parts[..|parts| - 1];
      assert prefix[..i] == parts[..i];
      AudioDataPrefix(prefix, i);
    } else {
      assert parts[..i] == parts;
    }
  }

  /** One more part adds its payload when it is an audio part, and nothing otherwise. */
  lemma PartStep(parts: seq<Part>, i: nat)
    requires i < |parts|
    ensures AudioData(parts[..i + 1]) == AudioData(parts[..i]) + (if IsAudio(parts[i]) then [parts[i].inlineData.value.data] else [])
  {
    assert parts[..i + 1][..i] == parts[..i];
  }

  /** Every audio payload among the first `i` parts can be decoded. */
  ghost predicate AllPlayed(parts: seq<Part>, i: nat)
    requires i <= |parts|
  {
    |Blocks(Chunks(AudioData(parts[..i])))| == |AudioData(parts[..i])|
  }

  datatype Playback = Playback(frames: seq<Frame>, cursor: real, events: seq<Event>)

  /** Frames, cursor and events after the first `i` parts, starting from cursor `c0`, frames `f0` and events `e0`. */
  ghost function Played(parts: seq<Part>, i: nat, now: real, c0: real, f0: seq<Frame>, e0: seq<Event>): Playback
    requires i <= |parts|
  {
    PlaybackOf(Blocks(Chunks(AudioData(parts[..i]))), now, c0, f0, e0)
  }

  /** Frames, cursor and events after queueing `blocks` one by one at time
      `now`, starting from cursor `c0`, frames `f0` and events `e0`. */
  ghost function PlaybackOf(blocks: seq<seq<real>>, now: real, c0: real, f0: seq<Frame>, e0: seq<Event>): Playback {
    Playback(f0 + Schedule(c0, now, blocks), CursorAfter(c0, now, blocks), e0 + Repeat(Speaking(true), |blocks|))
  }

  /** The playback `p` the first `i` parts of a message have produced, from
      cursor `c0`, frames `f0` and events `e0`; without an audio context
      (`playing` false) nothing is produced. */
  ghost predicate PlayedSoFar(parts: seq<Part>, i: nat, now: real, c0: real, f0: seq<Frame>, e0: seq<Event>,
                              playing: bool, p: Playback)
    requires i <= |parts|
  {
    if playing then AllPlayed(parts, i) && p == Played(parts, i, now, c0, f0, e0)
    else p == Playback(f0, c0, e0)
  }

  /** Before the first part nothing has been played. */
  lemma PlayedNothing(parts: seq<Part>, now: real, c0: real, f0: seq<Frame>, e0: seq<Event>)
    ensures AllPlayed(parts, 0) && Played(parts, 0, now, c0, f0, e0) == Playback(f0, c0, e0)
  {
    assert parts[..0] == [];
    assert f0 + [] == f0 && e0 + [] == e0;
  }

  /** The part loop stopped at part `i`, which could not be decoded: what was
      played is that of the parts before it, and those are all the message's blocks. */
  ghost predicate PartsFailed(parts: seq<Part>, i: nat, now: real, c0: real, f0: seq<Frame>, e0: seq<Event>,
                              playing: bool, p: Playback)
    requires i <= |parts|
  {
    && playing && PlayedSoFar(parts, i, now, c0, f0, e0, playing, p)
    && Blocks(Chunks(AudioData(parts))) == Blocks(Chunks(AudioData(parts[..i])))
    && |Blocks(Chunks(AudioData(parts)))| < |AudioData(parts)|
  }

  /** How the part loop ends: after every part, or at the first one that
      fails; with an audio context the playback is that of the message's
      decodable leading blocks, and the loop completed exactly when all of them decode. */
  lemma PartsPlayed(parts: seq<Part>, i: nat, now: real, c0: real, f0: seq<Frame>, e0: seq<Event>,
                    playing: bool, p: Playback, completed: bool)
    requires i <= |parts|
    requires completed ==> i == |parts| && PlayedSoFar(parts, i, now, c0, f0, e0, playing, p)
    requires !completed ==> PartsFailed(parts, i, now, c0, f0, e0, playing, p)
    ensures !playing ==> completed && p == Playback(f0, c0, e0)
    ensures playing ==>
      var blocks := Blocks(Chunks(AudioData(parts)));
      completed == (|blocks| == |AudioData(parts)|) && p == PlaybackOf(blocks, now, c0, f0, e0)
  {
    if completed {
      assert parts[..i] == parts;
    }
  }

  /** One turn of the part loop on the specification side: a part that is not
      audio changes nothing, an audio part that decodes adds its frame and a
      `speaking(true)`, one that does not decode ends the message's playback. */
  lemma PlayedStep(parts: seq<Part>, i: nat, now: real, c0: real, f0: seq<Frame>, e0: seq<Event>)
    requires i < |parts| && AllPlayed(parts, i)
    ensures !IsAudio(parts[i]) ==> AllPlayed(parts, i + 1) && Played(parts, i + 1, now, c0, f0, e0) == Played(parts, i, now, c0, f0, e0)
    ensures IsAudio(parts[i]) && Pcm(parts[i].inlineData.value.data).Some? ==>
      var p := Played(parts, i, now, c0, f0, e0);
      AllPlayed(parts, i + 1)
      && Played(parts, i + 1, now, c0, f0, e0)
         == Playback(p.frames + [Frame(Max(p.cursor, now), DecodeBlock(Pcm(parts[i].inlineData.value.data).value))],
                     Max(p.cursor, now) + Duration(|Pcm(parts[i].inlineData.value.data).value|),
                     p.events + [Speaking(true)])
    ensures IsAudio(parts[i]) && Pcm(parts[i].inlineData.value.data).None? ==>
      Blocks(Chunks(AudioData(parts))) == Blocks(Chunks(AudioData(parts[..i])))
      && |Blocks(Chunks(AudioData(parts)))| < |AudioData(parts)|
  {
    PartStep(parts, i);
    if !IsAudio(parts[i]) {
      assert AudioData(parts[..i + 1]) == AudioData(parts[..i]);
    } else if Pcm(parts[i].inlineData.value.data).Some? {
      var d := parts[i].inlineData.value.data;
      var before := Blocks(Chunks(AudioData(parts[..i])));
      ChunksAppend(AudioData(parts[..i]), d);
      var after := Chunks(AudioData(parts[..i + 1]));
      assert after[..|after| - 1] == Chunks(AudioData(parts[..i]));
      var b := DecodeBlock(Pcm(d).value);
      assert Blocks(after) == before + [b];
      ScheduleStep(c0, now, before, b);
      AppendAssoc(f0, Schedule(c0, now, before), [Frame(Max(CursorAfter(c0, now, before), now), b)]);
      AppendAssoc(e0, Repeat(Speaking(true), |before|), [Speaking(true)]);
    } else {
      PartFails(parts, i);
    }
  }

  /** An audio part that cannot be decoded ends playback of the message: the
      blocks of the whole message are those played before it, fewer than its payloads. */
  lemma PartFails(parts: seq<Part>, i: nat)
    requires i < |parts| && IsAudio(parts[i]) && Pcm(parts[i].inlineData.value.data).None?
    requires |Blocks(Chunks(AudioData(parts[..i])))| == |AudioData(parts[..i])|
    ensures Blocks(Chunks(AudioData(parts))) == Blocks(Chunks(AudioData(parts[..i])))
    ensures |Blocks(Chunks(AudioData(parts)))| < |AudioData(parts)|
  {
    var before := AudioData(parts[..i]);
    var datas := AudioData(parts);
    PartStep(parts, i);
    AudioDataPrefix(parts, i + 1);
    assert datas[..|before|] == before;
    assert datas[|before|] == parts[i].inlineData.value.data;
    ChunksPrefix(datas, |before|);
    BlocksStop(Chunks(datas), |before|);
  }

  /** Scheduling one more block appends one frame at the later of the cursor and `now`. */
  lemma ScheduleStep(c: real, now: real, blocks: seq<seq<real>>, b: seq<real>)
    ensures Schedule(c, now, blocks + [b]) == Schedule(c, now, blocks) + [Frame(Max(CursorAfter(c, now, blocks), now), b)]
    ensures CursorAfter(c, now, blocks + [b]) == Max(CursorAfter(c, now, blocks), now) + Duration(|b|)
  {
    assert (blocks + [b])[..|blocks|] == blocks;
  }
}
