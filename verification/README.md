# DARK_GEN-AI core, modelled in Dafny

A model of the logic of the DARK_GEN-AI chat application: the duplex voice
client `GeminiLiveClient` (sample codec, byte/base64 helpers, playback
scheduler, session gating), the voice overlay that drives it, the chat and
session handlers of the app, the provider clients for OpenRouter, Hugging
Face and Groq (key checks, request shaping, retry and fallback policies,
stream-line framing), the image-model routing table and the sidebar's model
grouping and rename flow.

One module per source file, plus a few shared ones:

- `Wrappers` (Option), `JsString` (the string built-ins the code uses:
  `startsWith`, `includes`, `trim`, `split`, `join`, number formatting),
  `Lists` (`filter`, `find`, first-occurrence de-duplication), `ChatTypes`
  (the records of `types.ts`), `StreamLines` (the shared read loop over
  streamed chunks and their `data: ` lines).
- `PcmCodec`, `BinaryText`, `Base64`, `LiveAudio` and `LiveGemini` model
  services/liveGemini.ts. `LiveGemini.GeminiLiveClient` is a class whose
  fields are the client's fields. The socket, the audio context, the
  microphone stream and the script processor are abstract handles. Every
  platform callback is a method, and what the client emits, sends and
  schedules is kept in ghost traces. Samples and times are reals.
- `LiveModal` models components/LiveMasteryModal.tsx. The live client is an
  opaque handle, with a ghost log of the calls made on it.
- `ChatApp` and `SessionOrder` model App.tsx. The handlers are a class
  `ChatApp.ChatApp` over the React state, and `SessionOrder` is the in-place
  sort of `pinSession`. The sends still running are a list of pending
  exchanges. Each holds the locals of its `handleSendMessage` call, including
  the session id of the render it started in. A stream chunk, a status
  update, a finish or a failure names the send it belongs to. The startup
  key check follows the code as written; see "## Findings".
- `OpenRouter`, `HuggingFace` and `Groq` model the three provider clients.
  What the network answers is a parameter: `fetch`'s reply and the body's
  chunks. `JSON.parse` of a payload is an abstract function `parse`.
- `ImageRouting` models services/imageGenerators.ts, and `Sidebar` models
  components/Sidebar.tsx.

## Model

| member | source | states |
|---|---|---|
| PcmCodec.Clamp | services/liveGemini.ts:189 | the clamped sample lies in [-1, 1], equals the sample inside that range and the nearer bound outside it |
| PcmCodec.Trunc | services/liveGemini.ts:190 | storing into an integer array truncates toward zero: the result is the integer between 0 and x within distance < 1 |
| PcmCodec.ToInt16 | services/liveGemini.ts:190 | an `Int16Array` store keeps any truncated value that fits in 16 bits |
| PcmCodec.EncodeSample | services/liveGemini.ts:189-190 | a negative sample gives a non-positive int16 within one unit of clamp(s)·32768, a non-negative one a non-negative int16 within one unit of clamp(s)·32767 (sign kept, no wrap-around) |
| PcmCodec.DecodeSample | services/liveGemini.ts:199-200 | every int16 decodes to a value in [-1, 1] with the same sign, zero exactly for 0 |
| PcmCodec.EncodeDecode | services/liveGemini.ts:186-203 | decoding then encoding returns every int16 sample exactly |
| PcmCodec.DecodeEncodeWithinStep | services/liveGemini.ts:186-203 | encoding then decoding a sample in [-1, 1] is off by less than one quantisation step 1/32767 |
| PcmCodec.Float32ToInt16 | services/liveGemini.ts:186-193 | the array loop yields one encoded sample per input sample, same length |
| PcmCodec.Int16ToFloat32 | services/liveGemini.ts:195-203 | the array loop yields one decoded sample per int16, same length |
| PcmCodec.CombineSplit | services/liveGemini.ts:192 | an int16 is recovered from its two little-endian bytes |
| PcmCodec.SplitCombine | services/liveGemini.ts:196 | a byte pair is recovered from the int16 it stands for |
| PcmCodec.LittleEndianBytes | services/liveGemini.ts:192 | the buffer of n samples has 2n bytes |
| PcmCodec.Int16View | services/liveGemini.ts:196 | `new Int16Array(buffer)` succeeds exactly for an even byte count, giving half as many samples |
| PcmCodec.ViewOfBytes | services/liveGemini.ts:192-196 | viewing the buffer of an `Int16Array` again gives the same samples |
| PcmCodec.BytesOfView | services/liveGemini.ts:192-196 | every even-length buffer is the buffer of the samples it is viewed as |
| BinaryText.BinaryString | services/liveGemini.ts:206-211 | one character per byte, whose code is the byte |
| BinaryText.ByteValues | services/liveGemini.ts:218-221 | one byte per character: its code modulo 256, as a `Uint8Array` store does |
| BinaryText.ArrayBufferToBinary | services/liveGemini.ts:206-211 | the `String.fromCharCode` loop builds exactly the binary string of the bytes |
| BinaryText.BinaryToArrayBuffer | services/liveGemini.ts:217-222 | the `charCodeAt` loop fills exactly the byte values of the string |
| BinaryText.BytesRoundTrip | services/liveGemini.ts:205-223 | bytes → binary string → bytes is the identity, and the string has only codes below 256 |
| BinaryText.BinaryRoundTrip | services/liveGemini.ts:205-223 | a binary string → bytes → binary string is the identity |
| Base64.Letter | services/liveGemini.ts:212 | alphabet characters are neither padding nor whitespace |
| Base64.ValueOf | services/liveGemini.ts:216 | a character with a value is the letter of that value |
| Base64.ValueOfLetter | services/liveGemini.ts:212-216 | the alphabet is a bijection between sextets and its letters |
| Base64.TripleOfQuad | services/liveGemini.ts:212-216 | three bytes split into four sextets are rebuilt exactly |
| Base64.Sextets | services/liveGemini.ts:212 | four sextets per whole group of three bytes, two or three for a short last group |
| Base64.Letters | services/liveGemini.ts:212 | sextets written letter by letter, no padding |
| Base64.Encode | services/liveGemini.ts:212 | `btoa` output has length 4·⌈n/3⌉ with `=` only in the last two places |
| Base64.StripWhitespace | services/liveGemini.ts:216 | `atob` ignores whitespace: the result is no longer and has none |
| Base64.StripPadding | services/liveGemini.ts:216 | only trailing `=` (at most two) are removed |
| Base64.Values | services/liveGemini.ts:216 | the values found are those whose letters spell the text |
| Base64.ValuesRefuses | services/liveGemini.ts:216 | one character outside the alphabet makes the lookup fail |
| Base64.DecodeSextets | services/liveGemini.ts:216 | three bytes per whole group, one or two for a short last group |
| Base64.Btoa | services/liveGemini.ts:212 | `btoa` accepts exactly the binary strings |
| Base64.Atob | services/liveGemini.ts:216 | `atob` succeeds exactly when decoding does, giving a binary string of the decoded bytes |
| Base64.DecodeSextetsOfBytes | services/liveGemini.ts:212-216 | decoding the sextets of a byte string gives the bytes back |
| Base64.DecodeGroup | services/liveGemini.ts:216 | decoding takes one whole group off the front at a time |
| Base64.StripNoWhitespace | services/liveGemini.ts:216 | text without whitespace is left alone |
| Base64.ValuesOfLetters | services/liveGemini.ts:212-216 | the values of written letters are the sextets they were written from |
| Base64.StripPaddingOfEncode | services/liveGemini.ts:212-216 | stripping the padding of `btoa` output leaves its letters |
| Base64.DecodeEncode | services/liveGemini.ts:205-223 | `atob(btoa(x))` gives back the bytes of x |
| Base64.DecodeUnpadded | services/liveGemini.ts:216 | the forgiving decoder also accepts the text without its padding |
| Base64.DecodeRefusesStray | services/liveGemini.ts:216 | a character outside the alphabet, not whitespace and not padding, is refused |
| Base64.DecodeRefusesLength | services/liveGemini.ts:216 | a text of 4n+1 significant characters is refused |
| Base64.ArrayBufferToBase64 | services/liveGemini.ts:205-213 | the helper returns the base64 of the bytes, which `btoa` never refuses, and decoding it gives the bytes back |
| Base64.Base64ToArrayBuffer | services/liveGemini.ts:215-223 | the helper returns the decoded bytes, or fails exactly where `atob` throws |
| LiveAudio.Duration | services/liveGemini.ts:150-164 | a buffer's duration, n/24000, is never negative |
| LiveAudio.Max | services/liveGemini.ts:159-162 | the start of a frame is the later of the cursor and the clock |
| LiveAudio.ChainedDisjoint | services/liveGemini.ts:158-164 | frames scheduled back to back never overlap, however far apart |
| LiveAudio.ChainedAppend | services/liveGemini.ts:158-164 | two chained schedules, the second starting after the first ends, chain |
| LiveAudio.Pcm | services/liveGemini.ts:143-150 | a chunk that decodes has at least one sample |
| LiveAudio.PcmBytes | services/liveGemini.ts:146-150 | the samples are exactly what the decoded bytes encode, and a chunk is refused only when `atob` fails, the byte count is odd or there are no bytes |
| LiveAudio.PcmOfEncoded | services/liveGemini.ts:146-147 | a chunk the client itself sends is read back as the very samples it was made from |
| LiveAudio.DecodeBlock | services/liveGemini.ts:147 | each sample decoded, same length |
| LiveAudio.ChunksAppend | services/liveGemini.ts:61-65 | decoding one more payload adds its result at the end |
| LiveAudio.ChunksPrefix | services/liveGemini.ts:61-65 | decoding a leading run of payloads gives the leading run of results |
| LiveAudio.BlocksLeading | services/liveGemini.ts:61-65 | the blocks played are the leading payloads that decoded, each decoded sample by sample, and the next payload, if any, is one that did not |
| LiveAudio.BlocksStop | services/liveGemini.ts:61-65 | past the first payload that does not decode, later payloads play no part |
| LiveAudio.CursorAfter | services/liveGemini.ts:159-164 | the cursor never moves back, and after any frame it is at or past the clock |
| LiveAudio.Schedule | services/liveGemini.ts:142-164 | one frame per block, in order, each at or after both the clock and the cursor, none overlapping, the last ending at the new cursor |
| LiveGemini.FinalKey | services/liveGemini.ts:20-21 | the key is missing exactly when both the argument and the environment key are empty |
| LiveGemini.CloseState | services/liveGemini.ts:177 | `ws.close()` leaves a socket closing or closed, and a closed one closed |
| LiveGemini.AfterClose | services/liveGemini.ts:176-178 | closing the current socket changes that socket's state only |
| LiveGemini.AudioData | services/liveGemini.ts:59-65 | no more payloads than parts |
| LiveGemini.AudioDataFaithful | services/liveGemini.ts:61-63 | every payload played comes from an `audio/pcm` part, and every such part's payload is played |
| LiveGemini.AudioDataPrefix | services/liveGemini.ts:61-65 | the payloads of the first i parts lead those of all parts |
| LiveGemini.PartStep | services/liveGemini.ts:61-64 | one more part adds its payload exactly when it is an audio part |
| LiveGemini.EncodeBlock | services/liveGemini.ts:99 | each captured sample encoded, same length |
| LiveGemini.CaptureEnvelope | services/liveGemini.ts:98-111 | a captured block is sent as one envelope with one chunk tagged `audio/pcm;rate=16000`, whose data reads back as the encoded block |
| LiveGemini.FirstOnIsFirst | services/liveGemini.ts:113-114 | the first envelope found on a socket is the earliest one sent on it, and none is found exactly when none was sent |
| LiveGemini.FirstOnUnused | services/liveGemini.ts:28 | nothing has been sent on a newly dialled socket |
| LiveGemini.FirstOnAppend | services/liveGemini.ts:113-114 | sending can only set the first envelope of a socket that had none |
| LiveGemini.TraceNewSocket | services/liveGemini.ts:28 | dialling a socket keeps the rule that every socket's first envelope is its setup |
| LiveGemini.TraceWindDown | services/liveGemini.ts:79-84 | closing a socket keeps the sending rules |
| LiveGemini.TraceOpen | services/liveGemini.ts:30-44 | opening a socket and sending its setup keeps the rules and makes the setup its first envelope |
| LiveGemini.TraceSend | services/liveGemini.ts:113-114 | sending on an open socket keeps the rules |
| LiveGemini.PlaybackStep | services/liveGemini.ts:159-164 | one more frame at the later of cursor and clock keeps the frames disjoint and behind the advanced cursor |
| LiveGemini.PlayedStep | services/liveGemini.ts:142-167 | a non-audio part changes nothing; a decodable audio part adds its frame at max(cursor, clock), advances the cursor by its duration and emits `speaking(true)`; an undecodable one ends the message's playback |
| LiveGemini.PartFails | services/liveGemini.ts:61-64 | an audio part that cannot be decoded ends the message's playback: the blocks played are those of the parts before it, fewer than the payloads |
| LiveGemini.GeminiLiveClient.constructor | services/liveGemini.ts:4-13 | nothing open, not connected, the cursor at 0, the URL defaulted |
| LiveGemini.GeminiLiveClient.Connect | services/liveGemini.ts:15-28 | an existing session is torn down first; a missing key emits `error` and leaves no socket; otherwise one new connecting socket is dialled at `url?key=…` with the model defaulted |
| LiveGemini.GeminiLiveClient.HandleOpen | services/liveGemini.ts:30-48 | connected becomes true, `connected` is emitted, the setup envelope `{model, ["AUDIO"]}` is sent and is the socket's first envelope, then capture starts |
| LiveGemini.GeminiLiveClient.StartAudioInput | services/liveGemini.ts:87-90 | a fresh audio context with its clock at 0 and one more pending microphone request |
| LiveGemini.GeminiLiveClient.HandleMicrophone | services/liveGemini.ts:90-124 | a refusal emits `error`; a granted stream is kept and wired to a new processor when the context still exists, otherwise the wiring failure is reported as `error` |
| LiveGemini.GeminiLiveClient.HandleAudioProcess | services/liveGemini.ts:95-116 | a captured block is sent as exactly one envelope, and only when connected and the socket is OPEN |
| LiveGemini.GeminiLiveClient.QueueAudio | services/liveGemini.ts:142-167 | without an audio context nothing happens; a chunk that does not decode throws and changes nothing; otherwise the frame starts at max(cursor, clock), the cursor advances by its duration, `speaking(true)` is emitted, and the cursor never decreases |
| LiveGemini.GeminiLiveClient.HandleMessage | services/liveGemini.ts:50-72 | audio parts are queued in part order until one throws; `turnComplete` is emitted after them when the message says so and the handler got that far |
| LiveGemini.GeminiLiveClient.PlayParts | services/liveGemini.ts:61-65 | the part loop plays exactly the leading decodable audio payloads and reports whether it completed |
| LiveGemini.GeminiLiveClient.PlayPart | services/liveGemini.ts:62-64 | one turn of the part loop: a skipped part, a queued part, or the throw that ends the loop |
| LiveGemini.PlayedNothing | services/liveGemini.ts:61 | before the first part nothing has been played |
| LiveGemini.PartsPlayed | services/liveGemini.ts:61-65 | the part loop, whether it ran through or stopped at an undecodable part, played the message's leading decodable blocks and completed exactly when all payloads decode |
| LiveGemini.GeminiLiveClient.HandleFrameEnded | services/liveGemini.ts:168-172 | `speaking(false)` is emitted only with an audio context whose clock has reached the cursor |
| LiveGemini.GeminiLiveClient.HandleError | services/liveGemini.ts:74-77 | a socket error emits `error` and changes nothing else |
| LiveGemini.GeminiLiveClient.PeerClosing | services/liveGemini.ts:113 | the peer closing the socket makes it no longer OPEN, which stops the capture gate |
| LiveGemini.GeminiLiveClient.HandleClose | services/liveGemini.ts:79-84 | not connected, `disconnected` emitted, capture handles dropped; the cursor and `ws` are left as they are |
| LiveGemini.GeminiLiveClient.StopAudioInput | services/liveGemini.ts:127-140 | afterwards the stream, processor and context are all dropped, whatever was held before |
| LiveGemini.GeminiLiveClient.Disconnect | services/liveGemini.ts:175-182 | the socket is closed and dropped, capture stopped, not connected; the cursor, trace and events are unchanged, so a second call changes nothing more |
| LiveGemini.DecodeChunk | services/liveGemini.ts:146-150 | the decoding half of `queueAudio` succeeds exactly for chunks that decode, giving their samples decoded |
| LiveModal.StatusAfter | components/LiveMasteryModal.tsx:29-36 | `connected` → connected, `disconnected` or an error → disconnected, `speaking(b)` → speaking iff b and connected iff not b, `turnComplete` → unchanged |
| LiveModal.ErrorAfter | components/LiveMasteryModal.tsx:32-35 | only an error event sets the error message |
| LiveModal.HeaderLabel | components/LiveMasteryModal.tsx:78 | ONLINE iff connected, ACTIVE iff speaking, CONNECTING iff connecting or disconnected |
| LiveModal.SubtitleLabel | components/LiveMasteryModal.tsx:118 | Processing Voice Stream iff speaking, Listening... iff connected, Initializing iff connecting or disconnected |
| LiveModal.LabelsAgree | components/LiveMasteryModal.tsx:78-118 | two statuses share a header exactly when they share a subtitle |
| LiveModal.LiveMasteryModal.constructor | components/LiveMasteryModal.tsx:12-15 | disconnected, no error, not muted, no client |
| LiveModal.LiveMasteryModal.Effect | components/LiveMasteryModal.tsx:17-55 | an unusable key only sets the error and creates and connects nothing; a usable key clears the error, creates and wires a client if none is held, shows connecting and connects; closing disconnects and drops the client, clears the error and shows disconnected |
| LiveModal.LiveMasteryModal.Cleanup | components/LiveMasteryModal.tsx:49-54 | a held client is disconnected and dropped |
| LiveModal.LiveMasteryModal.Rerun | components/LiveMasteryModal.tsx:17-55 | because the cleanup always drops the client, every open run with a usable key connects a freshly created client, the old one being disconnected first |
| LiveModal.LiveMasteryModal.HandleEvent | components/LiveMasteryModal.tsx:29-36 | an event from any wired client moves status and error by the event mapping |
| LiveModal.LiveMasteryModal.ToggleMute | components/LiveMasteryModal.tsx:125 | mute flips and nothing else changes; the client never sees it |
| LiveModal.StaleDisconnect | components/LiveMasteryModal.tsx:30 | a late `disconnected` from a dropped client shows disconnected although the new one is connecting |
| ChatApp.ProviderIn | App.tsx:198-199 | the provider of the first model with the id, Puter when no model has it |
| ChatApp.ListedRoute | App.tsx:198-199 | every listed chat model is routed to its own provider |
| ChatApp.UnlistedRoute | App.tsx:198-199 | an id not in the list is routed to Puter |
| ChatApp.ModelIdsDistinct | App.tsx:19-34 | no two listed chat models share an id |
| ChatApp.IdsDistinctFrom | App.tsx:19-34 | each listed model's id differs from those of every later entry |
| ChatApp.DefaultUnlisted | App.tsx:111 | the OpenRouter default chosen at startup is not among the listed ids |
| ChatApp.StartupModelAsWritten | App.tsx:103-112 | both keys missing selects `puter-chat`; only the Gemini key missing selects `deepseek/deepseek-chat:free`; otherwise the model is kept |
| ChatApp.StartupDefaultMisrouted | App.tsx:109-111 | with only the Gemini key missing, the model chosen as written is sent to Puter, not OpenRouter |
| ChatApp.StartupAsWrittenOnPuter | App.tsx:103-111 | as written, a missing Gemini key always leaves the startup model served by Puter, whether the OpenRouter key is set or not |
| ChatApp.StartupModel | App.tsx:103-112 | as above, with the listed `deepseek/deepseek-v3:free` as the OpenRouter default |
| ChatApp.StartupRouting | App.tsx:106-111 | with the Gemini key missing, the startup model is served by Puter when the OpenRouter key is missing too and by OpenRouter otherwise |
| ChatApp.PuterListed | App.tsx:33 | the Puter chat model is listed, with the Puter provider |
| ChatApp.DefaultListed | App.tsx:24 | the OpenRouter default model is listed, with the OpenRouter provider |
| ChatApp.Stopped | App.tsx:154 | every streaming message stops and gets ` [Stopped]` after its content; ids and roles are kept; other messages are untouched |
| ChatApp.StoppedIdempotent | App.tsx:154 | stopping twice adds the suffix once |
| ChatApp.WithContent | App.tsx:299 | the messages with the id get the new content; all others are untouched |
| ChatApp.WithContentLastWins | App.tsx:188-194 | of two content writes to the same id, the last one wins |
| ChatApp.Finished | App.tsx:220-222 | the reply with the id stops streaming; nothing else changes |
| ChatApp.FailureText | App.tsx:238 | the failure text begins with the interruption notice, then the error message, or `Service unavailable.` when that is empty |
| ChatApp.Failed | App.tsx:234-243 | every streaming message becomes a finished error message showing the failure; the others are untouched |
| ChatApp.WithFeedback | App.tsx:315-319 | the message with the id is liked or disliked, and the other flag is cleared |
| ChatApp.FeedbackExclusive | App.tsx:315-319 | feedback never leaves a message both liked and disliked |
| ChatApp.WithoutMessage | App.tsx:291 | no message with the id is left, and every other message is kept |
| ChatApp.WithoutMessageLaws | App.tsx:291 | deleting works piecewise, so order is kept, and deleting twice is deleting once |
| ChatApp.SessionsWithoutMessage | App.tsx:293-295 | only the current session loses the message |
| ChatApp.Toggled | App.tsx:279 | the session with the id has its pin flipped; the others are untouched |
| ChatApp.ToggledTwice | App.tsx:279 | pinning twice restores every pin |
| ChatApp.Renamed | App.tsx:347 | the session with the id takes the new title; the others are untouched |
| ChatApp.WithoutSession | App.tsx:340 | no session with the id is left, and every other session is kept |
| ChatApp.TitleOf | App.tsx:262-268 | a title is the prefix of the first message of length min(30, its length) |
| ChatApp.PreviewOf | App.tsx:261-271 | a preview is the prefix of the first message of length min(40, its length), followed by `...` |
| ChatApp.UserMessage | App.tsx:165-171 | the user message carries the text, the file and the clock as its id |
| ChatApp.PendingReply | App.tsx:178-186 | the reply placeholder is an empty, streaming assistant message with id clock+1 |
| ChatApp.StreamSparesUserMessage | App.tsx:166-196 | streaming into the reply, addressed by id `String(now + 1)`, leaves the user message with id `String(now)` untouched and sets only the reply's content |
| ChatApp.Recorded | App.tsx:251-275 | the current session, when it exists, gets the two messages appended; otherwise a new session holding just them is put first |
| ChatApp.RecordedOnlyCurrent | App.tsx:251-275 | recording leaves every other session as it was; the current one keeps its id and pin, takes the new time, and has its title and preview set only on its first exchange |
| ChatApp.ChatApp.constructor | App.tsx:76-91 | the first render: chat tab, first listed model, no messages, no sessions, a session id from the clock, not loading, no controller, no toast |
| ChatApp.ChatApp.InitKeys | App.tsx:94-112 | the startup model is chosen as written (`StartupModelAsWritten`: `deepseek/deepseek-chat:free` when only the Gemini key is missing, which `StartupAsWrittenOnPuter` shows is then served by Puter); the toast is switched on when both keys are missing and otherwise left as it was |
| ChatApp.ChatApp.HandleStop | App.tsx:149-156 | with a controller, it is aborted and dropped, loading stops and streaming messages are stopped; without one, nothing changes |
| ChatApp.ChatApp.SendMessage | App.tsx:158-199 | blank text without a file changes nothing, neither the controllers nor the aborted list; otherwise a running send is aborted (its controller joins the aborted list) but stays pending, a fresh controller is taken, the user message and an empty streaming reply are appended, loading is set, and a new pending send records the provider of the current model and the current session id |
| ChatApp.ChatApp.StreamChunk | App.tsx:188-196 | the chunk is appended to the reply text of that send only, and its reply shows all its text so far |
| ChatApp.ChatApp.StatusUpdate | App.tsx:209-212 | that send's reply shows the status in italics |
| ChatApp.ChatApp.FinishSend | App.tsx:220-248 | the reply of that send stops streaming and the exchange is recorded with its streamed text under the session id the send started in (bringing back a session deleted meanwhile); the send leaves the pending list, and loading stops and the shared controller is dropped even when a later send holds it; the frame leaves every other field as it was |
| ChatApp.ChatApp.FailSend | App.tsx:231-248 | an abort leaves the messages alone; any other failure turns streaming messages into error messages; the send leaves the pending list, loading stops, the shared controller is dropped and nothing is recorded |
| ChatApp.ChatApp.RecordExchange | App.tsx:251-275 | the history becomes `Recorded` of the old history under the given session id |
| ChatApp.ChatApp.PinSession | App.tsx:277-287 | the list is the toggled list, reordered: pinned first, most recent first in each group |
| ChatApp.ChatApp.DeleteMessage | App.tsx:290-296 | the message leaves the screen and the current session |
| ChatApp.ChatApp.EditMessage | App.tsx:298-300 | only the message on screen is edited, not the history |
| ChatApp.ChatApp.GiveFeedback | App.tsx:315-319 | the feedback update is applied to the screen |
| ChatApp.ChatApp.Regenerate | App.tsx:302-313 | when the reply follows a user message, the list is cut before the reply and that message is sent again as a new pending send: loading is set, a fresh controller is taken and a running send is aborted; a blank message is not resent, and then, as when nothing matches, loading, the controllers and the aborted list are unchanged |
| ChatApp.ChatApp.DeleteSession | App.tsx:322-344 | the session leaves the list; deleting the current one starts a new empty chat under a fresh id |
| ChatApp.ChatApp.RenameSession | App.tsx:346-348 | the history becomes the renamed history |
| SessionOrder.Compare | App.tsx:281-285 | not positive exactly when the first session may stand before the second, zero exactly when pin and time tie |
| SessionOrder.PrecedesTotal | App.tsx:281-285 | any two sessions are ordered one way or the other |
| SessionOrder.PrecedesTransitive | App.tsx:281-285 | the comparator's order is transitive |
| SessionOrder.SortedGroups | App.tsx:280-285 | in a sorted list every pinned session precedes every unpinned one, and each group runs from newest to oldest |
| SessionOrder.SortSessions | App.tsx:281-285 | the array ends sorted by the comparator and holds the same sessions |
| SessionOrder.InsertLast | App.tsx:281-285 | one insertion step extends the sorted prefix and keeps the contents |
| SessionOrder.StartInserting | App.tsx:281-285 | the insertion starts from a sorted prefix |
| SessionOrder.InsertStep | App.tsx:281-285 | swapping an element past a neighbour that should follow it keeps the insertion invariant |
| SessionOrder.InsertDone | App.tsx:281-285 | an element that has reached its place leaves the prefix sorted |
| Lists.Filter | services/openrouter.ts:27 | `filter` keeps exactly the elements that pass, and nothing else |
| Lists.Map | services/huggingface.ts:51-57 | a mapped list has one result per element, the i-th being the function applied to the i-th element |
| Lists.UpdateWhere | App.tsx:347 | a `map` that rewrites the matching elements changes exactly those, keeps every other element, and keeps every position |
| Lists.FlatMapAppend | services/openrouter.ts:116-124 | collecting the lines of a body chunk by chunk works piecewise: the lines of two runs of chunks are those of the first run followed by those of the second |
| Lists.FilterConcat | App.tsx:291 | filtering works piecewise, so the kept elements keep their order |
| Lists.FilterAll | services/openrouter.ts:27 | a filter that passes everything changes nothing |
| Lists.FilterIdempotent | App.tsx:291 | filtering twice is filtering once |
| Lists.FindIndex | App.tsx:253 | `findIndex` gives the first match, or no match at all |
| Lists.Dedupe | services/openrouter.ts:28 | `[...new Set(s)]` has no repeats, holds the same values and keeps the first element first |
| Lists.DedupeDistinct | services/openrouter.ts:28 | a list without repeats comes through `Set` unchanged |
| Lists.DistinctCard | services/openrouter.ts:28 | a list without repeats has as many values as entries |
| JsString.OccursAtContains | services/groq.ts:13 | `includes` finds an occurrence at any offset |
| JsString.ContainsIff | services/groq.ts:13 | `includes` holds exactly when the text occurs somewhere |
| JsString.StartsWithContains | services/imageGenerators.ts:14 | a string that starts with a text includes it |
| JsString.ContainsSuffix | services/imageGenerators.ts:9-14 | a text found in a suffix is found in the string |
| JsString.FirstCharMissing | services/imageGenerators.ts:9 | a string without the first character of a text does not include it |
| JsString.TrimStart | services/huggingface.ts:86 | only leading whitespace is removed |
| JsString.TrimEnd | services/huggingface.ts:86 | only trailing whitespace is removed |
| JsString.Trim | services/huggingface.ts:86 | `trim` leaves an infix with whitespace only removed around it, not starting or ending with whitespace |
| JsString.TrimEmptyIffBlank | services/openrouter.ts:124 | trimming gives `""` exactly for a blank line |
| JsString.TrimIdempotent | services/huggingface.ts:86 | trimming twice is trimming once |
| JsString.Prefix | App.tsx:261-262 | `substring(0, n)` is a prefix of length min(n, length), the length counted in characters |
| JsString.BmpLength | App.tsx:261-262 | inside the Basic Multilingual Plane a string's UTF-16 length is its number of characters |
| JsString.PrefixInCodeUnits | App.tsx:261-262 | for text inside the Basic Multilingual Plane, `Prefix` keeps min(n, length) code units, as `substring(0, n)` does |
| JsString.Split | services/groq.ts:67 | `split` gives at least one piece, none holding the separator |
| JsString.FirstIndex | services/openrouter.ts:37 | the position of the first occurrence of a character |
| JsString.SplitFirst | services/openrouter.ts:37 | splitting cuts at the first separator |
| JsString.SplitJoin | services/groq.ts:67 | joining the pieces of a split gives the string back |
| JsString.JoinSplit | services/imageGenerators.ts:20 | splitting a join of separator-free pieces gives the pieces back |
| JsString.NoCharInJoin | services/imageGenerators.ts:20 | a character absent from all pieces is absent from their join |
| JsString.NatToString | App.tsx:166 | `String(n)` is decimal digits with no leading zero that denote n |
| JsString.NatToStringInjective | App.tsx:166 | different clock readings give different ids, and equal ones equal ids |
| JsString.DigitChar | App.tsx:166 | the digit for a value below ten |
| StreamLines.ChunkLines | services/openrouter.ts:124 | a chunk's lines are its `\n` pieces, without the blank ones when the client drops them |
| StreamLines.ChunkActions | services/openrouter.ts:126-139 | one action per line of the chunk |
| StreamLines.ForwardedAppend | services/openrouter.ts:126-139 | one more line adds its content only when it forwards and no stop came before |
| StreamLines.ScanForwarded | services/openrouter.ts:119-141 | the loop forwards exactly the contents before the first stop, and stops iff some line calls for it |
| StreamLines.NeverStops | services/huggingface.ts:78-103 | a client none of whose lines stops takes every line of the body into account |
| StreamLines.NoForwardInActions | services/groq.ts:74 | a client that forwards no line produces no forward |
| StreamLines.NothingForwarded | services/groq.ts:74 | no forwards means nothing is passed to `onStream` |
| StreamLines.ResumeAppend | services/openrouter.ts:119-141 | reading two runs of lines is reading the first, then the second |
| StreamLines.ResumeStopped | services/openrouter.ts:127 | once the read has stopped, later lines change nothing |
| StreamLines.ActionsAppend | services/openrouter.ts:119-123 | the body's actions split at a chunk boundary |
| StreamLines.ReadLines | services/openrouter.ts:126-140 | the inner loop over one chunk's lines does what the specification of the read says, stopping at the first stop |
| StreamLines.ActionsStep | services/openrouter.ts:119-124 | one more chunk adds its lines' actions at the end |
| StreamLines.ReadStream | services/openrouter.ts:116-141 | the read loop's result is the scan of all the body's actions |
| StreamLines.StoppedEarly | services/openrouter.ts:125-126 | once a line has ended the read, the rest of the body changes nothing |
| OpenRouter.FallbacksDistinct | services/openrouter.ts:4-8 | the three fallbacks are distinct |
| OpenRouter.CandidatesKept | services/openrouter.ts:27 | only an empty requested model is filtered out |
| OpenRouter.CandidatesShape | services/openrouter.ts:27-28 | three or four distinct candidates: the requested model first when there is one, then all the fallbacks |
| OpenRouter.NewModelFirst | services/openrouter.ts:27-28 | a requested model that is not a fallback comes before all three |
| OpenRouter.KnownModelFirst | services/openrouter.ts:27-28 | a requested fallback comes first, and only once |
| OpenRouter.Reroutes | services/openrouter.ts:35-38 | one rerouting message per attempt after the first, naming that attempt's model |
| OpenRouter.RerouteStep | services/openrouter.ts:35-38 | one more attempt adds its message, except for the first attempt |
| OpenRouter.ClassifyLine | services/openrouter.ts:127-139 | `data: [DONE]` stops the read; another `data: ` line forwards its payload's content iff it parses and is not empty; everything else is skipped |
| OpenRouter.BlankLineSkipped | services/openrouter.ts:124 | dropping blank lines first changes nothing |
| OpenRouter.AttemptOutcome | services/openrouter.ts:91-112 | a rejection fails with its message; a non-OK status fails with `OpenRouter Error <status>: <body>`; an OK status streams |
| OpenRouter.UserMessage | services/openrouter.ts:68-89 | plain text, or with a file the text part then the image part holding the data URL |
| OpenRouter.AttemptRequest | services/openrouter.ts:60-141 | the request goes to the endpoint with the model, bearer key, stream flag and the one user message, and ends as `AttemptOutcome` says |
| OpenRouter.Tried | services/openrouter.ts:32-54 | the candidates tried are a prefix, non-empty when there are candidates, stopping at the first attempt that completes or fails with the signal aborted |
| OpenRouter.Ladder | services/openrouter.ts:32-57 | the loop tries exactly `Tried` in order, reports every attempt after the first when a status callback is given, and ends like its last attempt |
| OpenRouter.LadderGoesOn | services/openrouter.ts:33-53 | a candidate whose attempt fails without an abort is tried, reported when it is not the first, and its error becomes the last error |
| OpenRouter.LadderEnds | services/openrouter.ts:40-50 | a candidate whose attempt completes, or fails with the signal aborted, is the last one tried and the call ends like that attempt |
| OpenRouter.LadderExhausted | services/openrouter.ts:32-57 | when every candidate failed without an abort, all were tried and the last error is thrown |
| OpenRouter.SendMessageToOpenRouter | services/openrouter.ts:10-58 | an unusable key throws before any attempt; otherwise the ladder runs over the candidates |
| OpenRouter.LadderEndsLikeLastAttempt | services/openrouter.ts:32-57 | since there are always candidates, the generic error is never thrown: the call ends like its last attempt |
| OpenRouter.LadderStopsAt | services/openrouter.ts:40-53 | the ladder stops at the first attempt that completes or fails with the signal aborted |
| OpenRouter.CompletedStopsLadder | services/openrouter.ts:41-42 | after a completed attempt no further candidate is tried |
| HuggingFace.ProxyRewrite | vite.config.ts:16 | a path without the proxy prefix is left alone |
| HuggingFace.UpstreamUrl | services/huggingface.ts:29 | through the proxy, the request reaches the router's chat-completion URL for the model |
| HuggingFace.RequestFor | services/huggingface.ts:33-49 | every attempt sends the same request: the model and one user message, streamed |
| HuggingFace.WaitSeconds | services/huggingface.ts:53 | a missing or zero estimate waits 10 seconds; any other estimate is used as is |
| HuggingFace.Ceil | services/huggingface.ts:56 | `Math.ceil` is the least integer not below x |
| HuggingFace.ClassifyLine | services/huggingface.ts:85-101 | lines are trimmed; `data: [DONE]` and blank lines are skipped; a `data: ` line forwards its content iff it parses and is not empty; nothing stops the read |
| HuggingFace.PaddingIgnored | services/huggingface.ts:86 | whitespace around a line makes no difference |
| HuggingFace.Failure | services/huggingface.ts:105-109 | a caught failure returns quietly iff the signal is aborted, and is rethrown otherwise |
| HuggingFace.ReplyOutcome | services/huggingface.ts:64-103 | 404 and 410 name a missing model, another non-OK status reports the body, a rejection its message (all subject to the abort check), and an OK reply is streamed to its end |
| HuggingFace.StreamReadToEnd | services/huggingface.ts:78-103 | a streamed reply is read to its end and forwards every content it carries |
| HuggingFace.Waking | services/huggingface.ts:51-62 | the number of leading 503 replies, after which the next reply decides the call |
| HuggingFace.RetriesUnbounded | services/huggingface.ts:51-62 | any number of 503 replies is waited out: there is no retry limit |
| HuggingFace.WaitsFor | services/huggingface.ts:53-60 | one wait per 503 reply, the i-th being that reply's estimate or the default of 10 seconds |
| HuggingFace.WakeMessages | services/huggingface.ts:51-57 | one status message per 503 reply, the i-th naming the rounded-up wait of the i-th reply |
| HuggingFace.MakeRequests | services/huggingface.ts:31-110 | one identical request per reply up to the deciding one, with a wait and a status message per 503, ending as `ReplyOutcome` says for the deciding reply |
| HuggingFace.Respond | services/huggingface.ts:64-109 | a non-503 reply ends the call as `ReplyOutcome` says |
| HuggingFace.SendMessageToHuggingFace | services/huggingface.ts:4-113 | a missing token throws before any request, whatever the signal; otherwise as `MakeRequests` |
| Groq.ModelFor | services/groq.ts:18 | the requested model, or `llama-3.3-70b-versatile` when there is none |
| Groq.UserContent | services/groq.ts:26-32 | without a file, the user's text |
| Groq.UserContentEndsWithText | services/groq.ts:32 | the user's text always ends the user message, and an attached file's name appears in it |
| Groq.BuildMessages | services/groq.ts:21-33 | the system prompt, then the user message, whose content is replaced when a file is attached |
| Groq.HttpError | services/groq.ts:52-55 | the body's error message when it has one, otherwise `Groq API Error: <status> <statusText>` |
| Groq.ClassifyLine | services/groq.ts:69-81 | a `data: ` line other than `data: [DONE]` forwards its content iff it parses, is not empty and there is a stream callback; every other line is skipped; nothing stops the read |
| Groq.IndentedLineSkipped | services/groq.ts:70 | unlike the other clients, a line with whitespace before `data: ` is skipped |
| Groq.StreamReadToEnd | services/groq.ts:62-82 | the body is read to its end, and without a stream callback nothing is forwarded |
| Groq.ReplyOutcome | services/groq.ts:35-87 | a rejection or a non-OK status throws, whatever the signal; an OK reply streams |
| Groq.SendMessageToGroq | services/groq.ts:8-88 | an unusable key throws before any request; otherwise the request carries the endpoint, bearer key, model, stream flag and the two messages, and the call ends as `ReplyOutcome` says |
| ImageRouting.Seed | services/imageGenerators.ts:15 | the seed is the floor of random·1000000, below 1000000 |
| ImageRouting.DimensionsFollowRatio | services/imageGenerators.ts:16-17 | `16:9` and `9:16` are honoured exactly and are each other's rotation; every other ratio gives a 1024 square |
| ImageRouting.DefaultRatioSquare | services/imageGenerators.ts:7 | without an aspect ratio, `generateImage` uses `1:1`, which makes a 1024 square |
| ImageRouting.PollinationsModel | services/imageGenerators.ts:18 | `flux` iff the id mentions it, `turbo` otherwise |
| ImageRouting.PollinationsUrlParts | services/imageGenerators.ts:20 | the URL reads back: the encoded prompt before `?`, then the five parameters in order |
| ImageRouting.ParametersClean | services/imageGenerators.ts:20 | no parameter holds `&` or `?` |
| ImageRouting.RouteImage | services/imageGenerators.ts:7-51 | an id mentioning `gemini` goes to Gemini; else one mentioning `pollinations` becomes a Pollinations URL; else a Hugging Face family id with a token goes to Hugging Face; anything else is refused |
| ImageRouting.GeminiModelRouted | services/imageGenerators.ts:9 | the offered Gemini model goes to Gemini |
| ImageRouting.HuggingFaceRouted | services/imageGenerators.ts:34-51 | a Hugging Face family id goes to Hugging Face with a token and is refused without one |
| ImageRouting.PollinationsRouted | services/imageGenerators.ts:14 | an id starting with `pollinations` and with no `g` goes to Pollinations |
| ImageRouting.PollinationsFluxId | App.tsx:41 | the offered flux model is routed to Pollinations and asks for `flux` |
| ImageRouting.PollinationsTurboModel | App.tsx:42 | the offered turbo model asks for `turbo` |
| ImageRouting.FluxSchnellId | App.tsx:38 | the offered FLUX.1-schnell id is a Hugging Face family id |
| ImageRouting.SdxlId | App.tsx:39 | the offered SDXL id is a Hugging Face family id |
| ImageRouting.StableDiffusionId | App.tsx:40 | the offered SD 1.5 id is a Hugging Face family id |
| Sidebar.GroupOfInjective | components/Sidebar.tsx:81-85 | each provider has a heading of its own |
| Sidebar.HeadingOf | components/Sidebar.tsx:81-85 | the `if` chain picks the provider's heading, `PUTERJS` for Puter |
| Sidebar.Headings | components/Sidebar.tsx:80-85 | one heading per model, in order |
| Sidebar.GroupModels | components/Sidebar.tsx:80-90 | headings in order of first appearance; each lists exactly its providers' models in order, none empty; every model is listed exactly once |
| Sidebar.KnownHeadingStep | components/Sidebar.tsx:87-88 | pushing a model onto an existing list keeps the grouping invariant |
| Sidebar.NewHeadingStep | components/Sidebar.tsx:87-88 | creating a list for a new heading and pushing onto it keeps the grouping invariant |
| Sidebar.HeadingsStep | components/Sidebar.tsx:87 | a heading met for the first time is appended to the order; a known one changes nothing |
| Sidebar.TotalStep | components/Sidebar.tsx:88 | each push adds one to the number of models listed |
| Sidebar.RenameState.constructor | components/Sidebar.tsx:37-41 | no menu open, nothing being edited, an empty title |
| Sidebar.RenameState.StartRename | components/Sidebar.tsx:66-70 | edit this session, starting from its title or from its preview when the title is empty; close the menu |
| Sidebar.RenameState.EditTitle | components/Sidebar.tsx:41 | typing sets the edited title and nothing else |
| Sidebar.RenameState.SaveRename | components/Sidebar.tsx:72-77 | with an edit under way, the id and title are passed to the app once and the edit ends; otherwise nothing happens |

## Left out

- Browser and network I/O. WebSocket, `fetch`, `getUserMedia`, the Web Audio graph, `FileReader`, `TextDecoder` and `localStorage` are abstract handles, parameters or traces. Whatever they deliver (replies, chunks, microphone blocks, clock readings) is an input to the operation that receives it.
- Floating point. Samples, times and estimates are exact reals. `Float32Array` rounding and IEEE corner cases (NaN, infinities, negative zero) are not modelled. The codec's clamp, scale and truncation are modelled exactly over the reals.
- Concurrency. Every callback (`onopen`, `onmessage`, `onaudioprocess`, `onended`, a stream chunk) is one atomic method call. Interleavings come only from the order in which those calls are made.
- `JSON.parse` and the property lookups on a parsed payload are the abstract function `parse`. Building request bodies with `JSON.stringify` is modelled as a `Request` record, not as text.
- The Gemini and Puter chat clients and the Gemini image and video generators are outside the model (services/gemini.ts, services/puter.ts). The image route only names the generator a request goes to.
- The image generators' HTTP fetch, blob conversion and the Hugging Face SDK are outside the model. `encodeURIComponent` is the parameter `encode`, and `Math.random()` is the parameter `random`.
- `setTimeout` is not modelled. The Hugging Face client returns the waits it would sleep, and its recursive `makeRequest(retryCount + 1)` is a loop over the replies given.
- HuggingFace.SendMessageToHuggingFace: a server that answers 503 forever is not modelled. With finitely many replies, a call still waiting when they run out ends in `StillWaiting`.
- HuggingFace.WaitSeconds: an `estimated_time` that is not a number is treated as absent. An estimate that is a non-numeric string is not modelled.
- The "No response body" and "Response body is not readable" errors are not modelled: a response always has a body. A reader that fails mid-stream is not modelled either.
- StreamLines: a chunk is split into lines on its own, as the clients do. A line cut by a chunk boundary stays two lines; the model does not join them, and neither do the clients.
- Characters are Unicode scalar values, while JavaScript strings count UTF-16 code units. `JsString.Utf16Length` gives the JavaScript length, and the two agree inside the Basic Multilingual Plane. No Unicode normalisation is done, and `TextDecoder`'s handling of multi-byte sequences split across chunks is not modelled.
- JsString.Prefix: the cut is counted in characters, where `substring` counts UTF-16 code units. Outside the Basic Multilingual Plane the two differ, and a JavaScript cut can split a surrogate pair, which a Dafny string cannot hold. `PrefixInCodeUnits` states where they agree.
- ChatApp.TitleOf: the 30 are counted in characters, not UTF-16 code units, so a first message with emoji gets a longer title than the program gives it.
- ChatApp.PreviewOf: the 40 are counted in characters, not UTF-16 code units, so a first message with emoji gets a longer preview than the program gives it.
- `Date.now()` is the parameter `now`. All readings within one handler are taken to be equal.
- LiveGemini.GeminiLiveClient.HandleMessage: the audio clock (`audioContext.currentTime`) is read once per message, as the parameter `now`, and every part of the message is scheduled against that one reading. In the browser the clock can advance between the parts of a message.
- ChatApp: the updater of `updateSessionHistory` mutates the session object it finds (`session.messages.push`). The model returns a new list with the session replaced, so sharing between that object and earlier renders is not captured.
- ChatApp: `loadSession`, `startNewChat` (except as part of `deleteSession`), `clearCurrentChat`, the PDF export, the theme toggle, scrolling and the saved-history effects are not part of this model.
- SessionOrder.SortSessions: does not state stability. `Array.prototype.sort` keeps ties in their order; the contract promises only a sorted permutation.
- LiveGemini: the playback of samples by the audio hardware is not modelled. A frame is its start time, its duration and its samples.
- LiveModal: the rendering of the overlay is reduced to the two status labels, and the mute button's icon is not modelled.
- Sidebar: the model picker's rendering, the export menu and the outside-click handling are not modelled. Only the grouping and the rename flow are.

## Findings

| source | as written | input that shows it | evidently intended | confidence | as-written member | corrected member |
|---|---|---|---|---|---|---|
| App.tsx:111 | with only the Gemini key missing, the startup check selects `deepseek/deepseek-chat:free`, which is not an id in `CHAT_MODELS`, so the send routes it to Puter | a missing Gemini key and a set OpenRouter key: `ProviderFor("deepseek/deepseek-chat:free") == Puter` | the comment on line 110 says an OpenRouter model is meant; the listed `deepseek/deepseek-v3:free` routes to OpenRouter | not executed | ChatApp.StartupModelAsWritten, ChatApp.StartupDefaultMisrouted, ChatApp.ChatApp.InitKeys | ChatApp.StartupModel, ChatApp.StartupRouting |
