/**
 * The voice-mode overlay (components/LiveMasteryModal.tsx): an effect keyed
 * on `isOpen` and `apiKey` that builds, wires, connects and tears down a live
 * client, the status the client's events drive, the labels shown for each
 * status, and the mute toggle.
 *
 * The live client itself is the subject of `LiveGemini`; here it is an
 * opaque handle, and what the overlay asks of it (create, connect,
 * disconnect) is kept in a ghost call log.
 */
module LiveModal {
  import opened Wrappers
  import opened JsString
  import LiveGemini

  datatype Status = Disconnected | Connecting | Connected | Speaking

  const PLACEHOLDER: string := "PLACE_YOUR_KEY"
  const KEY_MISSING_ERROR: string := "Gemini API Key Missing. Please set VITE_GEMINI_API_KEY in .env"
  const CONNECTION_ERROR: string := "Connection Failed. Check console for details."

  /** What the overlay asks of a live client, by the client's creation number. */
  datatype ClientCall = Create(client: nat) | Connect(client: nat, apiKey: string) | Disconnect(client: nat)

  /** `!apiKey || apiKey.includes("PLACE_YOUR_KEY")`; an absent key is the empty string. */
  predicate KeyUnusable(apiKey: string) {
    apiKey == "" || Contains(apiKey, PLACEHOLDER)
  }

  /** The status after one event of a wired client: `connected` and
      `disconnected` set their own status, `speaking(b)` shows speaking or
      back to connected, an error drops to disconnected; `turnComplete` has no
      listener and changes nothing. */
  function StatusAfter(status: Status, e: LiveGemini.Event): (r: Status)
    ensures e.Connected? ==> r == Connected
    ensures e.Disconnected? || e.Error? ==> r == Disconnected
    ensures e.Speaking? ==> (r == Speaking <==> e.on) && (r == Connected <==> !e.on)
    ensures e.TurnComplete? ==> r == status
  {
    match e
    case Connected => Connected
    case Disconnected => Disconnected
    case Speaking(on) => if on then Speaking else Connected
    case Error(_) => Disconnected
    case TurnComplete => status
  }

  /** The error shown after one event: only an `error` event sets it. */
  function ErrorAfter(error: Option<string>, e: LiveGemini.Event): (r: Option<string>)
    ensures e.Error? ==> r == Some(CONNECTION_ERROR)
    ensures !e.Error? ==> r == error
  {
    if e.Error? then Some(CONNECTION_ERROR) else error
  }

  /** The header's word after `NEURAL BRIDGE`. */
  function HeaderLabel(status: Status): (r: string)
    ensures r == "ONLINE" <==> status == Connected
    ensures r == "ACTIVE" <==> status == Speaking
    ensures r == "CONNECTING" <==> status == Connecting || status == Disconnected
  {
    match status
    case Connected => "ONLINE"
    case Speaking => "ACTIVE"
    case _ => "CONNECTING"
  }

  /** The subtitle under the title. */
  function SubtitleLabel(status: Status): (r: string)
    ensures r == "Processing Voice Stream" <==> status == Speaking
    ensures r == "Listening..." <==> status == Connected
    ensures r == "Initializing" <==> status == Connecting || status == Disconnected
  {
    assert "Listening..."[0] != "Initializing"[0];
    match status
    case Speaking => "Processing Voice Stream"
    case Connected => "Listening..."
    case _ => "Initializing"
  }

  /** The header and the subtitle tell the same statuses apart: two statuses
      share a header exactly when they share a subtitle. */
  lemma LabelsAgree(s: Status, t: Status)
    ensures HeaderLabel(s) == HeaderLabel(t) <==> SubtitleLabel(s) == SubtitleLabel(t)
  {
  }

  class LiveMasteryModal {
    var status: Status
    var error: Option<string>
    var isMuted: bool
    /** `clientRef.current`. */
    var client: Option<nat>
    /** How many clients have been created; the next one gets this number. */
    var clients: nat
    /** Whether the last run of the effect returned its cleanup function. */
    var cleanupPending: bool
    ghost var calls: seq<ClientCall>

    /** A held client is one this overlay created. */
    ghost predicate Valid()
      reads this
    {
      client.Some? ==> client.value < clients
    }

    /** Between effect runs a held client always has its cleanup pending. */
    ghost predicate Settled()
      reads this
    {
      client.Some? ==> cleanupPending
    }

    /** First render: disconnected, no error, not muted, no client. */
    constructor ()
      ensures Valid() && Settled()
      ensures status == Disconnected && error == None && !isMuted
      ensures client == None && clients == 0 && !cleanupPending && calls == []
    {
      status := Disconnected;
      error := None;
      isMuted := false;
      client := None;
      clients := 0;
      cleanupPending := false;
      calls := [];
    }

    /** The effect body for `isOpen` and `apiKey`. Opening with an unusable
        key only sets the error and registers no cleanup. Opening otherwise
        clears the error, creates a client when none is held, shows
        `connecting` and connects. Closing disconnects and drops a held
        client, clears the error and shows `disconnected`. */
    method Effect(isOpen: bool, apiKey: string)
      requires Valid()
      modifies this
      ensures Valid() && isMuted == old(isMuted)
      ensures old(client).None? ==> Settled()
      ensures isOpen && KeyUnusable(apiKey) ==>
        error == Some(KEY_MISSING_ERROR) && status == old(status) && client == old(client)
        && clients == old(clients) && calls == old(calls) && !cleanupPending
      ensures isOpen && !KeyUnusable(apiKey) ==>
        error == None && status == Connecting && cleanupPending
        && (old(client).Some? ==>
              client == old(client) && clients == old(clients)
              && calls == old(calls) + [Connect(old(client).value, apiKey)])
        && (old(client).None? ==>
              client == Some(old(clients)) && clients == old(clients) + 1
              && calls == old(calls) + [Create(old(clients)), Connect(old(clients), apiKey)])
      ensures !isOpen ==>
        error == None && status == Disconnected && client == None && clients == old(clients) && cleanupPending
        && calls == old(calls) + (if old(client).Some? then [Disconnect(old(client).value)] else [])
    {
      if isOpen {
        if KeyUnusable(apiKey) {
          error := Some(KEY_MISSING_ERROR);
          cleanupPending := false;
          return;
        }
        error := None;
        if client.None? {
          client := Some(clients);
          calls := calls + [Create(clients)];
          clients := clients + 1;
        }
        status := Connecting;
        calls := calls + [Connect(client.value, apiKey)];
      } else {
        if client.Some? {
          calls := calls + [Disconnect(client.value)];
          client := None;
        }
        error := None;
        status := Disconnected;
      }
      cleanupPending := true;
    }

    /** The cleanup the effect returns: disconnect and drop a held client. */
    method Cleanup()
      requires Valid()
      modifies this`client, this`calls, this`cleanupPending
      ensures Valid() && Settled() && client == None && !cleanupPending
      ensures calls == old(calls) + (if old(client).Some? then [Disconnect(old(client).value)] else [])
    {
      if client.Some? {
        calls := calls + [Disconnect(client.value)];
        client := None;
      }
      cleanupPending := false;
    }

    /** A change of `isOpen` or `apiKey`: React runs the pending cleanup, then
        the effect again. Every run that opens with a usable key therefore
        works on a freshly created client, the previous one (if any) having
        been disconnected first. */
    method Rerun(isOpen: bool, apiKey: string)
      requires Valid() && Settled()
      modifies this
      ensures Valid() && Settled() && isMuted == old(isMuted)
      ensures isOpen && !KeyUnusable(apiKey) ==>
        client == Some(old(clients)) && clients == old(clients) + 1 && status == Connecting && error == None
        && calls == old(calls) + (if old(client).Some? then [Disconnect(old(client).value)] else [])
                   + [Create(old(clients)), Connect(old(clients), apiKey)]
      ensures !(isOpen && !KeyUnusable(apiKey)) ==> client == None && clients == old(clients)
    {
      if cleanupPending {
        Cleanup();
      }
      Effect(isOpen, apiKey);
    }

    /** An event from any client this overlay wired, current or dropped:
        the listeners do not check which client fired. */
    method HandleEvent(sender: nat, e: LiveGemini.Event)
      requires sender < clients
      modifies this`status, this`error
      ensures status == StatusAfter(old(status), e) && error == ErrorAfter(old(error), e)
    {
      match e {
        case Connected => status := Connected;
        case Disconnected => status := Disconnected;
        case Speaking(on) => status := if on then Speaking else Connected;
        case Error(_) =>
          error := Some(CONNECTION_ERROR);
          status := Disconnected;
        case TurnComplete =>
      }
    }

    /** The microphone button: flips `isMuted` and nothing else; the client
        never sees it. */
    method ToggleMute()
      modifies this`isMuted
      ensures isMuted == !old(isMuted)
    {
      isMuted := !isMuted;
    }
  }

  /** Events from a stale client move the status exactly as the current
      client's would: after a reopen, a late `disconnected` of the dropped
      client shows `disconnected` although the new client is connecting. */
  lemma StaleDisconnect(status: Status)
    requires status == Connecting
    ensures StatusAfter(status, LiveGemini.Disconnected) == Disconnected
  {
  }
}
