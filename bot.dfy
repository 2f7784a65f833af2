/** The bot package: the connection-status state machine of `Manager` and the
    per-message dispatch that answers a voice note with its transcript.

    The manager's mutable fields are modelled by the class `Manager`; the value
    `State` is a snapshot of those fields, and each mutating method is proved
    equal to a pure transition function on `State`, about which the lemmas
    below are stated. */
module Bot {
  import opened Wrappers

  // ---------------------------------------------------------------------------
  // Connection status: the only five strings the package ever stores.
  // ---------------------------------------------------------------------------

  const Disconnected: string := "Disconnected"
  const Connecting: string := "Connecting..."
  const WaitingForQrScan: string := "Waiting for QR Scan"
  const Connected: string := "Connected"
  const ConnectionFailed: string := "Connection Failed"

  const Statuses: set<string> := {Disconnected, Connecting, WaitingForQrScan, Connected, ConnectionFailed}

  /** The `*whatsmeow.Client` a manager holds, as an opaque identity. */
  datatype ClientHandle = ClientHandle(serial: nat)

  /** A snapshot of the fields of a Manager (the mutex excepted).
      `startTime` is a wall-clock reading in nanoseconds; 0 is Go's zero time. */
  datatype State = State(
    status: string,
    qrCode: string,
    apiKey: string,
    startTime: int,
    client: Option<ClientHandle>)

  /** The state NewManager builds. */
  function Initial(apiKey: string): (s: State)
    ensures s.status == Disconnected && s.status in Statuses
    ensures s.qrCode == "" && s.apiKey == apiKey && s.client == None
  {
    State(Disconnected, "", apiKey, 0, None)
  }

  /** updateStatus: overwrites the status and the QR payload, nothing else. */
  function WithStatus(s: State, status: string, qrCode: string): (r: State)
    ensures r.status == status && r.qrCode == qrCode
    ensures r.apiKey == s.apiKey && r.startTime == s.startTime && r.client == s.client
  {
    s.(status := status, qrCode := qrCode)
  }

  // ---------------------------------------------------------------------------
  // The login flow of ConnectClient
  // ---------------------------------------------------------------------------

  /** One item read from the QR channel. A "code" item carries the outcome of
      encoding its code as a PNG and then as base64 (None when the encoder
      failed); a "success" item carries the clock reading taken when it is
      handled; any other event name changes nothing. The constructor, not a
      string, picks the branch: `OtherLoginEvent` stands for an item whose
      event name is neither "code" nor "success". */
  datatype QrEvent =
    | Code(code: string, encoded: Option<string>)
    | LoginSuccess(at: int)
    | OtherLoginEvent(event: string)

  /** Events the loop only logs. */
  predicate Inert(e: QrEvent)
  {
    e.OtherLoginEvent? || (e.Code? && e.encoded.None?)
  }

  /** The body of the `for evt := range qrChan` loop. */
  function QrStep(s: State, e: QrEvent): State
  {
    match e
    case Code(_, encoded) =>
      if encoded.Some? then WithStatus(s, WaitingForQrScan, encoded.value) else s
    case LoginSuccess(at) =>
      WithStatus(s.(startTime := at), Connected, "")
    case OtherLoginEvent(_) =>
      s
  }

  /** The whole loop, until the channel closes; it never breaks early. */
  function QrLoop(s: State, evts: seq<QrEvent>): State
    decreases |evts|
  {
    if evts == [] then s
    else QrStep(QrLoop(s, evts[..|evts| - 1]), evts[|evts| - 1])
  }

  /** Outcome of GetFirstDevice: an error, no device (a new one is created,
      without an ID), or a stored device with or without a registered ID. */
  datatype DeviceLookup = LookupFailed | NoDevice | FoundDevice(registered: bool)

  /** Whether the device store's ID is nil, so that the QR flow runs. */
  predicate NeedsPairing(d: DeviceLookup)
  {
    d.NoDevice? || (d.FoundDevice? && !d.registered)
  }

  /** Everything ConnectClient learns from its collaborators: whether the SQL
      container opened, the device lookup, the client NewClient returns,
      whether Connect succeeded, the items the QR channel delivers before it
      closes, and the clock reading for the known-device path. */
  datatype Login = Login(
    storeOpened: bool,
    device: DeviceLookup,
    newClient: ClientHandle,
    connectOk: bool,
    qrEvents: seq<QrEvent>,
    now: int)

  /** ConnectClient as a function of the state it starts from. */
  function ConnectSpec(s: State, login: Login): (r: State)
    ensures r.status in Statuses
    ensures r.apiKey == s.apiKey
  {
    var attempt := WithStatus(s, Connecting, "");
    if !login.storeOpened || login.device.LookupFailed? then
      WithStatus(attempt, ConnectionFailed, "")
    else
      var attached := attempt.(client := Some(login.newClient));
      if NeedsPairing(login.device) then
        if !login.connectOk then WithStatus(attached, ConnectionFailed, "")
        else QrLoopFrame(attached, login.qrEvents); QrLoop(attached, login.qrEvents)
      else
        if !login.connectOk then WithStatus(attached, ConnectionFailed, "")
        else WithStatus(attached.(startTime := login.now), Connected, "")
  }

  // ----- Lemmas about the QR loop -----

  /** The loop touches only status, QR payload and start time, and every
      change it makes is one of its two writes. */
  lemma {:induction false} QrLoopFrame(s: State, evts: seq<QrEvent>)
    ensures var r := QrLoop(s, evts);
      r.apiKey == s.apiKey && r.client == s.client &&
      (r == s || r.status == WaitingForQrScan || (r.status == Connected && r.qrCode == ""))
    decreases |evts|
  {
    if evts != [] {
      QrLoopFrame(s, evts[..|evts| - 1]);
    }
  }

  /** Without a "success" item the start time is untouched, and the status is
      the one the loop started from exactly when no code was shown; otherwise
      it is "Waiting for QR Scan". In particular the loop never yields
      "Connection Failed" unless it started there. */
  lemma {:induction false} QrLoopWithoutSuccess(s: State, evts: seq<QrEvent>)
    requires forall i :: 0 <= i < |evts| ==> !evts[i].LoginSuccess?
    ensures QrLoop(s, evts).startTime == s.startTime
    ensures (forall i :: 0 <= i < |evts| ==> Inert(evts[i])) ==> QrLoop(s, evts) == s
    ensures !(forall i :: 0 <= i < |evts| ==> Inert(evts[i])) ==> QrLoop(s, evts).status == WaitingForQrScan
    decreases |evts|
  {
    if evts != [] {
      var init := evts[..|evts| - 1];
      QrLoopWithoutSuccess(s, init);
      if !Inert(evts[|evts| - 1]) {
        assert !(forall i :: 0 <= i < |evts| ==> Inert(evts[i]));
      } else if !(forall i :: 0 <= i < |evts| ==> Inert(evts[i])) {
        var k :| 0 <= k < |evts| && !Inert(evts[k]);
        assert init[k] == evts[k];
      }
    }
  }

  /** Items the loop only logs can be appended without effect. */
  lemma {:induction false} QrLoopInertSuffix(s: State, evts: seq<QrEvent>, tail: seq<QrEvent>)
    requires forall j :: 0 <= j < |tail| ==> Inert(tail[j])
    ensures QrLoop(s, evts + tail) == QrLoop(s, evts)
    decreases |tail|
  {
    if tail != [] {
      var all := evts + tail;
      var shorter := tail[..|tail| - 1];
      assert all[..|all| - 1] == evts + shorter;
      assert all[|all| - 1] == tail[|tail| - 1];
      QrLoopInertSuffix(s, evts, shorter);
    } else {
      assert evts + tail == evts;
    }
  }

  /** The loop ends in the effect of its last non-inert item. */
  lemma QrLoopLastEffect(s: State, evts: seq<QrEvent>, k: nat)
    requires k < |evts|
    requires forall j :: k < j < |evts| ==> Inert(evts[j])
    ensures QrLoop(s, evts) == QrStep(QrLoop(s, evts[..k]), evts[k])
  {
    assert evts == evts[..k + 1] + evts[k + 1..];
    assert evts[..k + 1][..k] == evts[..k];
    QrLoopInertSuffix(s, evts[..k + 1], evts[k + 1..]);
  }

  /** A "success" item followed only by inert items leaves the manager
      connected, with its start time, and with no QR payload. */
  lemma {:induction false} QrLoopConnectedAfterSuccess(s: State, evts: seq<QrEvent>, k: nat)
    requires k < |evts| && evts[k].LoginSuccess?
    requires forall j :: k < j < |evts| ==> Inert(evts[j])
    ensures QrLoop(s, evts).status == Connected
    ensures QrLoop(s, evts).qrCode == ""
    ensures QrLoop(s, evts).startTime == evts[k].at
  {
    QrLoopLastEffect(s, evts, k);
  }

  /** The last successfully encoded code is the one on display. */
  lemma {:induction false} QrLoopShowsLastCode(s: State, evts: seq<QrEvent>, k: nat)
    requires k < |evts| && evts[k].Code? && evts[k].encoded.Some?
    requires forall j :: k < j < |evts| ==> Inert(evts[j])
    ensures QrLoop(s, evts).status == WaitingForQrScan
    ensures QrLoop(s, evts).qrCode == evts[k].encoded.value
  {
    QrLoopLastEffect(s, evts, k);
  }

  // ----- Lemmas about ConnectClient -----

  /** A store, device-lookup or connect error ends the attempt in
      "Connection Failed" with no QR payload and the start time unchanged;
      the new client is kept only when the error came from Connect. */
  lemma ConnectCollaboratorError(s: State, login: Login)
    requires !login.storeOpened || login.device.LookupFailed? || !login.connectOk
    ensures ConnectSpec(s, login).status == ConnectionFailed
    ensures ConnectSpec(s, login).qrCode == ""
    ensures ConnectSpec(s, login).startTime == s.startTime
    ensures ConnectSpec(s, login).client ==
      if !login.storeOpened || login.device.LookupFailed? then s.client else Some(login.newClient)
  {
  }

  /** With a registered device, a successful Connect sets the start time and
      then "Connected" with no QR payload. */
  lemma ConnectKnownDevice(s: State, login: Login)
    requires login.storeOpened && !login.device.LookupFailed? && !NeedsPairing(login.device)
    requires login.connectOk
    ensures ConnectSpec(s, login) ==
      s.(status := Connected, qrCode := "", startTime := login.now, client := Some(login.newClient))
  {
  }

  /** When the QR channel closes without "success", the attempt is never
      marked failed: it stays "Connecting..." if no code was ever shown and
      is "Waiting for QR Scan" otherwise, with the start time unchanged. */
  lemma ConnectPairingClosedWithoutSuccess(s: State, login: Login)
    requires login.storeOpened && !login.device.LookupFailed? && NeedsPairing(login.device)
    requires login.connectOk
    requires forall i :: 0 <= i < |login.qrEvents| ==> !login.qrEvents[i].LoginSuccess?
    ensures ConnectSpec(s, login).status != ConnectionFailed
    ensures ConnectSpec(s, login).startTime == s.startTime
    ensures ConnectSpec(s, login).client == Some(login.newClient)
    ensures ConnectSpec(s, login).status ==
      if forall i :: 0 <= i < |login.qrEvents| ==> Inert(login.qrEvents[i])
      then Connecting else WaitingForQrScan
  {
    var attached := WithStatus(s, Connecting, "").(client := Some(login.newClient));
    QrLoopWithoutSuccess(attached, login.qrEvents);
    QrLoopFrame(attached, login.qrEvents);
  }

  /** A scanned code: "success" followed only by inert items connects. */
  lemma ConnectPairingSucceeds(s: State, login: Login, k: nat)
    requires login.storeOpened && !login.device.LookupFailed? && NeedsPairing(login.device)
    requires login.connectOk
    requires k < |login.qrEvents| && login.qrEvents[k].LoginSuccess?
    requires forall j :: k < j < |login.qrEvents| ==> Inert(login.qrEvents[j])
    ensures ConnectSpec(s, login).status == Connected
    ensures ConnectSpec(s, login).qrCode == ""
    ensures ConnectSpec(s, login).startTime == login.qrEvents[k].at
    ensures ConnectSpec(s, login).client == Some(login.newClient)
  {
    var attached := WithStatus(s, Connecting, "").(client := Some(login.newClient));
    QrLoopConnectedAfterSuccess(attached, login.qrEvents, k);
    QrLoopFrame(attached, login.qrEvents);
  }

  // ---------------------------------------------------------------------------
  // Disconnect and the event handler
  // ---------------------------------------------------------------------------

  /** Disconnect, given whether the client reports itself connected. */
  function DisconnectSpec(s: State, clientConnected: bool): (r: State)
    ensures r.startTime == s.startTime && r.client == s.client && r.apiKey == s.apiKey
    ensures s.client.Some? && clientConnected ==> r.status == Disconnected && r.qrCode == ""
    ensures !(s.client.Some? && clientConnected) ==> r == s
  {
    if s.client.Some? && clientConnected then WithStatus(s, Disconnected, "") else s
  }

  /** Once a disconnect took effect, disconnecting again changes nothing, and
      after a no-op call the client answers the same way again. */
  lemma DisconnectIdempotent(s: State, clientConnected: bool, again: bool)
    ensures DisconnectSpec(DisconnectSpec(s, true), again) == DisconnectSpec(s, true)
    ensures DisconnectSpec(DisconnectSpec(s, clientConnected), false) == DisconnectSpec(s, clientConnected)
  {
  }

  /** Opaque media reference of an audio message. */
  datatype AudioMessage = AudioMessage(media: string)

  /** A WhatsApp message: its audio part, if any, and the rest of its content. */
  datatype WaMessage = WaMessage(audio: Option<AudioMessage>, otherContent: string)

  /** A JID, by the text its String method renders. */
  datatype Jid = Jid(rendered: string)

  datatype MessageInfo = MessageInfo(sender: Jid, id: string)

  datatype MessageEvent = MessageEvent(info: MessageInfo, message: WaMessage)

  /** The events the handler distinguishes by their dynamic type. */
  datatype Event = DisconnectedEvent | MessageEvt(v: MessageEvent) | OtherEvent(kind: string)

  /** Effect of eventHandler on the manager's fields. */
  function EventEffect(s: State, evt: Event): (r: State)
    ensures evt.DisconnectedEvent? ==> r == s.(status := Disconnected, qrCode := "")
    ensures !evt.DisconnectedEvent? ==> r == s
  {
    if evt.DisconnectedEvent? then WithStatus(s, Disconnected, "") else s
  }

  // ---------------------------------------------------------------------------
  // handleMessages
  // ---------------------------------------------------------------------------

  type Bytes = seq<bv8>

  /** client.Download on an audio message. */
  type Downloader = AudioMessage -> Result<Bytes, string>

  /** groq.TranscribeAudio(audioData, apiKey). */
  type Transcriber = (Bytes, string) -> Result<string, string>

  datatype ContextInfo = ContextInfo(quotedMessage: WaMessage, participant: string, stanzaId: string)

  datatype ExtendedTextMessage = ExtendedTextMessage(text: string, contextInfo: ContextInfo)

  /** A SendMessage call: the recipient and the message. */
  datatype Reply = Reply(to: Jid, message: ExtendedTextMessage)

  /** How far the handling of one event got. The collaborator calls made are
      those its name implies: none, Download, Download then transcription, or
      all three with the given reply sent (a send error is only logged). */
  datatype Outcome =
    | Ignored
    | DownloadFailed(downloadError: string)
    | TranscriptionFailed(transcriptionError: string)
    | Replied(reply: Reply)

  const ReplyOpening: string := "\U{1F399}\U{FE0F} *Transcri\U{E7}\U{E3}o do \U{E1}udio:*\n\n\""
  const ReplyClosing: string := "\"\n\n_Powered by Cris AI \U{1F916}_"

  /** The reply text: the fixed heading, the transcript in double quotes,
      and the fixed signature. */
  function ReplyText(transcript: string): string
  {
    ReplyOpening + transcript + ReplyClosing
  }

  /** Reads the transcript back out of a reply text. */
  function TranscriptOf(text: string): (r: Option<string>)
    ensures r.Some? ==> |r.value| + |ReplyOpening| + |ReplyClosing| == |text|
  {
    if |text| >= |ReplyOpening| + |ReplyClosing|
       && text[..|ReplyOpening|] == ReplyOpening
       && text[|text| - |ReplyClosing|..] == ReplyClosing
    then Some(text[|ReplyOpening|..|text| - |ReplyClosing|])
    else None
  }

  /** The transcript can be read back from the reply... */
  lemma TranscriptOfReplyText(t: string)
    ensures TranscriptOf(ReplyText(t)) == Some(t)
  {
  }

  /** ...and a text that yields a transcript is exactly that reply. */
  lemma ReplyTextOfTranscript(text: string, t: string)
    requires TranscriptOf(text) == Some(t)
    ensures ReplyText(t) == text
  {
  }

  /** handleMessages for one message event. */
  function HandleMessages(v: MessageEvent, apiKey: string, download: Downloader, transcribe: Transcriber): (o: Outcome)
    ensures o.Ignored? <==> v.message.audio.None?
    ensures o.DownloadFailed? <==>
      v.message.audio.Some? && download(v.message.audio.value).Failure?
    ensures o.TranscriptionFailed? <==>
      v.message.audio.Some? && download(v.message.audio.value).Success? &&
      transcribe(download(v.message.audio.value).value, apiKey).Failure?
    ensures o.Replied? ==>
      o.reply.to == v.info.sender &&
      o.reply.message.contextInfo == ContextInfo(v.message, v.info.sender.rendered, v.info.id) &&
      TranscriptOf(o.reply.message.text) == Some(transcribe(download(v.message.audio.value).value, apiKey).value)
  {
    match v.message.audio
    case None => Ignored
    case Some(audio) =>
      match download(audio)
      case Failure(err) => DownloadFailed(err)
      case Success(audioData) =>
        match transcribe(audioData, apiKey)
        case Failure(err) => TranscriptionFailed(err)
        case Success(transcript) =>
          TranscriptOfReplyText(transcript);
          var quotedInfo := ContextInfo(v.message, v.info.sender.rendered, v.info.id);
          Replied(Reply(v.info.sender, ExtendedTextMessage(ReplyText(transcript), quotedInfo)))
  }

  // ---------------------------------------------------------------------------
  // The manager object
  // ---------------------------------------------------------------------------

  class Manager {
    var client: Option<ClientHandle>
    var status: string
    var qrCode: string
    var apiKey: string
    var startTime: int

    function Snapshot(): State
      reads this
    {
      State(status, qrCode, apiKey, startTime, client)
    }

    /** NewManager. */
    constructor (apiKey: string)
      ensures Snapshot() == Initial(apiKey)
    {
      this.client := None;
      this.status := Disconnected;
      this.qrCode := "";
      this.apiKey := apiKey;
      this.startTime := 0;
    }

    method UpdateStatus(status: string, qrCode: string)
      modifies this
      ensures Snapshot() == WithStatus(old(Snapshot()), status, qrCode)
    {
      this.status := status;
      this.qrCode := qrCode;
    }

    method ConnectClient(login: Login)
      modifies this
      ensures Snapshot() == ConnectSpec(old(Snapshot()), login)
    {
      UpdateStatus(Connecting, "");
      if !login.storeOpened {
        UpdateStatus(ConnectionFailed, "");
        return;
      }
      if login.device.LookupFailed? {
        UpdateStatus(ConnectionFailed, "");
        return;
      }
      client := Some(login.newClient);
      if NeedsPairing(login.device) {
        if !login.connectOk {
          UpdateStatus(ConnectionFailed, "");
          return;
        }
        ghost var paired := Snapshot();
        var qrChan := login.qrEvents;
        var i := 0;
        while i < |qrChan|
          invariant 0 <= i <= |qrChan|
          invariant Snapshot() == QrLoop(paired, qrChan[..i])
        {
          match qrChan[i] {
            case Code(_, encoded) =>
              if encoded.Some? {
                UpdateStatus(WaitingForQrScan, encoded.value);
              }
            case LoginSuccess(at) =>
              startTime := at;
              UpdateStatus(Connected, "");
            case OtherLoginEvent(_) =>
          }
          assert qrChan[..i + 1][..i] == qrChan[..i];
          i := i + 1;
        }
        assert qrChan[..i] == qrChan;
      } else {
        if !login.connectOk {
          UpdateStatus(ConnectionFailed, "");
          return;
        }
        startTime := login.now;
        UpdateStatus(Connected, "");
      }
    }

    /** `clientConnected` is what the client's IsConnected reports. */
    method Disconnect(clientConnected: bool)
      modifies this
      ensures Snapshot() == DisconnectSpec(old(Snapshot()), clientConnected)
    {
      if client.Some? && clientConnected {
        status := Disconnected;
        qrCode := "";
      }
    }

    method EventHandler(evt: Event, download: Downloader, transcribe: Transcriber) returns (outcome: Outcome)
      modifies this
      ensures Snapshot() == EventEffect(old(Snapshot()), evt)
      ensures outcome == if evt.MessageEvt? then HandleMessages(evt.v, apiKey, download, transcribe) else Ignored
    {
      outcome := Ignored;
      match evt {
        case DisconnectedEvent =>
          UpdateStatus(Disconnected, "");
        case MessageEvt(v) =>
          outcome := HandleMessages(v, apiKey, download, transcribe);
        case OtherEvent(_) =>
      }
    }
  }
}
