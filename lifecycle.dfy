/** The manager as the process shares it: the web handlers, the ConnectClient
    goroutine and the client's event callbacks all act on one Manager. Each
    locked region (and each unlocked write of the client or the start time)
    is one atomic step; any interleaving of steps is a sequence of them. */
module Lifecycle {
  import opened Wrappers
  import opened Bot
  import Web

  /** The atomic steps that write the manager's fields. */
  datatype AtomicStep =
    | Claim                               // handleConnect's check-and-set
    | BeginAttempt                        // ConnectClient: "Connecting...", no QR
    | FailAttempt                         // ConnectClient: "Connection Failed", no QR
    | AttachClient(handle: ClientHandle)  // ConnectClient: the new client is stored
    | ShowCode(payload: string)           // QR loop: "Waiting for QR Scan" with a payload
    | SetStartTime(at: int)               // QR loop or known device: the start time
    | MarkConnected                       // QR loop or known device: "Connected", no QR
    | ExplicitDisconnect(clientConnected: bool)  // Disconnect (the client is kept)
    | LinkLost                            // eventHandler on a Disconnected event

  function Apply(s: State, step: AtomicStep): State
  {
    match step
    case Claim => Web.ClaimConnect(s)
    case BeginAttempt => WithStatus(s, Connecting, "")
    case FailAttempt => WithStatus(s, ConnectionFailed, "")
    case AttachClient(handle) => s.(client := Some(handle))
    case ShowCode(payload) => WithStatus(s, WaitingForQrScan, payload)
    case SetStartTime(at) => s.(startTime := at)
    case MarkConnected => WithStatus(s, Connected, "")
    case ExplicitDisconnect(clientConnected) => DisconnectSpec(s, clientConnected)
    case LinkLost => EventEffect(s, DisconnectedEvent)
  }

  function ApplyAll(s: State, steps: seq<AtomicStep>): State
    decreases |steps|
  {
    if steps == [] then s
    else Apply(ApplyAll(s, steps[..|steps| - 1]), steps[|steps| - 1])
  }

  lemma {:induction false} ApplyAllAppend(s: State, a: seq<AtomicStep>, b: seq<AtomicStep>)
    ensures ApplyAll(s, a + b) == ApplyAll(ApplyAll(s, a), b)
    decreases |b|
  {
    if b == [] {
      assert a + b == a;
    } else {
      var ab := a + b;
      assert ab[..|ab| - 1] == a + b[..|b| - 1];
      assert ab[|ab| - 1] == b[|b| - 1];
      ApplyAllAppend(s, a, b[..|b| - 1]);
    }
  }

  // ---------------------------------------------------------------------------
  // ConnectClient as a sequence of atomic steps
  // ---------------------------------------------------------------------------

  /** The steps one QR-channel item takes. */
  function QrItemSteps(e: QrEvent): seq<AtomicStep>
  {
    match e
    case Code(_, encoded) => if encoded.Some? then [ShowCode(encoded.value)] else []
    case LoginSuccess(at) => [SetStartTime(at), MarkConnected]
    case OtherLoginEvent(_) => []
  }

  function QrSteps(evts: seq<QrEvent>): seq<AtomicStep>
    decreases |evts|
  {
    if evts == [] then []
    else QrSteps(evts[..|evts| - 1]) + QrItemSteps(evts[|evts| - 1])
  }

  /** The steps of one ConnectClient call, in the order it takes them. */
  function ConnectSteps(login: Login): seq<AtomicStep>
  {
    var afterBegin :=
      if !login.storeOpened || login.device.LookupFailed? then [FailAttempt]
      else if !login.connectOk then [AttachClient(login.newClient), FailAttempt]
      else if NeedsPairing(login.device) then [AttachClient(login.newClient)] + QrSteps(login.qrEvents)
      else [AttachClient(login.newClient), SetStartTime(login.now), MarkConnected];
    [BeginAttempt] + afterBegin
  }

  lemma ApplyAllOne(s: State, a: AtomicStep)
    ensures ApplyAll(s, [a]) == Apply(s, a)
  {
  }

  lemma ApplyAllTwo(s: State, a: AtomicStep, b: AtomicStep)
    ensures ApplyAll(s, [a, b]) == Apply(Apply(s, a), b)
  {
    assert [a, b][..1] == [a];
    ApplyAllOne(s, a);
  }

  lemma QrItemStepsAgree(s: State, e: QrEvent)
    ensures ApplyAll(s, QrItemSteps(e)) == QrStep(s, e)
  {
    match e
    case Code(_, encoded) =>
      if encoded.Some? {
        ApplyAllOne(s, ShowCode(encoded.value));
      }
    case LoginSuccess(at) =>
      ApplyAllTwo(s, SetStartTime(at), MarkConnected);
    case OtherLoginEvent(_) =>
  }

  lemma {:induction false} QrStepsAgree(s: State, evts: seq<QrEvent>)
    ensures ApplyAll(s, QrSteps(evts)) == QrLoop(s, evts)
    decreases |evts|
  {
    if evts != [] {
      var init, last := evts[..|evts| - 1], evts[|evts| - 1];
      ApplyAllAppend(s, QrSteps(init), QrItemSteps(last));
      QrStepsAgree(s, init);
      QrItemStepsAgree(QrLoop(s, init), last);
    }
  }

  /** Running ConnectClient's steps back to back is exactly ConnectClient. */
  lemma ConnectStepsAgree(s: State, login: Login)
    ensures ApplyAll(s, ConnectSteps(login)) == ConnectSpec(s, login)
  {
    var begun := WithStatus(s, Connecting, "");
    var rest := ConnectSteps(login)[1..];
    assert ConnectSteps(login) == [BeginAttempt] + rest;
    ApplyAllAppend(s, [BeginAttempt], rest);
    ApplyAllOne(s, BeginAttempt);
    var attach := AttachClient(login.newClient);
    var attached := begun.(client := Some(login.newClient));
    if !login.storeOpened || login.device.LookupFailed? {
      ApplyAllOne(begun, FailAttempt);
    } else if !login.connectOk {
      ApplyAllTwo(begun, attach, FailAttempt);
    } else if NeedsPairing(login.device) {
      ApplyAllAppend(begun, [attach], QrSteps(login.qrEvents));
      ApplyAllOne(begun, attach);
      QrStepsAgree(attached, login.qrEvents);
    } else {
      assert rest == [attach] + [SetStartTime(login.now), MarkConnected];
      ApplyAllAppend(begun, [attach], [SetStartTime(login.now), MarkConnected]);
      ApplyAllOne(begun, attach);
      ApplyAllTwo(attached, SetStartTime(login.now), MarkConnected);
    }
  }

  // ---------------------------------------------------------------------------
  // What every interleaving keeps
  // ---------------------------------------------------------------------------

  /** The status is one of the five strings, and a QR payload is only ever
      held while waiting for a scan or while a new attempt is starting (the
      claim does not clear the payload of the attempt it replaces). */
  predicate Consistent(s: State)
  {
    s.status in Statuses &&
    (s.qrCode != "" ==> s.status == WaitingForQrScan || s.status == Connecting)
  }

  lemma ApplyKeepsConsistent(s: State, step: AtomicStep)
    requires Consistent(s)
    ensures Consistent(Apply(s, step))
  {
  }

  lemma {:induction false} InterleavingKeepsConsistent(s: State, steps: seq<AtomicStep>)
    requires Consistent(s)
    ensures Consistent(ApplyAll(s, steps))
    decreases |steps|
  {
    if steps != [] {
      InterleavingKeepsConsistent(s, steps[..|steps| - 1]);
      ApplyKeepsConsistent(ApplyAll(s, steps[..|steps| - 1]), steps[|steps| - 1]);
    }
  }

  /** From NewManager, whatever the handlers, the connect goroutines and the
      event callbacks do and in whatever order, the status stays one of the
      five strings, so the page always has a CSS class and offers exactly one
      of its actions, and the QR image is shown only with its payload. */
  lemma EveryRunIsConsistent(apiKey: string, steps: seq<AtomicStep>, now: int)
    ensures ApplyAll(Initial(apiKey), steps).status in Statuses
    ensures var s := ApplyAll(Initial(apiKey), steps);
      Web.StatusView(s, now).statusClass != "" &&
      (s.qrCode != "" ==> s.status == WaitingForQrScan || s.status == Connecting)
  {
    InterleavingKeepsConsistent(Initial(apiKey), steps);
  }

  // ---------------------------------------------------------------------------
  // Scenarios
  // ---------------------------------------------------------------------------

  /** A fresh device: /connect claims the manager, a code is shown, and a
      "success" connects it with the success time as start time. */
  lemma FreshPairingConnects(apiKey: string, client: ClientHandle, code: string, payload: string, at: int, now: int)
    ensures var claimed := Web.ClaimConnect(Initial(apiKey));
      claimed.status == Connecting &&
      var waiting := ConnectSpec(claimed, Login(true, NoDevice, client, true, [Code(code, Some(payload))], now));
      waiting.status == WaitingForQrScan && waiting.qrCode == payload &&
      Web.StatusView(waiting, now).showQr &&
      var done := ConnectSpec(claimed, Login(true, NoDevice, client, true, [Code(code, Some(payload)), LoginSuccess(at)], now));
      done.status == Connected && done.qrCode == "" && done.startTime == at &&
      Web.StatusView(done, now).uptime.Some?
  {
  }

  /** Disconnect on a manager that never connected changes nothing. */
  lemma DisconnectBeforeConnectIsNoOp(apiKey: string, clientConnected: bool)
    ensures DisconnectSpec(Initial(apiKey), clientConnected) == Initial(apiKey)
  {
  }

  /** If the QR channel closes before delivering any code or success (for
      example an error event), the manager stays "Connecting...": the page
      offers no Connect button and a new /connect is refused, until a
      Disconnected event arrives or Disconnect runs while the client still
      reports itself connected. */
  lemma QrChannelClosingEarlyBlocksReconnect(apiKey: string, client: ClientHandle, event: string, now: int)
    requires event != "code" && event != "success"
    ensures var s := ConnectSpec(Web.ClaimConnect(Initial(apiKey)),
                                 Login(true, NoDevice, client, true, [OtherLoginEvent(event)], now));
      s.status == Connecting &&
      !Web.MayStartConnect(s.status) && !Web.StatusView(s, now).showConnectBtn &&
      Web.MayStartConnect(EventEffect(s, DisconnectedEvent).status) &&
      Web.MayStartConnect(DisconnectSpec(s, true).status) &&
      !Web.MayStartConnect(DisconnectSpec(s, false).status)
  {
    var claimed := Web.ClaimConnect(Initial(apiKey));
    var attached := WithStatus(claimed, Connecting, "").(client := Some(client));
    assert QrLoop(attached, [OtherLoginEvent(event)]) == QrStep(attached, OtherLoginEvent(event));
  }

  /** If the channel closes after showing a code (the code expired), the
      manager keeps "Waiting for QR Scan" with the old payload, never
      "Connection Failed", and /connect accepts a new attempt. */
  lemma ExpiredCodeStaysWaiting(apiKey: string, client: ClientHandle, code: string, payload: string, event: string, now: int)
    requires event != "code" && event != "success"
    ensures var s := ConnectSpec(Web.ClaimConnect(Initial(apiKey)),
                                 Login(true, NoDevice, client, true, [Code(code, Some(payload)), OtherLoginEvent(event)], now));
      s.status == WaitingForQrScan && s.qrCode == payload &&
      Web.MayStartConnect(s.status) && Web.ClaimConnect(s).qrCode == payload
  {
    var claimed := Web.ClaimConnect(Initial(apiKey));
    var attached := WithStatus(claimed, Connecting, "").(client := Some(client));
    var evts := [Code(code, Some(payload)), OtherLoginEvent(event)];
    assert evts[..1] == [Code(code, Some(payload))];
    assert QrLoop(attached, evts[..1]) == QrStep(attached, Code(code, Some(payload)));
  }
}
