/** The web package: the /connect, /disconnect and /status handlers over a
    shared Manager, and the view the status fragment is rendered from. */
module Web {
  import opened Wrappers
  import opened Bot

  /** One second in nanoseconds, the unit of Go's time.Duration. */
  const Second: int := 1_000_000_000

  function Abs(x: int): nat
  {
    if x < 0 then -x else x
  }

  /** Go's `d % time.Second`: the remainder truncated toward zero. */
  function TruncRem(d: int): (r: int)
    ensures d >= 0 ==> 0 <= r < Second
    ensures d < 0 ==> -Second < r <= 0
    ensures (d - r) % Second == 0
  {
    if d >= 0 then d % Second
    else
      var q := (-d) / Second;
      assert -d == q * Second + (-d) % Second;
      assert d + (-d) % Second == (-q) * Second;
      -((-d) % Second)
  }

  /** Duration.Round(time.Second): the nearest whole number of seconds,
      halfway values rounded away from zero. */
  function RoundToSecond(d: int): (r: int)
    ensures r % Second == 0
    ensures 2 * Abs(d - r) <= Second
    ensures 2 * Abs(d - r) == Second ==> Abs(r) > Abs(d)
  {
    var rem := TruncRem(d);
    if d < 0 then
      var back := -rem;
      if back + back < Second then d + back else d - Second + back
    else
      if rem + rem < Second then d - rem else d + Second - rem
  }

  /** The rounding contract determines its result: no other whole number of
      seconds is as close to `d` with the same tie-break. */
  lemma RoundToSecondUnique(d: int, r: int)
    requires r % Second == 0
    requires 2 * Abs(d - r) <= Second
    requires 2 * Abs(d - r) == Second ==> Abs(r) > Abs(d)
    ensures r == RoundToSecond(d)
  {
  }

  /** The fields the status template is executed with. `uptime` is None for
      the empty string, otherwise the rounded elapsed time in nanoseconds. */
  datatype View = View(
    status: string,
    statusClass: string,
    uptime: Option<int>,
    showQr: bool,
    qrCode: string,
    showConnectBtn: bool,
    showDisconnectBtn: bool)

  /** The switch on the status that picks the CSS class. */
  function StatusClass(status: string): (c: string)
    ensures c == "" <==> status !in Statuses
    ensures c == "status-disconnected" <==> status == Disconnected || status == ConnectionFailed
    ensures c == "status-connected" <==> status == Connected
    ensures c == "status-waiting" <==> status == WaitingForQrScan
    ensures c == "status-connecting" <==> status == Connecting
  {
    if status == Connected then "status-connected"
    else if status == Disconnected || status == ConnectionFailed then "status-disconnected"
    else if status == WaitingForQrScan then "status-waiting"
    else if status == Connecting then "status-connecting"
    else ""
  }

  /** Two known statuses share a CSS class only when they are equal or are
      the two states the connect button is offered in. */
  lemma StatusClassSeparates(a: string, b: string)
    requires a in Statuses && b in Statuses
    requires StatusClass(a) == StatusClass(b)
    ensures a == b || ({a, b} == {Disconnected, ConnectionFailed})
  {
  }

  /** The view data handleStatus derives from the manager at time `now`. */
  function StatusView(s: State, now: int): (v: View)
    ensures v.status == s.status && v.qrCode == s.qrCode
    ensures v.statusClass == StatusClass(s.status)
    ensures v.uptime.Some? <==> s.status == Connected
    ensures v.uptime.Some? ==> v.uptime.value % Second == 0 &&
                               2 * Abs(now - s.startTime - v.uptime.value) <= Second &&
                               (2 * Abs(now - s.startTime - v.uptime.value) == Second ==>
                                  Abs(v.uptime.value) > Abs(now - s.startTime))
    ensures v.showQr <==> s.status == WaitingForQrScan
    ensures v.showConnectBtn <==> s.status == Disconnected || s.status == ConnectionFailed
    ensures v.showDisconnectBtn <==> s.status == Connected
  {
    View(
      s.status,
      StatusClass(s.status),
      if s.status == Connected then Some(RoundToSecond(now - s.startTime)) else None,
      s.status == WaitingForQrScan,
      s.qrCode,
      s.status == Disconnected || s.status == ConnectionFailed,
      s.status == Connected)
  }

  /** At most one control (or the QR image) is offered at a time, and for a
      known status the view has a CSS class and offers exactly one of: the
      connect button, the disconnect button, the QR image, or nothing while
      "Connecting...". */
  lemma ViewOffersOneAction(s: State, now: int)
    requires s.status in Statuses
    ensures var v := StatusView(s, now);
      v.statusClass != "" &&
      (if v.showConnectBtn then 1 else 0) + (if v.showDisconnectBtn then 1 else 0)
        + (if v.showQr then 1 else 0) + (if s.status == Connecting then 1 else 0) == 1
  {
  }

  /** The guard of handleConnect: a new attempt may start unless the manager
      is connected or connecting. "Waiting for QR Scan" is not excluded. */
  predicate MayStartConnect(status: string)
  {
    status != Connected && status != Connecting
  }

  /** The locked check-and-set of handleConnect. Only the status is written;
      the QR payload is left as it was. */
  function ClaimConnect(s: State): (r: State)
    ensures MayStartConnect(s.status) ==> r == s.(status := Connecting)
    ensures !MayStartConnect(s.status) ==> r == s
  {
    if MayStartConnect(s.status) then s.(status := Connecting) else s
  }

  /** An immediate second /connect is refused and changes nothing. */
  lemma ClaimConnectOnce(s: State)
    ensures !MayStartConnect(ClaimConnect(s).status)
    ensures ClaimConnect(ClaimConnect(s)) == ClaimConnect(s)
  {
  }

  /** Wherever the page offers a Connect button, pressing it starts an
      attempt; an attempt is also accepted from "Waiting for QR Scan" and
      from unknown statuses, where no button is shown. */
  lemma ConnectButtonStartsAttempt(s: State, now: int)
    ensures StatusView(s, now).showConnectBtn ==> MayStartConnect(s.status)
    ensures MayStartConnect(s.status) <==>
      StatusView(s, now).showConnectBtn || StatusView(s, now).showQr || s.status !in Statuses
  {
  }

  /** handleStatus: reads the manager and renders; it changes nothing. */
  method HandleStatus(m: Manager, now: int) returns (view: View)
    ensures view == StatusView(m.Snapshot(), now)
  {
    var uptime: Option<int> := None;
    if m.status == Connected {
      uptime := Some(RoundToSecond(now - m.startTime));
    }
    var statusClass := "";
    if m.status == Connected {
      statusClass := "status-connected";
    } else if m.status == Disconnected || m.status == ConnectionFailed {
      statusClass := "status-disconnected";
    } else if m.status == WaitingForQrScan {
      statusClass := "status-waiting";
    } else if m.status == Connecting {
      statusClass := "status-connecting";
    }
    view := View(
      m.status,
      statusClass,
      uptime,
      m.status == WaitingForQrScan,
      m.qrCode,
      m.status == Disconnected || m.status == ConnectionFailed,
      m.status == Connected);
  }

  /** handleConnect. `started` says whether ConnectClient is launched; the
      view is the one rendered right after the locked step. */
  method HandleConnect(m: Manager, now: int) returns (started: bool, view: View)
    modifies m
    ensures started <==> MayStartConnect(old(m.status))
    ensures m.Snapshot() == ClaimConnect(old(m.Snapshot()))
    ensures view == StatusView(m.Snapshot(), now)
  {
    if m.status == Connected || m.status == Connecting {
      started := false;
      view := HandleStatus(m, now);
      return;
    }
    m.status := Connecting;
    started := true;
    view := HandleStatus(m, now);
  }

  /** handleDisconnect: Disconnect, then the status view. */
  method HandleDisconnect(m: Manager, clientConnected: bool, now: int) returns (view: View)
    modifies m
    ensures m.Snapshot() == DisconnectSpec(old(m.Snapshot()), clientConnected)
    ensures view == StatusView(m.Snapshot(), now)
  {
    m.Disconnect(clientConnected);
    view := HandleStatus(m, now);
  }
}
