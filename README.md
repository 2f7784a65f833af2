# zap-bot connection manager, modelled in Dafny

zap-bot is a WhatsApp bot that answers every voice note with its
transcript. The core modelled here has three parts:

- the connection-status state machine of `bot.Manager`: `NewManager`,
  `ConnectClient` (store and device lookup, the QR pairing loop, the
  known-device path), `Disconnect`, `updateStatus` and `eventHandler`;
- the web handlers that drive and read it: `handleConnect` (a locked
  check-and-set), `handleDisconnect` and `handleStatus` (the view data of
  the status fragment);
- the per-message dispatch `handleMessages`, both the `bot` package copy and
  the older copy in the top-level `main.go`.

Modules:

- `Wrappers` (wrappers.dfy): `Option` and `Result`.
- `Bot` (bot.dfy): the value `State` (a snapshot of the manager's fields), the
  pure transition functions `WithStatus`, `QrStep`/`QrLoop`, `ConnectSpec`,
  `DisconnectSpec` and `EventEffect`, and the lemmas about them. It also holds
  the class `Manager`, whose methods update its fields in place and are each
  proved equal to one of those functions, and `HandleMessages` with the reply
  text and its inverse.
- `Web` (web.dfy): the `View` record, `StatusClass`, Go's
  `Duration.Round(time.Second)`, the guard and claim of `handleConnect`, and
  the three handlers as methods on a `Manager`.
- `LegacyMain` (legacy.dfy): the `main.go` callback, proved to do exactly what
  the bot package does for message events and nothing otherwise.
- `Lifecycle` (lifecycle.dfy): the manager as the process shares it. Every
  locked region, and every unlocked write of the client or the start time,
  is one `AtomicStep`. `ConnectClient` is proved equal to its own sequence of
  steps. A consistency invariant is proved for every interleaving of steps
  from `NewManager`. The scenarios of a pairing, a disconnect while
  disconnected, an expired code and a QR channel that closes early are
  stated as lemmas.

Collaborators are parameters. A `Login` value gives:

- whether the SQL container opened;
- the device lookup;
- the client `NewClient` returned;
- whether `Connect` succeeded;
- the items the QR channel delivers before it closes;
- the clock reading.

Each QR "code" item carries the outcome of the PNG/base64 encoding. Each
"success" item carries the time `time.Now()` returned. `Download` and
`TranscribeAudio` are total functions returning `Result`.
`IsConnected` is a boolean argument, and `time.Since` takes `now` as an
argument.

The model follows the code where the code is looser than a reader might
expect:

- When the QR channel closes without "success", the status is never set to
  "Connection Failed". It stays "Waiting for QR Scan" once a code was shown.
  It stays "Connecting..." if no code was ever shown, and `handleConnect`
  then refuses every new attempt until a Disconnected event arrives, or
  Disconnect runs while the client still reports itself connected (POST
  /disconnect, although no button is shown, or shutdown)
  (`Lifecycle.QrChannelClosingEarlyBlocksReconnect`).
- The QR loop never breaks after "success".
- `Disconnect` never clears `StartTime`.
- `handleConnect` accepts a new attempt from "Waiting for QR Scan" and does
  not clear `QrCode`. So "Connecting..." can briefly hold the old payload.
  The invariant `Lifecycle.Consistent` allows for this.

## Model

| member | source | states |
|---|---|---|
| `Bot.Initial` | internal/bot/bot.go:37-42 | a new manager is "Disconnected", with no QR payload and no client, and keeps the API key |
| `Bot.Manager.constructor` | internal/bot/bot.go:37-42 | NewManager's fields are exactly `Initial(apiKey)` |
| `Bot.WithStatus` | internal/bot/bot.go:123-128 | updateStatus overwrites status and QR payload and leaves start time, client and API key unchanged |
| `Bot.Manager.UpdateStatus` | internal/bot/bot.go:123-128 | the method changes the fields exactly as `WithStatus` does |
| `Bot.ConnectSpec` | internal/bot/bot.go:45-110 | every path of ConnectClient ends with the status in the five-string set, and the API key is unchanged |
| `Bot.Manager.ConnectClient` | internal/bot/bot.go:45-110 | the imperative login flow, including the `range qrChan` loop, leaves the fields exactly as `ConnectSpec` says (the loop invariant ties the state after each item to `QrLoop` of the items read) |
| `Bot.QrLoopFrame` | internal/bot/bot.go:86-99 | the QR loop never touches client or API key, and it either changes nothing or ends in one of its two writes ("Waiting for QR Scan" or "Connected" with no payload) |
| `Bot.QrLoopWithoutSuccess` | internal/bot/bot.go:86-99 | without "success" the start time is untouched; the state is unchanged if no code was encoded, and otherwise the status is "Waiting for QR Scan" |
| `Bot.QrLoopInertSuffix` | internal/bot/bot.go:96-98 | logged-only items (other events, failed encodings) appended to the channel change nothing |
| `Bot.QrLoopLastEffect` | internal/bot/bot.go:86-99 | the loop ends in the effect of its last non-inert item, since it never breaks |
| `Bot.QrLoopConnectedAfterSuccess` | internal/bot/bot.go:93-95 | a "success" followed only by inert items leaves "Connected", no payload, and the success time as start time |
| `Bot.QrLoopShowsLastCode` | internal/bot/bot.go:87-92 | the last successfully encoded code is the payload on display, with "Waiting for QR Scan" |
| `Bot.ConnectCollaboratorError` | internal/bot/bot.go:51-106 | a store, device-lookup or connect error ends in "Connection Failed" with no payload and the start time unchanged; the new client is kept only after a connect error |
| `Bot.ConnectKnownDevice` | internal/bot/bot.go:100-109 | with a registered device and a successful connect, the state is "Connected", no payload, start time = now, client = the new client, and nothing else changes |
| `Bot.ConnectPairingClosedWithoutSuccess` | internal/bot/bot.go:78-99 | a QR channel closing without "success" never yields "Connection Failed": the status is "Connecting..." if no code was shown and "Waiting for QR Scan" otherwise |
| `Bot.ConnectPairingSucceeds` | internal/bot/bot.go:78-99 | a "success" followed only by inert items ends connected, with its time as start time and the new client stored |
| `Bot.DisconnectSpec` | internal/bot/bot.go:113-121 | only with a client that reports connected does Disconnect set "Disconnected" and clear the payload; the start time is never cleared; otherwise nothing changes |
| `Bot.DisconnectIdempotent` | internal/bot/bot.go:113-121 | once a disconnect took effect, any further Disconnect is a no-op, and so is a repeat after the client reports disconnected |
| `Bot.Manager.Disconnect` | internal/bot/bot.go:113-121 | the method changes the fields exactly as `DisconnectSpec` says |
| `Bot.EventEffect` | internal/bot/bot.go:130-139 | a Disconnected event sets "Disconnected" with no payload; every other event leaves the manager's fields unchanged |
| `Bot.Manager.EventHandler` | internal/bot/bot.go:130-139 | state changes as `EventEffect` says; a message event is handled by `HandleMessages` with the manager's API key, and any other event does no message work |
| `Bot.TranscriptOfReplyText` | internal/bot/bot.go:162 | the transcript can be read back from the reply text (heading, transcript in double quotes, signature) |
| `Bot.ReplyTextOfTranscript` | internal/bot/bot.go:162 | conversely, any text from which a transcript is read is exactly the reply text for it, so distinct transcripts give distinct replies |
| `Bot.HandleMessages` | internal/bot/bot.go:143-179 | nothing happens without audio; a download error stops before transcription; a transcription error stops before sending; otherwise the reply goes to the sender, quotes the original message with the sender's text form as participant and the message ID as stanza ID, and carries the transcript |
| `Web.RoundToSecond` | cmd/web/web.go:96-99 | the uptime is a whole number of seconds at most half a second from the elapsed time, with halfway values rounded away from zero |
| `Web.RoundToSecondUnique` | cmd/web/web.go:98 | the rounding contract determines its result: it is Go's `Round(time.Second)` and nothing else |
| `Web.StatusClass` | cmd/web/web.go:118-127 | each of the five statuses maps to its CSS class (both "Disconnected" and "Connection Failed" to status-disconnected), and any other string to the empty class, in both directions |
| `Web.StatusClassSeparates` | cmd/web/web.go:118-127 | two known statuses share a class only if equal or if they are "Disconnected" and "Connection Failed" |
| `Web.StatusView` | cmd/web/web.go:96-127 | uptime exists exactly when "Connected" and is the elapsed time since the start time rounded to whole seconds, halfway values away from zero (so, by `RoundToSecondUnique`, Go's `Round(time.Second)`); the QR image shows exactly when "Waiting for QR Scan"; Connect exactly for "Disconnected"/"Connection Failed"; Disconnect exactly for "Connected" |
| `Web.ViewOffersOneAction` | cmd/web/web.go:110-127 | for a known status the view has a class and offers exactly one of: Connect, Disconnect, the QR image, or nothing while "Connecting..." |
| `Web.ClaimConnect` | cmd/web/web.go:44-53 | the check-and-set writes "Connecting..." unless the status is "Connected" or "Connecting..."; it touches nothing else (the QR payload included) |
| `Web.ClaimConnectOnce` | cmd/web/web.go:44-53 | after a claim, an immediate second /connect is refused and changes nothing |
| `Web.ConnectButtonStartsAttempt` | cmd/web/web.go:45-52 | wherever the page shows Connect, a press starts an attempt; attempts are accepted exactly from the Connect states, "Waiting for QR Scan" and unknown strings |
| `Web.HandleStatus` | cmd/web/web.go:67-130 | the handler only reads the manager and returns `StatusView` of its fields |
| `Web.HandleConnect` | cmd/web/web.go:42-60 | ConnectClient is started exactly when the guard passes; the fields change as `ClaimConnect`; the response is the view after the claim |
| `Web.HandleDisconnect` | cmd/web/web.go:62-65 | exactly Disconnect followed by the status view |
| `LegacyMain.HandleMessages` | main.go:81-121 | only a message event carrying audio leads to any work; a reply goes to the original sender |
| `LegacyMain.AgreesWithBot` | main.go:81-121 | for message events the legacy callback equals the bot package's handleMessages, and it does nothing for every other event, disconnects included |
| `Lifecycle.QrStepsAgree` | internal/bot/bot.go:86-99 | running the atomic steps of the QR items one by one gives the QR loop's state |
| `Lifecycle.ConnectStepsAgree` | internal/bot/bot.go:45-110 | ConnectClient's locked regions and unlocked writes, run back to back, give exactly `ConnectSpec` |
| `Lifecycle.ApplyKeepsConsistent` | internal/bot/bot.go:113-133 | every single write site keeps the status among the five strings and a QR payload only with "Waiting for QR Scan" or "Connecting..." |
| `Lifecycle.InterleavingKeepsConsistent` | internal/bot/bot.go:45-133 | any interleaving of those atomic steps keeps that invariant |
| `Lifecycle.EveryRunIsConsistent` | internal/bot/bot.go:37-42 | from NewManager, in every interleaving the status is one of the five strings (so the page always has a CSS class) and a payload exists only while waiting or connecting |
| `Lifecycle.FreshPairingConnects` | internal/bot/bot.go:78-99 | fresh device: the claim gives "Connecting...", a code gives "Waiting for QR Scan" with its payload and the QR image, and "success" gives "Connected" with its time as start time and an uptime |
| `Lifecycle.DisconnectBeforeConnectIsNoOp` | internal/bot/bot.go:113-121 | Disconnect on a manager that never created a client changes nothing |
| `Lifecycle.QrChannelClosingEarlyBlocksReconnect` | internal/bot/bot.go:86-99 | a channel that closes with only a non-code event leaves "Connecting...", no Connect button and a refused /connect; a Disconnected event, or Disconnect while the client reports itself connected, makes /connect accepted again, and Disconnect while it reports disconnected does not |
| `Lifecycle.ExpiredCodeStaysWaiting` | internal/bot/bot.go:86-99 | a channel that closes after a code leaves "Waiting for QR Scan" with the old payload, which a new claim does not clear |

## Left out

- The mutex, the goroutine that runs ConnectClient, the per-event callbacks and the 30-second `context.WithTimeout` deadlines are not modelled as concurrency. Each locked region is one atomic step (`Lifecycle.AtomicStep`). The unlocked writes of `Client` and `StartTime` are separate steps; their data races cannot be expressed.
- `Web.HandleConnect` returns `started` instead of launching ConnectClient; the caller runs `Manager.ConnectClient` afterwards as a separate step.
- whatsmeow (`NewClient`, `AddEventHandler`, `Connect`, `Disconnect`, `IsConnected`, `GetQRChannel`, `Download`, `SendMessage`) and sqlstore are foreign libraries. Their outcomes are parameters and the client is an opaque handle. The client's own disconnect call has no modelled effect.
- The error of `GetQRChannel` is discarded by the source. The model takes the channel items as given, so a nil channel, which blocks the range loop forever, is not represented.
- QR PNG rendering and base64 encoding are one opaque outcome per "code" item: the payload string, or a failure.
- `groq.TranscribeAudio` and main.go's `transcribeAudio` (a multipart HTTP POST with JSON decoding and different Whisper models) are abstract `Transcriber` functions.
- A JID is represented by the text its `String` method renders. Its user, server and device parts are not modelled.
- The error returned by `SendMessage` is only logged, so `Outcome.Replied` records the send call and not its result. Logging and console output are not modelled.
- Template parsing and execution, `Duration.String()` formatting and the HTML are presentation. The uptime is an integer number of nanoseconds rounded to whole seconds.
- `Web.RoundToSecond`: does not model the clamp to the minimum or maximum `time.Duration` that Go applies on int64 overflow; durations are unbounded integers.
- `time.Now` and `time.Since` are replaced by clock readings passed as arguments.
- `main()` in main.go (dotenv, the sqlite store, printing the QR code to the terminal, panics, the signal wait) is process plumbing. So is cmd/whatsapp-bot/main.go, whose only relevant act is calling Disconnect on shutdown (`Bot.Manager.Disconnect`).
- `Server`, `NewServer`, `Start` and `handleIndex` only register routes and serve a file.
- The Groq HTTP client in internal/groq/client.go is not part of this model.
