# lgtvtool core in Dafny

A model of the Go client that pairs with an LG webOS television over its
remote-control websocket protocol and then opens the factory service menu. Three
parts are modelled:

- **`main.go`, the session.** This is imperative: the class `Program.Client` holds
  the process's state. That state is the `messages` channel as a FIFO `queue`, the
  log `sent` of frames written to the socket, the key file `client-key.txt`
  (`keyFile`, plus `keyWritable` for whether a write succeeds), the log `saves` of
  `saveClientKey` calls, and the `phase` the process is in. The methods follow the
  source's functions and blocks:
  - `MessageReceivedHandler` is the receive goroutine.
  - `Handshake` is the two-branch pairing.
  - `RequestServiceMenu` sends the service-menu request.
  - `MainLoop` is the labelled `for`/`select` loop.
  - `Run` composes them.

  Each method states its new state in terms of pure functions of the old state:
  `Received`, `Drop`, `RepliesAwaited`, `KeySaved`, `HandshakePhase`, `UntilInterrupt`,
  `ServeFrames`, `ServeQueue`, `RunFrames`, `RunPhase` and `RunQueue`. The end-to-end
  properties are lemmas about those functions.
- **`commands.go`, the command envelope.** `Commands.NewServiceMenuCommand` is a pure
  builder. Its id is `show_service_menu_` followed by `Text.Itoa` of the argument.
  `Text.ParseDecimal` is the reference inverse of `Itoa`; it is what makes "distinct
  arguments give distinct ids" provable.
- **`messages.go`, the log rendering.** `Messages.ReceivedMessage.String` renders a
  message as a log line. `Messages.ParseString` reads the line back, and it recovers
  the message exactly when type and id hold no `"`.

Placeholder replacement (`strings.Replace(…, 1)`) is `Text.ReplaceFirst`. It is
specified through the first occurrence of the pattern (`Text.OccursAt`), not through
its own body.

Collaborators that are foreign code become parameters:
- `json.Unmarshal` of a frame is `decode`.
- `json.Unmarshal` of the key reply is `decodeKey`.
- `json.Marshal` of the command is `encode`.
- The frames the socket yields are `results`.
- The cases the main loop's `select` takes are `events`.
- The embedded register template is `template`.

Three behaviours of the code are worth stating plainly, since a reader might expect
otherwise:
- **Read error during the handshake.** It does not end the process. The receive
  goroutine returns (main.go:138-142), and the handshake then blocks forever on
  `<-messages`: SIGINT is routed to `interrupt` (main.go:46), and nothing reads from
  it yet. The model ends in `Stalled`, with only the register frame sent
  (`Program.ScenarioReadFailure`).
- **Key write failure.** It is only logged (main.go:162-167), and the run goes on.
- **Second register frame.** The comment at main.go:71-74 describes one. The code sends
  none (main.go:89-104), and `Program.RegisterSentOnce` proves that no second register
  frame is sent.

## Model

| member | source | states |
|---|---|---|
| `Text.IndexOf` | main.go:84 | The result is the first index where the pattern occurs. It is none exactly when the pattern occurs nowhere. |
| `Text.ReplaceFirst` | main.go:84 | If the pattern is absent, the string is returned unchanged. Otherwise only the first occurrence is replaced, and the text before and after it is kept. |
| `Text.ReplaceFirstShape` | main.go:84 | After replacing the first occurrence, the length is `|s| - |pat| + |rep|`. The prefix, the inserted text and the suffix sit at the stated offsets. |
| `Text.ReplaceFirstAfterFreePrefix` | main.go:84 | For a non-empty pattern and a prefix in which its first character never occurs, the replacement lands right after that prefix, whatever the prefix's length. |
| `Text.NatToDecimal` | commands.go:29 | The decimal rendering of a natural number is canonical (digits only, no leading zero except `0`). It denotes the number. |
| `Text.Itoa` | commands.go:29 | The rendering starts with `-` exactly for negative numbers, and the rest is canonical. Parsing it back gives the argument. |
| `Text.ItoaInjective` | commands.go:29 | Two integers render equally if and only if they are equal. |
| `Messages.ReceivedMessage.String` | messages.go:15-20 | The length is `30 + |Type| + |Id| + |Payload|`. The line starts with `{"type":"` and ends with `}`. |
| `Messages.StringLayout` | messages.go:16-19 | The fields appear in the order type, id, payload, at fixed offsets between the keys. The payload is embedded verbatim just before the final `}`. |
| `Messages.ParseStringRoundTrip` | messages.go:16-19 | When type and id hold no `"`, parsing the log line gives back the message. |
| `Messages.StringInjective` | messages.go:16-19 | Quote-free messages have equal log lines if and only if they are equal. |
| `Messages.QuotedFieldsAreAmbiguous` | messages.go:16-19 | Without escaping, two different messages with quotes in type or id render to the same line. |
| `Commands.NewServiceMenuCommand` | commands.go:26-43 | For any argument: `Type` is `request` and `URI` is `ssap://com.webos.applicationManager/launch`. The payload is `com.webos.app.factorywin` / `executeFactory` / `inStart`. The id is exactly `show_service_menu_` followed by `Itoa` of the argument, that is `strconv.Itoa`'s rendering: canonical digits that parse back to the argument, with `-` exactly for negatives. |
| `Commands.ServiceMenuCommandsDifferOnlyInId` | commands.go:26-43 | Two builds differ only in the id. The ids are equal if and only if the arguments are. The same argument always gives an equal envelope. |
| `Program.ReceivedOnePerFrame` | main.go:135-149 | The receive loop enqueues exactly one message per frame read before the first error, in arrival order. That message is the frame's decoding, or the empty message when decoding fails. Nothing is enqueued after the first error. |
| `Program.UntilInterrupt` | main.go:117-132 | The events the main loop handles are the longest interrupt-free prefix of the event stream. |
| `Program.HandshakePhase` | main.go:81-104 | The handshake ends `Registered` exactly when it completes. It ends `Stalled` exactly when fewer replies arrive than it awaits. It ends `Exited(1)` exactly when there is no key and the second reply does not decode. |
| `Program.FirstReplyNotInspected` | main.go:83-94 | The handshake outcome and the saved keys do not depend on the first reply. |
| `Program.SavedKeyIsSecondReply` | main.go:89-103 | At most one key is saved. A key is saved exactly when no key was stored and the second reply decodes, and it is that reply's `client-key`. |
| `Program.ServiceMenuRequestId` | main.go:109 | The request sent after pairing has id `show_service_menu_0` and type `request`. |
| `Program.RegisterSentOnce` | main.go:81-132 | A run sends one to three frames. The register frame comes first and is never resent. A close frame can only be last, and only after an interrupt. |
| `Program.FailedHandshakeSendsOnlyRegister` | main.go:89-104 | If the handshake does not complete, only the register frame is sent and the run ends `Stalled` or `Exited(1)`. An exit after a decode failure saves no key. |
| `Program.CompletedRunFrames` | main.go:105-132 | After a completed handshake the frames are exactly [register, service-menu request]. One close frame follows exactly when an interrupt comes, and the run ends `Terminated`; otherwise it is still `Running`. |
| `Program.Client.ReadClientKey` | main.go:152-160 | It returns the file's contents when the file is readable. A missing or unreadable file gives no key, not an error. |
| `Program.Client.SaveClientKey` | main.go:162-167 | It records the save. The key file holds the key when the write succeeds and is unchanged when it fails (an all-or-nothing write; see Left out). The phase is untouched, so a failure never stops the run. |
| `Program.Client.SendTextMessage` | main.go:169-172 | It appends one text frame. Write errors are ignored, so it always succeeds. |
| `Program.Client.Put` | main.go:148 | A channel send appends the message at the tail. |
| `Program.Client.Take` | main.go:88 | A channel receive takes the head. On an empty queue it yields nothing and leaves the queue empty, which stands for a receive that blocks forever. |
| `Program.Client.MessageReceivedHandler` | main.go:135-149 | The queue grows by exactly `Received(results, decode)`. |
| `Program.Client.Handshake` | main.go:81-104 | The single frame sent is the template with the stored key replacing the first placeholder; with no key it is the template unchanged. One reply is consumed with a key and two without. The saves, key file and phase are as in `KeySaved` and `HandshakePhase`. |
| `Program.Client.RequestServiceMenu` | main.go:107-114 | It sends the encoded `NewServiceMenuCommand(0)` and enters `Running`. If encoding fails, it sends nothing and exits with status 1. |
| `Program.Client.MainLoop` | main.go:116-132 | Messages before the first interrupt are taken and ignored. An interrupt sends exactly one normal-closure frame and ends in `Terminated`. Without an interrupt nothing is sent and the loop is still `Running`. |
| `Program.Client.Serve` | main.go:107-132 | After pairing, the frames sent are `ServeFrames` and the phase is `ServePhase`. If the request is sent, the queue loses one message per event before the first interrupt; otherwise it is unchanged. |
| `Program.Client.Run` | main.go:64-132 | The frames are `RunFrames`, the phase is `RunPhase` and the saves are `KeySaved`, all over the messages the receive loop delivered. The queue left behind is `RunQueue`: the delivered messages less the replies the handshake took and, after a completed handshake with the request sent, one per event handled by the main loop. The key file holds the last saved key if writes succeed. |
| `Program.ScenarioFirstPairing` | main.go:89-104 | With no stored key, an acknowledgement then a grant of `abc123`: `abc123` is saved once and written to the key file. Three frames are sent, and an interrupt terminates the run. |
| `Program.ScenarioStoredKey` | main.go:83-88 | With stored key `abc123`, one acknowledgement registers the session. The register frame carries the key and nothing is saved. |
| `Program.ScenarioReadFailure` | main.go:135-143 | With no key and an immediate read error, only the register frame is sent and the handshake stalls. |

## Left out

- Dialing, TLS and `conn.Close` (main.go:48-63), flag parsing (main.go:32-39), logging,
  `signal.Notify`, `defer close(...)` and loading the embedded template
  (main.go:75-79). These are process and transport plumbing. The template is an input
  string, and a failed template load is not modelled.
- `json.Marshal` and `json.Unmarshal` (main.go:97, 109, 147). These are a foreign
  library, so they are function parameters returning `Option`. A frame that Go decodes
  only partly (a type mismatch) is a `Some` holding the partial message. A frame
  rejected outright gives the empty message.
- Goroutine scheduling. The receive loop runs to completion before the handshake. This
  gives the same result, because the consumer depends only on the order of messages.
  Interleaving with interrupts is the `events` stream. A `MessageReady` event on an
  empty queue cannot be chosen by Go's `select`, so the model treats it as a step that
  does nothing.
- Blocking forever is the terminal phase `Stalled`. `os.Exit(1)` is `Exited(1)`. The
  only explicit `panic` is on dial failure (main.go:61), which is left out.
- The shutdown race: `main` returning runs `defer close(messages)` (main.go:44) while
  the receive goroutine may still be sending (main.go:148), and a send on a closed
  channel panics in Go. This is goroutine scheduling, so it is not modelled; in the
  model the receive loop has finished before the run ends.
- `Program.Client.SaveClientKey`: `os.WriteFile` truncates the file when it opens it,
  so a failure after the open (a short write, say) can leave an empty or partial
  `client-key.txt` that the next run reads back as a key. `keyWritable` models only
  all-or-nothing writes: the file holds the new key or is unchanged.
- `Program.Client.MainLoop`: only a finite prefix of the event stream is modelled. The
  Go loop runs until an interrupt.
- Raw bytes: `json.RawMessage` and `[]byte` frames are strings of characters, since
  the code converts them with `string(...)`. UTF-8 is not modelled.
- The width of Go's `int`: `Itoa` is exact for every integer, so no width or
  wrap-around applies.
- Being a value receiver, `String` cannot modify the message. The model states this
  by being a pure function, not with a separate clause.
- Send failures (main.go:171) are ignored by the code, so the model has no failing
  send.
