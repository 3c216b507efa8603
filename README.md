# Streaming market-data client: a Dafny model

This project models the core of the Go streaming client of a brokerage's
market-data websocket API (`streaming_client.go`):

- the six subscription entry points (`SubscribeCandle`, `UnsubscribeCandle`,
  `SubscribeOrderbook`, `UnsubscribeOrderbook`, `SubscribeInstrumentInfo`,
  `UnsubscribeInstrumentInfo`). Each one builds a control frame by string
  concatenation and writes it once. The two orderbook entry points first reject
  a depth outside `[1, MaxOrderbookDepth]`. A failed write is wrapped with
  "can't subscribe to event" or "can't unsubscribe from event";
- the read loop `RunReadLoop`. It reads frames until a read error, which it
  returns wrapped with "can't read message", or a handler error, which it
  returns unchanged. It decodes the envelope's event name and routes the four
  known kinds (candle, orderbook, instrument_info, error) to the handler. A
  frame is logged and skipped when its envelope or payload does not decode, or
  when its name is unknown;
- the error classification of `connect`. A 403 response maps to
  `ErrForbidden` and a 401 to `ErrUnauthorized`. Any other response wraps the
  dial error with the URL and the status line, and no response wraps it with
  the URL alone. The upgrade request carries `Authorization: Bearer <token>`;
- the filter that the ping handler applies to the error of its pong write.

Modules:

- `Types` holds the shared option type, the byte type and the error values.
  Go's sentinel errors become constructors, and `errors.Wrap` becomes
  `Wrapped(context, cause)`.
- `Decimal` holds `strconv.Itoa` and a reading back of its output.
- `Subscription` holds the frame text, the validation and the single write as
  a specification function `Send`, and a parser that inverts the frame text.
- `Client` holds the class `StreamingClient`. Its `outbox` field stands for
  the connection's outgoing text messages, and its six methods are proved
  against `Send`.
- `ReadLoop` holds the read loop as a state machine. The function `Step` is
  one iteration on the loop's state, and `Loop` repeats it until the loop
  returns or the input runs out. The imperative method `RunReadLoop` is
  proved equal to `Loop` from the start state. Lemmas state what the loop
  does to streams of frames, through an invariant (`Waiting`) that every
  state before the return keeps.
- `Handshake` holds the `connect` classification and the ping filter.

The model treats the following as parameters:

- the transport's answer to a write;
- the sequence of read results;
- the JSON decoders;
- the caller's handler, which is told the number of its call;
- the dialer.

A frame written by the model is the exact concatenation the source performs:

- candle and orderbook frames open with `{ "event": "`;
- instrument_info frames open with `{"event": "`;
- there is a space after every colon and every comma between fields;
- the depth is written unquoted.

Identifiers are pasted in without escaping. The request is read back exactly
when the figi, request id and interval hold no double quote. A double quote,
backslash or control character in one of them can break or change the JSON
the frame reads as.

## Model

| member | source | states |
|---|---|---|
| `Decimal.Itoa` | streaming_client.go:151 | The depth's text is nonempty and starts with a minus sign exactly for negative values. After the sign come only digits, never with a leading zero except for zero itself. |
| `Decimal.NatDigits` | streaming_client.go:151 | The decimal spelling of a magnitude is nonempty, all digits, and has no leading zero unless the value is zero. |
| `Decimal.ItoaRoundTrip` | streaming_client.go:151 | Reading back what `strconv.Itoa` wrote gives the same integer, for every integer, negative ones included. |
| `Decimal.ItoaInjective` | streaming_client.go:164 | Two different depths are never written as the same text. |
| `Decimal.AtoiExact` | streaming_client.go:151 | Only text that `Itoa` writes reads as a number, and it spells that number back exactly. |
| `Subscription.Frame` | streaming_client.go:128-182 | Each of the six frames opens with `{` and closes with `}`. Its opening has a space after the brace exactly for candle and orderbook requests. |
| `Subscription.Send` | streaming_client.go:127-188 | A rejected depth (orderbook only, outside `[1, maxDepth]`) gives `ErrDepth` and writes nothing. Any other request writes exactly its one frame. The result is no error exactly when the write succeeds, and otherwise the write error under the direction's context. |
| `Subscription.FrameShape` | streaming_client.go:128-182 | Every frame is the opening, the `topic:direction` tag, the request-id field, the figi field and the topic's own field, in that order. |
| `Subscription.ParseFrameInverts` | streaming_client.go:128-182 | When figi, request id and interval hold no double quote, reading the frame back gives the request: its direction, topic, interval or depth, figi and request id. |
| `Subscription.ParseFrameExact` | streaming_client.go:128-182 | Any text that reads as a request is exactly that request's frame, and its fields hold no double quote. |
| `Subscription.FrameInjective` | streaming_client.go:128-182 | On quote-free identifiers, different requests never write the same frame. |
| `Subscription.UnsubscribeInsertsUn` | streaming_client.go:128-182 | The unsubscribe frame of a request is its subscribe frame with "un" inserted where the direction name begins; nothing else differs. |
| `Subscription.QuotedIdentifiersCollide` | streaming_client.go:128 | Identifiers are pasted in unescaped. Two different candle requests, with a double quote in the request id of one and in the figi of the other, write the same frame. |
| `Client.StreamingClient.constructor` | streaming_client.go:29-37 | A new client has written nothing and keeps the given depth bound. |
| `Client.StreamingClient.Write` | streaming_client.go:130-132 | One write appends the frame to the connection's messages. A failure is wrapped in the direction's context, and success returns no error. |
| `Client.StreamingClient.SubscribeCandle` | streaming_client.go:127-135 | The messages written and the error returned are those of `Send` for a candle subscribe request. |
| `Client.StreamingClient.UnsubscribeCandle` | streaming_client.go:137-144 | The messages written and the error returned are those of `Send` for a candle unsubscribe request. |
| `Client.StreamingClient.SubscribeOrderbook` | streaming_client.go:146-157 | The messages written and the error returned are those of `Send` for an orderbook subscribe request, with the depth check first. |
| `Client.StreamingClient.UnsubscribeOrderbook` | streaming_client.go:159-170 | The messages written and the error returned are those of `Send` for an orderbook unsubscribe request, with the depth check first. |
| `Client.StreamingClient.SubscribeInstrumentInfo` | streaming_client.go:172-179 | The messages written and the error returned are those of `Send` for an instrument_info subscribe request. |
| `Client.StreamingClient.UnsubscribeInstrumentInfo` | streaming_client.go:181-188 | The messages written and the error returned are those of `Send` for an instrument_info unsubscribe request. |
| `ReadLoop.KindOf` | streaming_client.go:84-123 | Exactly the four names candle, orderbook, instrument_info and error are recognised, each as its own kind. Every other name is unknown. |
| `ReadLoop.Dispose` | streaming_client.go:73-123 | A frame ends the loop by itself exactly when it is a read error, with that error as the cause. A message's bytes are handled as `DisposeMessage` states. |
| `ReadLoop.DisposeMessage` | streaming_client.go:78-123 | A message reaches the handler exactly when its envelope decodes, its name is one of the four kinds and its payload decodes as that kind. The event then has the kind its name spells and the payload decoded. Each skipped message logs the line for its own failure: an envelope that does not decode, a recognised envelope with an unknown name, or a payload that does not decode as the named kind. Every line carries that message. A message never ends the loop by itself. |
| `ReadLoop.Step` | streaming_client.go:72-123 | One iteration reads exactly one frame. It makes one handler call or logs one line, unless the frame is a read error, which does neither. Only a message lets the loop go on. |
| `ReadLoop.Loop` | streaming_client.go:71-125 | The loop never reads past its input, and a loop that has returned reads nothing more. If it is still waiting for a frame, it has read all of them. A loop that returns from a waiting state reads at least one more frame first. |
| `ReadLoop.ReadLoopRun` | streaming_client.go:71-125 | The loop from its start state reads no frame past the input. It keeps waiting only once every frame is read, and it returns only after reading at least one frame. |
| `ReadLoop.RunReadLoop` | streaming_client.go:71-125 | The imperative loop returns the outcome and the number of frames read that `Loop` defines from the start state, with the same handler calls and log lines in the same order. |
| `ReadLoop.StepKeeps` | streaming_client.go:72-123 | One iteration from a waiting state leads to a waiting state or to a state that has returned for a reason stated in full: a read error wrapped, or the handler's error for the event just read. |
| `ReadLoop.LoopKeeps` | streaming_client.go:71-125 | From a waiting state the loop ends either still waiting, with no read error seen and every handler call answered with no error, or returned for one of the two reasons. In both cases the traces are those of the frames read. |
| `ReadLoop.LoopAccounting` | streaming_client.go:71-125 | Every frame read makes one handler call or logs one line, except a final read error, which does neither. The frames read are exactly the handler calls plus the log lines, plus one when the last frame is a read error. |
| `ReadLoop.LoopDeliversInOrder` | streaming_client.go:84-123 | The handler receives exactly the events of the frames read whose name is known and whose payload decodes, in input order. The log holds exactly the lines of the other frames read, except a read error, which logs nothing, in input order. |
| `ReadLoop.LoopReturnCause` | streaming_client.go:73-76 | A returned loop ended on its last frame read. Either that frame is a read error and the error returned is that cause wrapped, or it produced the last event and the handler answered that call with the very error returned. |
| `ReadLoop.LoopReadErrorOnlyLast` | streaming_client.go:73-76 | No frame before the last one read is a read error. A loop still waiting has seen none. |
| `ReadLoop.LoopHandlerAccepted` | streaming_client.go:91-120 | Every handler call returned no error, except the last call when it ended the loop. |
| `ReadLoop.LoopAppend` | streaming_client.go:72-124 | Reading `a + b` is reading `a` and then, only if the loop is still waiting, going on from that state over `b`. Once the loop has returned, nothing of `b` is read. |
| `ReadLoop.Midstream` | streaming_client.go:72-124 | After a prefix that leaves the loop waiting, the loop reaches the next frame in the state the prefix ends in. |
| `ReadLoop.ReadErrorEndsLoop` | streaming_client.go:73-76 | A read error in mid-stream is returned wrapped with "can't read message". It makes no handler call and logs nothing, and no later frame is read. |
| `ReadLoop.SkippedFrameIsLogged` | streaming_client.go:79-82 | A frame whose envelope or payload does not decode, or whose name is unknown, adds one log line and no handler call. The loop then continues with the next frame. |
| `ReadLoop.HandlerErrorEndsLoop` | streaming_client.go:91-93 | A decoded event is the handler's next call. An error from it is returned unchanged, and no later frame is read. |
| `Handshake.AuthHeader` | streaming_client.go:199 | The header passed to the dialer holds only `Authorization`, with a single value. |
| `Handshake.BearerToken` | streaming_client.go:199 | A token read out of a header comes from its single `Bearer ` credential. |
| `Handshake.BearerTokenOfAuthHeader` | streaming_client.go:199 | A server reading the bearer credential sees exactly the client's token. |
| `Handshake.Connect` | streaming_client.go:199-212 | `connect` fails exactly when the dial with the bearer header fails. Every failure is `ErrForbidden`, `ErrUnauthorized` or a wrapped error whose cause is the dial's own error. |
| `Handshake.ConnectError` | streaming_client.go:199-212 | No error exactly when the dial succeeded. `ErrForbidden` exactly for a 403 response and `ErrUnauthorized` exactly for a 401. Every other failure keeps the dial error as its cause. Its context starts with "can't connect to" and the URL, followed by a space and the status line when a response arrived, and by nothing otherwise. |
| `Handshake.ConnectPresentsToken` | streaming_client.go:199-203 | Against a server that accepts one token and answers 403 otherwise, the client connects exactly when it holds that token, and otherwise reports `ErrForbidden`. |
| `Handshake.ConnectErrorDistinguishes` | streaming_client.go:200-211 | Take two failed dials to the same URL with no 401 or 403. They give the same error only when both have the same dial error, both got a response or neither did, and their status lines agree. |
| `Handshake.PongWriteError` | streaming_client.go:220-226 | The handler's result is either no error or the write error itself. It is no error exactly when the write succeeded, hit `ErrCloseSent`, or failed with a temporary network error. |

## Left out

- The upgrade request's own headers are not modelled: Upgrade, Connection, Sec-WebSocket-Key and Sec-WebSocket-Version, which the dialer adds. `AuthHeader` is only the extra header passed to `Dial`.
- Dialing itself is an oracle `Header -> DialResult`. This covers the proxy from the environment, the 5-second handshake timeout (194-197) and `resp.Body.Close` (213).
- The keepalive goroutine and its ticker (233-241) are not modelled. It sends a single ping after one period, and the model contains no goroutines.
- Read deadlines are not modelled: the `SetReadDeadline` calls, `time.Now()` and the pong handler (216, 228-231). The pong handler always returns no error and affects nothing else in the model.
- Handshake.PongWriteError: the pong write itself (`WriteControl` with the ping payload converted to bytes) is the oracle's answer. Only the filtering of its error is modelled.
- `Close` (65-69) is not modelled. It calls `Stop` on `pingTicker`, which is never set when keepalive is off, so it would fail there.
- JSON decoding of the envelope and of each payload is an oracle `Decoders`. The event structures' fields are opaque payloads, and the four per-kind decode branches are one branch parameterised by the kind.
- Logger formatting is left out. A log call is recorded as which message was logged and for which frame.
- `MaxOrderbookDepth`, `ErrDepth` and the `CandleInterval` values are defined outside this file. The depth bound is a constructor argument, `ErrDepth` a constructor of the error type, and the interval a string.
- The text that `errors.Wrap` and `errors.Wrapf` render is not modelled. A wrapped error is the pair of its context and its cause.
- Outgoing frames are text. The `[]byte` conversion before the write, which is UTF-8 encoding, is not modelled.
- The constructors `NewStreamingClient…` (39-63) are left out, because they only call `connect` and store the connection.
- Concurrency is left out: writes from several goroutines, and the read loop running beside them.
- Client.StreamingClient.Write: the frame is recorded in `outbox` even when the write fails. The model has no partial write.
- ReadLoop.Loop: the real loop blocks at the end of the input, waiting for the next frame. The model stops and reports `AwaitingFrame`.
