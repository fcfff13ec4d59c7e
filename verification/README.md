# gowww/log: the request-logging handler, modelled in Dafny

The Go package `log` wraps an `http.Handler` so that every request produces one
log line: duration, status code, HTTP method and path, with the status and the
method coloured. The status is observed through `logWriter`, a wrapper put
between the downstream handler and the real `http.ResponseWriter`. Its first
`WriteHeader`, or its first `Write`, seals the status. A `WriteHeader` that
arrives after that is dropped.

The model has four modules:

- `Http` (http.dfy) abstracts `net/http`. `ResponseWriter` is a recording writer
  with a ghost `trace` of the `WriteHeader` and `Write` calls it has received.
  The `(int, error)` result of a `Write` is passed in as a `WriteReply`. The
  request is reduced to its method (`verb`) and path.
- `Capture` (capture.dfy) describes `logWriter` as a state machine over
  values. `Step` performs one call and `Emit` gives what that call forwards.
  `Replay` and `Forwarded` apply these to a whole sequence of downstream calls.
  The lemmas about them state the first-call rule and the shape of what the
  real writer receives.
- `Format` (format.dfy) holds `fmtStatus` and `fmtMethod`. Colours are
  abstract classes (`Background`, `Foreground`), not ANSI strings. Each
  function is checked against an independent reference: the bands of
  `InBand` for the status, and the table `MethodColors` for the method.
- `Handler` (handler.dfy) holds the class `LogWriter`, with the fields `used`
  and `status` and the methods `WriteHeader` and `Write`. It is proved against
  `Replay` and `Forwarded` through its invariant `Valid()`. It also holds
  `ServeHTTP`, which builds a fresh wrapper and runs an arbitrary sequence of
  downstream calls on it. Its log line shows the status that `Capture`
  predicts, and the method and path as they were on entry.

A `WriteHeader` on an already sealed wrapper returns before forwarding
(handler.go:56-58). So the real writer receives at most one `WriteHeader`, and
only as its first call (`Capture.HeaderForwardedAtMostOnceFirst`).

## Model

| member | source | states |
|---|---|---|
| `Handler.LogWriter.constructor` | handler.go:32-35 | A fresh wrapper is unsealed, has status 200, has seen no call and has forwarded nothing to the writer it wraps. |
| `Handler.LogWriter.WriteHeader` | handler.go:55-62 | On an unsealed wrapper: status becomes the code, the wrapper is sealed, and exactly one `WriteHeader(code)` reaches the real writer. On a sealed one: status, `used` and the real writer's trace are all unchanged. The invariant tying the fields to `Replay`/`Forwarded` is kept. |
| `Handler.LogWriter.Write` | handler.go:65-68 | Seals the wrapper and leaves the status unchanged. The bytes reach the real writer unchanged, as one `Write`. The real writer's `(n, err)` is returned verbatim. The invariant is kept. |
| `Handler.ServeHTTP` | handler.go:30-45 | For any sequence of downstream calls, the log line's status field is `FmtStatus` of the first-call status. Its method and path fields are those of the request on entry. The real writer receives exactly `Forwarded(downstream)`. |
| `Capture.Step` | handler.go:55-68 | Every call seals the state. Only a `WriteHeader` on an unsealed state changes the status, to its code. On a sealed state a `WriteHeader` changes nothing, and a `Write` never changes the status. |
| `Capture.Emit` | handler.go:55-68 | A call is forwarded to the real writer unchanged, as exactly one call. The one exception is a `WriteHeader` on a sealed state, which forwards nothing. |
| `Capture.FirstCallWins` | handler.go:32-68 | After any call sequence the wrapper is sealed iff some call was made. The status is the first call's code if that call is a `WriteHeader`. Otherwise it is 200, and this includes the empty sequence. |
| `Capture.SealedStatusIsFinal` | handler.go:55-68 | Once any call has been made, no later calls (a second `WriteHeader` with another code, or more writes) change the status. |
| `Capture.ForwardedShape` | handler.go:55-68 | The real writer receives the first call if it is a `WriteHeader`. It then receives every `Write`, unchanged and in order. It receives nothing else. |
| `Capture.HeaderForwardedAtMostOnceFirst` | handler.go:56-66 | Only the first call the real writer receives can be a `WriteHeader`. So it gets at most one, and never after a `Write`. |
| `Capture.LoggedMatchesSent` | handler.go:55-68 | The logged status equals the status a recording writer reports for the forwarded trace. |
| `Capture.StatusReachesWriter` | handler_test.go:17-28 | A handler that calls `WriteHeader(s)` only for `s != 200` leaves both the logged status and the recorded status at `s`. |
| `Format.FmtStatus` | handler.go:74-89 | The field shows the status itself. Its background is exactly the one whose band contains the status: [200,299] green, [300,399] cyan, [400,499] yellow, everything else red. |
| `Format.BandsPartition` | handler.go:77-86 | Every integer lies in some band and in no two bands. |
| `Format.FmtPath` | handler.go:108-110 | The path text is emitted unchanged (in the fixed dim colour). |
| `Format.FmtMethod` | handler.go:91-106 | The method text is emitted unchanged. Its colour is the one `MethodColors` gives by exact match: GET green, POST cyan, PUT and PATCH blue, DELETE red. It has no colour exactly when the method is not in that table. |

## Left out

- `fmtDuration` and `time.Now`/`time.Since` (handler.go:31, 70-72) are left out because they read the wall clock. The log line has no duration field.
- `log.Printf` and the `defer` in `ServeHTTP` (handler.go:40-42) are output I/O and panic handling. Dafny has no panics. The model builds the line after the downstream calls, from whatever `status` holds at that point.
- The `fmt.Sprintf` layouts (`%13s`, `%3d`) and the ANSI colour strings are left out. The `color*` constants are not part of this model. Colours are abstract, and the fixed white status text and dimmed path are implied by the field types.
- `Handle` and `HandleFunc` (handler.go:20-28) only store the downstream handler. That handler is modelled by the sequence of calls it makes (`ServeHTTP`'s `downstream`). A handler that picks its calls according to earlier `Write` results is still covered, because each run it makes is one such sequence.
- The downstream handler may change the live request. It is not modelled, because the request is an immutable value here. `ServeHTTP` reads method and path before the downstream calls, as handler.go:37-38 does.
- `Header()` and every other `http.ResponseWriter` method that `logWriter` inherits by embedding pass through untouched. They are not modelled.
- Options and the colour toggle are left out. They do not exist in handler.go, which always colours.
- Flush, Hijack and Push pass-through are left out. handler.go implements none of them.
- Go's `int` is 32 or 64 bits wide, depending on the platform. The status is an unbounded `int` here. That is harmless, because the code does no arithmetic on it.
- `LoggedMatchesSent`, through `RecordedStatus`, treats the real writer as an idealised recorder that accepts any code and keeps its first `WriteHeader` as the final status. Both real writers, the `net/http` server's and the `httptest` recorder, panic on codes outside 100..999, and the server treats 1xx codes other than 101 as informational rather than final. So for such codes the model promises only what this idealised recorder reports.
- The request's method and path are Go strings, which are byte strings; here they are Dafny `string`s, sequences of characters. No property depends on the difference: the method is matched exactly against ASCII names, and both fields are passed through unchanged.
