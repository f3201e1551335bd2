# reCAPTCHA v3 verification client, modelled in Dafny

The package `recaptcha` relays a client's challenge token to Google's
`siteverify` endpoint and turns the reply into a yes/no decision. It keeps its
configuration (secret key, score threshold, timeout in seconds) and a
`postError` flag in package globals. `check` makes the single round-trip.
`ConfirmWithContext` accepts a reply that reports success with a score at or
above the threshold, and then forces acceptance whenever the round-trip itself
failed (fail-open). Each call writes one of three log lines.

The model:

- `recaptcha.dfy`, module `Recaptcha`: the data (`Response`, the outgoing
  `Request`, the round-trip `Outcome`), the pure decision functions
  (`CheckSpec`, `ConfirmSpec`, `Classify`, `ClientTimeout`, `Replay`), and the
  class `Verifier` whose fields are the package globals. Its methods `Init`,
  `Check`, `ConfirmWithContext` and `Confirm` update those fields the way the Go
  code does, and their contracts tie the new state to the pure functions.
- `properties.dfy`, module `RecaptchaProperties`: lemmas relating outcomes,
  thresholds and successive calls.
- `recaptcha_test.dfy`, module `RecaptchaTest`: the scenarios of
  `recaptcha_test.go`, stated against `Verifier` with the HTTP mock replaced by a
  transport function.

The network is a parameter `transport: Request -> Outcome`. An outcome is
either `TransportError` (the HTTP client returned an error, a timeout
included) or `Reply(status, body)`, where `body` is `Unreadable` (reading the
body failed), `Malformed(partial)` (JSON decoding failed after filling
`partial`) or `Json(resp)`. Scores are `real`. The timeout is a Go
`time.Duration` in nanoseconds with its int64 wrap-around written out.

Behaviour of `recaptcha.go` worth noting, all of it modelled as written:

- A body that cannot be read is not treated as a transport failure. `postError`
  stays false and the call is refused, with a non-nil error.
- A zero-value response is refused at every threshold, including thresholds
  at or below 0, because `Success` must be true.
- The error value is non-nil for read and JSON failures too, not only for
  transport failures.
- A JSON error after `success: true` and a high score were decoded (a type
  mismatch in a later field) is accepted, with a non-nil error.
- The HTTP status is never consulted. A 500 reply with a parsable body is
  decided on that body.
- `postError` is a package global, not call-local.
- The "low score" log line is chosen by `score > 0`, not by `Success`. So
  `{"success": false, "score": 0.2}` is logged as a valid token refused for
  low score, and a successful reply with score 0 below a positive threshold is
  logged as an invalid token.

The callers in the repository use other signatures than `recaptcha.go`
declares. `Confirm` is called with one argument, and `Init` with one. The model
takes the signatures of `recaptcha.go`, and the modelled test scenarios pass an empty
address.

## Model

| member | source | states |
|---|---|---|
| `Recaptcha.ClientTimeout` | recaptcha.go:70-72 | the client timeout is the configured seconds times 10^9 nanoseconds whenever that fits in int64 |
| `Recaptcha.CheckSpec` | recaptcha.go:40-67 | `postError` is set exactly on a transport error; the error is nil exactly for a decoded body; the response is the zero value on transport or read failure and the partially decoded fields on a JSON failure |
| `Recaptcha.ConfirmSpec` | recaptcha.go:91-106 | fail-open: a transport error is accepted with a non-nil error; an unreadable body is refused at any threshold; a malformed or decoded body is accepted exactly when it reports success and a score at least the threshold; only a transport error sets `postError` |
| `Recaptcha.Classify` | recaptcha.go:116-128 | each call gets exactly one log class: valid when accepted, low score when refused with a positive score, invalid otherwise |
| `Recaptcha.Replay` | recaptcha.go:41-48 | over any sequence of calls that pass the `postError` global from one call to the next, each call is decided as it would be with the flag clear on entry, and the flag left behind says only whether the last round-trip failed |
| `Recaptcha.Verifier.constructor` | recaptcha.go:35-38 | before `Init` the globals hold Go's zero values |
| `Recaptcha.Verifier.Init` | recaptcha.go:110-114 | sets the key, the threshold and the timeout and leaves `postError` and the log unchanged |
| `Recaptcha.Verifier.PerformRecaptchaRequest` | recaptcha.go:69-79 | a POST to the siteverify URL, form-encoded, with exactly the two fields `secret` (the configured key) and `response` (the token), each with one value, and the configured timeout in nanoseconds |
| `Recaptcha.Verifier.Check` | recaptcha.go:40-67 | resets `postError`, makes one request, and leaves the response, the error and `postError` as `CheckSpec` says for that request's outcome |
| `Recaptcha.Verifier.ConfirmWithContext` | recaptcha.go:91-106 | the decision, the error and `postError` are those of `ConfirmSpec` under the configured threshold, and exactly one log record is appended with the address, the class of the decision and the score |
| `Recaptcha.Verifier.Confirm` | recaptcha.go:86-88 | behaves as `ConfirmWithContext` |
| `RecaptchaProperties.DecisionCharacterized` | recaptcha.go:92-101 | the decision is true exactly when the round-trip failed or the response reports success with score at least the threshold |
| `RecaptchaProperties.FlagOnEntryIgnored` | recaptcha.go:41 | the value `postError` holds when a call starts never changes that call's verdict, because `check` clears it first |
| `RecaptchaProperties.ScoreAtThresholdAccepted` | recaptcha.go:95 | a score equal to the threshold is accepted |
| `RecaptchaProperties.ZeroResponseRejected` | recaptcha.go:52-61 | a response left at its zero value by a read or JSON failure is refused at every threshold |
| `RecaptchaProperties.StatusIgnored` | recaptcha.go:50-62 | the HTTP status does not affect the decision |
| `RecaptchaProperties.ThresholdMonotone` | recaptcha.go:95 | lowering the threshold never turns an acceptance into a refusal |
| `RecaptchaProperties.FailOpenLoggedValid` | recaptcha.go:99-103 | a fail-open call is logged as a valid token with score 0 |
| `RecaptchaProperties.LowScoreFollowsScore` | recaptcha.go:116-127 | for every threshold and outcome, a refused call is logged as low score exactly when its score is positive, whatever its success flag |
| `RecaptchaProperties.LowScoreIgnoresSuccess` | recaptcha.go:122-127 | at threshold 0.5, `{false, 0.2}` is logged as low score and `{true, 0}` as an invalid token |
| `RecaptchaProperties.EarlierFailureForgotten` | recaptcha.go:41-48 | after any earlier calls, failed ones included, a call is decided as it would be with the flag clear, and only its own outcome sets the flag it leaves |
| `RecaptchaProperties.TimeoutWraps` | recaptcha.go:71 | one second past the int64 range the timeout wraps to a negative duration |
| `RecaptchaTest.TestConfirm` | recaptcha_test.go:13-40 | with threshold 0.5: `{true, 0.9}` is accepted; `{false, 0.2}`, `{false}` and a 500 with `{false}` are refused |
| `RecaptchaTest.TestConfirmSlowResponse` | recaptcha_test.go:42-61 | a 90-second reply under a 2-second timeout is accepted by fail-open, with an error |
| `RecaptchaTest.TestFailureNotCarriedOver` | recaptcha.go:41-48 | on one `Verifier`, a transport failure followed by a decoded `{false}` reply gives true then false, and the second call leaves `postError` clear |

## Left out

- The HTTP transport, the `apmhttp` wrapper, the context and wall-clock time: a transport function from the request to an outcome stands for them. Go's rule that a zero `Timeout` means no timeout belongs to `net/http` and appears only in the test double `SlowResponder`.
- JSON decoding and the form-urlencoded byte encoding of the payload: the body is an abstract decoded `Response` or a failure, and the payload is the `url.Values` map.
- Builds where Go's `int` is 32 bits: `timeResponse` is taken as 64 bits wide. With a 32-bit `int`, `time.Duration(timeResponse) * time.Second` cannot overflow, so `ClientTimeout`'s wrap-around and `TimeoutWraps` describe 64-bit builds only.
- `float32` rounding of the score and threshold: scores are `real`. Only `>=` and `> 0` are applied to them.
- The text of the log and print lines: only the three-way classification, the address and the score of each `logCaptchaResult` call are kept. The "Post error", "Read error" and "Captcha payload" prints in `check` are not modelled.
- The response fields `ChallengeTS`, `Hostname` and `ErrorCodes`: no decision reads them.
- Concurrent calls racing on `postError` and the configuration: the model is sequential.
- The demonstration server in `example/example.go` (page rendering, form parsing, command-line handling): it is not part of this model.
