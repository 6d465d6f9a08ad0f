# Client error type of trust-dns, modelled in Dafny

This project models the error layer of the trust-dns client crate
(`crates/client/src/error/client_error.rs`): the closed taxonomy `ErrorKind`
(`Message`, `Msg`, `DnsSec`, `Io`, `Proto`, `SendError`, `Timeout`), the
envelope `Error { kind, backtrack }`, the inbound `From` conversions that absorb
the errors of the crate's collaborators, the timeout normalisation they apply,
the deliberately lossy `Clone`, the `Display` text, and the outbound conversion
into `std::io::Error`.

Files:

- `Wrappers.dfy`: the `Option` type used for the optional backtrace.
- `ClientError.dfy` (module `ClientError`): the foreign errors reduced to their
  kind tag and an opaque payload, `ErrorKind`, `Error`, clone, display and all
  conversions, each as a function with a contract.
- `ClientErrorProperties.dfy` (module `ClientErrorProperties`): lemmas relating
  several operations, including `Relay`, which composes the outbound and inbound
  I/O conversions any number of times.

Modelling choices:

- An I/O error is `IoError(kind, payload)`. Its payload is `Simple` (built from
  a kind alone, as the clone does), `Text` (built from a kind and a message, as
  in the crate's test) or `Wrapped(error)` (built from a kind and an `Error`, as
  the outbound conversion does). So `Error` and `IoError` are mutually recursive.
- `ProtoError` and `DnsSecError` keep only their kind (`Timeout`, or `Other`
  with an opaque tag) and an opaque detail string. The send error keeps only its
  display text, and a backtrace keeps only its debug text.
- The backtrace capture is a parameter `trace` of every inbound conversion. It
  is the value the capture macro produced, or `None` when capture is off.
- `Error::kind()` is the datatype field `kind`.
- Display writes to a formatter in the crate. Here it is a function returning
  the text.

Display text, as the code writes it: `DnsSec` displays as "dnssec error",
`Io` as "io error", `Proto` as "proto error", `Timeout` as "request timed out",
and `SendError` as "error sending to mpsc: " followed by the send error's text.
`Message` and `Msg` display their payload verbatim, so an empty payload displays
as the empty string (lemma `EmptyMessageDisplaysEmpty`).

## Model

| member | source | states |
|---|---|---|
| ClientError.CloneKind | crates/client/src/error/client_error.rs:55-69 | the clone has the same variant; a non-`Io` kind is copied unchanged; an `Io` clone keeps the I/O kind and drops the payload |
| ClientError.Clone | crates/client/src/error/client_error.rs:55-76 | the clone's kind is the kind's clone (same variant, `Io` rebuilt from its I/O kind alone, other payloads copied), the backtrace is kept, and its display text is identical to the original's |
| ClientError.KindText | crates/client/src/error/client_error.rs:22-53 | `Message`/`Msg` display their payload verbatim (so the text is empty exactly for an empty payload); `DnsSec`, `Io`, `Proto` and `Timeout` display "dnssec error", "io error", "proto error" and "request timed out"; `SendError` displays "error sending to mpsc: " followed by the send error's text |
| ClientError.Display | crates/client/src/error/client_error.rs:85-94 | the kind text is a prefix of the error's text; with no backtrace the texts are equal; otherwise the rest is the backtrace's debug text |
| ClientError.FromKind | crates/client/src/error/client_error.rs:96-103 | converting a kind preserves it exactly; the backtrace is the captured one |
| ClientError.FromStaticStr | crates/client/src/error/client_error.rs:105-109 | a static string becomes `Message` with the identical text (so never `Timeout`), with the captured backtrace |
| ClientError.FromSendError | crates/client/src/error/client_error.rs:111-115 | a send error becomes `SendError` of that same error |
| ClientError.FromString | crates/client/src/error/client_error.rs:117-121 | an owned string becomes `Msg` with the identical text (so never `Timeout`), with the captured backtrace |
| ClientError.FromDnsSec | crates/client/src/error/client_error.rs:123-130 | the result is `Timeout` if and only if the DNSSEC error's own kind is `Timeout`; otherwise it is `DnsSec` of the unchanged error |
| ClientError.FromIo | crates/client/src/error/client_error.rs:132-139 | the result is `Timeout` if and only if the I/O kind is `TimedOut`; otherwise it is `Io` of the unchanged error |
| ClientError.FromProto | crates/client/src/error/client_error.rs:141-148 | the result is `Timeout` if and only if the protocol error's own kind is `Timeout`; otherwise it is `Proto` of the unchanged error |
| ClientError.IntoIo | crates/client/src/error/client_error.rs:150-157 | the I/O kind is `TimedOut` if and only if the error is a `Timeout`, `Other` otherwise, and the I/O error carries the whole error |
| ClientErrorProperties.MockTimeoutConverts | crates/client/src/error/client_error.rs:159-169 | an I/O error of kind `TimedOut` with message "mock timeout" converts to kind `Timeout` |
| ClientErrorProperties.TimeoutTextIsJustAMessage | crates/client/src/error/client_error.rs:105-121 | message conversions ignore the text: "timeout" stays a `Message`, "request timed out" stays a `Msg` |
| ClientErrorProperties.BuriedTimeoutIsNotNormalised | crates/client/src/error/client_error.rs:132-139 | an I/O error that is not `TimedOut` but wraps a timeout error stays `Io`; the timeout remains buried |
| ClientErrorProperties.TimedOutIoKindIsNotNormalised | crates/client/src/error/client_error.rs:55-157 | wrapping a kind directly does not normalise: an `Io` holding a `TimedOut` I/O error stays `Io`, its clone keeps `TimedOut`, and the outbound conversion reports `Other`, while the I/O conversion of the same I/O error gives `Timeout` |
| ClientErrorProperties.OutboundRoundTrip | crates/client/src/error/client_error.rs:132-157 | error to I/O error and back: `Timeout` returns as `Timeout`; any other kind returns as `Io` of kind `Other` carrying the original error, which can be recovered |
| ClientErrorProperties.Relay | crates/client/src/error/client_error.rs:132-157 | after any number of round trips the error is `Timeout` if and only if it started as one; a non-timeout ends as `Io` of kind `Other`; a timeout ends as a bare `Timeout` with the last captured backtrace |
| ClientErrorProperties.RelayUnwinds | crates/client/src/error/client_error.rs:150-157 | after n round trips of a non-timeout error, unwrapping n carried errors gives back the original error |
| ClientErrorProperties.RelayKeepsCarriedTimeout | crates/client/src/error/client_error.rs:132-157 | round trips never surface a buried timeout and never lose one |
| ClientErrorProperties.CloneIdempotent | crates/client/src/error/client_error.rs:55-76 | cloning a clone changes nothing, and its display text equals the original's |
| ClientErrorProperties.CloneLosesOnlyIoPayload | crates/client/src/error/client_error.rs:55-69 | a clone equals its original if and only if the kind is not an `Io` error with a payload |
| ClientErrorProperties.CloneDropsBuriedTimeout | crates/client/src/error/client_error.rs:55-69 | no `Timeout` error survives inside an I/O payload after cloning; only a top-level `Timeout` survives |
| ClientErrorProperties.CloneForgetsCarriedError | crates/client/src/error/client_error.rs:55-69 | the clone of a non-timeout error that came back from an I/O error is a bare `Io` of kind `Other` carrying nothing, so the original can no longer be recovered |
| ClientErrorProperties.FixedTextsIdentifyVariant | crates/client/src/error/client_error.rs:33-52 | two non-message kinds with the same display text are the same variant |
| ClientErrorProperties.SameVariantSameText | crates/client/src/error/client_error.rs:33-52 | two kinds of the same variant among `DnsSec`, `Io`, `Proto` and `Timeout` display the same text whatever their payloads |
| ClientErrorProperties.EmptyMessageDisplaysEmpty | crates/client/src/error/client_error.rs:25-31 | an empty `Message` or `Msg` without a backtrace displays as the empty string |

## Left out

- Backtrace capture (the `trace!()` macro and `ExtBacktrace`) depends on build and runtime configuration and walks the real call stack. Its result is a parameter here.
- The internals of the DNSSEC error, the protocol error, the standard I/O error and the channel send error are not part of this model. Each keeps only its kind tag and an opaque payload, and I/O error kinds are a subset of the standard ones.
- Timeouts nested inside the DNSSEC or protocol error's own causes cannot be expressed, because those errors keep only their top-level kind. The shallow detection is shown on I/O errors that wrap a timeout error.
- The `Debug` formatting, the formatter I/O and its error propagation in `Display`, and the mechanics of the derive macros are not modelled.
- The lifetime difference between `Message` (a static string) and `Msg` (an owned string) is not modelled; both hold a `string`.
- The `Result<T>` alias has no logic and is not modelled.
