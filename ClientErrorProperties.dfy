/**
 * Properties of the client error type that relate several of its operations:
 * timeout normalisation at the boundaries, the round trip through an I/O error
 * (once and repeatedly), what the lossy clone keeps and loses, and what the
 * display text tells apart.
 */
module ClientErrorProperties {
  import opened Wrappers
  import opened ClientError

  // ---------------------------------------------------------------------------
  // Inbound conversions
  // ---------------------------------------------------------------------------

  /** An I/O error of kind `TimedOut` with the message "mock timeout" becomes a `Timeout` error. */
  lemma MockTimeoutConverts(trace: Option<Backtrace>)
    ensures FromIo(IoError(TimedOut, Text("mock timeout")), trace).kind == ErrorKind.Timeout
  {
  }

  /** Message text never triggers timeout normalisation, even when it is the word itself. */
  lemma TimeoutTextIsJustAMessage(trace: Option<Backtrace>)
    ensures FromStaticStr("timeout", trace).kind == Message("timeout")
    ensures FromString("request timed out", trace).kind == Msg("request timed out")
  {
  }

  // ---------------------------------------------------------------------------
  // Timeouts buried below the top level
  // ---------------------------------------------------------------------------

  /** A timeout sits at the top of the error or anywhere down its chain of wrapped errors. */
  predicate CarriesTimeout(e: Error)
  {
    || e.kind.Timeout?
    || (e.kind.Io? && e.kind.io.payload.Wrapped? && CarriesTimeout(e.kind.io.payload.error))
  }

  /**
   * Detection is shallow: an I/O error of any kind other than `TimedOut` that
   * wraps a timeout error stays `Io`, with the timeout still buried inside.
   */
  lemma BuriedTimeoutIsNotNormalised(io: IoError, trace: Option<Backtrace>)
    requires io.kind != TimedOut
    requires io.payload.Wrapped? && io.payload.error.kind.Timeout?
    ensures FromIo(io, trace).kind == Io(io)
    ensures CarriesTimeout(FromIo(io, trace)) && !FromIo(io, trace).kind.Timeout?
  {
  }

  /**
   * Wrapping a kind directly does not normalise: an `Io` kind holding a
   * `TimedOut` I/O error stays `Io`, its clone keeps the `TimedOut` tag, and
   * the outbound conversion reports it as `Other`.
   */
  lemma TimedOutIoKindIsNotNormalised(io: IoError, trace: Option<Backtrace>)
    requires io.kind == TimedOut
    ensures FromKind(Io(io), trace).kind == Io(io)
    ensures Clone(FromKind(Io(io), trace)).kind == Io(IoError(TimedOut, Simple))
    ensures IntoIo(FromKind(Io(io), trace)).kind == IoErrorKind.Other
    ensures FromIo(io, trace).kind == ErrorKind.Timeout
  {
  }

  // ---------------------------------------------------------------------------
  // The round trip through an I/O error
  // ---------------------------------------------------------------------------

  /** The error that an I/O error carries, when it carries one of this crate's errors. */
  function Unwrap(e: Error): Option<Error>
  {
    if e.kind.Io? && e.kind.io.payload.Wrapped? then Some(e.kind.io.payload.error) else None
  }

  /**
   * Error to I/O error and back: a timeout comes back as a timeout (the carried
   * error is dropped); every other kind comes back as `Io` of kind `Other`,
   * carrying the original error unchanged.
   */
  lemma OutboundRoundTrip(e: Error, trace: Option<Backtrace>)
    ensures e.kind.Timeout? ==> FromIo(IntoIo(e), trace) == Error(ErrorKind.Timeout, trace)
    ensures !e.kind.Timeout? ==> FromIo(IntoIo(e), trace).kind == Io(IoError(IoErrorKind.Other, Wrapped(e)))
    ensures !e.kind.Timeout? <==> Unwrap(FromIo(IntoIo(e), trace)) == Some(e)
  {
  }

  /**
   * An error passed through one round trip per element of `traces`, each
   * re-entry capturing the backtrace given there.
   */
  function Relay(e: Error, traces: seq<Option<Backtrace>>): (r: Error)
    ensures r.kind.Timeout? <==> e.kind.Timeout?
    ensures traces != [] ==> r.backtrack == traces[|traces| - 1]
    ensures traces != [] && !e.kind.Timeout? ==> r.kind.Io? && r.kind.io.kind == IoErrorKind.Other
    ensures traces != [] && e.kind.Timeout? ==> r == Error(ErrorKind.Timeout, traces[|traces| - 1])
    decreases |traces|
  {
    if traces == [] then e else Relay(FromIo(IntoIo(e), traces[0]), traces[1..])
  }

  /** Unwraps `n` carried errors in turn, from the outside in. */
  function UnwrapN(e: Error, n: nat): Option<Error>
  {
    if n == 0 then Some(e)
    else match UnwrapN(e, n - 1)
      case None => None
      case Some(inner) => Unwrap(inner)
  }

  /** After any number of round trips a non-timeout error is still there, one layer per trip. */
  lemma {:induction false} RelayUnwinds(e: Error, traces: seq<Option<Backtrace>>)
    requires !e.kind.Timeout?
    ensures UnwrapN(Relay(e, traces), |traces|) == Some(e)
    decreases |traces|
  {
    if traces != [] {
      var once := FromIo(IntoIo(e), traces[0]);
      RelayUnwinds(once, traces[1..]);
      assert Relay(e, traces) == Relay(once, traces[1..]);
    }
  }

  /** Round trips neither surface nor lose a buried timeout. */
  lemma {:induction false} RelayKeepsCarriedTimeout(e: Error, traces: seq<Option<Backtrace>>)
    ensures CarriesTimeout(Relay(e, traces)) == CarriesTimeout(e)
    decreases |traces|
  {
    if traces != [] {
      var once := FromIo(IntoIo(e), traces[0]);
      assert CarriesTimeout(once) == CarriesTimeout(e);
      RelayKeepsCarriedTimeout(once, traces[1..]);
    }
  }

  // ---------------------------------------------------------------------------
  // Clone
  // ---------------------------------------------------------------------------

  /** A clone is unchanged by cloning again. */
  lemma CloneIdempotent(e: Error)
    ensures Clone(Clone(e)) == Clone(e)
    ensures Display(Clone(Clone(e))) == Display(e)
  {
  }

  /** The clone equals the original except for an I/O error that carries a payload. */
  lemma CloneLosesOnlyIoPayload(k: ErrorKind)
    ensures CloneKind(k) == k <==> !(k.Io? && !k.io.payload.Simple?)
  {
  }

  /** Cloning drops every `Timeout` error buried in an I/O payload; only a top-level `Timeout` survives it. */
  lemma CloneDropsBuriedTimeout(e: Error)
    ensures CarriesTimeout(Clone(e)) <==> e.kind.Timeout?
  {
  }

  /** Cloning an error that came back from an I/O error loses the error it carried. */
  lemma CloneForgetsCarriedError(e: Error, trace: Option<Backtrace>)
    requires !e.kind.Timeout?
    ensures Unwrap(Clone(FromIo(IntoIo(e), trace))) == None
    ensures Clone(FromIo(IntoIo(e), trace)).kind == Io(IoError(IoErrorKind.Other, Simple))
  {
  }

  // ---------------------------------------------------------------------------
  // Display
  // ---------------------------------------------------------------------------

  /** Apart from the two message kinds, the display text of a kind tells its variant. */
  lemma FixedTextsIdentifyVariant(a: ErrorKind, b: ErrorKind)
    requires !a.Message? && !a.Msg? && !b.Message? && !b.Msg?
    requires KindText(a) == KindText(b)
    ensures SameVariant(a, b)
  {
  }

  /** Two kinds of the same variant with a fixed template display the same text, whatever they carry. */
  lemma SameVariantSameText(a: ErrorKind, b: ErrorKind)
    requires SameVariant(a, b)
    requires !a.Message? && !a.Msg? && !a.SendError?
    ensures KindText(a) == KindText(b)
  {
  }

  /** An empty message displays as empty text when no backtrace was captured. */
  lemma EmptyMessageDisplaysEmpty()
    ensures Display(FromStaticStr("", None)) == ""
    ensures Display(FromString("", None)) == ""
  {
  }
}
