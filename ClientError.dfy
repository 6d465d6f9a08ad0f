/**
 * The client crate's error type: a closed taxonomy of error kinds, an envelope
 * that pairs a kind with an optional backtrace, the conversions that absorb the
 * errors of the crate's collaborators (normalising their timeouts), the lossy
 * clone, the display text and the conversion back into an I/O error.
 */
module ClientError {
  import opened Wrappers

  // ---------------------------------------------------------------------------
  // Foreign errors, kept to their kind tag and an opaque payload
  // ---------------------------------------------------------------------------

  /** The classification code of an I/O error (a subset of the standard library's kinds). */
  datatype IoErrorKind =
    | NotFound
    | PermissionDenied
    | ConnectionRefused
    | ConnectionReset
    | BrokenPipe
    | WouldBlock
    | InvalidData
    | UnexpectedEof
    | Interrupted
    | TimedOut
    | Other

  /** What an I/O error carries besides its kind. */
  datatype IoPayload =
    | Simple                 // built from a kind alone
    | Text(text: string)     // built from a kind and a message
    | Wrapped(error: Error)  // built from a kind and an error of this crate

  /** An I/O error. */
  datatype IoError = IoError(kind: IoErrorKind, payload: IoPayload)

  /** The kind of a wire-protocol error: its timeout tag, or some other tag. */
  datatype ProtoErrorKind = Timeout | Other(what: string)

  /** A wire-protocol error: its kind and an opaque detail. */
  datatype ProtoError = ProtoError(kind: ProtoErrorKind, detail: string)

  /** The kind of a DNSSEC error: its timeout tag, or some other tag. */
  datatype DnsSecErrorKind = Timeout | Other(what: string)

  /** A DNSSEC error: its kind and an opaque detail. */
  datatype DnsSecError = DnsSecError(kind: DnsSecErrorKind, detail: string)

  /** A failure to send on the internal channel, kept as its display text. */
  datatype MpscSendError = MpscSendError(text: string)

  /** A captured backtrace, kept as its debug text. */
  datatype Backtrace = Backtrace(debugText: string)

  // ---------------------------------------------------------------------------
  // The taxonomy and the envelope
  // ---------------------------------------------------------------------------

  /** The error kind for errors returned by the client crate. */
  datatype ErrorKind =
    | Message(staticMsg: string)  // a message with static lifetime
    | Msg(msg: string)            // an owned message
    | DnsSec(dnssec: DnsSecError)
    | Io(io: IoError)
    | Proto(proto: ProtoError)
    | SendError(send: MpscSendError)
    | Timeout

  /** The error returned by the client crate: a kind and an optional backtrace. */
  datatype Error = Error(kind: ErrorKind, backtrack: Option<Backtrace>)

  /** Both kinds are the same variant, whatever their payloads. */
  predicate SameVariant(a: ErrorKind, b: ErrorKind) {
    && a.Message? == b.Message?
    && a.Msg? == b.Msg?
    && a.DnsSec? == b.DnsSec?
    && a.Io? == b.Io?
    && a.Proto? == b.Proto?
    && a.SendError? == b.SendError?
    && a.Timeout? == b.Timeout?
  }

  // ---------------------------------------------------------------------------
  // Clone
  // ---------------------------------------------------------------------------

  /**
   * Clones a kind. An I/O error cannot be cloned, so the clone of `Io` is a new
   * I/O error built from the original's kind alone; every other payload is copied.
   */
  function CloneKind(k: ErrorKind): (c: ErrorKind)
    ensures SameVariant(c, k)
    ensures k.Io? ==> c.io.kind == k.io.kind && c.io.payload == Simple
    ensures !k.Io? ==> c == k
  {
    match k
    case Message(m) => Message(m)
    case Msg(m) => Msg(m)
    case DnsSec(d) => DnsSec(d)
    case Io(io) => Io(IoError(io.kind, Simple))
    case Proto(p) => Proto(p)
    case SendError(s) => SendError(s)
    case Timeout => ErrorKind.Timeout
  }

  /** Clones an error: the kind as above, the backtrace unchanged. */
  function Clone(e: Error): (c: Error)
    ensures SameVariant(c.kind, e.kind)
    ensures c.kind == CloneKind(e.kind)
    ensures c.backtrack == e.backtrack
    ensures Display(c) == Display(e)
  {
    Error(CloneKind(e.kind), e.backtrack)
  }

  // ---------------------------------------------------------------------------
  // Display
  // ---------------------------------------------------------------------------

  const SendErrorPrefix: string := "error sending to mpsc: "

  /** The display text of a kind: messages verbatim, a fixed phrase per foreign kind. */
  function KindText(k: ErrorKind): (s: string)
    ensures |s| == 0 <==> (k.Message? && k.staticMsg == []) || (k.Msg? && k.msg == [])
    ensures k.Message? ==> s == k.staticMsg
    ensures k.Msg? ==> s == k.msg
    ensures k.SendError? ==> SendErrorPrefix <= s && s[|SendErrorPrefix|..] == k.send.text
    ensures k.DnsSec? ==> s == "dnssec error"
    ensures k.Io? ==> s == "io error"
    ensures k.Proto? ==> s == "proto error"
    ensures k.Timeout? ==> s == "request timed out"
  {
    match k
    case Message(m) => m
    case Msg(m) => m
    case DnsSec(_) => "dnssec error"
    case Io(_) => "io error"
    case Proto(_) => "proto error"
    case SendError(s) => SendErrorPrefix + s.text
    case Timeout => "request timed out"
  }

  /** The display text of an error: its kind's text, then the backtrace's debug text if any. */
  function Display(e: Error): (s: string)
    ensures KindText(e.kind) <= s
    ensures e.backtrack.None? ==> s == KindText(e.kind)
    ensures e.backtrack.Some? ==> s[|KindText(e.kind)|..] == e.backtrack.value.debugText
  {
    match e.backtrack
    case Some(bt) => KindText(e.kind) + bt.debugText
    case None => KindText(e.kind)
  }

  // ---------------------------------------------------------------------------
  // Inbound conversions; `trace` is whatever the backtrace capture produced
  // ---------------------------------------------------------------------------

  /** Wraps a kind, whatever it is, with the captured backtrace. */
  function FromKind(k: ErrorKind, trace: Option<Backtrace>): (e: Error)
    ensures e.kind == k && e.backtrack == trace
  {
    Error(k, trace)
  }

  /** A static message becomes `Message`, never `Timeout`, whatever it says. */
  function FromStaticStr(msg: string, trace: Option<Backtrace>): (e: Error)
    ensures e.kind == Message(msg) && e.backtrack == trace
  {
    FromKind(Message(msg), trace)
  }

  /** An owned message becomes `Msg`, never `Timeout`, whatever it says. */
  function FromString(msg: string, trace: Option<Backtrace>): (e: Error)
    ensures e.kind == Msg(msg) && e.backtrack == trace
  {
    FromKind(Msg(msg), trace)
  }

  /** A send failure becomes `SendError`. */
  function FromSendError(s: MpscSendError, trace: Option<Backtrace>): (e: Error)
    ensures e.kind == SendError(s) && e.backtrack == trace
  {
    FromKind(SendError(s), trace)
  }

  /** A DNSSEC error becomes `Timeout` exactly when its own kind is a timeout, else `DnsSec`. */
  function FromDnsSec(d: DnsSecError, trace: Option<Backtrace>): (e: Error)
    ensures e.kind.Timeout? <==> d.kind.Timeout?
    ensures !d.kind.Timeout? ==> e.kind == DnsSec(d)
    ensures e.backtrack == trace
  {
    match d.kind
    case Timeout => FromKind(ErrorKind.Timeout, trace)
    case _ => FromKind(DnsSec(d), trace)
  }

  /** An I/O error becomes `Timeout` exactly when its kind is `TimedOut`, else `Io`. */
  function FromIo(io: IoError, trace: Option<Backtrace>): (e: Error)
    ensures e.kind.Timeout? <==> io.kind == TimedOut
    ensures io.kind != TimedOut ==> e.kind == Io(io)
    ensures e.backtrack == trace
  {
    match io.kind
    case TimedOut => FromKind(ErrorKind.Timeout, trace)
    case _ => FromKind(Io(io), trace)
  }

  /** A wire-protocol error becomes `Timeout` exactly when its own kind is a timeout, else `Proto`. */
  function FromProto(p: ProtoError, trace: Option<Backtrace>): (e: Error)
    ensures e.kind.Timeout? <==> p.kind.Timeout?
    ensures !p.kind.Timeout? ==> e.kind == Proto(p)
    ensures e.backtrack == trace
  {
    match p.kind
    case Timeout => FromKind(ErrorKind.Timeout, trace)
    case _ => FromKind(Proto(p), trace)
  }

  // ---------------------------------------------------------------------------
  // Outbound conversion
  // ---------------------------------------------------------------------------

  /**
   * Turns an error into an I/O error that carries it: `TimedOut` for a
   * timeout, `Other` for every other kind.
   */
  function IntoIo(e: Error): (io: IoError)
    ensures io.kind == TimedOut <==> e.kind.Timeout?
    ensures io.kind == TimedOut || io.kind == IoErrorKind.Other
    ensures io.payload == Wrapped(e)
  {
    match e.kind
    case Timeout => IoError(TimedOut, Wrapped(e))
    case _ => IoError(IoErrorKind.Other, Wrapped(e))
  }
}
