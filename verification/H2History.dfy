/** What the frames written, the events queued and the data accepted amount to. */
module H2History {
  import opened Base
  import opened H2Types

  // ---- Frames written ----

  /** The octets of a stream that have gone out. */
  function DataOut(wire: seq<Frame>, id: nat): seq<Byte> {
    if wire == [] then [] else DataOut(wire[..|wire| - 1], id) + DataIn(wire[|wire| - 1], id)
  }

  function DataIn(f: Frame, id: nat): seq<Byte> {
    if f.Data? && f.id == id then f.data else []
  }

  /** Whether the end of a stream has gone out. */
  predicate EndOut(wire: seq<Frame>, id: nat) {
    wire != [] && (EndOut(wire[..|wire| - 1], id) || EndsIn(wire[|wire| - 1], id))
  }

  predicate EndsIn(f: Frame, id: nat) {
    (f.Data? || f.HeaderBlock?) && f.id == id && f.endStream
  }

  predicate ResetOut(wire: seq<Frame>, id: nat) {
    wire != [] && (ResetOut(wire[..|wire| - 1], id) || ResetsIn(wire[|wire| - 1], id))
  }

  predicate ResetsIn(f: Frame, id: nat) {
    f.RstStream? && f.id == id
  }

  /** The octets of all streams that have gone out. */
  function TotalOut(wire: seq<Frame>): nat {
    if wire == [] then 0 else TotalOut(wire[..|wire| - 1]) + Octets(wire[|wire| - 1])
  }

  function Octets(f: Frame): nat {
    if f.Data? then |f.data| else 0
  }

  /** A frame that belongs to a stream's message follows neither its end nor a reset. */
  predicate MayFollow(wire: seq<Frame>, f: Frame) {
    f.Data? || f.HeaderBlock? ==> !EndOut(wire, f.id) && !ResetOut(wire, f.id)
  }

  predicate Orderly(wire: seq<Frame>) {
    wire != [] ==> Orderly(wire[..|wire| - 1]) && MayFollow(wire[..|wire| - 1], wire[|wire| - 1])
  }

  lemma ExtendWire(wire: seq<Frame>, f: Frame, id: nat)
    ensures DataOut(wire + [f], id) == DataOut(wire, id) + DataIn(f, id)
    ensures EndOut(wire + [f], id) <==> EndOut(wire, id) || EndsIn(f, id)
    ensures ResetOut(wire + [f], id) <==> ResetOut(wire, id) || ResetsIn(f, id)
    ensures TotalOut(wire + [f]) == TotalOut(wire) + Octets(f)
    ensures Orderly(wire + [f]) <==> Orderly(wire) && MayFollow(wire, f)
  {
    assert (wire + [f])[..|wire + [f]| - 1] == wire;
  }

  // ---- Data accepted ----

  /** All the data the application handed over for a stream. */
  function DataAccepted(sends: seq<Accepted>, id: nat): seq<Byte> {
    if sends == [] then []
    else DataAccepted(sends[..|sends| - 1], id) + (if sends[|sends| - 1].id == id then sends[|sends| - 1].data else [])
  }

  lemma ExtendSends(sends: seq<Accepted>, a: Accepted, id: nat)
    ensures DataAccepted(sends + [a], id) == DataAccepted(sends, id) + (if a.id == id then a.data else [])
  {
    assert (sends + [a])[..|sends + [a]| - 1] == sends;
  }

  // ---- Events queued ----

  /** Where the events of a stream stand: nothing yet, the message under way or at its end,
      the stream over, or an event that should not have come. */
  datatype Trace = Before | Message(ended: bool) | Over | Wrong

  function Next(t: Trace, e: Event, id: nat): Trace {
    match e
    case HeadersReceived(i, _, endStream) =>
      if i != id then t else if t.Before? then Message(endStream) else Wrong
    case DataReceived(i, _, endStream) =>
      if i != id then t else if t == Message(false) then Message(endStream) else Wrong
    case TrailersReceived(i, _) =>
      if i != id then t else if t == Message(false) then Message(true) else Wrong
    case StreamClosed(i) =>
      if i != id then t else if t == Message(true) then Over else Wrong
    case StreamReset(i, _, _) =>
      if i != id then t else if t.Before? || t.Message? then Over else Wrong
    case _ => t
  }

  function TraceOf(log: seq<Event>, id: nat): Trace {
    if log == [] then Before else Next(TraceOf(log[..|log| - 1], id), log[|log| - 1], id)
  }

  /** The length of the body delivered on a stream. */
  function BodyLength(log: seq<Event>, id: nat): nat {
    if log == [] then 0
    else BodyLength(log[..|log| - 1], id) + BodyIn(log[|log| - 1], id)
  }

  function BodyIn(e: Event, id: nat): nat {
    if e.DataReceived? && e.id == id then |e.data| else 0
  }

  /** The body length the last header section declared. */
  function DeclaredLength(log: seq<Event>, id: nat): Option<nat> {
    if log == [] then None
    else if log[|log| - 1].HeadersReceived? && log[|log| - 1].id == id then
      (if log[|log| - 1].headers.contentLength.Length? then Some(log[|log| - 1].headers.contentLength.n) else None)
    else DeclaredLength(log[..|log| - 1], id)
  }

  /** Data never exceeds the declared length, and ends a message only at that length. */
  predicate FitsDeclared(log: seq<Event>, e: Event) {
    match e
    case DataReceived(id, data, endStream) =>
      var declared := DeclaredLength(log, id);
      declared.Some? ==>
        && BodyLength(log, id) + |data| <= declared.value
        && (endStream ==> BodyLength(log, id) + |data| == declared.value)
    case HeadersReceived(id, h, endStream) =>
      endStream && h.contentLength.Length? ==> h.contentLength.n == 0
    case _ => true
  }

  predicate BodiesFit(log: seq<Event>) {
    log != [] ==> BodiesFit(log[..|log| - 1]) && FitsDeclared(log[..|log| - 1], log[|log| - 1])
  }

  predicate WasReset(log: seq<Event>, id: nat) {
    log != [] && (WasReset(log[..|log| - 1], id) || (log[|log| - 1].StreamReset? && log[|log| - 1].id == id))
  }

  /** The connection credit the events tell the application about. */
  function Reported(log: seq<Event>): nat {
    if log == [] then 0 else Reported(log[..|log| - 1]) + CreditIn(log[|log| - 1])
  }

  function CreditIn(e: Event): nat {
    match e
    case DataReceived(_, data, _) => |data|
    case DataDiscarded(_, consumed) => consumed
    case StreamReset(_, _, consumed) => consumed
    case _ => 0
  }

  lemma ExtendLog(log: seq<Event>, e: Event, id: nat)
    ensures TraceOf(log + [e], id) == Next(TraceOf(log, id), e, id)
    ensures BodyLength(log + [e], id) == BodyLength(log, id) + BodyIn(e, id)
    ensures DeclaredLength(log + [e], id)
         == (if e.HeadersReceived? && e.id == id then
               (if e.headers.contentLength.Length? then Some(e.headers.contentLength.n) else None)
             else DeclaredLength(log, id))
    ensures WasReset(log + [e], id) <==> WasReset(log, id) || (e.StreamReset? && e.id == id)
    ensures Reported(log + [e]) == Reported(log) + CreditIn(e)
    ensures BodiesFit(log + [e]) <==> BodiesFit(log) && FitsDeclared(log, e)
  {
    assert (log + [e])[..|log + [e]| - 1] == log;
  }
}
