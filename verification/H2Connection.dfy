/** An HTTP/2 connection: its streams, windows and operations, as functions on values. */
module H2Connection {
  import opened Base
  import opened H2Types
  import opened Bounded

  datatype Stream = Stream(
    state: StreamState, sendWindow: int, recvWindow: int, sendInitial: nat,
    buffer: seq<Byte>, pendingEnd: bool,
    initialHeaders: bool, expected: Option<nat>, received: nat,
    connectEstablished: bool, verb: Option<Method>, hasProtocol: bool, noContent: bool,
    finalResponse: bool, granted: nat)

  /** A header block of which the last frame is still to come, and as history whether its stream
      was neither live nor remembered when it began. */
  datatype Block = Block(id: nat, endStream: bool, isNew: bool)

  datatype Phase = Preface | Active | GoawaySent | GoawayGot

  /** A connection. The last fields are history: every frame written, every event queued,
      every piece of data accepted for sending, and running totals of connection credit:
      granted by the peer, charged for DATA received, of that for padding that the
      application was not told of, and granted to the peer. */
  datatype Conn = Conn(
    role: Role, phase: Phase, local: Settings, remote: Settings,
    sendWindow: int, recvWindow: int,
    streams: map<nat, Stream>, closed: set<nat>, nextId: nat, lastRecv: nat,
    open: Option<Block>, tunnelled: bool, refused: bool,
    wire: seq<Frame>, log: seq<Event>, sends: seq<Accepted>,
    granted: nat, charged: nat, padding: nat, refilled: nat) {

    function Emit(f: Frame): Conn {
      this.(wire := wire + [f])
    }

    function Queue(e: Event): Conn {
      this.(log := log + [e])
    }

    function Put(id: nat, s: Stream): Conn {
      this.(streams := streams[id := s])
    }

    /** Drops a stream and remembers its identifier for a while. */
    ghost function Drop(id: nat): Conn {
      this.(streams := streams - {id}, closed := Remember(closed, id))
    }

    function NewStream(): Stream {
      Stream(Idle, remote.initialWindow, local.initialWindow, remote.initialWindow, [], false,
             false, None, 0, false, None, false, false, false, 0)
    }

    /** No frame on the stream has been seen yet. */
    predicate IsIdle(id: nat) {
      id !in streams && id !in closed && (id % 2 == 0 || id > lastRecv)
    }
  }

  /** Identifiers are remembered in their own order. */
  const NUMBER: Rank<nat> := (id: nat) => id

  lemma NumberIsRank()
    ensures IsRank(NUMBER)
  {
    forall a: nat, b: nat | NUMBER(a) == NUMBER(b) ensures a == b {
    }
  }

  ghost function Remember(closed: set<nat>, id: nat): (r: set<nat>)
    ensures r <= closed + {id}
  {
    SetInsert(NUMBER, closed, id, CLOSED_STREAMS_MAX_SIZE)
  }

  function NewConn(role: Role, local: Settings, remote: Settings): Conn {
    Conn(role, Preface, local, remote, DEFAULT_WINDOW, DEFAULT_WINDOW, map[], {},
         if role.Client? then 1 else 2, 0, None, false, false, [], [], [], 0, 0, 0, 0)
  }

  type Outcome = Result<Conn, H2Error>

  function Available(window: int): nat {
    if window > 0 then window else 0
  }

  function Min(a: nat, b: nat): nat {
    if a <= b then a else b
  }

  // ---- Sending data ----

  ghost function SendData(c: Conn, id: nat, data: seq<Byte>, endStream: bool): Outcome {
    if id !in c.streams then Err(StreamFailed(StreamClosedError))
    else if c.streams[id].pendingEnd then Err(StreamFailed(StreamClosedError))
    else if !c.streams[id].state.CanSend() then Err(StreamFailed(StreamClosedError))
    else
      match QueueData(c, id, data, endStream)
      case Err(e) => Err(e)
      case Ok(d) => FlushAndClose(d, id)
  }

  ghost function FlushAndClose(c: Conn, id: nat): Outcome {
    match Flush(c, id)
    case Err(e) => Err(e)
    case Ok(d) => Ok(TryRemove(d, id))
  }

  /** Takes all of the data or none. */
  function QueueData(c: Conn, id: nat, data: seq<Byte>, endStream: bool): Outcome {
    if id !in c.streams then Err(StreamFailed(StreamClosedError))
    else if |c.streams[id].buffer| + |data| > DEFAULT_WINDOW then Err(StreamFailed(FlowControlError))
    else
      var s := c.streams[id];
      Ok(c.Put(id, s.(buffer := s.buffer + data, pendingEnd := s.pendingEnd || endStream))
          .(sends := c.sends + [Accepted(id, data)]))
  }

  /** How much of a stream's queue may go out in one frame. */
  function SliceSize(c: Conn, s: Stream): nat {
    Min(|s.buffer|, Min(Min(Available(c.sendWindow), Available(s.sendWindow)), c.remote.maxFrame))
  }

  /** Sends the first octets of a stream's queue in one DATA frame, the last with the end. */
  function SendSlice(c: Conn, id: nat, n: nat): Outcome
    requires id in c.streams && n <= |c.streams[id].buffer|
  {
    var s := c.streams[id];
    var rest := s.buffer[n..];
    var end := s.pendingEnd && rest == [];
    if n > c.sendWindow || n > s.sendWindow then Err(ConnectionFailed(FlowControlError))
    else if end && s.state.CompleteSend().None? then Err(StreamFailed(StreamClosedError))
    else
      var t := s.(buffer := rest, sendWindow := s.sendWindow - n,
                  pendingEnd := s.pendingEnd && !end,
                  state := if end then s.state.CompleteSend().value else s.state);
      Ok(c.Put(id, t).(sendWindow := c.sendWindow - n).Emit(Data(id, s.buffer[..n], end)))
  }

  /** Sends what the windows allow, in frames of the peer's size, and the end when all is out. */
  function Flush(c: Conn, id: nat): Outcome
    decreases if id in c.streams then |c.streams[id].buffer| else 0
  {
    if id !in c.streams || c.streams[id].buffer == [] then SendEmptyEnd(c, id)
    else
      var n := SliceSize(c, c.streams[id]);
      if n == 0 then Ok(c)
      else
        match SendSlice(c, id, n)
        case Err(e) => Err(e)
        case Ok(d) => if n == |c.streams[id].buffer| then Ok(d) else Flush(d, id)
  }

  /** A stream with nothing queued ends with an empty DATA frame, whatever the windows. */
  function SendEmptyEnd(c: Conn, id: nat): Outcome {
    if id !in c.streams || !c.streams[id].pendingEnd || c.streams[id].buffer != [] then Ok(c)
    else
      var s := c.streams[id];
      if s.state.CompleteSend().None? then Err(StreamFailed(StreamClosedError))
      else Ok(c.Put(id, s.(pendingEnd := false, state := s.state.CompleteSend().value)).Emit(Data(id, [], true)))
  }

  /** A stream both sides have ended is dropped, and the application told. */
  ghost function TryRemove(c: Conn, id: nat): Conn {
    if id in c.streams && c.streams[id].state.Closed? && c.streams[id].buffer == [] && !c.streams[id].pendingEnd then
      c.Queue(StreamClosed(id)).Drop(id)
    else c
  }

  predicate HasQueued(s: Stream) {
    s.buffer != [] || s.pendingEnd
  }

  function Queued(c: Conn): set<nat> {
    set id | id in c.streams && HasQueued(c.streams[id])
  }

  predicate Distinct(order: seq<nat>) {
    forall i, j :: 0 <= i < j < |order| ==> order[i] != order[j]
  }

  ghost predicate Lists(order: seq<nat>, ids: set<nat>) {
    forall id :: id in order <==> id in ids
  }

  /** An order in which to serve the streams that have something queued. */
  ghost predicate IsOrder(c: Conn, order: seq<nat>) {
    Distinct(order) && Lists(order, Queued(c))
  }

  ghost function FlushAll(c: Conn, order: seq<nat>): Outcome
    decreases |order|
  {
    if order == [] then Ok(c)
    else
      match FlushAndClose(c, order[0])
      case Err(e) => Err(e)
      case Ok(d) => FlushAll(d, order[1..])
  }

  // ---- Sending headers ----

  function ListTooLong(c: Conn, h: Headers): bool {
    c.remote.maxHeaderList.Some? && h.listSize > c.remote.maxHeaderList.value
  }

  /** Why a new stream may not be started now. */
  function StartError(c: Conn, h: Headers): Option<H2Error> {
    if !h.validRequest then Some(StreamFailed(ProtocolError))
    else if c.role.Server? then Some(ConnectionFailed(ProtocolError))
    else if c.phase.GoawayGot? then Some(ConnectionFailed(ProtocolError))
    else if c.remote.maxConcurrent.Some? && OpenCount(c) >= c.remote.maxConcurrent.value then
      Some(StreamFailed(RefusedStream))
    else if h.hasProtocol && !c.remote.enableConnect then Some(ConnectionFailed(ProtocolError))
    else if h.isWebTransport && !c.remote.wtEnabled then Some(ConnectionFailed(ProtocolError))
    else if ListTooLong(c, h) then Some(StreamFailed(ProtocolError))
    else if c.nextId > STREAM_ID_MAX then Some(StreamFailed(RefusedStream))
    else None
  }

  function StartStream(c: Conn, h: Headers, endStream: bool): Outcome {
    match StartError(c, h)
    case Some(e) => Err(e)
    case None =>
      var s := c.NewStream().(state := if endStream then HalfClosedLocal else Open,
                              verb := h.requestMethod,
                              hasProtocol := h.requestMethod.Some? && h.hasProtocol);
      Ok(c.(nextId := c.nextId + 2).Put(c.nextId, s).Emit(HeaderBlock(c.nextId, h, endStream)))
  }

  /** How many streams are not closed. */
  function OpenCount(c: Conn): nat {
    |set id | id in c.streams && !c.streams[id].state.Closed?|
  }

  ghost function SendResponse(c: Conn, id: nat, h: Headers, endStream: bool): Outcome {
    if id in c.streams && c.streams[id].connectEstablished then Err(StreamFailed(ProtocolError))
    else if !h.validResponse then Err(StreamFailed(ProtocolError))
    else if endStream && h.informational then Err(StreamFailed(ProtocolError))
    else if !h.informational && id in c.streams && c.streams[id].finalResponse then Err(StreamFailed(ProtocolError))
    else if ListTooLong(c, h) then Err(StreamFailed(ProtocolError))
    else if endStream && id in c.streams && c.streams[id].buffer != [] then Err(StreamFailed(StreamClosedError))
    else if id !in c.streams then Err(StreamFailed(StreamClosedError))
    else
      var s := c.streams[id];
      match s.state.SendHeaders(endStream)
      case None => Err(StreamFailed(StreamClosedError))
      case Some(next) =>
        var t := s.(state := next,
                    finalResponse := s.finalResponse || !h.informational,
                    connectEstablished := s.connectEstablished
                                          || (h.success && s.verb == Some(Connect) && !s.hasProtocol));
        Ok(EndIfClosed(c.Put(id, t).Emit(HeaderBlock(id, h, endStream)), id, endStream))
  }

  ghost function SendTrailers(c: Conn, id: nat, h: Headers): Outcome {
    if id in c.streams && c.streams[id].connectEstablished then Err(StreamFailed(ProtocolError))
    else if c.role.Server? && id in c.streams && !c.streams[id].finalResponse then Err(StreamFailed(ProtocolError))
    else if !h.validTrailers then Err(StreamFailed(ProtocolError))
    else if ListTooLong(c, h) then Err(StreamFailed(ProtocolError))
    else if id in c.streams && c.streams[id].buffer != [] then Err(StreamFailed(StreamClosedError))
    else if id !in c.streams then Err(StreamFailed(StreamClosedError))
    else
      match c.streams[id].state.SendHeaders(true)
      case None => Err(StreamFailed(StreamClosedError))
      case Some(next) =>
        Ok(EndIfClosed(c.Put(id, c.streams[id].(state := next)).Emit(HeaderBlock(id, h, true)), id, true))
  }

  /** Drops the stream when its end has just closed it. */
  ghost function EndIfClosed(c: Conn, id: nat, endStream: bool): (d: Conn)
    requires id in c.streams
    ensures d.role == c.role && d.nextId == c.nextId
  {
    if endStream && c.streams[id].state.Closed? then c.Queue(StreamClosed(id)).Drop(id) else c
  }

  // ---- Resets, credit, shutdown ----

  ghost function ResetStream(c: Conn, id: nat, code: ErrorCode): Outcome {
    if id == 0 then Err(ConnectionFailed(ProtocolError))
    else if c.IsIdle(id) then Err(StreamFailed(ProtocolError))
    else Ok(Reset(c, id, code, 0))
  }

  /** Resets a stream that is not idle; if it still exists it is dropped and the application told. */
  ghost function Reset(c: Conn, id: nat, code: ErrorCode, consumed: nat): (d: Conn)
    ensures d.role == c.role && d.nextId == c.nextId
  {
    var d := c.Emit(RstStream(id, code));
    if id in c.streams then d.Queue(StreamReset(id, code, consumed)).Drop(id) else d
  }

  function SendWindowUpdate(c: Conn, id: nat, increment: nat): Outcome {
    if increment == 0 then Err(ConnectionFailed(ProtocolError))
    else if increment > MAX_WINDOW then Err(ConnectionFailed(FlowControlError))
    else if id == 0 then
      if c.recvWindow + increment > MAX_WINDOW then Err(ConnectionFailed(FlowControlError))
      else Ok(c.(recvWindow := c.recvWindow + increment, refilled := c.refilled + increment).Emit(WindowUpdate(0, increment)))
    else if id in c.streams then
      if c.streams[id].recvWindow + increment > MAX_WINDOW then Err(ConnectionFailed(FlowControlError))
      else Ok(c.Put(id, c.streams[id].(recvWindow := c.streams[id].recvWindow + increment)).Emit(WindowUpdate(id, increment)))
    else Ok(c.Emit(WindowUpdate(id, increment)))
  }

  function SendGoaway(c: Conn, code: ErrorCode): Outcome {
    Ok(c.Emit(Goaway(code)).(phase := GoawaySent))
  }

  // ---- Receiving ----

  ghost function OnData(c: Conn, id: nat, data: seq<Byte>, pad: Option<nat>, endStream: bool): Outcome {
    var size := if pad.Some? then 1 + |data| + pad.value else |data|;
    if c.IsIdle(id) then Err(ConnectionFailed(ProtocolError))
    else if size > c.recvWindow then Err(ConnectionFailed(FlowControlError))
    else
      var d := c.(recvWindow := c.recvWindow - size, charged := c.charged + size);
      if id !in c.streams || c.streams[id].state.Closed? then
        Ok(if size > 0 then d.Queue(DataDiscarded(id, size)) else d)
      else Ok(AcceptData(d, id, data, size, endStream))
  }

  /** What data does to a stream that exists: it is delivered, or the stream is reset. */
  ghost function AcceptData(c: Conn, id: nat, data: seq<Byte>, size: nat, endStream: bool): Conn
    requires id in c.streams && |data| <= size
  {
    var s := c.streams[id];
    var next := s.state.ReceiveData(endStream);
    if next.None? then Reset(c, id, StreamClosedError, size)
    else if size > s.recvWindow then Reset(c, id, FlowControlError, size)
    else if s.noContent && data != [] then Reset(c, id, ProtocolError, size)
    else
      var received := s.received + |data|;
      if !s.noContent && s.expected.Some? && (received > s.expected.value || (endStream && received != s.expected.value)) then
        Reset(c, id, ProtocolError, size)
      else
        var t := s.(state := next.value, recvWindow := s.recvWindow - size, received := received);
        EndIfClosed(c.Put(id, t).(padding := c.padding + size - |data|).Queue(DataReceived(id, data, endStream)), id, endStream)
  }

  // ---- Header blocks ----

  /** Why a header block may not begin. */
  function HeadersError(c: Conn, id: nat): Option<H2Error> {
    var past := id in c.closed;
    var unknown := id !in c.streams;
    if id % 2 == 0 then Some(ConnectionFailed(ProtocolError))
    else if c.phase.GoawaySent? && id > c.lastRecv && unknown && !past then Some(ConnectionFailed(ProtocolError))
    else if !past && unknown && id <= c.lastRecv then Some(ConnectionFailed(ProtocolError))
    else None
  }

  /** What the first frame of a block does: the identifier has been seen, and what will refuse
      the block once it is whole is noted. */
  function Begin(c: Conn, id: nat): Conn {
    var past := id in c.closed;
    c.(lastRecv := if id > c.lastRecv then id else c.lastRecv,
       tunnelled := c.tunnelled || (!past && id in c.streams && c.streams[id].connectEstablished),
       refused := c.refused || (!past && id !in c.streams && c.local.maxConcurrent.Some?
                                && OpenCount(c) >= c.local.maxConcurrent.value))
  }

  /** What a block does once it is whole and decompressed. */
  ghost function Finish(c: Conn, id: nat, h: Headers, endStream: bool): (d: Conn)
    ensures d.role == c.role && d.nextId == c.nextId
  {
    if id in c.closed || (id in c.streams && c.streams[id].state.Closed?) then c.(tunnelled := false)
    else if c.refused then Reset(Ensure(c.(refused := false), id), id, RefusedStream, 0)
    else if c.tunnelled then Reset(c.(tunnelled := false), id, ProtocolError, 0)
    else ProcessHeaders(c, id, h, endStream)
  }

  /** A header block in one frame. */
  ghost function OnHeaders(c: Conn, id: nat, h: Headers, endStream: bool): Outcome {
    match HeadersError(c, id)
    case Some(e) => Err(e)
    case None => Ok(Finish(Begin(c, id), id, h, endStream))
  }

  /** The first frame of a block in several. */
  function OnFirstFrame(c: Conn, id: nat, endStream: bool): Outcome {
    match HeadersError(c, id)
    case Some(e) => Err(e)
    case None => Ok(Begin(c, id).(open := Some(Block(id, endStream, id !in c.streams && id !in c.closed))))
  }

  /** The last frame of a block in several; the frames between only add to the block. */
  ghost function OnLastFrame(c: Conn, h: Headers): Outcome {
    match c.open
    case None => Err(ConnectionFailed(ProtocolError))
    case Some(b) => Ok(Finish(c.(open := None), b.id, h, b.endStream))
  }

  function Ensure(c: Conn, id: nat): Conn {
    if id in c.streams then c else c.Put(id, c.NewStream())
  }

  /** A malformed block resets the stream, creating it first if need be. */
  ghost function RejectBlock(c: Conn, id: nat): (d: Conn)
    ensures d.role == c.role && d.nextId == c.nextId
  {
    Reset(Ensure(c, id), id, ProtocolError, 0)
  }

  ghost function ProcessHeaders(c: Conn, id: nat, h: Headers, endStream: bool): (d: Conn)
    ensures d.role == c.role && d.nextId == c.nextId
  {
    var initial := !(id in c.streams && c.streams[id].initialHeaders);
    if !h.hasPseudo then
      if initial || !h.validTrailers || !endStream then RejectBlock(c, id)
      else ProcessTrailers(Ensure(c, id), id, h)
    else if !initial then RejectBlock(c, id)
    else if c.role.Server? then ProcessRequest(c, id, h, endStream)
    else ProcessResponse(c, id, h, endStream)
  }

  ghost function ProcessTrailers(c: Conn, id: nat, h: Headers): (d: Conn)
    requires id in c.streams
    ensures d.role == c.role && d.nextId == c.nextId
  {
    match c.streams[id].state.ReceiveHeaders(true)
    case None => Reset(c, id, StreamClosedError, 0)
    case Some(next) =>
      EndIfClosed(c.Put(id, c.streams[id].(state := next)).Queue(TrailersReceived(id, h)), id, true)
  }

  function Declared(h: Headers): Option<nat> {
    if h.contentLength.Length? then Some(h.contentLength.n) else None
  }

  ghost function ProcessRequest(c: Conn, id: nat, h: Headers, endStream: bool): (d: Conn)
    ensures d.role == c.role && d.nextId == c.nextId
  {
    if !h.validRequest then RejectBlock(c, id)
    else if h.hasProtocol && !c.local.enableConnect then RejectBlock(c, id)
    else
      var d := Ensure(c, id);
      var s := if h.requestMethod.Some? then d.streams[id].(verb := h.requestMethod, hasProtocol := h.hasProtocol)
               else d.streams[id];
      TakeRequest(d, id, s, h, endStream)
  }

  /** A well-formed request for the stream record s. */
  ghost function TakeRequest(c: Conn, id: nat, s: Stream, h: Headers, endStream: bool): (d: Conn)
    ensures d.role == c.role && d.nextId == c.nextId
  {
    if h.contentLength.Malformed? then RejectBlock(c.Put(id, s), id)
    else
      match s.state.ReceiveHeaders(endStream)
      case None => Reset(c.Put(id, s), id, StreamClosedError, 0)
      case Some(next) =>
        var t := s.(state := next, expected := Declared(h), initialHeaders := true);
        if endStream && Declared(h).Some? && Declared(h).value != 0 then Reset(c.Put(id, t), id, ProtocolError, 0)
        else EndIfClosed(c.Put(id, t).Queue(HeadersReceived(id, h, endStream)), id, endStream)
  }

  ghost function ProcessResponse(c: Conn, id: nat, h: Headers, endStream: bool): (d: Conn)
    ensures d.role == c.role && d.nextId == c.nextId
  {
    if !h.validResponse then RejectBlock(c, id)
    else
      var known := id in c.streams;
      var d := Ensure(c, id);
      var s := d.streams[id];
      TakeResponse(d, id, s.(connectEstablished := s.connectEstablished
                                                   || (h.success && s.verb == Some(Connect) && !s.hasProtocol),
                             noContent := s.noContent || (known && (h.noContentStatus || s.verb == Some(Head)))),
                   h, endStream)
  }

  /** A well-formed response for the stream record s. */
  ghost function TakeResponse(c: Conn, id: nat, s: Stream, h: Headers, endStream: bool): (d: Conn)
    ensures d.role == c.role && d.nextId == c.nextId
  {
    if h.contentLength.Malformed? then RejectBlock(c.Put(id, s), id)
    else
      match s.state.ReceiveHeaders(endStream)
      case None => Reset(c.Put(id, s), id, StreamClosedError, 0)
      case Some(next) =>
        var t := s.(state := next, expected := Declared(h), initialHeaders := !h.informational);
        if h.informational && endStream then Reset(c.Put(id, t), id, ProtocolError, 0)
        else if endStream && Declared(h).Some? && Declared(h).value != 0
                && !h.noContentStatus && s.verb != Some(Head) then
          Reset(c.Put(id, t), id, ProtocolError, 0)
        else EndIfClosed(c.Put(id, t).Queue(HeadersReceived(id, h, endStream)), id, endStream)
  }

  ghost function OnRstStream(c: Conn, id: nat, code: ErrorCode): Outcome {
    if c.IsIdle(id) then Err(ConnectionFailed(ProtocolError))
    else if id in c.streams then Ok(c.Queue(StreamReset(id, code, 0)).Drop(id))
    else Ok(c)
  }

  /** A frame that is broken in itself resets its stream, wherever it comes. */
  ghost function OnBroken(c: Conn, id: nat, code: ErrorCode): Outcome {
    if c.IsIdle(id) then Err(ConnectionFailed(code)) else ResetStream(c, id, code)
  }

  ghost function OnWindowUpdate(c: Conn, id: nat, increment: nat, order: seq<nat>): Outcome {
    if id == 0 then
      if c.sendWindow + increment > MAX_WINDOW then Err(ConnectionFailed(FlowControlError))
      else
        match FlushAll(c.(sendWindow := c.sendWindow + increment, granted := c.granted + increment), order)
        case Err(e) => Err(e)
        case Ok(d) => Ok(d.Queue(WindowUpdateReceived(0, increment)))
    else if c.IsIdle(id) then Err(ConnectionFailed(ProtocolError))
    else if id !in c.streams then Ok(c.Queue(WindowUpdateReceived(id, increment)))
    else if c.streams[id].state.Closed? then Ok(c)
    else
      var s := c.streams[id];
      if s.sendWindow + increment > MAX_WINDOW then Ok(Reset(c, id, FlowControlError, 0))
      else
        match FlushAndClose(c.Put(id, s.(sendWindow := s.sendWindow + increment, granted := s.granted + increment)), id)
        case Err(e) => Err(e)
        case Ok(d) => Ok(d.Queue(WindowUpdateReceived(id, increment)))
  }

  /** New initial window of every stream, by the difference. */
  function Shift(s: Stream, initial: nat): Stream {
    s.(sendWindow := s.sendWindow + initial - s.sendInitial, sendInitial := initial)
  }

  function ShiftAll(c: Conn, initial: nat): Conn {
    c.(streams := map id | id in c.streams :: Shift(c.streams[id], initial))
  }

  /** No stream's send window overflows under the new initial window. */
  predicate AllFit(streams: map<nat, Stream>, initial: nat) {
    forall id :: id in streams ==> Shift(streams[id], initial).sendWindow <= MAX_WINDOW
  }

  /** Takes over the peer's settings and moves every stream's send window. */
  function Reconfigure(c: Conn, settings: Settings): Outcome {
    var d := c.(remote := settings);
    if settings.initialWindow == c.remote.initialWindow then Ok(d)
    else if !AllFit(c.streams, settings.initialWindow) then Err(ConnectionFailed(FlowControlError))
    else Ok(ShiftAll(d, settings.initialWindow))
  }

  ghost function OnSettings(c: Conn, settings: Settings, order: seq<nat>): Outcome {
    match Reconfigure(c, settings)
    case Err(e) => Err(e)
    case Ok(d) => Acknowledge(d, order)
  }

  /** Acknowledges the settings before sending what they let out. */
  ghost function Acknowledge(c: Conn, order: seq<nat>): Outcome {
    match FlushAll(c.Emit(SettingsAck), order)
    case Err(e) => Err(e)
    case Ok(d) => Ok(d.Queue(SettingsReceived).(phase := if d.phase.Preface? then Active else d.phase))
  }

  function OnGoaway(c: Conn, code: ErrorCode): Outcome {
    Ok(c.(phase := GoawayGot).Queue(GoawayReceived(code)))
  }

  /** A frame of unknown type resets an established tunnel and is ignored elsewhere. */
  ghost function OnUnknown(c: Conn, id: nat): Outcome {
    if id in c.streams && c.streams[id].connectEstablished then Ok(Reset(c, id, ProtocolError, 0)) else Ok(c)
  }
}
