/** Receiving keeps the invariant of a connection. */
module H2Receiving {
  import opened Base
  import opened H2Types
  import opened H2History
  import opened H2Connection
  import opened H2Invariant
  import opened H2Sending

  // ---- DATA ----

  /** Octets are charged to the connection before anything else is decided. */
  ghost function Charge(c: Conn, size: nat): Conn {
    c.(recvWindow := c.recvWindow - size, charged := c.charged + size)
  }

  lemma ChargeKeeps(c: Conn, size: nat)
    requires Core(c, 0) && size <= c.recvWindow
    ensures Core(Charge(c, size), size)
  {
    hide FactsOf, Orderly, BodiesFit, TotalOut, Reported;
    forall id: nat ensures StreamOk(Charge(c, size), id) {
      assert StreamOk(c, id);
    }
  }

  lemma DiscardKeeps(c: Conn, id: nat, size: nat)
    requires Core(c, size)
    ensures Core(c.Queue(DataDiscarded(id, size)), 0)
  {
    hide FactsOf, Orderly, BodiesFit, TotalOut, Reported;
    var e := DataDiscarded(id, size);
    assert StreamOk(c, id);
    QueueFacts(c.wire, c.log, c.sends, e, id);
    StepKeeps(c, c.Queue(e), id, None, Some(e), size, 0);
  }

  /** The state in which accepted data leaves a stream. */
  ghost function Deliver(c: Conn, id: nat, data: seq<Byte>, size: nat, endStream: bool): Conn
    requires id in c.streams && |data| <= size && c.streams[id].state.ReceiveData(endStream).Some?
  {
    var s := c.streams[id];
    c.Put(id, s.(state := s.state.ReceiveData(endStream).value, recvWindow := s.recvWindow - size,
                 received := s.received + |data|))
     .(padding := c.padding + size - |data|).Queue(DataReceived(id, data, endStream))
  }

  lemma DeliverKeeps(c: Conn, id: nat, data: seq<Byte>, size: nat, endStream: bool)
    requires Core(c, size) && id in c.streams && |data| <= size
    requires c.streams[id].state.ReceiveData(endStream).Some? && size <= c.streams[id].recvWindow
    requires c.role.Server? && c.streams[id].expected.Some? ==>
               var n := c.streams[id].expected.value;
               c.streams[id].received + |data| <= n && (endStream ==> c.streams[id].received + |data| == n)
    ensures Core(Deliver(c, id, data, size, endStream), 0)
  {
    hide FactsOf, Orderly, BodiesFit, TotalOut, Reported;
    var d := Deliver(c, id, data, size, endStream);
    var e := DataReceived(id, data, endStream);
    assert StreamOk(c, id);
    QueueFacts(c.wire, c.log, c.sends, e, id);
    FactsFit(c, id, data, endStream);
    assert d.streams - {id} == c.streams - {id};
    StepKeeps(c, d, id, None, Some(e), size, 0);
  }

  lemma FactsFit(c: Conn, id: nat, data: seq<Byte>, endStream: bool)
    requires StreamOk(c, id) && id in c.streams
    requires c.role.Server? && c.streams[id].expected.Some? ==>
               var n := c.streams[id].expected.value;
               c.streams[id].received + |data| <= n && (endStream ==> c.streams[id].received + |data| == n)
    ensures c.role.Server? ==> FitsDeclared(c.log, DataReceived(id, data, endStream))
  {
  }

  /** A stream that received something, or is new, and is dropped if that closed it. */
  lemma ReceivedSettles(c: Conn, d: Conn, id: nat, endStream: bool)
    requires Calm(c) && WithinLimit(d) && Core(d, 0) && id in d.streams
    requires d.streams[id].state.Closed? ==> endStream
    requires d.streams - {id} == c.streams - {id} && d.sendWindow == c.sendWindow
    requires if id in c.streams then d.streams[id].buffer == c.streams[id].buffer
                                     && d.streams[id].pendingEnd == c.streams[id].pendingEnd
                                     && d.streams[id].sendWindow == c.streams[id].sendWindow
             else d.streams[id].buffer == [] && !d.streams[id].pendingEnd
    ensures Inv(EndIfClosed(d, id, endStream))
  {
    hide Core, WithinLimit, Remember, CalmStream;
    var e := EndIfClosed(d, id, endStream);
    if e != d {
      CloseKeeps(d, id);
      SameKeys(d, e, id);
      FewerStreams(d, e);
    }
    forall other | other in e.streams ensures CalmStream(e, e.streams[other]) {
      ReceivedCalm(c, d, e, id, other);
    }
  }

  lemma ReceivedCalm(c: Conn, d: Conn, e: Conn, id: nat, other: nat)
    requires Calm(c) && d.streams - {id} == c.streams - {id} && d.sendWindow == c.sendWindow
    requires other in e.streams && other in d.streams && e.streams[other] == d.streams[other] && e.sendWindow == d.sendWindow
    requires other == id ==> !d.streams[id].state.Closed?
    requires other == id ==>
               if id in c.streams then d.streams[id].buffer == c.streams[id].buffer
                                       && d.streams[id].pendingEnd == c.streams[id].pendingEnd
                                       && d.streams[id].sendWindow == c.streams[id].sendWindow
               else d.streams[id].buffer == [] && !d.streams[id].pendingEnd
    ensures CalmStream(e, e.streams[other])
  {
    if other != id {
      assert other in d.streams - {id} && (d.streams - {id})[other] == d.streams[other];
      assert (c.streams - {id})[other] == c.streams[other];
    }
  }

  lemma SameLimit(c: Conn, d: Conn)
    requires WithinLimit(c) && d.role == c.role && d.local == c.local && d.streams.Keys == c.streams.Keys
    requires Reserved(d) <= Reserved(c)
    ensures WithinLimit(d)
  {
    FewerStreams(c, d);
  }

  lemma AcceptDataKeeps(c: Conn, id: nat, data: seq<Byte>, size: nat, endStream: bool)
    requires Core(c, size) && Calm(c) && WithinLimit(c) && id in c.streams && |data| <= size
    ensures Inv(AcceptData(c, id, data, size, endStream))
  {
    hide Core, CalmStream, Reset, EndIfClosed, WithinLimit;
    var s := c.streams[id];
    if s.state.ReceiveData(endStream).Some? && size <= s.recvWindow && !(s.noContent && data != [])
       && (s.noContent || s.expected.None?
           || (s.received + |data| <= s.expected.value && (endStream ==> s.received + |data| == s.expected.value))) {
      ServerHasContent(c, size, id);
      DeliverKeeps(c, id, data, size, endStream);
      var d := Deliver(c, id, data, size, endStream);
      assert d.streams - {id} == c.streams - {id};
      assert d.streams.Keys == c.streams.Keys;
      SameLimit(c, d);
      ReceivedSettles(c, d, id, endStream);
    } else {
      Resets(c, id, StreamClosedError, size);
      Resets(c, id, FlowControlError, size);
      Resets(c, id, ProtocolError, size);
    }
  }

  lemma ServerHasContent(c: Conn, size: nat, id: nat)
    requires Core(c, size) && id in c.streams
    ensures c.role.Server? ==> !c.streams[id].noContent && c.streams[id].initialHeaders
  {
    hide FactsOf, Orderly, BodiesFit, TotalOut, Reported;
    assert StreamOk(c, id);
  }

  lemma OnDataKeeps(c: Conn, id: nat, data: seq<Byte>, pad: Option<nat>, endStream: bool)
    requires Inv(c)
    ensures OnData(c, id, data, pad, endStream).Ok? ==> Inv(OnData(c, id, data, pad, endStream).value)
  {
    hide Core, CalmStream, AcceptData, WithinLimit;
    var size := if pad.Some? then 1 + |data| + pad.value else |data|;
    if !c.IsIdle(id) && size <= c.recvWindow {
      var d := Charge(c, size);
      ChargeKeeps(c, size);
      ChargeStaysCalm(c, size);
      if id !in c.streams || c.streams[id].state.Closed? {
        if size > 0 {
          DiscardKeeps(d, id, size);
        }
        QueueStaysCalm(d, d.Queue(DataDiscarded(id, size)));
      } else {
        AcceptDataKeeps(d, id, data, size, endStream);
      }
    }
  }

  lemma ChargeStaysCalm(c: Conn, size: nat)
    requires Calm(c) && WithinLimit(c)
    ensures Calm(Charge(c, size)) && WithinLimit(Charge(c, size))
  {
  }

  lemma QueueStaysCalm(c: Conn, d: Conn)
    requires Calm(c) && WithinLimit(c) && d == c.(log := d.log, phase := d.phase, lastRecv := d.lastRecv)
    ensures Calm(d) && WithinLimit(d)
  {
  }

  // ---- Header blocks ----

  /** The peer has been seen to use the identifier. */
  ghost function Seen(c: Conn, id: nat): Conn {
    c.(lastRecv := if id > c.lastRecv then id else c.lastRecv)
  }

  /** A block that arrives changes nothing by itself. */
  lemma ArrivalKeeps(c: Conn, d: Conn, id: nat)
    requires Inv(c) && Arrives(c, d, id) && (d.role.Client? ==> d.lastRecv < d.nextId)
    ensures Inv(d)
  {
    hide FactsOf, Orderly, BodiesFit, TotalOut, Reported, SendingOk, ReceivingOk;
    forall other: nat ensures StreamOk(d, other) {
      ArrivalKeepsStream(c, d, id, other);
    }
  }

  lemma ArrivalKeepsStream(c: Conn, d: Conn, id: nat, other: nat)
    requires StreamOk(c, other) && Arrives(c, d, id)
    ensures StreamOk(d, other)
  {
    hide FactsOf;
  }

  lemma KnownIsBelowCounter(c: Conn, id: nat)
    requires Inv(c) && c.role.Client? && (id in c.streams || id in c.closed)
    ensures id < c.nextId
  {
    hide FactsOf;
    assert StreamOk(c, id);
  }

  /** Resetting a stream forgets whatever its record was about to become. */
  lemma ResetForgets(c: Conn, id: nat, s: Stream, code: ErrorCode)
    ensures Reset(c.Put(id, s), id, code, 0) == Reset(Ensure(c, id), id, code, 0)
  {
    assert c.streams[id := s] - {id} == Ensure(c, id).streams - {id};
  }

  lemma RefuseInv(c: Conn, d: Conn, id: nat, code: ErrorCode)
    requires Inv(c) && id !in c.streams && Unused(c, id) && c.role.Server? && Arrives(c, d, id)
    ensures Inv(Reset(Ensure(d, id), id, code, 0))
  {
    hide Core, Remember;
    RefuseKeeps(c, d, id, code);
    var r := Reset(Ensure(d, id), id, code, 0);
    assert r.streams == c.streams;
  }

  /** The state in which an accepted header section leaves a stream. */
  ghost function Take(c: Conn, id: nat, s: Stream, e: Event): Conn {
    c.Put(id, s).Queue(e)
  }

  /** A server's new stream. */
  lemma TakeNewKeeps(c: Conn, arrived: Conn, id: nat, h: Headers, endStream: bool, s: Stream)
    requires Inv(c) && id !in c.streams && Unused(c, id) && c.role.Server? && Arrives(c, arrived, id)
    requires s == c.NewStream().(state := if endStream then HalfClosedRemote else Open, expected := Declared(h),
                                 initialHeaders := true, verb := s.verb, hasProtocol := s.hasProtocol)
    requires endStream && Declared(h).Some? ==> Declared(h).value == 0
    requires c.local.maxConcurrent.Some? ==> |c.streams| < c.local.maxConcurrent.value
    ensures Inv(Take(arrived, id, s, HeadersReceived(id, h, endStream)))
  {
    hide FactsOf, Orderly, BodiesFit, TotalOut, Reported, StreamOk, Calm, WithinLimit;
    var e := HeadersReceived(id, h, endStream);
    var d := Take(arrived, id, s, e);
    assert StreamOk(c, id);
    NewStreamOk(c, arrived, id, h, endStream, s);
    NewStreamIsCalm(c, d, id);
    NewFits(c, e);
    assert d.streams - {id} == c.streams - {id};
    StepKeeps(c, d, id, None, Some(e), 0, 0);
  }

  lemma NewStreamOk(c: Conn, arrived: Conn, id: nat, h: Headers, endStream: bool, s: Stream)
    requires StreamOk(c, id) && id !in c.streams && Unused(c, id) && c.role.Server? && Arrives(c, arrived, id)
    requires c.remote.Valid() && c.local.Valid()
    requires s == c.NewStream().(state := if endStream then HalfClosedRemote else Open, expected := Declared(h),
                                 initialHeaders := true, verb := s.verb, hasProtocol := s.hasProtocol)
    ensures StreamOk(Take(arrived, id, s, HeadersReceived(id, h, endStream)), id)
  {
    hide FactsOf;
    QueueFacts(c.wire, c.log, c.sends, HeadersReceived(id, h, endStream), id);
  }

  lemma NewStreamIsCalm(c: Conn, d: Conn, id: nat)
    requires Calm(c) && id !in c.streams && id in d.streams && d.streams == c.streams[id := d.streams[id]]
    requires CalmStream(d, d.streams[id]) && d.sendWindow == c.sendWindow
    requires d.role == c.role && d.local == c.local && d.open.None?
    requires c.role.Server? && c.local.maxConcurrent.Some? ==> |c.streams| < c.local.maxConcurrent.value
    ensures Calm(d) && WithinLimit(d)
  {
  }

  lemma NewFits(c: Conn, e: Event)
    requires e.HeadersReceived? && (e.endStream && Declared(e.headers).Some? ==> Declared(e.headers).value == 0)
    ensures FitsDeclared(c.log, e)
  {
  }

  lemma AllOpen(c: Conn)
    requires Calm(c)
    ensures OpenCount(c) == |c.streams|
  {
    assert (set id | id in c.streams && !c.streams[id].state.Closed?) == c.streams.Keys;
    assert |c.streams| == |c.streams.Keys|;
  }

  lemma NewRequestKeeps(c: Conn, d: Conn, id: nat, h: Headers, endStream: bool)
    requires Inv(c) && id !in c.streams && Unused(c, id) && c.role.Server? && Arrives(c, d, id)
    requires c.local.maxConcurrent.Some? ==> |c.streams| < c.local.maxConcurrent.value
    ensures Inv(ProcessHeaders(d, id, h, endStream))
  {
    hide Core, Reset, CalmStream, WithinLimit;
    RefuseInv(c, d, id, ProtocolError);
    if h.hasPseudo && h.validRequest && !(h.hasProtocol && !c.local.enableConnect) {
      var n := c.NewStream();
      var s := if h.requestMethod.Some? then n.(verb := h.requestMethod, hasProtocol := h.hasProtocol) else n;
      var t := s.(state := if endStream then HalfClosedRemote else Open, expected := Declared(h), initialHeaders := true);
      EnsureTwice(d, id, s);
      ResetForgets(d, id, s, ProtocolError);
      ResetForgets(d, id, t, ProtocolError);
      if !h.contentLength.Malformed? && !(endStream && Declared(h).Some? && Declared(h).value != 0) {
        TakeNewKeeps(c, d, id, h, endStream, t);
      }
    }
  }

  /** Putting a record twice leaves the second. */
  lemma EnsureTwice(c: Conn, id: nat, s: Stream)
    ensures Ensure(c.Put(id, s), id) == c.Put(id, s)
    ensures forall t :: Ensure(c, id).Put(id, t) == c.Put(id, t)
  {
    forall t ensures Ensure(c, id).Put(id, t) == c.Put(id, t) {
      assert Ensure(c, id).streams[id := t] == c.streams[id := t];
    }
  }

  /** A stream that exists takes trailers, or on a client a response. */
  lemma TakeKeeps(c: Conn, id: nat, s: Stream, e: Event, endStream: bool)
    requires Inv(c) && id in c.streams && c.streams[id].state.ReceiveHeaders(endStream).Some?
    requires s == c.streams[id].(state := c.streams[id].state.ReceiveHeaders(endStream).value, expected := s.expected,
                                 initialHeaders := s.initialHeaders, connectEstablished := s.connectEstablished,
                                 noContent := s.noContent)
    requires (e.TrailersReceived? && endStream) || (e.HeadersReceived? && c.role.Client?)
    requires e.id == id
    requires c.role.Server? ==> s == c.streams[id].(state := s.state)
    ensures Inv(EndIfClosed(Take(c, id, s, e), id, endStream))
  {
    hide FactsOf, Orderly, BodiesFit, TotalOut, Reported, WithinLimit, EndIfClosed;
    var d := Take(c, id, s, e);
    assert StreamOk(c, id) && CalmStream(c, c.streams[id]);
    QueueFacts(c.wire, c.log, c.sends, e, id);
    assert d.streams - {id} == c.streams - {id};
    assert d.streams.Keys == c.streams.Keys;
    StepKeeps(c, d, id, None, Some(e), 0, 0);
    SameLimit(c, d);
    ReceivedSettles(c, d, id, endStream);
  }

  /** Any header block on a stream that exists. */
  lemma KnownKeeps(c: Conn, id: nat, h: Headers, endStream: bool)
    requires Inv(c) && id in c.streams
    ensures Inv(ProcessHeaders(c, id, h, endStream))
  {
    hide Core, Reset, CalmStream, WithinLimit, EndIfClosed, ProcessResponse;
    ServerHasContent(c, 0, id);
    Resets(c, id, ProtocolError, 0);
    Resets(c, id, StreamClosedError, 0);
    var s := c.streams[id];
    if !h.hasPseudo && s.state.ReceiveHeaders(true).Some? {
      TakeKeeps(c, id, s.(state := s.state.ReceiveHeaders(true).value), TrailersReceived(id, h), true);
    }
    if c.role.Client? {
      ResponseKeeps(c, id, h, endStream);
    }
  }

  lemma ResponseKeeps(c: Conn, id: nat, h: Headers, endStream: bool)
    requires Inv(c) && id in c.streams && c.role.Client?
    ensures Inv(ProcessResponse(c, id, h, endStream))
  {
    hide Inv, Reset, TakeResponse;
    RejectKeeps(c, id);
    var s := c.streams[id];
    TakeResponseKeeps(c, id, s.(connectEstablished := s.connectEstablished
                                                      || (h.success && s.verb == Some(Connect) && !s.hasProtocol),
                                noContent := s.noContent || h.noContentStatus || s.verb == Some(Head)),
                      h, endStream);
  }

  lemma RejectKeeps(c: Conn, id: nat)
    requires Inv(c) && id in c.streams
    ensures Inv(RejectBlock(c, id))
  {
    hide Core, Reset, CalmStream, WithinLimit;
    Resets(c, id, ProtocolError, 0);
  }

  lemma TakeResponseKeeps(c: Conn, id: nat, s: Stream, h: Headers, endStream: bool)
    requires Inv(c) && id in c.streams && c.role.Client?
    requires s == c.streams[id].(connectEstablished := s.connectEstablished, noContent := s.noContent)
    ensures Inv(TakeResponse(c, id, s, h, endStream))
  {
    hide Inv, Reset, EndIfClosed;
    ResetAnyRecord(c, id, s, ProtocolError);
    ResetAnyRecord(c, id, s, StreamClosedError);
    if s.state.ReceiveHeaders(endStream).Some? {
      var t := s.(state := s.state.ReceiveHeaders(endStream).value, expected := Declared(h),
                  initialHeaders := !h.informational);
      ResetAnyRecord(c, id, t, ProtocolError);
      TakeKeeps(c, id, t, HeadersReceived(id, h, endStream), endStream);
    }
  }

  lemma ResetAnyRecord(c: Conn, id: nat, s: Stream, code: ErrorCode)
    requires Inv(c) && id in c.streams
    ensures Inv(Reset(c.Put(id, s), id, code, 0))
    ensures Ensure(c.Put(id, s), id) == c.Put(id, s)
  {
    hide Core, Reset, CalmStream, WithinLimit;
    ResetForgets(c, id, s, code);
    Resets(c, id, code, 0);
  }

  /** A client relies on the peer to answer only on streams the client opened. */
  predicate Solicited(c: Conn, id: nat) {
    c.role.Client? ==> id in c.streams || id in c.closed
  }

  lemma OnHeadersKeeps(c: Conn, id: nat, h: Headers, endStream: bool)
    requires Inv(c) && c.open.None? && Solicited(c, id)
    ensures OnHeaders(c, id, h, endStream).Ok? ==> Inv(OnHeaders(c, id, h, endStream).value)
  {
    hide Core, Reset, CalmStream, WithinLimit, ProcessHeaders, OpenCount, Ensure;
    if HeadersError(c, id).None? {
      FlagsAreDown(c);
      var d := Begin(c, id);
      if id in c.streams || id in c.closed {
        KnownFinishKeeps(c, d, id, h, endStream);
      } else {
        NewFinishKeeps(c, d, id, h, endStream);
      }
    }
  }

  lemma FlagsAreDown(c: Conn)
    requires Inv(c)
    ensures BlockOk(c)
  {
    hide StreamOk, CreditOk;
  }

  /** A whole block on a stream that is live or remembered. */
  lemma KnownFinishKeeps(c: Conn, d: Conn, id: nat, h: Headers, endStream: bool)
    requires Inv(c) && (id in c.streams || id in c.closed)
    requires d == c.(lastRecv := d.lastRecv, open := None, tunnelled := d.tunnelled) && !d.refused
    requires c.lastRecv <= d.lastRecv && id <= d.lastRecv && d.lastRecv <= if id > c.lastRecv then id else c.lastRecv
    ensures Inv(Finish(d, id, h, endStream))
  {
    hide Core, Reset, CalmStream, WithinLimit, ProcessHeaders;
    var e := d.(tunnelled := false);
    CounterIsAbove(c);
    if c.role.Client? {
      KnownIsBelowCounter(c, id);
    }
    ArrivalKeeps(c, e, id);
    KnownIsNotIdle(c, id);
    if id in c.streams {
      KnownKeeps(e, id, h, endStream);
      Resets(e, id, ProtocolError, 0);
    }
  }

  lemma CounterIsAbove(c: Conn)
    requires Inv(c)
    ensures c.role.Client? ==> c.lastRecv < c.nextId
  {
    hide StreamOk, CreditOk;
  }

  /** A stream is not both live and remembered. */
  lemma KnownIsNotIdle(c: Conn, id: nat)
    requires Inv(c)
    ensures !(id in c.streams && id in c.closed)
  {
    hide FactsOf;
    assert StreamOk(c, id);
  }

  /** A whole block that opens a stream on a server, or is refused. */
  lemma NewFinishKeeps(c: Conn, d: Conn, id: nat, h: Headers, endStream: bool)
    requires Inv(c) && id !in c.streams && id !in c.closed && c.role.Server? && Unused(c, id)
    requires d == c.(lastRecv := d.lastRecv, open := None, tunnelled := false, refused := d.refused)
    requires c.lastRecv <= d.lastRecv && id <= d.lastRecv
    requires !d.refused && c.local.maxConcurrent.Some? ==>
               OpenCount(c) < c.local.maxConcurrent.value || (UnderWay(c, id) && !c.refused)
    ensures Inv(Finish(d, id, h, endStream))
  {
    hide Core, Reset, CalmStream, ProcessHeaders, OpenCount;
    var e := d.(refused := false);
    if d.refused {
      RefuseInv(c, e, id, RefusedStream);
    } else {
      AllOpen(c);
      NewRequestKeeps(c, d, id, h, endStream);
    }
  }

  /** The first frame of a block in several. */
  lemma OnFirstFrameKeeps(c: Conn, id: nat, endStream: bool)
    requires Inv(c) && c.open.None? && Solicited(c, id)
    ensures OnFirstFrame(c, id, endStream).Ok? ==> Inv(OnFirstFrame(c, id, endStream).value)
  {
    hide FactsOf, Orderly, BodiesFit, TotalOut, Reported, SendingOk, ReceivingOk, OpenCount;
    if HeadersError(c, id).None? {
      FlagsAreDown(c);
      AllOpen(c);
      if c.role.Client? {
        KnownIsBelowCounter(c, id);
      }
      var d := OnFirstFrame(c, id, endStream).value;
      forall other: nat ensures StreamOk(d, other) {
        BeginKeepsStream(c, id, endStream, other);
      }
    }
  }

  lemma BeginKeepsStream(c: Conn, id: nat, endStream: bool, other: nat)
    requires Inv(c) && c.open.None? && HeadersError(c, id).None? && Solicited(c, id)
    ensures StreamOk(OnFirstFrame(c, id, endStream).value, other)
  {
    hide FactsOf, OpenCount;
    assert StreamOk(c, other) && StreamOk(c, id);
  }

  /** The stream that a block under way belongs to has not been forgotten since it began. */
  predicate Remembers(c: Conn) {
    c.open.Some? && !c.open.value.isNew ==> c.open.value.id in c.streams || c.open.value.id in c.closed
  }

  /** The last frame of a block in several. */
  lemma OnLastFrameKeeps(c: Conn, h: Headers)
    requires Inv(c) && Remembers(c)
    ensures OnLastFrame(c, h).Ok? ==> Inv(OnLastFrame(c, h).value)
  {
    hide Core, Reset, CalmStream, ProcessHeaders, Finish, OpenCount;
    if c.open.Some? {
      var b := c.open.value;
      var d := c.(open := None);
      FlagsAreDown(c);
      if b.isNew {
        UnderWayIsNew(c, b.id);
        NewFinishKeeps(c, d, b.id, h, b.endStream);
      } else {
        KnownFinishKeeps(c, d, b.id, h, b.endStream);
      }
    }
  }

  /** A broken frame resets its stream; so it must not be that of a stream under way. */
  lemma OnBrokenKeeps(c: Conn, id: nat, code: ErrorCode)
    requires Inv(c) && OnBroken(c, id, code).Ok?
    ensures Inv(OnBroken(c, id, code).value) <==> !UnderWay(c, id)
  {
    hide Inv, ResetStream;
    ResetStreamKeeps(c, id, code);
  }

  lemma OnUnknownKeeps(c: Conn, id: nat)
    requires Inv(c)
    ensures Inv(OnUnknown(c, id).value)
  {
    hide Core, Reset, CalmStream, WithinLimit;
    if id in c.streams {
      Resets(c, id, ProtocolError, 0);
    }
  }

  lemma OnRstStreamKeeps(c: Conn, id: nat, code: ErrorCode)
    requires Inv(c)
    ensures OnRstStream(c, id, code).Ok? ==> Inv(OnRstStream(c, id, code).value)
  {
    hide FactsOf, Orderly, BodiesFit, TotalOut, Reported, Remember, WithinLimit;
    if id in c.streams {
      var d := OnRstStream(c, id, code).value;
      var e := StreamReset(id, code, 0);
      assert StreamOk(c, id);
      QueueFacts(c.wire, c.log, c.sends, e, id);
      assert d.streams - {id} == c.streams - {id};
      StepKeeps(c, d, id, None, Some(e), 0, 0);
      SameKeys(c, d, id);
      FewerStreams(c, d);
    }
  }

  // ---- Credit and settings ----

  /** An event about no stream. */
  lemma NoteKeeps(c: Conn, e: Event)
    requires Inv(c) && (e.WindowUpdateReceived? || e.SettingsReceived? || e.GoawayReceived?)
    ensures Inv(c.Queue(e))
  {
    hide FactsOf, Orderly, BodiesFit, TotalOut, Reported;
    var d := c.Queue(e);
    assert StreamOk(c, 0);
    QueueFacts(c.wire, c.log, c.sends, e, 0);
    StepKeeps(c, d, 0, None, Some(e), 0, 0);
    QueueStaysCalm(c, d);
  }

  lemma PhaseKeeps(c: Conn, phase: Phase)
    requires Inv(c)
    ensures Inv(c.(phase := phase))
  {
    hide FactsOf, Orderly, BodiesFit, TotalOut, Reported;
    var d := c.(phase := phase);
    forall id: nat ensures StreamOk(d, id) {
      assert StreamOk(c, id);
    }
    QueueStaysCalm(c, d);
  }

  lemma OnGoawayKeeps(c: Conn, code: ErrorCode)
    requires Inv(c)
    ensures Inv(OnGoaway(c, code).value)
  {
    hide Inv;
    PhaseKeeps(c, GoawayGot);
    NoteKeeps(c.(phase := GoawayGot), GoawayReceived(code));
  }

  /** The order covers whatever could be waiting. */
  lemma OrderCovers(c: Conn, order: seq<nat>)
    requires IsOrder(c, order) && forall id :: id in c.streams ==> !c.streams[id].state.Closed?
    ensures forall id :: id in c.streams && id !in order ==> CalmStream(c, c.streams[id])
  {
    forall id | id in c.streams && id !in order ensures CalmStream(c, c.streams[id]) {
      assert id !in Queued(c);
    }
  }

  ghost function Grant(c: Conn, increment: nat): Conn {
    c.(sendWindow := c.sendWindow + increment, granted := c.granted + increment)
  }

  lemma GrantKeeps(c: Conn, increment: nat)
    requires Core(c, 0) && c.sendWindow + increment <= MAX_WINDOW
    ensures Core(Grant(c, increment), 0)
  {
    hide FactsOf, Orderly, BodiesFit, TotalOut, Reported;
    forall id: nat ensures StreamOk(Grant(c, increment), id) {
      assert StreamOk(c, id);
    }
  }

  lemma GrantStreamKeeps(c: Conn, id: nat, increment: nat)
    requires Core(c, 0) && id in c.streams && c.streams[id].sendWindow + increment <= MAX_WINDOW
    ensures var s := c.streams[id];
            Core(c.Put(id, s.(sendWindow := s.sendWindow + increment, granted := s.granted + increment)), 0)
  {
    hide FactsOf, Orderly, BodiesFit, TotalOut, Reported;
    var s := c.streams[id];
    var d := c.Put(id, s.(sendWindow := s.sendWindow + increment, granted := s.granted + increment));
    forall other: nat ensures StreamOk(d, other) {
      assert StreamOk(c, other);
    }
  }

  lemma FlushAllInv(c: Conn, order: seq<nat>)
    requires Core(c, 0) && WithinLimit(c) && IsOrder(c, order)
    requires forall id :: id in c.streams ==> !c.streams[id].state.Closed?
    ensures FlushAll(c, order).Ok? && Inv(FlushAll(c, order).value)
  {
    hide Core, FlushAll, WithinLimit, IsOrder;
    OrderCovers(c, order);
    FlushAllKeeps(c, order);
    FewerStreams(c, FlushAll(c, order).value);
  }

  lemma OnConnWindowKeeps(c: Conn, increment: nat, order: seq<nat>)
    requires Inv(c) && IsOrder(c, order)
    ensures OnWindowUpdate(c, 0, increment, order).Ok? ==> Inv(OnWindowUpdate(c, 0, increment, order).value)
    ensures OnWindowUpdate(c, 0, increment, order).Ok? <==> c.sendWindow + increment <= MAX_WINDOW
  {
    hide Core, FlushAll;
    if c.sendWindow + increment <= MAX_WINDOW {
      var d := Grant(c, increment);
      GrantKeeps(c, increment);
      assert Queued(d) == Queued(c);
      FlushAllInv(d, order);
      NoteKeeps(FlushAll(d, order).value, WindowUpdateReceived(0, increment));
    }
  }

  lemma OnStreamWindowKeeps(c: Conn, id: nat, increment: nat, order: seq<nat>)
    requires Inv(c) && id != 0
    ensures OnWindowUpdate(c, id, increment, order).Ok? ==> Inv(OnWindowUpdate(c, id, increment, order).value)
    ensures OnWindowUpdate(c, id, increment, order).Ok? <==> !c.IsIdle(id)
  {
    hide Core, FlushAndClose, Reset, CalmStream, WithinLimit;
    if id in c.streams {
      assert CalmStream(c, c.streams[id]);
      Resets(c, id, FlowControlError, 0);
      var s := c.streams[id];
      if s.sendWindow + increment <= MAX_WINDOW {
        var d := c.Put(id, s.(sendWindow := s.sendWindow + increment, granted := s.granted + increment));
        GrantStreamKeeps(c, id, increment);
        FlushAndCloseKeeps(d, id);
        assert d.streams - {id} == c.streams - {id} && d.streams.Keys == c.streams.Keys;
        SettlesKeepsInv(c, FlushAndClose(d, id).value, id);
        NoteKeeps(FlushAndClose(d, id).value, WindowUpdateReceived(id, increment));
      }
    } else {
      NoteKeeps(c, WindowUpdateReceived(id, increment));
    }
  }

  lemma ReconfigureKeeps(c: Conn, settings: Settings)
    requires Core(c, 0) && settings.Valid()
    ensures Reconfigure(c, settings).Ok? ==> Core(Reconfigure(c, settings).value, 0)
  {
    hide StreamOk, FactsOf, Orderly, BodiesFit, TotalOut, Reported;
    if Reconfigure(c, settings).Ok? {
      var d := Reconfigure(c, settings).value;
      forall id: nat ensures StreamOk(d, id) {
        ReconfigureKeepsStream(c, settings, id);
      }
    }
  }

  lemma ReconfigureKeepsStream(c: Conn, settings: Settings, id: nat)
    requires Core(c, 0) && settings.Valid() && Reconfigure(c, settings).Ok?
    ensures StreamOk(Reconfigure(c, settings).value, id)
  {
    hide FactsOf, Orderly, BodiesFit, TotalOut, Reported, SendingOk, ReceivingOk, Shift;
    assert StreamOk(c, id);
    if id in c.streams {
      ShiftKeeps(c, Reconfigure(c, settings).value, c.streams[id], Know(c, id));
    }
  }

  /** The windows of a stream follow a new initial window, and nothing else does. */
  lemma ShiftKeeps(c: Conn, d: Conn, s: Stream, x: Facts)
    requires SendingOk(c, s, x) && d.remote.Valid()
    ensures var t := Shift(s, d.remote.initialWindow);
            && (t.sendWindow <= MAX_WINDOW ==> SendingOk(d, t, x)) && s.sendWindow <= MAX_WINDOW
            && (ReceivingOk(s, x) ==> ReceivingOk(t, x))
            && (d.remote.initialWindow == c.remote.initialWindow ==> t == s)
  {
  }

  lemma AckKeeps(c: Conn)
    requires Core(c, 0)
    ensures Core(c.Emit(SettingsAck), 0)
  {
    hide FactsOf, Orderly, BodiesFit, TotalOut, Reported;
    assert StreamOk(c, 0);
    EmitFacts(c, SettingsAck, 0);
    StepKeeps(c, c.Emit(SettingsAck), 0, Some(SettingsAck), None, 0, 0);
  }

  lemma OnSettingsKeeps(c: Conn, settings: Settings, order: seq<nat>)
    requires Inv(c) && settings.Valid() && IsOrder(c, order)
    ensures OnSettings(c, settings, order).Ok? ==> Inv(OnSettings(c, settings, order).value)
    ensures OnSettings(c, settings, order).Ok? <==> Reconfigure(c, settings).Ok?
  {
    hide Core, FlushAll, Reconfigure, WithinLimit, Calm, IsOrder;
    if Reconfigure(c, settings).Ok? {
      var d := Reconfigure(c, settings).value.Emit(SettingsAck);
      ReconfigureKeeps(c, settings);
      AckKeeps(Reconfigure(c, settings).value);
      ReconfigureOrder(c, settings, order);
      FlushAllInv(d, order);
      var f := FlushAll(d, order).value;
      NoteKeeps(f, SettingsReceived);
      PhaseKeeps(f.Queue(SettingsReceived), if f.phase.Preface? then Active else f.phase);
    }
  }

  lemma ReconfigureOrder(c: Conn, settings: Settings, order: seq<nat>)
    requires Calm(c) && WithinLimit(c) && Reconfigure(c, settings).Ok?
    ensures IsOrder(Reconfigure(c, settings).value, order) <==> IsOrder(c, order)
    ensures var d := Reconfigure(c, settings).value.Emit(SettingsAck);
            && (IsOrder(d, order) <==> IsOrder(c, order)) && WithinLimit(d)
            && forall id :: id in d.streams ==> !d.streams[id].state.Closed?
  {
    var d := Reconfigure(c, settings).value.Emit(SettingsAck);
    assert d.streams.Keys == c.streams.Keys;
    assert Queued(d) == Queued(c);
    assert Queued(Reconfigure(c, settings).value) == Queued(c);
    FewerStreams(c, d);
  }
}
