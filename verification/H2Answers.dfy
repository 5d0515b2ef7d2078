/** How a connection answers what comes from the peer: which frames it takes, what it tells the
    application, and what it writes. */
module H2Answers {
  import opened Base
  import opened H2Types
  import opened H2History
  import opened H2Connection
  import opened H2Invariant
  import opened H2Sending
  import opened H2Receiving
  import opened H2Runs
  import opened H2Growth
  import opened H2Credit
  import opened H2Effects

  // ---- What is taken ----

  /** A stream takes something from the peer: the application is told, the peer's side ends if
      this is the end, and the stream is gone if that ended both sides. Nothing is written. */
  ghost predicate Takes(c: Conn, d: Conn, id: nat, e: Event, endStream: bool) {
    && d == c.(streams := d.streams, closed := d.closed, log := d.log)
    && d.streams - {id} == c.streams - {id}
    && (id !in d.streams <==> endStream && EndOut(c.wire, id))
    && d.log == c.log + [e] + (if id in d.streams then [] else [StreamClosed(id)])
    && d.closed == (if id in d.streams then c.closed else Remember(c.closed, id))
    && (id in d.streams ==> PeerEnded(d.streams[id]) == endStream && Ending(d, id) == Ending(c, id))
  }

  /** On a server a stream of the peer is idle exactly if the peer has not come to its identifier. */
  lemma IdleIsUnseen(c: Conn, id: nat)
    requires Inv(c) && c.role.Server? && id % 2 == 1
    ensures c.IsIdle(id) <==> id > c.lastRecv
  {
    hide FactsOf;
    assert StreamOk(c, id);
  }

  // ---- DATA ----

  /** The code of the reset that answers data a stream may not take now. */
  function DataCode(s: Stream, size: nat): ErrorCode {
    if PeerEnded(s) then StreamClosedError else if size > s.recvWindow then FlowControlError else ProtocolError
  }

  /** DATA fails the connection if and only if its stream is idle or it exceeds the connection's
      window. Otherwise all of it, padding included, is charged; on a stream that exists it is
      delivered or the stream is reset, and elsewhere it is discarded. */
  lemma OnDataDoes(c: Conn, id: nat, data: seq<Byte>, pad: Option<nat>, endStream: bool)
    requires Inv(c)
    ensures var size := |data| + Overhead(pad);
            var r := OnData(c, id, data, pad, endStream);
            && (r.Err? <==> c.IsIdle(id) || size > c.recvWindow)
            && (r.Err? ==> r.error == ConnectionFailed(if c.IsIdle(id) then ProtocolError else FlowControlError))
            && (r.Ok? && id !in c.streams ==>
                  r.value == Charge(c, size).(log := c.log + if size > 0 then [DataDiscarded(id, size)] else []))
            && (r.Ok? && id in c.streams && !Delivers(c, id, data, pad, endStream) ==>
                  Aborts(Charge(c, size), r.value, id, DataCode(c.streams[id], size), size))
    ensures var size := |data| + Overhead(pad);
            var r := OnData(c, id, data, pad, endStream);
            r.Ok? && Delivers(c, id, data, pad, endStream) ==>
              && !PeerEnded(c.streams[id])
              && Takes(Charge(c, size).(padding := c.padding + Overhead(pad)), r.value, id,
                       DataReceived(id, data, endStream), endStream)
              && (id in r.value.streams ==>
                    r.value.streams[id] == c.streams[id].(state := r.value.streams[id].state,
                                                          recvWindow := c.streams[id].recvWindow - size,
                                                          received := c.streams[id].received + |data|))
  {
    hide Core, WithinLimit, AcceptData, Delivers, Aborts, Takes, OnData, EndOut, Calm;
    var size := |data| + Overhead(pad);
    DataErrors(c, id, data, pad, endStream);
    if OnData(c, id, data, pad, endStream).Ok? {
      OnDataIs(c, id, data, pad, endStream);
      ChargeIsIrrelevant(c, size, id, data, pad, endStream);
      if id in c.streams {
        MaySend(c, id);
        AcceptDataDoes(Charge(c, size), id, data, pad, endStream);
      }
    }
  }

  lemma DataErrors(c: Conn, id: nat, data: seq<Byte>, pad: Option<nat>, endStream: bool)
    ensures var r := OnData(c, id, data, pad, endStream);
            && (r.Err? <==> c.IsIdle(id) || |data| + Overhead(pad) > c.recvWindow)
            && (r.Err? ==> r.error == ConnectionFailed(if c.IsIdle(id) then ProtocolError else FlowControlError))
  {
    hide AcceptData;
  }

  lemma AcceptDataDoes(c: Conn, id: nat, data: seq<Byte>, pad: Option<nat>, endStream: bool)
    requires id in c.streams && !c.streams[id].state.Idle?
    requires c.streams[id].state.CanSend() <==> !EndOut(c.wire, id)
    ensures var size := |data| + Overhead(pad);
            var d := AcceptData(c, id, data, size, endStream);
            if Delivers(c, id, data, pad, endStream) then
              && !PeerEnded(c.streams[id])
              && Takes(c.(padding := c.padding + Overhead(pad)), d, id, DataReceived(id, data, endStream), endStream)
              && (id in d.streams ==>
                    d.streams[id] == c.streams[id].(state := d.streams[id].state,
                                                    recvWindow := c.streams[id].recvWindow - size,
                                                    received := c.streams[id].received + |data|))
            else Aborts(c, d, id, DataCode(c.streams[id], size), size)
  {
    hide Aborts, Takes, Reset, EndIfClosed, EndOut, Delivers, AcceptData, DataCode;
    var size := |data| + Overhead(pad);
    AcceptDataIs(c, id, data, pad, endStream);
    ResetAborts(c, id, DataCode(c.streams[id], size), size);
    if Delivers(c, id, data, pad, endStream) {
      DeliveryTakes(c, id, data, size, endStream);
    }
  }

  lemma AcceptDataIs(c: Conn, id: nat, data: seq<Byte>, pad: Option<nat>, endStream: bool)
    requires id in c.streams && !c.streams[id].state.Idle?
    ensures var size := |data| + Overhead(pad);
            var s := c.streams[id];
            if Delivers(c, id, data, pad, endStream) then
              && s.state.ReceiveData(endStream).Some? && !PeerEnded(s)
              && AcceptData(c, id, data, size, endStream) == EndIfClosed(Deliver(c, id, data, size, endStream), id, endStream)
            else AcceptData(c, id, data, size, endStream) == Reset(c, id, DataCode(s, size), size)
  {
    hide Reset, EndIfClosed;
  }

  lemma DeliveryTakes(c: Conn, id: nat, data: seq<Byte>, size: nat, endStream: bool)
    requires id in c.streams && |data| <= size && c.streams[id].state.ReceiveData(endStream).Some?
    requires c.streams[id].state.CanSend() <==> !EndOut(c.wire, id)
    ensures var d := EndIfClosed(Deliver(c, id, data, size, endStream), id, endStream);
            && Takes(c.(padding := c.padding + size - |data|), d, id, DataReceived(id, data, endStream), endStream)
            && (id in d.streams ==> d.streams[id] == Deliver(c, id, data, size, endStream).streams[id])
  {
    hide Remember, EndOut;
    var d := Deliver(c, id, data, size, endStream);
    assert d.streams - {id} == c.streams - {id};
    assert EndIfClosed(d, id, endStream).streams - {id} == d.streams - {id};
    assert d.log + [] == d.log;
  }

  // ---- Header blocks ----

  /** A header block fails the connection if and only if its identifier is even, or new and either
      not above those seen or after a GOAWAY of this side. */
  lemma OnHeadersFails(c: Conn, id: nat, h: Headers, endStream: bool)
    ensures var r := OnHeaders(c, id, h, endStream);
            && (r.Err? <==> id % 2 == 0 || (id !in c.streams && id !in c.closed
                                            && (id <= c.lastRecv || c.phase.GoawaySent?)))
            && (r.Err? ==> r.error == ConnectionFailed(ProtocolError))
  {
    hide Finish, Begin;
  }

  /** A block on a stream that is gone and remembered changes nothing. */
  lemma PastIsIgnored(c: Conn, id: nat, h: Headers, endStream: bool)
    requires Inv(c) && c.open.None? && id in c.closed && OnHeaders(c, id, h, endStream).Ok?
    ensures OnHeaders(c, id, h, endStream).value == Seen(c, id)
  {
    hide StreamOk, CreditOk, Calm, WithinLimit, Orderly, BodiesFit, OpenCount;
  }

  /** A request that a server can take. */
  predicate Acceptable(c: Conn, h: Headers, endStream: bool) {
    && h.hasPseudo && h.validRequest && (h.hasProtocol ==> c.local.enableConnect)
    && !h.contentLength.Malformed? && (endStream && h.contentLength.Length? ==> h.contentLength.n == 0)
  }

  /** The record of a stream that a request has just opened. */
  predicate Opened(c: Conn, s: Stream, h: Headers, endStream: bool) {
    && s.state == (if endStream then HalfClosedRemote else Open)
    && s.sendWindow == s.sendInitial == c.remote.initialWindow && s.recvWindow == c.local.initialWindow
    && s.buffer == [] && !s.pendingEnd && s.granted == 0 && s.received == 0
    && s.initialHeaders && s.expected == (if h.contentLength.Length? then Some(h.contentLength.n) else None)
    && s.verb == h.requestMethod && s.hasProtocol == (h.requestMethod.Some? && h.hasProtocol)
    && !s.noContent && !s.finalResponse && !s.connectEstablished
  }

  /** On a server a block on a new identifier is refused if there are as many streams as it
      advertised, opens a stream if it is a request that the server can take, and is rejected
      otherwise; of a stream so refused only the reset remains. */
  lemma NewRequestDoes(c: Conn, id: nat, h: Headers, endStream: bool)
    requires Inv(c) && c.open.None? && c.role.Server? && id !in c.streams && id !in c.closed
    requires OnHeaders(c, id, h, endStream).Ok?
    ensures var d := OnHeaders(c, id, h, endStream).value;
            if c.local.maxConcurrent.Some? && |c.streams| >= c.local.maxConcurrent.value then
              LeavesReset(Seen(c, id), d, id, RefusedStream)
            else if !Acceptable(c, h, endStream) then LeavesReset(Seen(c, id), d, id, ProtocolError)
            else
              && Takes(Seen(c, id), d, id, HeadersReceived(id, h, endStream), endStream)
              && id in d.streams && Opened(c, d.streams[id], h, endStream)
  {
    hide Core, Calm, WithinLimit, OpenCount, Reset, Takes, LeavesReset, Opened, ProcessHeaders, Acceptable, Ensure;
    FlagsAreDown(c);
    AllOpen(c);
    var n := Seen(c, id);
    NewProcessDoes(n, id, h, endStream);
    RefusedLeavesReset(n, id, RefusedStream);
    RefusedLeavesReset(n, id, ProtocolError);
    NewHasNotEnded(c, id);
    AcceptableAnyway(c, n, id, h, endStream);
    if Acceptable(c, h, endStream) {
      OpeningTakes(n, id, h, endStream);
    }
  }

  /** Nothing but the reset remains: the peer and the application are told. */
  ghost predicate LeavesReset(c: Conn, d: Conn, id: nat, code: ErrorCode) {
    d == c.(closed := Remember(c.closed, id), wire := c.wire + [RstStream(id, code)],
            log := c.log + [StreamReset(id, code, 0)])
  }

  lemma RefusedLeavesReset(c: Conn, id: nat, code: ErrorCode)
    requires id !in c.streams
    ensures LeavesReset(c, Reset(Ensure(c, id), id, code, 0), id, code)
  {
    hide Remember;
    assert Ensure(c, id).streams - {id} == c.streams;
  }

  lemma NewHasNotEnded(c: Conn, id: nat)
    requires Inv(c) && id !in c.streams && id !in c.closed && c.open.None? && c.role.Server? && HeadersError(c, id).None?
    ensures !EndOut(c.wire, id)
  {
    hide DataOut, EndOut, ResetOut, DataAccepted, TraceOf, BodyLength, DeclaredLength, WasReset, TotalOut, Reported,
         Orderly, BodiesFit, OpenCount;
    assert StreamOk(c, id);
  }

  lemma AcceptableAnyway(c: Conn, n: Conn, id: nat, h: Headers, endStream: bool)
    requires n == Seen(c, id)
    ensures Acceptable(n, h, endStream) == Acceptable(c, h, endStream)
    ensures forall s :: Opened(n, s, h, endStream) == Opened(c, s, h, endStream)
    ensures EndOut(n.wire, id) == EndOut(c.wire, id)
  {
  }

  /** The record with which a request opens a stream. */
  ghost function OpeningRecord(c: Conn, h: Headers, endStream: bool): Stream {
    var n := c.NewStream();
    var s := if h.requestMethod.Some? then n.(verb := h.requestMethod, hasProtocol := h.hasProtocol) else n;
    s.(state := if endStream then HalfClosedRemote else Open, expected := Declared(h), initialHeaders := true)
  }

  lemma NewProcessDoes(c: Conn, id: nat, h: Headers, endStream: bool)
    requires c.role.Server? && id !in c.streams
    ensures ProcessHeaders(c, id, h, endStream)
         == if Acceptable(c, h, endStream) then Take(c, id, OpeningRecord(c, h, endStream), HeadersReceived(id, h, endStream))
            else Reset(Ensure(c, id), id, ProtocolError, 0)
  {
    hide Reset;
    var n := c.NewStream();
    var s := if h.requestMethod.Some? then n.(verb := h.requestMethod, hasProtocol := h.hasProtocol) else n;
    EnsureTwice(c, id, s);
    ResetForgets(c, id, s, ProtocolError);
    ResetForgets(c, id, OpeningRecord(c, h, endStream), ProtocolError);
  }

  lemma OpeningTakes(c: Conn, id: nat, h: Headers, endStream: bool)
    requires id !in c.streams && !EndOut(c.wire, id)
    ensures var e := HeadersReceived(id, h, endStream);
            var s := OpeningRecord(c, h, endStream);
            var d := Take(c, id, s, e);
            Takes(c, d, id, e, endStream) && id in d.streams && d.streams[id] == s && Opened(c, s, h, endStream)
  {
    hide EndOut, Remember;
    var e := HeadersReceived(id, h, endStream);
    var d := Take(c, id, OpeningRecord(c, h, endStream), e);
    assert d.streams - {id} == c.streams - {id};
    assert d.log + [] == d.log;
  }

  /** A block that follows the first on a stream is taken if and only if it is valid trailers, ends
      the stream, comes before the peer's end and on no tunnel; otherwise the stream is reset. */
  lemma LaterBlockDoes(c: Conn, id: nat, h: Headers, endStream: bool)
    requires Inv(c) && c.open.None? && id in c.streams && (c.role.Server? || c.streams[id].initialHeaders)
    requires OnHeaders(c, id, h, endStream).Ok?
    ensures var d := OnHeaders(c, id, h, endStream).value;
            if c.streams[id].connectEstablished || h.hasPseudo || !h.validTrailers || !endStream then
              Aborts(Seen(c, id), d, id, ProtocolError, 0)
            else if PeerEnded(c.streams[id]) then Aborts(Seen(c, id), d, id, StreamClosedError, 0)
            else
              && Takes(Seen(c, id), d, id, TrailersReceived(id, h), true)
              && (id in d.streams ==> d.streams[id] == c.streams[id].(state := HalfClosedRemote))
  {
    hide Core, Calm, WithinLimit, OpenCount, Reset, Takes, Aborts, EndIfClosed, EndOut;
    LiveBlockIs(c, id, h, endStream);
    ServerHasContent(c, 0, id);
    MaySend(c, id);
    var n := Seen(c, id);
    ResetAborts(n, id, ProtocolError, 0);
    ResetAborts(n, id, StreamClosedError, 0);
    if c.streams[id].state.ReceiveHeaders(true).Some? {
      TakeTakes(n, id, c.streams[id].(state := c.streams[id].state.ReceiveHeaders(true).value),
                TrailersReceived(id, h), true);
    }
  }

  /** A block on a stream that exists is processed unless the stream is a tunnel. */
  lemma LiveBlockIs(c: Conn, id: nat, h: Headers, endStream: bool)
    requires Inv(c) && c.open.None? && id in c.streams && OnHeaders(c, id, h, endStream).Ok?
    ensures var n := Seen(c, id);
            OnHeaders(c, id, h, endStream).value
            == if c.streams[id].connectEstablished then Reset(n, id, ProtocolError, 0) else ProcessHeaders(n, id, h, endStream)
  {
    hide Core, WithinLimit, OpenCount, Reset, ProcessHeaders, CalmStream;
    FlagsAreDown(c);
    KnownIsNotIdle(c, id);
    MaySend(c, id);
  }

  /** A record that changes from the peer's side, with an event. */
  lemma TakeTakes(c: Conn, id: nat, s: Stream, e: Event, endStream: bool)
    requires id in c.streams && c.streams[id].state.ReceiveHeaders(endStream).Some? && !c.streams[id].state.Idle?
    requires c.streams[id].state.CanSend() <==> !EndOut(c.wire, id)
    requires s.state == c.streams[id].state.ReceiveHeaders(endStream).value && s.pendingEnd == c.streams[id].pendingEnd
    ensures var d := EndIfClosed(Take(c, id, s, e), id, endStream);
            && Takes(c, d, id, e, endStream)
            && (id in d.streams ==> d.streams[id] == s && (endStream ==> s.state == HalfClosedRemote))
  {
    hide EndOut, Remember;
    var t := Take(c, id, s, e);
    assert t.streams - {id} == c.streams - {id};
    assert EndIfClosed(t, id, endStream).streams - {id} == t.streams - {id};
    assert t.log + [] == t.log;
  }

  /** A response that a client can take on one of its streams. */
  predicate Sensible(s: Stream, h: Headers, endStream: bool) {
    && (endStream ==> !h.informational)
    && (endStream && h.contentLength.Length? && h.contentLength.n != 0 ==> h.noContentStatus || s.verb == Some(Head))
  }

  /** Until a final response has come, a block on a client's stream is taken if and only if it is a
      valid response that comes before the peer's end and does not end short of what it declares;
      otherwise the stream is reset. */
  lemma ResponseDoes(c: Conn, id: nat, h: Headers, endStream: bool)
    requires Inv(c) && c.open.None? && id in c.streams && c.role.Client? && !c.streams[id].initialHeaders
    requires OnHeaders(c, id, h, endStream).Ok?
    ensures var d := OnHeaders(c, id, h, endStream).value;
            var s := c.streams[id];
            if s.connectEstablished || !h.hasPseudo || !h.validResponse || h.contentLength.Malformed? then
              Aborts(Seen(c, id), d, id, ProtocolError, 0)
            else if PeerEnded(s) then Aborts(Seen(c, id), d, id, StreamClosedError, 0)
            else if !Sensible(s, h, endStream) then Aborts(Seen(c, id), d, id, ProtocolError, 0)
            else
              && Takes(Seen(c, id), d, id, HeadersReceived(id, h, endStream), endStream)
              && (id in d.streams ==>
                    d.streams[id] == s.(
                      state := d.streams[id].state,
                      expected := if h.contentLength.Length? then Some(h.contentLength.n) else None,
                      initialHeaders := !h.informational,
                      connectEstablished := h.success && s.verb == Some(Connect) && !s.hasProtocol,
                      noContent := s.noContent || h.noContentStatus || s.verb == Some(Head)))
  {
    hide Core, Calm, WithinLimit, OpenCount, Reset, Takes, Aborts, EndIfClosed, EndOut, TakeResponse;
    LiveBlockIs(c, id, h, endStream);
    MaySend(c, id);
    var n := Seen(c, id);
    ResetAborts(n, id, ProtocolError, 0);
    ResetAborts(n, id, StreamClosedError, 0);
    var s := c.streams[id];
    if h.hasPseudo && h.validResponse && !s.connectEstablished {
      TakeResponseDoes(n, id, s.(connectEstablished := h.success && s.verb == Some(Connect) && !s.hasProtocol,
                                 noContent := s.noContent || h.noContentStatus || s.verb == Some(Head)),
                       h, endStream);
    }
  }

  lemma TakeResponseDoes(c: Conn, id: nat, s: Stream, h: Headers, endStream: bool)
    requires id in c.streams && !c.streams[id].state.Idle?
    requires c.streams[id].state.CanSend() <==> !EndOut(c.wire, id)
    requires s == c.streams[id].(connectEstablished := s.connectEstablished, noContent := s.noContent)
    ensures var d := TakeResponse(c, id, s, h, endStream);
            if h.contentLength.Malformed? then Aborts(c, d, id, ProtocolError, 0)
            else if PeerEnded(s) then Aborts(c, d, id, StreamClosedError, 0)
            else if !Sensible(s, h, endStream) then Aborts(c, d, id, ProtocolError, 0)
            else
              && Takes(c, d, id, HeadersReceived(id, h, endStream), endStream)
              && (id in d.streams ==>
                    d.streams[id] == s.(state := d.streams[id].state, expected := Declared(h),
                                        initialHeaders := !h.informational))
  {
    hide Takes, Aborts, Reset, EndIfClosed, EndOut, Ensure;
    ResetAborts(c, id, ProtocolError, 0);
    ResetAborts(c, id, StreamClosedError, 0);
    RecordIsForgotten(c, id, s);
    if s.state.ReceiveHeaders(endStream).Some? {
      var t := s.(state := s.state.ReceiveHeaders(endStream).value, expected := Declared(h),
                  initialHeaders := !h.informational);
      RecordIsForgotten(c, id, t);
      TakeTakes(c, id, t, HeadersReceived(id, h, endStream), endStream);
    }
  }

  lemma RecordIsForgotten(c: Conn, id: nat, s: Stream)
    requires id in c.streams
    ensures Ensure(c.Put(id, s), id) == c.Put(id, s)
    ensures forall code :: Reset(c.Put(id, s), id, code, 0) == Reset(c, id, code, 0)
  {
    hide Reset;
    forall code ensures Reset(c.Put(id, s), id, code, 0) == Reset(c, id, code, 0) {
      ResetForgets(c, id, s, code);
    }
  }

  // ---- Blocks in several frames ----

  /** The first frame of a block in several is refused when the whole block would be, and otherwise
      shows in nothing but the identifiers seen and the block that is open. */
  lemma OnFirstFrameDoes(c: Conn, id: nat, h: Headers, endStream: bool)
    requires Inv(c) && c.open.None?
    ensures var r := OnFirstFrame(c, id, endStream);
            && (r.Ok? <==> OnHeaders(c, id, h, endStream).Ok?)
            && (r.Err? ==> r == OnHeaders(c, id, h, endStream))
            && (r.Ok? ==>
                  && r.value == c.(lastRecv := r.value.lastRecv, open := r.value.open, tunnelled := r.value.tunnelled,
                                   refused := r.value.refused)
                  && r.value.lastRecv == (if id > c.lastRecv then id else c.lastRecv)
                  && r.value.open == Some(Block(id, endStream, id !in c.streams && id !in c.closed)))
  {
    hide Core, Calm, WithinLimit, Finish, OpenCount;
  }

  /** A block in several frames with nothing between them is what it is in one. */
  lemma CuttingIsInvisible(c: Conn, id: nat, h: Headers, endStream: bool)
    requires c.open.None? && OnFirstFrame(c, id, endStream).Ok?
    ensures OnLastFrame(OnFirstFrame(c, id, endStream).value, h) == OnHeaders(c, id, h, endStream)
  {
    hide Finish, OpenCount;
    var d := OnFirstFrame(c, id, endStream).value;
    assert d.(open := None) == Begin(c, id);
  }

  /** Nothing but a block under way can be completed. */
  lemma OnLastFrameFails(c: Conn, h: Headers)
    ensures OnLastFrame(c, h).Err? <==> c.open.None?
    ensures OnLastFrame(c, h).Err? ==> OnLastFrame(c, h).error == ConnectionFailed(ProtocolError)
  {
    hide Finish;
  }

  // ---- Resets and unknown frames ----

  /** A reset by the peer fails the connection if and only if the stream is idle; a stream that
      exists is gone at once, and the application is told the peer's code. Nothing is written. */
  lemma OnRstStreamDoes(c: Conn, id: nat, code: ErrorCode)
    ensures var r := OnRstStream(c, id, code);
            && (r.Err? <==> c.IsIdle(id)) && (r.Err? ==> r.error == ConnectionFailed(ProtocolError))
            && (r.Ok? && id !in c.streams ==> r.value == c)
            && (r.Ok? && id in c.streams ==>
                  r.value == c.(streams := c.streams - {id}, closed := Remember(c.closed, id),
                                log := c.log + [StreamReset(id, code, 0)]))
  {
    hide Remember;
  }

  /** A broken frame resets its stream with the code that the decoder gives, and fails the
      connection with it if the stream is idle. */
  lemma OnBrokenDoes(c: Conn, id: nat, code: ErrorCode)
    requires id != 0
    ensures var r := OnBroken(c, id, code);
            && (r.Err? <==> c.IsIdle(id)) && (r.Err? ==> r.error == ConnectionFailed(code))
            && (r.Ok? ==> Aborts(c, r.value, id, code, 0))
  {
    hide Aborts, Reset;
    ResetAborts(c, id, code, 0);
  }

  /** A frame of unknown type is ignored but on a tunnel, which it resets. */
  lemma OnUnknownDoes(c: Conn, id: nat)
    ensures OnUnknown(c, id).Ok?
    ensures var d := OnUnknown(c, id).value;
            if id in c.streams && c.streams[id].connectEstablished then Aborts(c, d, id, ProtocolError, 0) else d == c
  {
    hide Aborts, Reset;
    ResetAborts(c, id, ProtocolError, 0);
  }
}
