/** The connection object: fields that its methods change in place, each method doing what the
    function of the same name says of the state as a value. */
module H2Object {
  import opened Base
  import opened H2Types
  import opened Bounded
  import V = H2Connection
  import opened H2Invariant
  import opened H2Sending
  import opened H2Receiving

  /** Whether a method ended as the function of the state before says. When a frame fails the
      connection the state it leaves is not described. */
  ghost predicate Matches(outcome: V.Outcome, error: Option<H2Error>, state: V.Conn) {
    match outcome
    case Ok(d) => error.None? && state == d
    case Err(e) => error == Some(e)
  }

  class Connection {
    const role: Role
    const local: Settings
    const closed: BoundedSet<nat>
    var phase: V.Phase
    var remote: Settings
    var sendWindow: int
    var recvWindow: int
    var streams: map<nat, V.Stream>
    var nextId: nat
    var lastRecv: nat
    var headerContinuation: Option<V.Block>
    var connectEstablishedHeaders: bool
    var limitExceeded: bool
    var output: seq<Frame>
    var events: seq<Event>
    ghost var wire: seq<Frame>
    ghost var log: seq<Event>
    ghost var sends: seq<Accepted>
    ghost var granted: nat
    ghost var charged: nat
    ghost var padding: nat
    ghost var refilled: nat

    /** What waits to be written or read is the end of what was written or queued. */
    ghost predicate Valid()
      reads this`output, this`wire, this`events, this`log
    {
      && closed.maxSize == CLOSED_STREAMS_MAX_SIZE && closed.rank == V.NUMBER
      && |output| <= |wire| && output == wire[|wire| - |output|..]
      && |events| <= |log| && events == log[|log| - |events|..]
    }

    ghost function View(): V.Conn
      reads this, closed
    {
      V.Conn(role, phase, local, remote, sendWindow, recvWindow, streams, closed.inner, nextId, lastRecv,
             headerContinuation, connectEstablishedHeaders, limitExceeded,
             wire, log, sends, granted, charged, padding, refilled)
    }

    constructor (role: Role, local: Settings, remote: Settings)
      ensures Valid() && View() == V.NewConn(role, local, remote) && fresh(closed)
    {
      this.role, this.local, this.remote := role, local, remote;
      phase := V.Preface;
      sendWindow, recvWindow := DEFAULT_WINDOW, DEFAULT_WINDOW;
      streams := map[];
      closed := new BoundedSet(V.NUMBER, CLOSED_STREAMS_MAX_SIZE);
      nextId, lastRecv := if role.Client? then 1 else 2, 0;
      headerContinuation := None;
      connectEstablishedHeaders, limitExceeded := false, false;
      output, events := [], [];
      wire, log, sends := [], [], [];
      granted, charged, padding, refilled := 0, 0, 0, 0;
    }

    // ---- Small steps ----

    method SendFrame(f: Frame)
      requires Valid()
      modifies this`output, this`wire
      ensures Valid() && View() == old(View()).Emit(f)
    {
      output := output + [f];
      wire := wire + [f];
    }

    method Queue(e: Event)
      requires Valid()
      modifies this`events, this`log
      ensures Valid() && View() == old(View()).Queue(e)
    {
      events := events + [e];
      log := log + [e];
    }

    method Drop(id: nat)
      requires Valid()
      modifies this`streams, closed
      ensures Valid() && View() == old(View().Drop(id))
    {
      hide SetInsert, IsRank;
      V.NumberIsRank();
      closed.Insert(id);
      streams := streams - {id};
    }

    method PollOutput() returns (r: Option<seq<Frame>>)
      requires Valid()
      modifies this`output
      ensures Valid() && View() == old(View()) && output == []
      ensures r == if old(output) == [] then None else Some(old(output))
    {
      r := if output == [] then None else Some(output);
      output := [];
    }

    method PollEvent() returns (r: Option<Event>)
      requires Valid()
      modifies this`events
      ensures Valid() && View() == old(View())
      ensures r == if old(events) == [] then None else Some(old(events[0]))
    {
      if events == [] {
        return None;
      }
      r := Some(events[0]);
      events := events[1..];
    }

    predicate IsIdle(id: nat)
      reads this, closed
    {
      id !in streams && id !in closed.inner && (id % 2 == 0 || id > lastRecv)
    }

    function NewStream(): V.Stream
      reads this
    {
      V.Stream(Idle, remote.initialWindow, local.initialWindow, remote.initialWindow, [], false,
               false, None, 0, false, None, false, false, false, 0)
    }

    // ---- Sending data ----

    method SendData(id: nat, data: seq<Byte>, endStream: bool) returns (error: Option<H2Error>)
      requires Valid()
      modifies this, closed
      ensures Valid() && Matches(old(V.SendData(View(), id, data, endStream)), error, View())
      ensures error.Some? && old(Inv(View())) ==> View() == old(View())
    {
      hide V.FlushAndClose, Core, Calm, WithinLimit;
      if id !in streams || streams[id].pendingEnd || !streams[id].state.CanSend() {
        return Some(StreamFailed(StreamClosedError));
      }
      ghost var start := View();
      error := QueueData(id, data, endStream);
      if error.None? {
        if Inv(start) {
          QueueDataKeeps(start, id, data, endStream);
          FlushAndCloseKeeps(View(), id);
        }
        error := FlushAndClose(id);
      }
    }

    method FlushAndClose(id: nat) returns (error: Option<H2Error>)
      requires Valid()
      modifies this, closed
      ensures Valid() && Matches(old(V.FlushAndClose(View(), id)), error, View())
    {
      hide V.Flush, V.TryRemove;
      error := FlushStreamData(id);
      if error.None? {
        TryRemoveClosedStream(id);
      }
    }

    method QueueData(id: nat, data: seq<Byte>, endStream: bool) returns (error: Option<H2Error>)
      requires Valid()
      modifies this`streams, this`sends
      ensures Valid() && Matches(old(V.QueueData(View(), id, data, endStream)), error, View())
      ensures error.Some? ==> View() == old(View())
    {
      if id !in streams {
        return Some(StreamFailed(StreamClosedError));
      }
      var s := streams[id];
      if |s.buffer| + |data| > DEFAULT_WINDOW {
        return Some(StreamFailed(FlowControlError));
      }
      streams := streams[id := s.(buffer := s.buffer + data, pendingEnd := s.pendingEnd || endStream)];
      sends := sends + [Accepted(id, data)];
      return None;
    }

    /** Sends one slice of a stream's queue. */
    method SendSlice(id: nat, n: nat) returns (error: Option<H2Error>)
      requires Valid() && id in streams && n <= |streams[id].buffer|
      modifies this`streams, this`sendWindow, this`output, this`wire
      ensures Valid() && Matches(old(V.SendSlice(View(), id, n)), error, View())
    {
      var s := streams[id];
      var data, rest := s.buffer[..n], s.buffer[n..];
      var end := s.pendingEnd && rest == [];
      if n > sendWindow || n > s.sendWindow {
        return Some(ConnectionFailed(FlowControlError));
      }
      var state := s.state;
      if end {
        var next := s.state.CompleteSend();
        if next.None? {
          return Some(StreamFailed(StreamClosedError));
        }
        state := next.value;
      }
      sendWindow := sendWindow - n;
      streams := streams[id := s.(buffer := rest, sendWindow := s.sendWindow - n,
                                  pendingEnd := s.pendingEnd && !end, state := state)];
      SendFrame(Data(id, data, end));
      return None;
    }

    /** Sends what the windows and the frame size allow, slice by slice. */
    method FlushStreamData(id: nat) returns (error: Option<H2Error>)
      requires Valid()
      modifies this`streams, this`sendWindow, this`output, this`wire
      ensures Valid() && Matches(old(V.Flush(View(), id)), error, View())
    {
      hide V.SendSlice, V.SendEmptyEnd, V.SliceSize;
      while id in streams && streams[id].buffer != []
        invariant Valid() && V.Flush(View(), id) == old(V.Flush(View(), id))
        decreases if id in streams then |streams[id].buffer| else 0
      {
        var s := streams[id];
        ghost var before := View();
        var available := V.Min(V.Min(V.Available(sendWindow), V.Available(s.sendWindow)), remote.maxFrame);
        var n := V.Min(|s.buffer|, available);
        SizeIs(before, s, n);
        if n == 0 {
          return None;
        }
        error := SendSlice(id, n);
        if error.Some? {
          return;
        }
        SliceLeaves(before, id, n, View());
        if n == |s.buffer| {
          return None;
        }
      }
      error := SendEmptyEnd(id);
    }

    method SendEmptyEnd(id: nat) returns (error: Option<H2Error>)
      requires Valid()
      modifies this`streams, this`output, this`wire
      ensures Valid() && Matches(old(V.SendEmptyEnd(View(), id)), error, View())
    {
      if id !in streams || !streams[id].pendingEnd || streams[id].buffer != [] {
        return None;
      }
      var s := streams[id];
      var next := s.state.CompleteSend();
      if next.None? {
        return Some(StreamFailed(StreamClosedError));
      }
      streams := streams[id := s.(pendingEnd := false, state := next.value)];
      SendFrame(Data(id, [], true));
      return None;
    }

    method TryRemoveClosedStream(id: nat)
      requires Valid()
      modifies this`streams, this`events, this`log, closed
      ensures Valid() && View() == old(V.TryRemove(View(), id))
    {
      hide V.Remember;
      if id in streams && streams[id].state.Closed? && streams[id].buffer == [] && !streams[id].pendingEnd {
        Queue(StreamClosed(id));
        Drop(id);
      }
    }

    /** Serves every stream with something queued, in an order of its own choosing. */
    method FlushAllStreamData() returns (ghost order: seq<nat>)
      requires Valid() && Core(View(), 0)
      modifies this, closed
      ensures Valid() && old(V.IsOrder(View(), order)) && old(V.FlushAll(View(), order)) == Ok(View())
    {
      hide V.FlushAndClose, Core, V.FlushAll, V.Distinct, V.Lists;
      ghost var start := View();
      assert V.FlushAll(start, []) == Ok(start) by { NothingToFlush(start); }
      assert V.Distinct([]) && V.Lists([], {}) by { EmptyOrder(); }
      var waiting := set id | id in streams && V.HasQueued(streams[id]);
      var todo := waiting;
      order := [];
      assert waiting - todo == {};
      while todo != {}
        invariant Valid() && Core(View(), 0) && todo <= waiting == V.Queued(start)
        invariant V.Distinct(order) && V.Lists(order, waiting - todo)
        invariant V.FlushAll(start, order) == Ok(View())
        decreases |todo|
      {
        var id :| id in todo;
        assert todo - {id} + {id} == todo;
        todo := todo - {id};
        FlushAllSnoc(start, order, id);
        OrderGrows(order, waiting, todo, id);
        FlushAndCloseKeeps(View(), id);
        var _ := FlushAndClose(id);
        order := order + [id];
      }
      assert waiting - todo == waiting;
    }

    // ---- Sending headers ----

    predicate ListTooLong(h: Headers)
      reads this
    {
      remote.maxHeaderList.Some? && h.listSize > remote.maxHeaderList.value
    }

    function OpenCount(): nat
      reads this
    {
      |set id | id in streams && !streams[id].state.Closed?|
    }

    method StartStream(h: Headers, endStream: bool) returns (error: Option<H2Error>, id: nat)
      requires Valid()
      modifies this`nextId, this`streams, this`output, this`wire
      ensures Valid() && Matches(old(V.StartStream(View(), h, endStream)), error, View())
      ensures error.Some? ==> View() == old(View())
      ensures error.None? ==> id == old(nextId)
    {
      hide V.StartError;
      id := nextId;
      error := CheckStart(h);
      if error.Some? {
        return;
      }
      nextId := nextId + 2;
      var s := NewStream();
      streams := streams[id := s.(state := if endStream then HalfClosedLocal else Open,
                                  verb := h.requestMethod,
                                  hasProtocol := h.requestMethod.Some? && h.hasProtocol)];
      SendFrame(HeaderBlock(id, h, endStream));
    }

    method CheckStart(h: Headers) returns (error: Option<H2Error>)
      ensures error == V.StartError(View(), h)
    {
      if !h.validRequest {
        return Some(StreamFailed(ProtocolError));
      }
      if role.Server? || phase.GoawayGot? {
        return Some(ConnectionFailed(ProtocolError));
      }
      if remote.maxConcurrent.Some? && OpenCount() >= remote.maxConcurrent.value {
        return Some(StreamFailed(RefusedStream));
      }
      if (h.hasProtocol && !remote.enableConnect) || (h.isWebTransport && !remote.wtEnabled) {
        return Some(ConnectionFailed(ProtocolError));
      }
      if ListTooLong(h) {
        return Some(StreamFailed(ProtocolError));
      }
      return if nextId > STREAM_ID_MAX then Some(StreamFailed(RefusedStream)) else None;
    }

    method EndIfClosed(id: nat, endStream: bool)
      requires Valid() && id in streams
      modifies this`streams, this`events, this`log, closed
      ensures Valid() && View() == old(V.EndIfClosed(View(), id, endStream))
    {
      hide V.Remember;
      if endStream && streams[id].state.Closed? {
        Queue(StreamClosed(id));
        Drop(id);
      }
    }

    method SendResponse(id: nat, h: Headers, endStream: bool) returns (error: Option<H2Error>)
      requires Valid()
      modifies this`streams, this`output, this`wire, this`events, this`log, closed
      ensures Valid() && Matches(old(V.SendResponse(View(), id, h, endStream)), error, View())
      ensures error.Some? ==> View() == old(View())
    {
      hide V.EndIfClosed;
      if id in streams && streams[id].connectEstablished {
        return Some(StreamFailed(ProtocolError));
      }
      if !h.validResponse || (endStream && h.informational) {
        return Some(StreamFailed(ProtocolError));
      }
      if (!h.informational && id in streams && streams[id].finalResponse) || ListTooLong(h) {
        return Some(StreamFailed(ProtocolError));
      }
      if id !in streams || (endStream && streams[id].buffer != []) {
        return Some(StreamFailed(StreamClosedError));
      }
      var s := streams[id];
      var next := s.state.SendHeaders(endStream);
      if next.None? {
        return Some(StreamFailed(StreamClosedError));
      }
      streams := streams[id := s.(state := next.value,
                                  finalResponse := s.finalResponse || !h.informational,
                                  connectEstablished := s.connectEstablished
                                                        || (h.success && s.verb == Some(Connect) && !s.hasProtocol))];
      SendFrame(HeaderBlock(id, h, endStream));
      EndIfClosed(id, endStream);
      return None;
    }

    method SendTrailers(id: nat, h: Headers) returns (error: Option<H2Error>)
      requires Valid()
      modifies this`streams, this`output, this`wire, this`events, this`log, closed
      ensures Valid() && Matches(old(V.SendTrailers(View(), id, h)), error, View())
      ensures error.Some? ==> View() == old(View())
    {
      hide V.EndIfClosed;
      if id in streams && streams[id].connectEstablished {
        return Some(StreamFailed(ProtocolError));
      }
      if (role.Server? && id in streams && !streams[id].finalResponse) || !h.validTrailers || ListTooLong(h) {
        return Some(StreamFailed(ProtocolError));
      }
      if id !in streams || streams[id].buffer != [] {
        return Some(StreamFailed(StreamClosedError));
      }
      var next := streams[id].state.SendHeaders(true);
      if next.None? {
        return Some(StreamFailed(StreamClosedError));
      }
      streams := streams[id := streams[id].(state := next.value)];
      SendFrame(HeaderBlock(id, h, true));
      EndIfClosed(id, true);
      return None;
    }

    // ---- Resets, credit, shutdown ----

    method ResetStream(id: nat, code: ErrorCode) returns (error: Option<H2Error>)
      requires Valid()
      modifies this`streams, this`output, this`wire, this`events, this`log, closed
      ensures Valid() && Matches(old(V.ResetStream(View(), id, code)), error, View())
      ensures error.Some? ==> View() == old(View())
    {
      hide V.Reset;
      if id == 0 {
        return Some(ConnectionFailed(ProtocolError));
      }
      if IsIdle(id) {
        return Some(StreamFailed(ProtocolError));
      }
      Reset(id, code, 0);
      return None;
    }

    method Reset(id: nat, code: ErrorCode, consumed: nat)
      requires Valid()
      modifies this`streams, this`output, this`wire, this`events, this`log, closed
      ensures Valid() && View() == old(V.Reset(View(), id, code, consumed))
    {
      hide V.Remember;
      SendFrame(RstStream(id, code));
      if id in streams {
        Queue(StreamReset(id, code, consumed));
        Drop(id);
      }
    }

    method SendWindowUpdate(id: nat, increment: nat) returns (error: Option<H2Error>)
      requires Valid()
      modifies this`recvWindow, this`refilled, this`streams, this`output, this`wire
      ensures Valid() && Matches(old(V.SendWindowUpdate(View(), id, increment)), error, View())
      ensures error.Some? ==> View() == old(View())
    {
      if increment == 0 {
        return Some(ConnectionFailed(ProtocolError));
      }
      if increment > MAX_WINDOW {
        return Some(ConnectionFailed(FlowControlError));
      }
      if id == 0 {
        if recvWindow + increment > MAX_WINDOW {
          return Some(ConnectionFailed(FlowControlError));
        }
        recvWindow, refilled := recvWindow + increment, refilled + increment;
      } else if id in streams {
        var s := streams[id];
        if s.recvWindow + increment > MAX_WINDOW {
          return Some(ConnectionFailed(FlowControlError));
        }
        streams := streams[id := s.(recvWindow := s.recvWindow + increment)];
      }
      SendFrame(WindowUpdate(id, increment));
      return None;
    }

    method SendGoaway(code: ErrorCode)
      requires Valid()
      modifies this
      ensures Valid() && Ok(View()) == old(V.SendGoaway(View(), code))
    {
      SendFrame(Goaway(code));
      phase := V.GoawaySent;
    }

    // ---- Receiving ----

    method HandleData(id: nat, data: seq<Byte>, pad: Option<nat>, endStream: bool) returns (error: Option<H2Error>)
      requires Valid()
      modifies this, closed
      ensures Valid() && Matches(old(V.OnData(View(), id, data, pad, endStream)), error, View())
    {
      hide V.AcceptData;
      if IsIdle(id) {
        return Some(ConnectionFailed(ProtocolError));
      }
      var size := if pad.Some? then 1 + |data| + pad.value else |data|;
      if size > recvWindow {
        return Some(ConnectionFailed(FlowControlError));
      }
      recvWindow, charged := recvWindow - size, charged + size;
      if id !in streams || streams[id].state.Closed? {
        if size > 0 {
          Queue(DataDiscarded(id, size));
        }
        return None;
      }
      AcceptData(id, data, size, endStream);
      return None;
    }

    method AcceptData(id: nat, data: seq<Byte>, size: nat, endStream: bool)
      requires Valid() && id in streams && |data| <= size
      modifies this, closed
      ensures Valid() && View() == old(V.AcceptData(View(), id, data, size, endStream))
    {
      hide V.Reset, V.EndIfClosed;
      var s := streams[id];
      var next := s.state.ReceiveData(endStream);
      if next.None? {
        Reset(id, StreamClosedError, size);
        return;
      }
      if size > s.recvWindow {
        Reset(id, FlowControlError, size);
        return;
      }
      if s.noContent && data != [] {
        Reset(id, ProtocolError, size);
        return;
      }
      var received := s.received + |data|;
      if !s.noContent && s.expected.Some? && (received > s.expected.value || (endStream && received != s.expected.value)) {
        Reset(id, ProtocolError, size);
        return;
      }
      DeliverData(id, data, size, endStream);
      EndIfClosed(id, endStream);
    }

    method DeliverData(id: nat, data: seq<Byte>, size: nat, endStream: bool)
      requires Valid() && id in streams && |data| <= size && streams[id].state.ReceiveData(endStream).Some?
      modifies this
      ensures Valid() && View() == old(Deliver(View(), id, data, size, endStream))
    {
      var s := streams[id];
      var next := s.state.ReceiveData(endStream).value;
      streams := streams[id := s.(state := next, recvWindow := s.recvWindow - size, received := s.received + |data|)];
      padding := padding + size - |data|;
      Queue(DataReceived(id, data, endStream));
    }

    /** A whole header block. */
    /** Whether a header block may begin, and if so what its first frame notes of it. */
    method BeginBlock(id: nat) returns (error: Option<H2Error>)
      requires Valid()
      modifies this`lastRecv, this`connectEstablishedHeaders, this`limitExceeded
      ensures Valid() && error == old(V.HeadersError(View(), id))
      ensures View() == if error.None? then old(V.Begin(View(), id)) else old(View())
    {
      var wasClosed := id in closed.inner;
      if id % 2 == 0 || (phase.GoawaySent? && id > lastRecv && id !in streams && !wasClosed) {
        return Some(ConnectionFailed(ProtocolError));
      }
      if !wasClosed {
        if id !in streams && id <= lastRecv {
          return Some(ConnectionFailed(ProtocolError));
        }
        if id in streams && streams[id].connectEstablished {
          connectEstablishedHeaders := true;
        }
        if id !in streams && local.maxConcurrent.Some? && OpenCount() >= local.maxConcurrent.value {
          limitExceeded := true;
        }
      }
      if id > lastRecv {
        lastRecv := id;
      }
      return None;
    }

    /** A block that is whole is ignored, refused or taken. */
    method FinishBlock(id: nat, h: Headers, endStream: bool)
      requires Valid()
      modifies this`connectEstablishedHeaders, this`limitExceeded, this`streams, this`output, this`wire, this`events, this`log, closed
      ensures Valid() && View() == old(V.Finish(View(), id, h, endStream))
    {
      hide V.Reset, V.ProcessHeaders, V.Ensure, Valid;
      if id in closed.inner || (id in streams && streams[id].state.Closed?) {
        connectEstablishedHeaders := false;
      } else if limitExceeded {
        limitExceeded := false;
        EnsureStream(id);
        Reset(id, RefusedStream, 0);
      } else if connectEstablishedHeaders {
        connectEstablishedHeaders := false;
        Reset(id, ProtocolError, 0);
      } else {
        ProcessHeaders(id, h, endStream);
      }
    }

    /** A HEADERS frame that carries its whole block. */
    method HandleHeaders(id: nat, h: Headers, endStream: bool) returns (error: Option<H2Error>)
      requires Valid()
      modifies this, closed
      ensures Valid() && Matches(old(V.OnHeaders(View(), id, h, endStream)), error, View())
    {
      hide V.Begin, V.Finish, V.HeadersError;
      error := BeginBlock(id);
      if error.None? {
        FinishBlock(id, h, endStream);
      }
    }

    /** A HEADERS frame that others continue. */
    method HandleFirstFrame(id: nat, endStream: bool) returns (error: Option<H2Error>)
      requires Valid()
      modifies this`lastRecv, this`headerContinuation, this`connectEstablishedHeaders, this`limitExceeded
      ensures Valid() && Matches(old(V.OnFirstFrame(View(), id, endStream)), error, View())
    {
      hide V.Begin, V.HeadersError;
      var isNew := id !in streams && id !in closed.inner;
      error := BeginBlock(id);
      if error.None? {
        headerContinuation := Some(V.Block(id, endStream, isNew));
      }
    }

    /** The CONTINUATION frame that completes a block. */
    method HandleLastFrame(h: Headers) returns (error: Option<H2Error>)
      requires Valid()
      modifies this, closed
      ensures Valid() && Matches(old(V.OnLastFrame(View(), h)), error, View())
    {
      hide V.Finish;
      if headerContinuation.None? {
        return Some(ConnectionFailed(ProtocolError));
      }
      var block := headerContinuation.value;
      headerContinuation := None;
      FinishBlock(block.id, h, block.endStream);
      return None;
    }

    /** A frame that the decoder found broken resets its stream. */
    method HandleBroken(id: nat, code: ErrorCode) returns (error: Option<H2Error>)
      requires Valid()
      modifies this`streams, this`output, this`wire, this`events, this`log, closed
      ensures Valid() && Matches(old(V.OnBroken(View(), id, code)), error, View())
    {
      if IsIdle(id) {
        return Some(ConnectionFailed(code));
      }
      error := ResetStream(id, code);
    }

    method EnsureStream(id: nat)
      requires Valid()
      modifies this`streams
      ensures Valid() && View() == old(V.Ensure(View(), id)) && id in streams
    {
      if id !in streams {
        streams := streams[id := NewStream()];
      }
    }

    method RejectBlock(id: nat)
      requires Valid()
      modifies this`streams, this`output, this`wire, this`events, this`log, closed
      ensures Valid() && View() == old(V.RejectBlock(View(), id))
    {
      hide V.Reset;
      EnsureStream(id);
      Reset(id, ProtocolError, 0);
    }

    method ProcessHeaders(id: nat, h: Headers, endStream: bool)
      requires Valid()
      modifies this`streams, this`output, this`wire, this`events, this`log, closed
      ensures Valid() && View() == old(V.ProcessHeaders(View(), id, h, endStream))
    {
      hide V.RejectBlock, V.ProcessTrailers, V.ProcessRequest, V.ProcessResponse;
      var initial := !(id in streams && streams[id].initialHeaders);
      if !h.hasPseudo {
        if initial || !h.validTrailers || !endStream {
          RejectBlock(id);
        } else {
          EnsureStream(id);
          ProcessTrailers(id, h);
        }
      } else if !initial {
        RejectBlock(id);
      } else if role.Server? {
        ProcessRequest(id, h, endStream);
      } else {
        ProcessResponse(id, h, endStream);
      }
    }

    method ProcessTrailers(id: nat, h: Headers)
      requires Valid() && id in streams
      modifies this`streams, this`output, this`wire, this`events, this`log, closed
      ensures Valid() && View() == old(V.ProcessTrailers(View(), id, h))
    {
      hide V.Reset, V.EndIfClosed;
      var next := streams[id].state.ReceiveHeaders(true);
      if next.None? {
        Reset(id, StreamClosedError, 0);
        return;
      }
      streams := streams[id := streams[id].(state := next.value)];
      Queue(TrailersReceived(id, h));
      EndIfClosed(id, true);
    }

    method ProcessRequest(id: nat, h: Headers, endStream: bool)
      requires Valid()
      modifies this`streams, this`output, this`wire, this`events, this`log, closed
      ensures Valid() && View() == old(V.ProcessRequest(View(), id, h, endStream))
    {
      hide V.RejectBlock, V.TakeRequest;
      if !h.validRequest || (h.hasProtocol && !local.enableConnect) {
        RejectBlock(id);
        return;
      }
      EnsureStream(id);
      var s := streams[id];
      if h.requestMethod.Some? {
        s := s.(verb := h.requestMethod, hasProtocol := h.hasProtocol);
      }
      TakeRequest(id, s, h, endStream);
    }

    method TakeRequest(id: nat, s: V.Stream, h: Headers, endStream: bool)
      requires Valid()
      modifies this`streams, this`output, this`wire, this`events, this`log, closed
      ensures Valid() && View() == old(V.TakeRequest(View(), id, s, h, endStream))
    {
      hide V.RejectBlock, V.Reset, V.EndIfClosed;
      ghost var before := View();
      streams := streams[id := s];
      if h.contentLength.Malformed? {
        RejectBlock(id);
        return;
      }
      var next := s.state.ReceiveHeaders(endStream);
      if next.None? {
        Reset(id, StreamClosedError, 0);
        return;
      }
      var t := s.(state := next.value, expected := V.Declared(h), initialHeaders := true);
      PutTwice(before, id, s, t);
      streams := streams[id := t];
      if endStream && t.expected.Some? && t.expected.value != 0 {
        Reset(id, ProtocolError, 0);
        return;
      }
      Queue(HeadersReceived(id, h, endStream));
      EndIfClosed(id, endStream);
    }

    method ProcessResponse(id: nat, h: Headers, endStream: bool)
      requires Valid()
      modifies this`streams, this`output, this`wire, this`events, this`log, closed
      ensures Valid() && View() == old(V.ProcessResponse(View(), id, h, endStream))
    {
      hide V.RejectBlock, V.TakeResponse;
      if !h.validResponse {
        RejectBlock(id);
        return;
      }
      var known := id in streams;
      EnsureStream(id);
      var s := streams[id];
      TakeResponse(id, s.(connectEstablished := s.connectEstablished
                                                || (h.success && s.verb == Some(Connect) && !s.hasProtocol),
                          noContent := s.noContent || (known && (h.noContentStatus || s.verb == Some(Head)))),
                   h, endStream);
    }

    method TakeResponse(id: nat, s: V.Stream, h: Headers, endStream: bool)
      requires Valid()
      modifies this`streams, this`output, this`wire, this`events, this`log, closed
      ensures Valid() && View() == old(V.TakeResponse(View(), id, s, h, endStream))
    {
      hide V.RejectBlock, V.Reset, V.EndIfClosed, Valid;
      ghost var before := View();
      streams := streams[id := s];
      if h.contentLength.Malformed? {
        RejectBlock(id);
        return;
      }
      var next := s.state.ReceiveHeaders(endStream);
      if next.None? {
        Reset(id, StreamClosedError, 0);
        return;
      }
      var t := s.(state := next.value, expected := V.Declared(h), initialHeaders := !h.informational);
      PutTwice(before, id, s, t);
      streams := streams[id := t];
      if h.informational && endStream {
        Reset(id, ProtocolError, 0);
        return;
      }
      if endStream && t.expected.Some? && t.expected.value != 0 && !h.noContentStatus && s.verb != Some(Head) {
        Reset(id, ProtocolError, 0);
        return;
      }
      Queue(HeadersReceived(id, h, endStream));
      EndIfClosed(id, endStream);
    }

    method HandleRstStream(id: nat, code: ErrorCode) returns (error: Option<H2Error>)
      requires Valid()
      modifies this`streams, this`events, this`log, closed
      ensures Valid() && Matches(old(V.OnRstStream(View(), id, code)), error, View())
    {
      hide V.Remember;
      if IsIdle(id) {
        return Some(ConnectionFailed(ProtocolError));
      }
      if id in streams {
        Queue(StreamReset(id, code, 0));
        Drop(id);
      }
      return None;
    }

    method HandleWindowUpdate(id: nat, increment: nat) returns (error: Option<H2Error>, ghost order: seq<nat>)
      requires Valid() && Inv(View())
      modifies this, closed
      ensures Valid() && (id == 0 && error.None? ==> old(V.IsOrder(View(), order)))
      ensures Matches(old(V.OnWindowUpdate(View(), id, increment, order)), error, View())
    {
      hide V.FlushAll, V.FlushAndClose, V.Reset, Core, Calm, WithinLimit;
      order := [];
      if id == 0 {
        if sendWindow + increment > MAX_WINDOW {
          return Some(ConnectionFailed(FlowControlError)), order;
        }
        GrantKeeps(View(), increment);
        ghost var start := View();
        sendWindow, granted := sendWindow + increment, granted + increment;
        assert V.Queued(start) == V.Queued(View());
        order := FlushAllStreamData();
      } else {
        if IsIdle(id) {
          return Some(ConnectionFailed(ProtocolError)), order;
        }
        if id in streams {
          var s := streams[id];
          if s.state.Closed? {
            return None, order;
          }
          if s.sendWindow + increment > MAX_WINDOW {
            Reset(id, FlowControlError, 0);
            return None, order;
          }
          streams := streams[id := s.(sendWindow := s.sendWindow + increment, granted := s.granted + increment)];
          error := FlushAndClose(id);
          if error.Some? {
            return;
          }
        }
      }
      Queue(WindowUpdateReceived(id, increment));
      error := None;
    }

    /** Moves every stream's send window by the change of the initial window. */
    method UpdateStreamWindows(initial: nat) returns (error: Option<H2Error>)
      requires Valid()
      modifies this`streams
      ensures Valid()
      ensures error == if V.AllFit(old(streams), initial) then None else Some(ConnectionFailed(FlowControlError))
      ensures error.None? ==> View() == old(V.ShiftAll(View(), initial))
    {
      hide V.Shift, V.ShiftAll, V.AllFit, Valid, Shifting;
      ghost var start := streams;
      var todo := streams.Keys;
      ShiftNone(start, initial);
      while todo != {}
        invariant todo <= streams.Keys && Shifting(start, streams, todo, initial)
        decreases |todo|
      {
        var id :| id in todo;
        ShiftOne(start, streams, todo, id, initial);
        todo := todo - {id};
        var s := V.Shift(streams[id], initial);
        if s.sendWindow > MAX_WINDOW {
          return Some(ConnectionFailed(FlowControlError));
        }
        streams := streams[id := s];
      }
      AllShifted(old(View()), initial, streams);
      return None;
    }

    /** Takes over the peer's settings. */
    method Reconfigure(settings: Settings) returns (error: Option<H2Error>)
      requires Valid()
      modifies this`streams, this`remote
      ensures Valid() && Matches(old(V.Reconfigure(View(), settings)), error, View())
    {
      hide V.AllFit, V.ShiftAll;
      var initial := remote.initialWindow;
      remote := settings;
      error := None;
      if settings.initialWindow != initial {
        error := UpdateStreamWindows(settings.initialWindow);
      }
    }

    /** Acknowledges the settings before sending what they let out. */
    method Acknowledge() returns (ghost order: seq<nat>)
      requires Valid() && Core(View(), 0)
      modifies this, closed
      ensures Valid() && old(V.IsOrder(View(), order)) && old(V.Acknowledge(View(), order)) == Ok(View())
    {
      hide V.FlushAll, Core, V.IsOrder;
      AckKeeps(View());
      AckOrder(View());
      SendFrame(SettingsAck);
      order := FlushAllStreamData();
      Queue(SettingsReceived);
      if phase.Preface? {
        phase := V.Active;
      }
    }

    method HandleSettings(settings: Settings) returns (error: Option<H2Error>, ghost order: seq<nat>)
      requires Valid() && Inv(View()) && settings.Valid()
      modifies this, closed
      ensures Valid() && (error.None? ==> old(V.IsOrder(View(), order)))
      ensures Matches(old(V.OnSettings(View(), settings, order)), error, View())
    {
      hide V.Acknowledge, V.Reconfigure, Core, Calm, WithinLimit, V.IsOrder;
      order := [];
      ghost var start := View();
      error := Reconfigure(settings);
      if error.Some? {
        return;
      }
      ReconfigureKeeps(start, settings);
      order := Acknowledge();
      ReconfigureOrder(start, settings, order);
    }

    method HandleGoaway(code: ErrorCode)
      requires Valid()
      modifies this
      ensures Valid() && Ok(View()) == old(V.OnGoaway(View(), code))
    {
      phase := V.GoawayGot;
      Queue(GoawayReceived(code));
    }

    method HandleUnknown(id: nat)
      requires Valid()
      modifies this, closed
      ensures Valid() && Ok(View()) == old(V.OnUnknown(View(), id))
    {
      hide V.Reset;
      if id in streams && streams[id].connectEstablished {
        Reset(id, ProtocolError, 0);
      }
    }
  }

  /** Acknowledging changes nothing that is queued. */
  lemma AckOrder(c: V.Conn)
    ensures forall order: seq<nat> :: V.IsOrder(c.Emit(SettingsAck), order) <==> V.IsOrder(c, order)
  {
    assert V.Queued(c.Emit(SettingsAck)) == V.Queued(c);
  }

  /** Every stream but those still to do has its new window, and it fits. */
  ghost predicate Shifting(start: map<nat, V.Stream>, streams: map<nat, V.Stream>, todo: set<nat>, initial: nat) {
    && streams.Keys == start.Keys
    && (forall id :: id in todo && id in start ==> streams[id] == start[id])
    && (forall id :: id in start && id !in todo ==>
          streams[id] == V.Shift(start[id], initial) && streams[id].sendWindow <= MAX_WINDOW)
  }

  lemma ShiftNone(streams: map<nat, V.Stream>, initial: nat)
    ensures Shifting(streams, streams, streams.Keys, initial)
  {
  }

  lemma ShiftOne(start: map<nat, V.Stream>, streams: map<nat, V.Stream>, todo: set<nat>, id: nat, initial: nat)
    requires Shifting(start, streams, todo, initial) && id in todo && id in streams
    ensures var s := V.Shift(streams[id], initial);
            if s.sendWindow > MAX_WINDOW then !V.AllFit(start, initial)
            else Shifting(start, streams[id := s], todo - {id}, initial)
  {
    hide V.Shift;
  }

  lemma AllShifted(c: V.Conn, initial: nat, streams: map<nat, V.Stream>)
    requires Shifting(c.streams, streams, {}, initial)
    ensures c.(streams := streams) == V.ShiftAll(c, initial) && V.AllFit(c.streams, initial)
  {
    hide V.Shift;
    assert streams == V.ShiftAll(c, initial).streams;
  }

  lemma PutTwice(c: V.Conn, id: nat, s: V.Stream, t: V.Stream)
    ensures c.streams[id := s][id := t] == c.streams[id := t]
  {
  }

  lemma NothingToFlush(c: V.Conn)
    ensures V.FlushAll(c, []) == Ok(c)
  {
  }

  lemma EmptyOrder()
    ensures V.Distinct([]) && V.Lists([], {})
  {
  }

  lemma OrderGrows(order: seq<nat>, waiting: set<nat>, todo: set<nat>, id: nat)
    requires V.Distinct(order) && V.Lists(order, waiting - (todo + {id})) && id in waiting && id !in todo && todo <= waiting
    ensures V.Distinct(order + [id]) && V.Lists(order + [id], waiting - todo)
  {
    assert id !in order;
  }

  lemma {:induction false} FlushAllSnoc(c: V.Conn, order: seq<nat>, id: nat)
    requires V.FlushAll(c, order).Ok?
    ensures V.FlushAll(c, order + [id]) == V.FlushAndClose(V.FlushAll(c, order).value, id)
    decreases |order|
  {
    hide V.FlushAndClose;
    if order == [] {
      assert [id][1..] == [];
    } else {
      assert (order + [id])[1..] == order[1..] + [id];
      FlushAllSnoc(V.FlushAndClose(c, order[0]).value, order[1..], id);
    }
  }

  lemma SizeIs(c: V.Conn, s: V.Stream, n: nat)
    requires n == V.Min(|s.buffer|, V.Min(V.Min(V.Available(c.sendWindow), V.Available(s.sendWindow)), c.remote.maxFrame))
    ensures n == V.SliceSize(c, s) <= |s.buffer|
  {
  }

  lemma SliceLeaves(c: V.Conn, id: nat, n: nat, d: V.Conn)
    requires id in c.streams && 0 < n <= |c.streams[id].buffer| && V.SendSlice(c, id, n) == Ok(d)
    ensures id in d.streams && |d.streams[id].buffer| == |c.streams[id].buffer| - n
  {
  }
}
