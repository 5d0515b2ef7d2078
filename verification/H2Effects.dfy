/** What the calls of the application do to a connection, told by what is written, queued and
    reported rather than by the fields that the calls go through. */
module H2Effects {
  import opened Base
  import opened H2Types
  import opened H2History
  import opened H2Connection
  import opened H2Invariant
  import opened H2Sending
  import opened H2Receiving
  import opened H2Runs
  import opened H2Growth

  /** The peer has ended its side. */
  predicate PeerEnded(s: Stream) {
    s.state.HalfClosedRemote? || s.state.Closed?
  }

  /** The application has ended its side, whether or not that is out yet. */
  predicate Ending(c: Conn, id: nat) {
    EndOut(c.wire, id) || (id in c.streams && c.streams[id].pendingEnd)
  }

  // ---- Serving queues ----

  /** What serving queues, of whatever streams, means for one stream: octets move from its queue
      to the wire in order and are taken off both windows; it is gone only if both sides have
      ended it. Nothing else is changed but for the reports of streams that are gone. */
  ghost predicate Serves(c: Conn, d: Conn, id: nat) {
    && d == c.(streams := d.streams, closed := d.closed, sendWindow := d.sendWindow, wire := d.wire, log := d.log)
    && c.wire <= d.wire && c.log <= d.log
    && DataOut(d.wire, id) + QueueOf(d, id) == DataOut(c.wire, id) + QueueOf(c, id)
    && d.sendWindow + TotalOut(d.wire) == c.sendWindow + TotalOut(c.wire)
    && (id in d.streams ==>
          && id in c.streams && SameRecord(c.streams[id], d.streams[id])
          && PeerEnded(d.streams[id]) == PeerEnded(c.streams[id])
          && d.streams[id].sendWindow + |DataOut(d.wire, id)| == c.streams[id].sendWindow + |DataOut(c.wire, id)|)
    && Ending(d, id) == Ending(c, id)
    && (id in c.streams && id !in d.streams ==> PeerEnded(c.streams[id]) && EndOut(d.wire, id))
    && (EndOut(c.wire, id) ==> EndOut(d.wire, id))
    && (forall k :: |c.log| <= k < |d.log| ==> d.log[k].StreamClosed?)
    && (forall k :: |c.wire| <= k < |d.wire| ==> d.wire[k].Data? && |d.wire[k].data| <= c.remote.maxFrame)
  }

  lemma ServesTwice(c: Conn, d: Conn, e: Conn, id: nat)
    requires Serves(c, d, id) && Serves(d, e, id)
    ensures Serves(c, e, id)
  {
    hide DataOut, EndOut, TotalOut;
    forall k | |c.log| <= k < |e.log| ensures e.log[k].StreamClosed? {
      if k < |d.log| {
        assert e.log[k] == d.log[k];
      }
    }
    forall k | |c.wire| <= k < |e.wire| ensures e.wire[k].Data? && |e.wire[k].data| <= c.remote.maxFrame {
      if k < |d.wire| {
        assert e.wire[k] == d.wire[k];
      }
    }
  }

  lemma ServesNot(c: Conn, id: nat)
    ensures Serves(c, c, id)
  {
  }

  /** One stream steps; what that means for it and for any other. */
  lemma StepServes(c: Conn, d: Conn, id: nat, f: Frame, other: nat)
    requires f.Data? && f.id == id && |f.data| <= c.remote.maxFrame && id in c.streams && id in d.streams
    requires d == c.Put(id, d.streams[id]).(sendWindow := c.sendWindow - |f.data|).Emit(f)
    requires SameRecord(c.streams[id], d.streams[id]) && PeerEnded(d.streams[id]) == PeerEnded(c.streams[id])
    requires c.streams[id].buffer == f.data + d.streams[id].buffer
    requires d.streams[id].sendWindow == c.streams[id].sendWindow - |f.data|
    requires if f.endStream then c.streams[id].pendingEnd && !d.streams[id].pendingEnd
             else d.streams[id].pendingEnd == c.streams[id].pendingEnd
    ensures Serves(c, d, other)
  {
    hide DataOut, EndOut, TotalOut;
    ExtendWire(c.wire, f, other);
    assert DataOut(c.wire, id) + c.streams[id].buffer == DataOut(c.wire, id) + f.data + d.streams[id].buffer;
  }

  lemma SliceServes(c: Conn, id: nat, n: nat, other: nat)
    requires id in c.streams && n <= SliceSize(c, c.streams[id]) && SendSlice(c, id, n).Ok?
    ensures Serves(c, SendSlice(c, id, n).value, other)
  {
    hide Serves, SendSlice;
    var s := c.streams[id];
    var f := Data(id, s.buffer[..n], s.pendingEnd && s.buffer[n..] == []);
    SliceIs(c, id, n, f);
    SliceLeaves(c, id, n);
    assert s.buffer == s.buffer[..n] + s.buffer[n..];
    StepServes(c, SendSlice(c, id, n).value, id, f, other);
  }

  lemma SliceIs(c: Conn, id: nat, n: nat, f: Frame)
    requires id in c.streams && n <= |c.streams[id].buffer| && SendSlice(c, id, n).Ok?
    requires f == Data(id, c.streams[id].buffer[..n], c.streams[id].pendingEnd && c.streams[id].buffer[n..] == [])
    ensures var d := SendSlice(c, id, n).value;
            id in d.streams && d == c.Put(id, d.streams[id]).(sendWindow := c.sendWindow - |f.data|).Emit(f)
  {
  }

  lemma SliceLeaves(c: Conn, id: nat, n: nat)
    requires id in c.streams && n <= |c.streams[id].buffer| && SendSlice(c, id, n).Ok?
    requires id in SendSlice(c, id, n).value.streams
    ensures var s := c.streams[id];
            var t := SendSlice(c, id, n).value.streams[id];
            var end := s.pendingEnd && s.buffer[n..] == [];
            && SameRecord(s, t) && PeerEnded(t) == PeerEnded(s)
            && t.buffer == s.buffer[n..] && t.sendWindow == s.sendWindow - n
            && t.pendingEnd == (s.pendingEnd && !end)
  {
  }

  lemma EmptyEndServes(c: Conn, id: nat, other: nat)
    requires SendEmptyEnd(c, id).Ok?
    ensures Serves(c, SendEmptyEnd(c, id).value, other)
  {
    hide Serves;
    ServesNot(c, other);
    if id in c.streams && c.streams[id].pendingEnd && c.streams[id].buffer == [] {
      var d := SendEmptyEnd(c, id).value;
      assert c.sendWindow - 0 == c.sendWindow;
      StepServes(c, d, id, Data(id, [], true), other);
    }
  }

  lemma {:induction false} FlushServes(c: Conn, id: nat, other: nat)
    requires Flush(c, id).Ok?
    ensures Serves(c, Flush(c, id).value, other)
    decreases if id in c.streams then |c.streams[id].buffer| else 0
  {
    hide Serves, SendSlice, SendEmptyEnd;
    if id !in c.streams || c.streams[id].buffer == [] {
      EmptyEndServes(c, id, other);
    } else {
      var n := SliceSize(c, c.streams[id]);
      ServesNot(c, other);
      if n > 0 {
        SliceServes(c, id, n, other);
        SliceShrinks(c, id, n);
        if n < |c.streams[id].buffer| {
          FlushServes(SendSlice(c, id, n).value, id, other);
          ServesTwice(c, SendSlice(c, id, n).value, Flush(c, id).value, other);
        }
      }
    }
  }

  /** A stream that both sides have ended is dropped and reported. */
  lemma CloseServes(c: Conn, id: nat, other: nat)
    requires StreamOk(c, id) && id in c.streams && c.streams[id].state.Closed?
    ensures Serves(c, c.Queue(StreamClosed(id)).Drop(id), other)
  {
    hide DataOut, TotalOut, FactsOf, Remember;
    hide ReceivingOk;
    KnowEnd(c, id);
  }

  lemma KnowEnd(c: Conn, id: nat)
    ensures Know(c, id).ended == EndOut(c.wire, id) && Know(c, id).out == DataOut(c.wire, id)
  {
  }

  lemma FlushAndCloseServes(c: Conn, id: nat, other: nat)
    requires Core(c, 0)
    ensures FlushAndClose(c, id).Ok? && Serves(c, FlushAndClose(c, id).value, other)
  {
    hide Serves, Flush, StreamOk, CreditOk, ConnOk;
    FlushKeeps(c, id);
    FlushServes(c, id, other);
    var d := Flush(c, id).value;
    ServesNot(d, other);
    if TryRemove(d, id) != d {
      assert StreamOk(d, id);
      CloseServes(d, id, other);
      ServesTwice(c, d, TryRemove(d, id), other);
    }
  }

  lemma {:induction false} FlushAllServes(c: Conn, order: seq<nat>, id: nat)
    requires Core(c, 0)
    ensures FlushAll(c, order).Ok? && Serves(c, FlushAll(c, order).value, id)
    decreases |order|
  {
    hide Serves, Core, FlushAndClose;
    if order == [] {
      ServesNot(c, id);
    } else {
      FlushAndCloseKeeps(c, order[0]);
      FlushAndCloseServes(c, order[0], id);
      var d := FlushAndClose(c, order[0]).value;
      FlushAllServes(d, order[1..], id);
      ServesTwice(c, d, FlushAll(d, order[1..]).value, id);
    }
  }

  /** The DATA frames of one stream, each as long as the peer allows but for the last, and none
      empty but with the end. */
  ghost predicate Fills(c: Conn, d: Conn, id: nat) {
    && c.wire <= d.wire && d.remote == c.remote
    && forall k :: |c.wire| <= k < |d.wire| ==>
         && d.wire[k].Data? && d.wire[k].id == id && |d.wire[k].data| <= c.remote.maxFrame
         && (d.wire[k].data == [] ==> d.wire[k].endStream)
         && (k < |d.wire| - 1 ==> |d.wire[k].data| == c.remote.maxFrame)
  }

  lemma {:induction false} FlushFills(c: Conn, id: nat)
    requires Flush(c, id).Ok?
    ensures Fills(c, Flush(c, id).value, id)
    decreases if id in c.streams then |c.streams[id].buffer| else 0
  {
    hide SendSlice, Fills;
    if id !in c.streams || c.streams[id].buffer == [] {
      EmptyEndFills(c, id);
    } else {
      var n := SliceSize(c, c.streams[id]);
      NothingFills(c, id);
      if n > 0 {
        SliceFills(c, id, n);
        SliceShrinks(c, id, n);
        if n < |c.streams[id].buffer| {
          var d := SendSlice(c, id, n).value;
          FlushFills(d, id);
          if n < c.remote.maxFrame {
            SliceExhausts(c, id, n);
          } else {
            FullThenMore(c, d, Flush(d, id).value, id);
          }
        }
      }
    }
  }

  lemma NothingFills(c: Conn, id: nat)
    ensures Fills(c, c, id)
  {
  }

  lemma EmptyEndFills(c: Conn, id: nat)
    requires SendEmptyEnd(c, id).Ok?
    ensures Fills(c, SendEmptyEnd(c, id).value, id)
  {
  }

  lemma SliceFills(c: Conn, id: nat, n: nat)
    requires id in c.streams && n == SliceSize(c, c.streams[id]) && n > 0 && SendSlice(c, id, n).Ok?
    ensures var d := SendSlice(c, id, n).value;
            Fills(c, d, id) && |d.wire| == |c.wire| + 1 && |d.wire[|c.wire|].data| == n
  {
  }

  /** A slice shorter than a frame and than the queue leaves a window empty. */
  lemma SliceExhausts(c: Conn, id: nat, n: nat)
    requires id in c.streams && n == SliceSize(c, c.streams[id]) && 0 < n < |c.streams[id].buffer|
    requires n < c.remote.maxFrame && SendSlice(c, id, n).Ok?
    ensures Flush(SendSlice(c, id, n).value, id) == SendSlice(c, id, n)
  {
    var d := SendSlice(c, id, n).value;
    assert SliceSize(d, d.streams[id]) == 0;
  }

  lemma FullThenMore(c: Conn, d: Conn, e: Conn, id: nat)
    requires Fills(c, d, id) && |d.wire| == |c.wire| + 1 && |d.wire[|c.wire|].data| == c.remote.maxFrame
    requires Fills(d, e, id)
    ensures Fills(c, e, id)
  {
    forall k | |c.wire| <= k < |e.wire|
      ensures e.wire[k].Data? && e.wire[k].id == id && |e.wire[k].data| <= c.remote.maxFrame
      ensures (e.wire[k].data == [] ==> e.wire[k].endStream)
      ensures k < |e.wire| - 1 ==> |e.wire[k].data| == c.remote.maxFrame
    {
      if k < |d.wire| {
        assert e.wire[k] == d.wire[k];
        assert k == |c.wire|;
      }
    }
  }

  /** What serving one stream does. */
  ghost predicate ServesOne(c: Conn, d: Conn, id: nat) {
    && Serves(c, d, id) && Fills(c, d, id)
    && d.streams - {id} == c.streams - {id}
    && (id in c.streams ==> (id !in d.streams <==> EndOut(d.wire, id) && PeerEnded(c.streams[id])))
    && d.log == c.log + if id in c.streams && id !in d.streams then [StreamClosed(id)] else []
  }

  lemma FlushAndCloseDoes(c: Conn, id: nat)
    requires Core(c, 0)
    ensures FlushAndClose(c, id).Ok? && ServesOne(c, FlushAndClose(c, id).value, id)
  {
    hide Core, Flush, Remember, Serves, Fills, CalmStream, EndOut, SendEmptyEnd;
    FlushKeeps(c, id);
    FlushAndCloseKeeps(c, id);
    FlushAndCloseServes(c, id, id);
    FlushIsQuiet(c, id);
    FlushFills(c, id);
    var d, e := Flush(c, id).value, FlushAndClose(c, id).value;
    assert d.streams - {id} == e.streams - {id};
    assert c.log + [] == c.log;
    FillsBefore(c, d, e, id);
    if id in c.streams {
      EndedIsGone(c, e, id);
    }
  }

  lemma FillsBefore(c: Conn, d: Conn, e: Conn, id: nat)
    requires Fills(c, d, id) && e.wire == d.wire && e.remote == d.remote
    ensures Fills(c, e, id)
  {
  }

  /** A stream that still exists has not been ended by both sides. */
  lemma EndedIsGone(c: Conn, d: Conn, id: nat)
    requires Serves(c, d, id) && Core(d, 0) && id in c.streams && (id in d.streams ==> CalmStream(d, d.streams[id]))
    ensures id !in d.streams <==> EndOut(d.wire, id) && PeerEnded(c.streams[id])
  {
    hide DataOut, EndOut, ResetOut, DataAccepted, TraceOf, BodyLength, DeclaredLength, WasReset, TotalOut, Reported;
    assert StreamOk(d, id);
  }

  // ---- Sending data ----

  /** On a stream that exists, the application may still send exactly if its side has not ended. */
  lemma MaySend(c: Conn, id: nat)
    requires Inv(c) && id in c.streams
    ensures c.streams[id].state.CanSend() <==> !EndOut(c.wire, id)
    ensures c.streams[id].pendingEnd ==> !EndOut(c.wire, id)
    ensures !c.streams[id].state.Idle? && !c.streams[id].state.Closed?
  {
    hide DataOut, EndOut, ResetOut, DataAccepted, TraceOf, BodyLength, DeclaredLength, WasReset, TotalOut, Reported;
    assert StreamOk(c, id) && CalmStream(c, c.streams[id]);
  }

  /** Data is taken if and only if the stream exists, its end was not asked for, and the queue has
      room for all of it. */
  lemma SendDataSucceeds(c: Conn, id: nat, data: seq<Byte>, endStream: bool)
    requires Inv(c)
    ensures var r := SendData(c, id, data, endStream);
            && (r.Ok? <==> id in c.streams && !Ending(c, id) && |QueueOf(c, id)| + |data| <= DEFAULT_WINDOW)
            && (r.Err? ==> r.error == StreamFailed(if id in c.streams && !Ending(c, id) then FlowControlError
                                                   else StreamClosedError))
  {
    hide Core, Calm, WithinLimit, FlushAndClose, EndOut;
    if id in c.streams {
      MaySend(c, id);
      if c.streams[id].state.CanSend() && QueueData(c, id, data, endStream).Ok? {
        QueueDataKeeps(c, id, data, endStream);
        FlushAndCloseKeeps(QueueData(c, id, data, endStream).value, id);
      }
    }
  }

  /** What it then does: the data follows what was queued, onto the wire as far as the windows
      go and into the queue for the rest, and the end with it if it was asked for. */
  lemma SendDataDoes(c: Conn, id: nat, data: seq<Byte>, endStream: bool)
    requires Inv(c) && SendData(c, id, data, endStream).Ok?
    ensures id in c.streams
    ensures var d := SendData(c, id, data, endStream).value;
            && d.sends == c.sends + [Accepted(id, data)]
            && DataOut(d.wire, id) + QueueOf(d, id) == DataOut(c.wire, id) + QueueOf(c, id) + data
            && Ending(d, id) == endStream
            && Fills(c, d, id)
            && d.sendWindow + TotalOut(d.wire) == c.sendWindow + TotalOut(c.wire)
            && (id !in d.streams <==> EndOut(d.wire, id) && PeerEnded(c.streams[id]))
            && d.log == c.log + (if id in d.streams then [] else [StreamClosed(id)])
    ensures var d := SendData(c, id, data, endStream).value;
            && d == c.(streams := d.streams, closed := d.closed, sendWindow := d.sendWindow, wire := d.wire,
                       log := d.log, sends := d.sends)
            && d.streams - {id} == c.streams - {id}
            && (id in d.streams ==>
                  && SameRecord(c.streams[id], d.streams[id]) && PeerEnded(d.streams[id]) == PeerEnded(c.streams[id])
                  && d.streams[id].sendWindow + |DataOut(d.wire, id)| == c.streams[id].sendWindow + |DataOut(c.wire, id)|)
  {
    hide Core, Calm, WithinLimit, FlushAndClose, EndOut, DataOut, TotalOut, Fills;
    SendDataSucceeds(c, id, data, endStream);
    MaySend(c, id);
    var q := QueueData(c, id, data, endStream).value;
    QueueDataKeeps(c, id, data, endStream);
    FlushAndCloseDoes(q, id);
    assert q.streams - {id} == c.streams - {id};
    FillsFrom(c, q, FlushAndClose(q, id).value, id);
  }

  lemma FillsFrom(c: Conn, q: Conn, d: Conn, id: nat)
    requires Fills(q, d, id) && q.wire == c.wire && q.remote == c.remote
    ensures Fills(c, d, id)
  {
  }

  // ---- Credit and settings of the peer ----

  /** Credit for the connection is refused if and only if it takes the window past the largest;
      otherwise it goes to the queues, and the application is told. */
  lemma OnConnWindowDoes(c: Conn, increment: nat, order: seq<nat>, id: nat)
    requires Inv(c) && IsOrder(c, order)
    ensures var r := OnWindowUpdate(c, 0, increment, order);
            && (r.Err? <==> c.sendWindow + increment > MAX_WINDOW)
            && (r.Err? ==> r.error == ConnectionFailed(FlowControlError))
            && (r.Ok? ==>
                  && r.value.sendWindow + TotalOut(r.value.wire) == c.sendWindow + TotalOut(c.wire) + increment
                  && r.value.granted == c.granted + increment
                  && r.value.log != [] && r.value.log[|r.value.log| - 1] == WindowUpdateReceived(0, increment)
                  && Serves(c.(sendWindow := c.sendWindow + increment, granted := c.granted + increment),
                            r.value.(log := r.value.log[..|r.value.log| - 1]), id))
  {
    hide Core, FlushAll, TotalOut;
    OnConnWindowKeeps(c, increment, order);
    if c.sendWindow + increment <= MAX_WINDOW {
      var g := Grant(c, increment);
      GrantKeeps(c, increment);
      FlushAllServes(g, order, id);
      var f := FlushAll(g, order).value;
      var d := OnWindowUpdate(c, 0, increment, order).value;
      assert d.log[..|d.log| - 1] == f.log;
      assert d.(log := d.log[..|d.log| - 1]) == f;
    }
  }

  /** Credit for a stream fails the connection if and only if the stream is idle, resets the stream
      if it takes its window past the largest, and otherwise goes to its queue. */
  lemma OnStreamWindowDoes(c: Conn, id: nat, increment: nat, order: seq<nat>)
    requires Inv(c) && id != 0
    ensures var r := OnWindowUpdate(c, id, increment, order);
            && (r.Err? <==> c.IsIdle(id)) && (r.Err? ==> r.error == ConnectionFailed(ProtocolError))
            && (r.Ok? && id !in c.streams ==> r.value == c.Queue(WindowUpdateReceived(id, increment)))
            && (r.Ok? && id in c.streams && c.streams[id].sendWindow + increment > MAX_WINDOW ==>
                  r.value == Reset(c, id, FlowControlError, 0))
            && (r.Ok? && id in c.streams && c.streams[id].sendWindow + increment <= MAX_WINDOW ==>
                  && CreditServes(c, r.value, id, increment)
                  && (id in r.value.streams ==>
                        r.value.streams[id].sendWindow + |DataOut(r.value.wire, id)|
                        == c.streams[id].sendWindow + |DataOut(c.wire, id)| + increment))
  {
    hide Core, FlushAndClose, Fills, WithinLimit, DataOut, Reset;
    OnStreamWindowKeeps(c, id, increment, order);
    if id in c.streams {
      assert CalmStream(c, c.streams[id]);
      var s := c.streams[id];
      if s.sendWindow + increment <= MAX_WINDOW {
        var g := c.Put(id, s.(sendWindow := s.sendWindow + increment, granted := s.granted + increment));
        GrantStreamKeeps(c, id, increment);
        FlushAndCloseDoes(g, id);
        var d := OnWindowUpdate(c, id, increment, order).value;
        assert d.log[..|d.log| - 1] == FlushAndClose(g, id).value.log;
        assert d.(log := d.log[..|d.log| - 1]) == FlushAndClose(g, id).value;
      }
    }
  }

  /** The credit is in the window and the queue has been served with it; then the application is told. */
  ghost predicate CreditServes(c: Conn, d: Conn, id: nat, increment: nat)
    requires id in c.streams
  {
    var s := c.streams[id];
    && d.log != [] && d.log[|d.log| - 1] == WindowUpdateReceived(id, increment)
    && ServesOne(c.Put(id, s.(sendWindow := s.sendWindow + increment, granted := s.granted + increment)),
                 d.(log := d.log[..|d.log| - 1]), id)
  }

  /** Settings are refused if and only if they take the window of a stream past the largest. */
  lemma OnSettingsSucceeds(c: Conn, settings: Settings, order: seq<nat>)
    requires Inv(c) && settings.Valid() && IsOrder(c, order)
    ensures var r := OnSettings(c, settings, order);
            && (r.Err? <==> exists id :: id in c.streams
                              && c.streams[id].sendWindow + settings.initialWindow - c.remote.initialWindow > MAX_WINDOW)
            && (r.Err? ==> r.error == ConnectionFailed(FlowControlError))
  {
    hide Core, FlushAll, WithinLimit, Calm, IsOrder;
    OnSettingsKeeps(c, settings, order);
    forall id | id in c.streams
      ensures c.streams[id].sendInitial == c.remote.initialWindow && c.streams[id].sendWindow <= MAX_WINDOW
    {
      WindowsFit(c, id);
    }
  }

  lemma WindowsFit(c: Conn, id: nat)
    requires Inv(c) && id in c.streams
    ensures c.streams[id].sendInitial == c.remote.initialWindow && c.streams[id].sendWindow <= MAX_WINDOW
  {
    hide FactsOf;
    assert StreamOk(c, id);
  }

  /** What they then do: they are acknowledged and taken over, the window of every stream moves by
      the change of the initial window, and the queues are served with what that lets out. */
  lemma OnSettingsDoes(c: Conn, settings: Settings, order: seq<nat>, id: nat)
    requires Inv(c) && settings.Valid() && IsOrder(c, order) && OnSettings(c, settings, order).Ok?
    ensures var d := OnSettings(c, settings, order).value;
            && d.remote == settings
            && d.phase == (if c.phase.Preface? then Active else c.phase)
            && c.wire + [SettingsAck] <= d.wire
            && (forall k :: |c.wire| < k < |d.wire| ==> d.wire[k].Data? && |d.wire[k].data| <= settings.maxFrame)
            && d.log != [] && d.log[|d.log| - 1] == SettingsReceived
            && c.log <= d.log[..|d.log| - 1]
            && (forall k :: |c.log| <= k < |d.log| - 1 ==> d.log[k].StreamClosed?)
            && d == c.(remote := settings, phase := d.phase, streams := d.streams, closed := d.closed,
                       sendWindow := d.sendWindow, wire := d.wire, log := d.log)
    ensures var d := OnSettings(c, settings, order).value;
            && d.sendWindow + TotalOut(d.wire) == c.sendWindow + TotalOut(c.wire)
            && DataOut(d.wire, id) + QueueOf(d, id) == DataOut(c.wire, id) + QueueOf(c, id)
            && Ending(d, id) == Ending(c, id)
            && (id in d.streams ==>
                  && id in c.streams && SameRecord(c.streams[id], d.streams[id].(sendInitial := c.streams[id].sendInitial))
                  && PeerEnded(d.streams[id]) == PeerEnded(c.streams[id])
                  && d.streams[id].sendWindow + |DataOut(d.wire, id)| - settings.initialWindow
                     == c.streams[id].sendWindow + |DataOut(c.wire, id)| - c.remote.initialWindow)
            && (id in c.streams && id !in d.streams ==> PeerEnded(c.streams[id]) && EndOut(d.wire, id))
  {
    hide Core, FlushAll, Reconfigure, WithinLimit, Calm, IsOrder, DataOut, EndOut, TotalOut, AllFit, Shift;
    OnSettingsKeeps(c, settings, order);
    var m := Reconfigure(c, settings).value;
    ReconfigureKeeps(c, settings);
    AckKeeps(m);
    var g := m.Emit(SettingsAck);
    FlushAllServes(g, order, id);
    var f := FlushAll(g, order).value;
    var d := OnSettings(c, settings, order).value;
    assert d.log[..|d.log| - 1] == f.log;
    if id in c.streams {
      WindowsFit(c, id);
    }
    ReconfiguredIs(c, settings, id);
    ReconfiguresOnly(c, settings);
    AckIsNoData(c, m, settings, id);
    assert c.wire + [SettingsAck] == g.wire;
  }

  lemma ReconfiguredIs(c: Conn, settings: Settings, id: nat)
    requires Reconfigure(c, settings).Ok? && (id in c.streams ==> c.streams[id].sendInitial == c.remote.initialWindow)
    ensures var m := Reconfigure(c, settings).value;
            && (id in m.streams <==> id in c.streams)
            && (id in c.streams ==>
                  m.streams[id] == c.streams[id].(
                    sendWindow := c.streams[id].sendWindow + settings.initialWindow - c.remote.initialWindow,
                    sendInitial := settings.initialWindow))
  {
    hide AllFit, Shift;
    if id in c.streams {
      ShiftIs(c.streams[id], settings.initialWindow);
    }
  }

  lemma ShiftIs(s: Stream, initial: nat)
    ensures Shift(s, initial) == s.(sendWindow := s.sendWindow + initial - s.sendInitial, sendInitial := initial)
    ensures initial == s.sendInitial ==> Shift(s, initial) == s
  {
  }

  lemma ReconfiguresOnly(c: Conn, settings: Settings)
    requires Reconfigure(c, settings).Ok?
    ensures var m := Reconfigure(c, settings).value; m == c.(remote := settings, streams := m.streams)
  {
    hide AllFit;
  }

  lemma AckIsNoData(c: Conn, m: Conn, settings: Settings, id: nat)
    requires m == c.(remote := settings, streams := m.streams)
    requires id in m.streams <==> id in c.streams
    requires id in c.streams ==> m.streams[id].buffer == c.streams[id].buffer
                                 && m.streams[id].pendingEnd == c.streams[id].pendingEnd
    ensures var g := m.Emit(SettingsAck);
            && DataOut(g.wire, id) == DataOut(c.wire, id) && TotalOut(g.wire) == TotalOut(c.wire)
            && QueueOf(g, id) == QueueOf(c, id) && Ending(g, id) == Ending(c, id)
  {
    hide DataOut, EndOut, TotalOut;
    ExtendWire(c.wire, SettingsAck, id);
    assert DataOut(c.wire, id) + [] == DataOut(c.wire, id);
  }

  // ---- Other calls ----

  /** A stream is started if and only if this is a client, the request is one the peer can take, no
      GOAWAY was the last thing that came, and there is a number for it; it is then on the wire. */
  lemma StartStreamDoes(c: Conn, h: Headers, endStream: bool)
    requires Inv(c)
    ensures StartStream(c, h, endStream).Ok? <==>
            && c.role.Client? && h.validRequest && !c.phase.GoawayGot? && c.nextId <= STREAM_ID_MAX
            && (c.remote.maxConcurrent.Some? ==> |c.streams| < c.remote.maxConcurrent.value)
            && (c.remote.maxHeaderList.Some? ==> h.listSize <= c.remote.maxHeaderList.value)
            && (h.hasProtocol ==> c.remote.enableConnect) && (h.isWebTransport ==> c.remote.wtEnabled)
    ensures StartStream(c, h, endStream).Ok? ==>
              var d := StartStream(c, h, endStream).value;
              var id := c.nextId;
              && id !in c.streams && id !in c.closed && Know(c, id) == NO_FACTS
              && d == c.(nextId := id + 2, streams := d.streams, wire := c.wire + [HeaderBlock(id, h, endStream)])
              && id in d.streams && d.streams == c.streams[id := d.streams[id]]
              && Ending(d, id) == endStream && !PeerEnded(d.streams[id]) && d.streams[id].buffer == []
              && d.streams[id].sendWindow == c.remote.initialWindow && d.streams[id].recvWindow == c.local.initialWindow
              && d.streams[id].verb == h.requestMethod && d.streams[id].hasProtocol == (h.requestMethod.Some? && h.hasProtocol)
              && !d.streams[id].initialHeaders && !d.streams[id].finalResponse && !d.streams[id].connectEstablished
  {
    hide DataOut, EndOut, ResetOut, DataAccepted, TraceOf, BodyLength, DeclaredLength, WasReset, TotalOut, Reported,
         SendingOk, ReceivingOk, Orderly, BodiesFit, OpenCount;
    AllOpen(c);
    assert StreamOk(c, c.nextId);
    ExtendWire(c.wire, HeaderBlock(c.nextId, h, endStream), c.nextId);
  }

  /** A header block of this side is on the wire, and the stream is gone if that ended both sides. */
  ghost predicate Announces(c: Conn, d: Conn, id: nat, h: Headers, endStream: bool)
    requires id in c.streams
  {
    && d == c.(streams := d.streams, closed := d.closed, wire := c.wire + [HeaderBlock(id, h, endStream)], log := d.log)
    && d.streams - {id} == c.streams - {id}
    && (id !in d.streams <==> endStream && PeerEnded(c.streams[id]))
    && d.log == c.log + (if id in d.streams then [] else [StreamClosed(id)])
    && d.closed == (if id in d.streams then c.closed else Remember(c.closed, id))
    && (id in d.streams ==>
          && d.streams[id] == c.streams[id].(state := d.streams[id].state, finalResponse := d.streams[id].finalResponse,
                                             connectEstablished := d.streams[id].connectEstablished)
          && PeerEnded(d.streams[id]) == PeerEnded(c.streams[id])
          && (d.streams[id].state.CanSend() <==> !endStream))
  }

  /** A response is sent if and only if it is a valid one, comes while this side has not ended, is
      the only final one, is none on a tunnel, and any end it has leaves no data behind. */
  lemma SendResponseSucceeds(c: Conn, id: nat, h: Headers, endStream: bool)
    requires Inv(c)
    ensures SendResponse(c, id, h, endStream).Ok? <==>
            && id in c.streams && !EndOut(c.wire, id) && !c.streams[id].connectEstablished
            && h.validResponse && (h.informational ==> !endStream)
            && (c.streams[id].finalResponse ==> h.informational)
            && (c.remote.maxHeaderList.Some? ==> h.listSize <= c.remote.maxHeaderList.value)
            && (endStream ==> c.streams[id].buffer == [])
    ensures SendResponse(c, id, h, endStream).Err? ==> SendResponse(c, id, h, endStream).error.StreamFailed?
  {
    hide Core, Calm, WithinLimit, EndOut, Remember, EndIfClosed;
    if id in c.streams {
      MaySend(c, id);
      HeadersMayGo(c.streams[id].state, endStream);
    }
  }

  lemma SendResponseDoes(c: Conn, id: nat, h: Headers, endStream: bool)
    requires Inv(c) && SendResponse(c, id, h, endStream).Ok?
    ensures id in c.streams
    ensures var d := SendResponse(c, id, h, endStream).value;
            && Announces(c, d, id, h, endStream)
            && (id in d.streams ==>
                  && d.streams[id].finalResponse == (c.streams[id].finalResponse || !h.informational)
                  && d.streams[id].connectEstablished
                     == (h.success && c.streams[id].verb == Some(Connect) && !c.streams[id].hasProtocol))
  {
    hide Core, Calm, WithinLimit, EndOut, Remember, Announces, EndIfClosed;
    MaySend(c, id);
    var s := c.streams[id];
    var t := s.(state := s.state.SendHeaders(endStream).value,
                finalResponse := s.finalResponse || !h.informational,
                connectEstablished := s.connectEstablished
                                      || (h.success && s.verb == Some(Connect) && !s.hasProtocol));
    HeadersAnnounce(c, id, t, h, endStream);
  }

  lemma HeadersAnnounce(c: Conn, id: nat, t: Stream, h: Headers, endStream: bool)
    requires id in c.streams && !c.streams[id].state.Idle? && !c.streams[id].state.Closed?
    requires c.streams[id].state.SendHeaders(endStream).Some?
    requires t == c.streams[id].(state := c.streams[id].state.SendHeaders(endStream).value,
                                 finalResponse := t.finalResponse, connectEstablished := t.connectEstablished)
    ensures var d := EndIfClosed(c.Put(id, t).Emit(HeaderBlock(id, h, endStream)), id, endStream);
            && Announces(c, d, id, h, endStream)
            && (id in d.streams ==> d.streams[id] == t && (endStream ==> t.state.HalfClosedLocal?))
  {
    hide Remember;
    HeadersMayGo(c.streams[id].state, endStream);
    assert c.Put(id, t).streams - {id} == c.streams - {id};
    assert (c.Put(id, t).streams - {id}) - {id} == c.streams - {id};
    assert c.log + [] == c.log;
  }

  lemma HeadersMayGo(state: StreamState, endStream: bool)
    requires !state.Idle? && !state.Closed?
    ensures state.SendHeaders(endStream).Some? <==> state.CanSend()
    ensures state.CanSend() ==> var next := state.SendHeaders(endStream).value;
              && (next.CanSend() <==> !endStream)
              && (next.Closed? <==> endStream && state.HalfClosedRemote?)
              && (next.HalfClosedRemote? || next.Closed? <==> state.HalfClosedRemote?)
  {
  }

  /** Trailers are sent if and only if they are valid, come after all data and, on a server, after
      the final response; they end this side. */
  lemma SendTrailersSucceeds(c: Conn, id: nat, h: Headers)
    requires Inv(c)
    ensures SendTrailers(c, id, h).Ok? <==>
            && id in c.streams && !EndOut(c.wire, id) && !c.streams[id].connectEstablished
            && h.validTrailers && (c.role.Server? ==> c.streams[id].finalResponse)
            && (c.remote.maxHeaderList.Some? ==> h.listSize <= c.remote.maxHeaderList.value)
            && c.streams[id].buffer == []
    ensures SendTrailers(c, id, h).Err? ==> SendTrailers(c, id, h).error.StreamFailed?
  {
    hide Core, Calm, WithinLimit, EndOut, Remember, EndIfClosed;
    if id in c.streams {
      MaySend(c, id);
      HeadersMayGo(c.streams[id].state, true);
    }
  }

  lemma SendTrailersDoes(c: Conn, id: nat, h: Headers)
    requires Inv(c) && SendTrailers(c, id, h).Ok?
    ensures id in c.streams
    ensures var d := SendTrailers(c, id, h).value;
            && Announces(c, d, id, h, true)
            && (id in d.streams ==> d.streams[id] == c.streams[id].(state := HalfClosedLocal))
  {
    hide Core, Calm, WithinLimit, EndOut, Remember, Announces, EndIfClosed;
    MaySend(c, id);
    HeadersAnnounce(c, id, c.streams[id].(state := c.streams[id].state.SendHeaders(true).value), h, true);
  }

  /** A stream is over at once: the peer is told, and the application if the stream existed. */
  ghost predicate Aborts(c: Conn, d: Conn, id: nat, code: ErrorCode, consumed: nat) {
    && d == c.(streams := c.streams - {id}, closed := d.closed, wire := c.wire + [RstStream(id, code)], log := d.log)
    && d.log == c.log + (if id in c.streams then [StreamReset(id, code, consumed)] else [])
    && d.closed == (if id in c.streams then Remember(c.closed, id) else c.closed)
  }

  lemma ResetAborts(c: Conn, id: nat, code: ErrorCode, consumed: nat)
    ensures Aborts(c, Reset(c, id, code, consumed), id, code, consumed)
  {
    hide Remember;
    assert c.log + [] == c.log;
    assert id !in c.streams ==> c.streams - {id} == c.streams;
  }

  lemma ResetStreamDoes(c: Conn, id: nat, code: ErrorCode)
    ensures ResetStream(c, id, code).Ok? <==> id != 0 && !c.IsIdle(id)
    ensures ResetStream(c, id, code).Ok? ==> Aborts(c, ResetStream(c, id, code).value, id, code, 0)
    ensures ResetStream(c, id, code).Err? ==>
              ResetStream(c, id, code).error == if id == 0 then ConnectionFailed(ProtocolError) else StreamFailed(ProtocolError)
  {
    hide Aborts, Reset;
    ResetAborts(c, id, code, 0);
  }

  /** What the peer may still send, on the connection (0) or on a stream that exists. */
  function Allowance(c: Conn, id: nat): int {
    if id == 0 then c.recvWindow else if id in c.streams then c.streams[id].recvWindow else 0
  }

  /** Credit is granted if and only if there is some and the window stays within the largest; the
      peer is told of exactly as much as the window is extended by. */
  lemma SendWindowUpdateSucceeds(c: Conn, id: nat, increment: nat)
    requires Inv(c)
    ensures SendWindowUpdate(c, id, increment).Ok? <==> increment > 0 && Allowance(c, id) + increment <= MAX_WINDOW
    ensures SendWindowUpdate(c, id, increment).Err? ==>
              SendWindowUpdate(c, id, increment).error
              == ConnectionFailed(if increment == 0 then ProtocolError else FlowControlError)
  {
    hide FactsOf, Orderly, BodiesFit, TotalOut, Reported;
    assert StreamOk(c, id);
  }

  lemma SendWindowUpdateDoes(c: Conn, id: nat, increment: nat)
    requires SendWindowUpdate(c, id, increment).Ok?
    ensures var d := SendWindowUpdate(c, id, increment).value;
            && d == c.(recvWindow := d.recvWindow, refilled := d.refilled, streams := d.streams,
                       wire := c.wire + [WindowUpdate(id, increment)])
            && d.streams - {id} == c.streams - {id}
            && (id == 0 ==> d.streams == c.streams && d.recvWindow == c.recvWindow + increment)
            && (id != 0 ==> d.recvWindow == c.recvWindow && (id in d.streams <==> id in c.streams))
            && (id != 0 && id in c.streams ==>
                  d.streams[id] == c.streams[id].(recvWindow := c.streams[id].recvWindow + increment))
  {
    var d := SendWindowUpdate(c, id, increment).value;
    assert d.streams - {id} == c.streams - {id};
  }
}
