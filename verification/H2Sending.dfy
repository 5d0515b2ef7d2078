/** Sending keeps the invariant of a connection, loses nothing and never stalls. */
module H2Sending {
  import opened Base
  import opened H2Types
  import opened H2History
  import opened H2Connection
  import opened H2Invariant

  // ---- Flushing ----

  /** Nothing is left queued that the windows would let out, and no end waits alone. */
  predicate Drained(c: Conn, id: nat) {
    id in c.streams ==>
      var s := c.streams[id];
      && (s.pendingEnd ==> s.buffer != [])
      && (s.buffer != [] ==> c.sendWindow <= 0 || s.sendWindow <= 0)
  }

  /** What is taken off a window was available in it. */
  predicate Spends(before: int, after: int) {
    after <= before && before - after <= Available(before)
  }

  /** Flushing changes one stream, takes as much off its window as off the connection's and no
      more than was available in either, and writes DATA frames of that stream, none longer than
      the peer allows. */
  ghost predicate Flushes(c: Conn, d: Conn, id: nat) {
    && d == c.(streams := d.streams, sendWindow := d.sendWindow, wire := d.wire)
    && d.streams - {id} == c.streams - {id} && (id in d.streams <==> id in c.streams)
    && Spends(c.sendWindow, d.sendWindow)
    && (id in c.streams ==>
          && Spends(c.streams[id].sendWindow, d.streams[id].sendWindow)
          && c.streams[id].sendWindow - d.streams[id].sendWindow == c.sendWindow - d.sendWindow)
    && |c.wire| <= |d.wire|
    && (forall k :: 0 <= k < |c.wire| ==> d.wire[k] == c.wire[k])
    && (forall k :: |c.wire| <= k < |d.wire| ==>
          d.wire[k].Data? && d.wire[k].id == id && |d.wire[k].data| <= c.remote.maxFrame)
  }

  lemma SliceFlushes(c: Conn, id: nat, n: nat)
    requires id in c.streams && n <= SliceSize(c, c.streams[id]) && SendSlice(c, id, n).Ok?
    ensures Flushes(c, SendSlice(c, id, n).value, id)
  {
  }

  lemma FlushesTwice(c: Conn, d: Conn, e: Conn, id: nat)
    requires Flushes(c, d, id) && Flushes(d, e, id)
    ensures Flushes(c, e, id)
  {
  }

  /** Flushing cannot fail, and lets out all that the windows permit. */
  lemma {:induction false} FlushKeeps(c: Conn, id: nat)
    requires Core(c, 0)
    ensures Flush(c, id).Ok?
    ensures Core(Flush(c, id).value, 0) && Drained(Flush(c, id).value, id) && Flushes(c, Flush(c, id).value, id)
    decreases if id in c.streams then |c.streams[id].buffer| else 0
  {
    hide StreamOk, CreditOk, SendSlice, Flushes;
    if id !in c.streams || c.streams[id].buffer == [] {
      EmptyEndKeeps(c, id);
      EmptyEndFlushes(c, id);
    } else {
      var n := SliceSize(c, c.streams[id]);
      if n == 0 {
        assert Flushes(c, c, id) by { NothingFlushes(c, id); }
      } else {
        SliceKeeps(c, id, n);
        var d := SendSlice(c, id, n).value;
        SliceFlushes(c, id, n);
        SliceShrinks(c, id, n);
        if n < |c.streams[id].buffer| {
          FlushKeeps(d, id);
          FlushesTwice(c, d, Flush(d, id).value, id);
        }
      }
    }
  }

  lemma NothingFlushes(c: Conn, id: nat)
    ensures Flushes(c, c, id)
  {
  }

  lemma EmptyEndFlushes(c: Conn, id: nat)
    requires SendEmptyEnd(c, id).Ok? && (id !in c.streams || c.streams[id].buffer == [])
    ensures Flushes(c, SendEmptyEnd(c, id).value, id) && Drained(SendEmptyEnd(c, id).value, id)
  {
  }

  lemma SliceShrinks(c: Conn, id: nat, n: nat)
    requires id in c.streams && 0 < n <= |c.streams[id].buffer| && SendSlice(c, id, n).Ok?
    ensures var d := SendSlice(c, id, n).value;
            && id in d.streams && |d.streams[id].buffer| == |c.streams[id].buffer| - n
            && (n == |c.streams[id].buffer| ==> Drained(d, id))
  {
  }

  /** What flushing and then dropping a finished stream may change. */
  ghost predicate Settles(c: Conn, d: Conn, id: nat) {
    && d.role == c.role && d.local == c.local && d.remote == c.remote && d.phase == c.phase
    && d.open == c.open && d.refused == c.refused
    && d.streams - {id} == c.streams - {id} && d.streams.Keys <= c.streams.Keys
    && d.sendWindow <= c.sendWindow
    && (id in d.streams ==> CalmStream(d, d.streams[id]))
  }

  lemma FlushAndCloseKeeps(c: Conn, id: nat)
    requires Core(c, 0)
    ensures FlushAndClose(c, id).Ok?
    ensures Core(FlushAndClose(c, id).value, 0) && Settles(c, FlushAndClose(c, id).value, id)
  {
    hide FactsOf, ReceivingOk, CreditOk, Flush, Remember;
    FlushKeeps(c, id);
    var d := Flush(c, id).value;
    assert StreamOk(d, id);
    if id in d.streams && d.streams[id].state.Closed? {
      CloseKeeps(d, id);
      assert (d.streams - {id}) - {id} == d.streams - {id};
    }
    SameKeys(c, d, id);
  }

  lemma SameKeys(c: Conn, d: Conn, id: nat)
    requires d.streams - {id} == c.streams - {id} && (id in d.streams ==> id in c.streams)
    ensures d.streams.Keys <= c.streams.Keys
  {
    forall k | k in d.streams ensures k in c.streams {
      if k != id {
        assert k in d.streams - {id};
      }
    }
  }

  /** Every other stream stays as calm as it was. */
  lemma OthersStayCalm(c: Conn, d: Conn, id: nat, other: nat)
    requires Settles(c, d, id) && other in d.streams && (other in c.streams && other != id ==> CalmStream(c, c.streams[other]))
    ensures CalmStream(d, d.streams[other])
  {
    if other != id {
      assert other in d.streams - {id};
      assert (d.streams - {id})[other] == d.streams[other];
      assert (c.streams - {id})[other] == c.streams[other];
    }
  }

  /** Serving every stream that needs it leaves all calm, in whatever order. */
  lemma {:induction false} FlushAllKeeps(c: Conn, order: seq<nat>)
    requires Core(c, 0)
    requires forall id :: id in c.streams && id !in order ==> CalmStream(c, c.streams[id])
    ensures FlushAll(c, order).Ok?
    ensures var d := FlushAll(c, order).value;
            && Core(d, 0) && Calm(d) && d.streams.Keys <= c.streams.Keys
            && d.role == c.role && d.local == c.local && d.phase == c.phase
            && d.open == c.open && d.refused == c.refused
    decreases |order|
  {
    hide Core, FlushAndClose, CalmStream;
    if order != [] {
      FlushAndCloseKeeps(c, order[0]);
      var d := FlushAndClose(c, order[0]).value;
      forall id | id in d.streams && id !in order[1..] ensures CalmStream(d, d.streams[id]) {
        assert id != order[0] ==> id !in order;
        OthersStayCalm(c, d, order[0], id);
      }
      FlushAllKeeps(d, order[1..]);
    }
  }

  lemma FewerStreams(c: Conn, d: Conn)
    requires WithinLimit(c) && d.role == c.role && d.local == c.local && d.streams.Keys <= c.streams.Keys
    requires Reserved(d) <= Reserved(c)
    ensures WithinLimit(d)
  {
    SubsetCount(d.streams.Keys, c.streams.Keys);
    assert |c.streams| == |c.streams.Keys| && |d.streams| == |d.streams.Keys|;
  }

  lemma {:induction false} SubsetCount(a: set<nat>, b: set<nat>)
    requires a <= b
    ensures |a| <= |b|
  {
    assert b == a + (b - a);
    assert |b| == |a| + |b - a|;
  }

  /** From calm before to calm after, when only one stream was served. */
  lemma SettlesKeepsInv(c: Conn, d: Conn, id: nat)
    requires Calm(c) && WithinLimit(c) && Settles(c, d, id) && Core(d, 0)
    ensures Inv(d)
  {
    hide Core, CalmStream, WithinLimit;
    FewerStreams(c, d);
    forall other | other in d.streams ensures CalmStream(d, d.streams[other]) {
      OthersStayCalm(c, d, id, other);
    }
  }

  // ---- Operations of the application ----

  lemma SendDataKeeps(c: Conn, id: nat, data: seq<Byte>, endStream: bool)
    requires Inv(c)
    ensures SendData(c, id, data, endStream).Ok? ==> Inv(SendData(c, id, data, endStream).value)
    ensures SendData(c, id, data, endStream).Err? ==> SendData(c, id, data, endStream).error.StreamFailed?
  {
    hide Core, FlushAndClose, CalmStream, WithinLimit;
    if id in c.streams && !c.streams[id].pendingEnd && c.streams[id].state.CanSend() && QueueData(c, id, data, endStream).Ok? {
      var d := QueueData(c, id, data, endStream).value;
      QueueDataKeeps(c, id, data, endStream);
      FlushAndCloseKeeps(d, id);
      var e := FlushAndClose(d, id).value;
      assert d.streams - {id} == c.streams - {id};
      assert d.streams.Keys == c.streams.Keys;
      SettlesKeepsInv(c, e, id);
    }
  }

  /** A header block of this side, with or without the end. */
  lemma HeaderBlockKeeps(c: Conn, d: Conn, id: nat, h: Headers, endStream: bool)
    requires Inv(c) && id in c.streams && id in d.streams && c.streams[id].state.SendHeaders(endStream).Some?
    requires endStream ==> c.streams[id].buffer == []
    requires d == c.Put(id, d.streams[id]).Emit(HeaderBlock(id, h, endStream))
    requires d.streams[id] == c.streams[id].(state := c.streams[id].state.SendHeaders(endStream).value,
                                             finalResponse := d.streams[id].finalResponse,
                                             connectEstablished := d.streams[id].connectEstablished)
    ensures Inv(EndIfClosed(d, id, endStream))
  {
    hide FactsOf, Orderly, BodiesFit, TotalOut, Reported, MayFollow, WithinLimit, Remember;
    var f := HeaderBlock(id, h, endStream);
    assert StreamOk(c, id);
    MessageMayFollow(c, f);
    EmitFacts(c, f, id);
    assert d.streams - {id} == c.streams - {id};
    assert CalmStream(c, c.streams[id]);
    StepKeeps(c, d, id, Some(f), None, 0, 0);
    if endStream && d.streams[id].state.Closed? {
      CloseKeeps(d, id);
    }
    HeaderBlockSettles(c, d, id, endStream);
  }

  lemma HeaderBlockSettles(c: Conn, d: Conn, id: nat, endStream: bool)
    requires Calm(c) && WithinLimit(c) && id in c.streams && id in d.streams
    requires d == c.Put(id, d.streams[id]).(wire := d.wire) && Core(EndIfClosed(d, id, endStream), 0)
    requires d.streams[id] == c.streams[id].(state := d.streams[id].state,
                                             finalResponse := d.streams[id].finalResponse,
                                             connectEstablished := d.streams[id].connectEstablished)
    requires d.streams[id].state.Closed? ==> endStream
    ensures Inv(EndIfClosed(d, id, endStream))
  {
    hide Core, WithinLimit, Remember;
    var e := EndIfClosed(d, id, endStream);
    assert e.streams - {id} == c.streams - {id};
    SameKeys(c, e, id);
    SettlesKeepsInv(c, e, id);
  }

  lemma SendResponseKeeps(c: Conn, id: nat, h: Headers, endStream: bool)
    requires Inv(c)
    ensures SendResponse(c, id, h, endStream).Ok? ==> Inv(SendResponse(c, id, h, endStream).value)
  {
    hide Inv, EndIfClosed;
    if SendResponse(c, id, h, endStream).Ok? {
      var s := c.streams[id];
      var t := s.(state := s.state.SendHeaders(endStream).value,
                  finalResponse := s.finalResponse || !h.informational,
                  connectEstablished := s.connectEstablished
                                        || (h.success && s.verb == Some(Connect) && !s.hasProtocol));
      HeaderBlockKeeps(c, c.Put(id, t).Emit(HeaderBlock(id, h, endStream)), id, h, endStream);
    }
  }

  lemma SendTrailersKeeps(c: Conn, id: nat, h: Headers)
    requires Inv(c)
    ensures SendTrailers(c, id, h).Ok? ==> Inv(SendTrailers(c, id, h).value)
  {
    hide Inv, EndIfClosed;
    if SendTrailers(c, id, h).Ok? {
      var t := c.streams[id].(state := c.streams[id].state.SendHeaders(true).value);
      HeaderBlockKeeps(c, c.Put(id, t).Emit(HeaderBlock(id, h, true)), id, h, true);
    }
  }

  lemma StartStreamKeeps(c: Conn, h: Headers, endStream: bool)
    requires Inv(c)
    ensures StartStream(c, h, endStream).Ok? ==> Inv(StartStream(c, h, endStream).value)
  {
    hide FactsOf, Orderly, BodiesFit, TotalOut, Reported, OpenCount;
    if StartError(c, h).None? {
      var d := StartStream(c, h, endStream).value;
      var f := HeaderBlock(c.nextId, h, endStream);
      assert StreamOk(c, c.nextId);
      EmitFacts(c, f, c.nextId);
      NoFactsMayFollow(c, f);
      assert d.streams - {c.nextId} == c.streams - {c.nextId};
      StepKeeps(c, d, c.nextId, Some(f), None, 0, 0);
    }
  }

  lemma NoFactsMayFollow(c: Conn, f: Frame)
    requires f.HeaderBlock? && Know(c, f.id) == NO_FACTS
    ensures MayFollow(c.wire, f)
  {
  }

  /** A reset keeps the invariant if and only if it is not of a stream whose first header block
      is under way. */
  lemma ResetStreamKeeps(c: Conn, id: nat, code: ErrorCode)
    requires Inv(c) && ResetStream(c, id, code).Ok?
    ensures Inv(ResetStream(c, id, code).value) <==> !UnderWay(c, id)
  {
    hide Core, Reset;
    if UnderWay(c, id) {
      UnderWayIsNew(c, id);
      ResetBreaks(c, id, code);
    } else {
      Resets(c, id, code, 0);
    }
  }

  lemma UnderWayIsNew(c: Conn, id: nat)
    requires Inv(c) && UnderWay(c, id)
    ensures c.role.Server? && id !in c.streams && id !in c.closed && Unused(c, id) && !c.IsIdle(id)
    ensures Know(c, id) == NO_FACTS
  {
    hide FactsOf, Orderly, BodiesFit, TotalOut, Reported;
    assert StreamOk(c, id);
  }

  /** The reset is written and recorded nowhere, and the block may still make the stream. */
  lemma ResetBreaks(c: Conn, id: nat, code: ErrorCode)
    requires Unused(c, id) && UnderWay(c, id) && id !in c.streams
    ensures Reset(c, id, code, 0) == c.Emit(RstStream(id, code))
    ensures !Inv(Reset(c, id, code, 0))
  {
    hide FactsOf, Orderly, BodiesFit, TotalOut, Reported;
    var d := Reset(c, id, code, 0);
    EmitFacts(c, RstStream(id, code), id);
    assert Know(d, id).aborted;
    assert !StreamOk(d, id);
  }

  /** A reset between operations, or while the credit of what it discards is still to be reported. */
  lemma Resets(c: Conn, id: nat, code: ErrorCode, consumed: nat)
    requires Core(c, consumed) && Calm(c) && WithinLimit(c) && !c.IsIdle(id) && (id !in c.streams ==> consumed == 0)
    requires id in c.streams || !UnderWay(c, id)
    ensures Inv(Reset(c, id, code, consumed))
  {
    hide Core, CalmStream, WithinLimit, Remember;
    ResetKeeps(c, id, code, consumed);
    var d := Reset(c, id, code, consumed);
    assert d.streams - {id} == c.streams - {id};
    SameKeys(c, d, id);
    assert id !in d.streams;
    forall other | other in d.streams ensures CalmStream(d, d.streams[other]) {
      ResetCalm(c, d, id, other);
    }
    FewerStreams(c, d);
  }

  lemma ResetCalm(c: Conn, d: Conn, id: nat, other: nat)
    requires Calm(c) && d.sendWindow == c.sendWindow && d.streams - {id} == c.streams - {id} && other in d.streams
    requires other != id
    ensures CalmStream(d, d.streams[other])
  {
    assert other in d.streams - {id};
    assert (d.streams - {id})[other] == d.streams[other];
    assert (c.streams - {id})[other] == c.streams[other];
  }

  lemma SendWindowUpdateKeeps(c: Conn, id: nat, increment: nat)
    requires Inv(c)
    ensures SendWindowUpdate(c, id, increment).Ok? ==> Inv(SendWindowUpdate(c, id, increment).value)
  {
    hide FactsOf, Orderly, BodiesFit, TotalOut, Reported, SendingOk, ReceivingOk, GoneOk;
    if SendWindowUpdate(c, id, increment).Ok? {
      var d := SendWindowUpdate(c, id, increment).value;
      var f := WindowUpdate(id, increment);
      assert StreamOk(c, id);
      if id != 0 && id in c.streams {
        StreamCreditKeeps(c, d, id, increment);
      } else {
        NeutralKeeps(c, d, id, f);
      }
      assert d.streams - {id} == c.streams - {id};
      StepKeeps(c, d, id, Some(f), None, 0, 0);
      assert d.streams.Keys == c.streams.Keys;
      FewerStreams(c, d);
    }
  }

  /** A frame that is of no stream's message concerns no stream. */
  lemma NeutralKeeps(c: Conn, d: Conn, id: nat, f: Frame)
    requires StreamOk(c, id) && (f.WindowUpdate? || f.Goaway? || f.SettingsAck?)
    requires d == c.(wire := c.wire + [f], phase := d.phase, recvWindow := d.recvWindow, refilled := d.refilled)
    ensures StreamOk(d, id)
  {
    hide FactsOf;
    EmitFacts(c, f, id);
  }

  /** More credit for the peer concerns nothing else of the stream. */
  lemma StreamCreditKeeps(c: Conn, d: Conn, id: nat, increment: nat)
    requires StreamOk(c, id) && id in c.streams && c.streams[id].recvWindow + increment <= MAX_WINDOW
    requires d == c.Put(id, c.streams[id].(recvWindow := c.streams[id].recvWindow + increment)).Emit(WindowUpdate(id, increment))
    ensures StreamOk(d, id)
  {
    hide FactsOf;
    EmitFacts(c, WindowUpdate(id, increment), id);
  }

  lemma SendGoawayKeeps(c: Conn, code: ErrorCode)
    requires Inv(c)
    ensures Inv(SendGoaway(c, code).value)
  {
    hide FactsOf, Orderly, BodiesFit, TotalOut, Reported, SendingOk, ReceivingOk, GoneOk;
    var f := Goaway(code);
    assert StreamOk(c, 0);
    NeutralKeeps(c, SendGoaway(c, code).value, 0, f);
    StepKeeps(c, SendGoaway(c, code).value, 0, Some(f), None, 0, 0);
  }
}
