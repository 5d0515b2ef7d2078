/** What may fall between the frames of a header block, and what it does to the stream. */
module H2Blocks {
  import opened Base
  import opened H2Types
  import opened H2History
  import opened H2Connection
  import opened H2Invariant
  import opened H2Sending
  import opened H2Receiving
  import opened H2Runs

  /** A request that a server takes when its block is whole. */
  predicate Takes(c: Conn, h: Headers, endStream: bool) {
    && h.hasPseudo && h.validRequest && !(h.hasProtocol && !c.local.enableConnect)
    && !h.contentLength.Malformed? && !(endStream && Declared(h).Some? && Declared(h).value != 0)
  }

  /** A reset, from the application or for a broken frame of the peer. */
  predicate Resetting(i: Input, id: nat, code: ErrorCode) {
    i == DoReset(id, code) || i == GetBroken(id, code)
  }

  /** The record of the stream that a request opens. */
  function Requested(c: Conn, h: Headers, endStream: bool): Stream {
    var n := c.NewStream();
    (if h.requestMethod.Some? then n.(verb := h.requestMethod, hasProtocol := h.hasProtocol) else n)
      .(state := if endStream then HalfClosedRemote else Open, expected := Declared(h), initialHeaders := true)
  }

  /** A reset of a stream whose first block is under way is written and leaves no trace; the
      rest of the block then makes the stream, and a response follows the reset. */
  lemma ResetIsOvertaken(c: Conn, i: Input, code: ErrorCode, h: Headers, response: Headers)
    requires Inv(c) && c.open.Some? && c.open.value.isNew && !c.refused
    requires Resetting(i, c.open.value.id, code) && Takes(c, h, c.open.value.endStream)
    requires response.validResponse && !ListTooLong(c, response)
    ensures var b := c.open.value;
            var d := After(After(After(c, i), GetLast(h)), DoRespond(b.id, response, false));
            && d.wire == c.wire + [RstStream(b.id, code), HeaderBlock(b.id, response, false)]
            && d.log == c.log + [HeadersReceived(b.id, h, b.endStream)]
            && b.id in d.streams && !Orderly(d.wire)
  {
    hide Inv, Apply, Orderly, FactsOf, Perform, Requested;
    var b := c.open.value;
    var first := After(c, i);
    UnderWayIsNew(c, b.id);
    FlagsAreDown(c);
    ResetLeavesNothing(c, i, code);
    BlockIsTaken(first, h);
    var second := After(first, GetLast(h));
    RequestedCanAnswer(first, h, b.endStream);
    ResponseGoesOut(second, b.id, response);
    var d := After(second, DoRespond(b.id, response, false));
    var f, g := RstStream(b.id, code), HeaderBlock(b.id, response, false);
    assert d.wire == c.wire + [f] + [g];
    ExtendWire(c.wire, f, b.id);
    ExtendWire(c.wire + [f], g, b.id);
    assert c.wire + [f] + [g] == c.wire + [f, g];
  }

  lemma ResetLeavesNothing(c: Conn, i: Input, code: ErrorCode)
    requires c.open.Some? && c.open.value.id !in c.streams && !c.IsIdle(c.open.value.id) && c.open.value.id != 0
    requires Resetting(i, c.open.value.id, code)
    ensures After(c, i) == c.Emit(RstStream(c.open.value.id, code))
  {
  }

  lemma BlockIsTaken(c: Conn, h: Headers)
    requires c.open.Some? && c.role.Server? && !c.refused && !c.tunnelled
    requires c.open.value.id !in c.streams && c.open.value.id !in c.closed && Takes(c, h, c.open.value.endStream)
    ensures var b := c.open.value;
            var e := HeadersReceived(b.id, h, b.endStream);
            After(c, GetLast(h)) == Take(c.(open := None), b.id, Requested(c, h, b.endStream), e)
  {
    hide Reset;
    var d := c.(open := None);
    EnsureTwice(d, c.open.value.id, d.NewStream());
  }

  lemma RequestedCanAnswer(c: Conn, h: Headers, endStream: bool)
    ensures var s := Requested(c, h, endStream); s.state.CanSend() && !s.connectEstablished && !s.finalResponse
  {
  }

  lemma ResponseGoesOut(c: Conn, id: nat, response: Headers)
    requires id in c.streams && c.streams[id].state.CanSend() && !c.streams[id].connectEstablished
    requires !c.streams[id].finalResponse && response.validResponse && !ListTooLong(c, response)
    ensures var d := After(c, DoRespond(id, response, false));
            d.wire == c.wire + [HeaderBlock(id, response, false)] && d.log == c.log && id in d.streams
  {
  }

  /** So it is from the start: a peer that leaves a header block open, and a reset before it is
      whole. */
  lemma ResetIsOvertakenAtOnce(local: Settings, remote: Settings, i: Input, code: ErrorCode, h: Headers, response: Headers)
    requires local.Valid() && remote.Valid() && local.maxConcurrent.None? && remote.maxHeaderList.None?
    requires Resetting(i, 1, code) && response.validResponse
    requires h.hasPseudo && h.validRequest && !h.hasProtocol && h.contentLength.Absent?
    ensures var c := After(NewConn(Server, local, remote), GetFirst(1, false));
            var d := After(After(After(c, i), GetLast(h)), DoRespond(1, response, false));
            && Inv(c) && UnderWay(c, 1) && !Allowed(c, i)
            && d.wire == [RstStream(1, code), HeaderBlock(1, response, false)]
            && d.log == [HeadersReceived(1, h, false)]
  {
    hide Inv, OpenCount, FactsOf;
    var n := NewConn(Server, local, remote);
    var c := After(n, GetFirst(1, false));
    NewConnOk(Server, local, remote);
    ApplyKeeps(n, GetFirst(1, false));
    ResetIsOvertaken(c, i, code, h, response);
  }

  /** A stream that was dropped and forgotten between the frames of a block comes back when the
      block is whole: its events start again after they were over. */
  lemma ForgottenComesBack(c: Conn, h: Headers)
    requires Inv(c) && c.role.Server? && c.open.Some? && !Remembers(c) && Takes(c, h, c.open.value.endStream)
    requires !c.tunnelled && TraceOf(c.log, c.open.value.id).Over?
    ensures var id := c.open.value.id;
            var d := After(c, GetLast(h));
            && id in d.streams && d.log == c.log + [HeadersReceived(id, h, c.open.value.endStream)]
            && TraceOf(d.log, id).Wrong?
  {
    hide Inv, Apply, Requested, TraceOf;
    var b := c.open.value;
    FlagsAreDown(c);
    BlockIsTaken(c, h);
    ExtendLog(c.log, HeadersReceived(b.id, h, b.endStream), b.id);
  }
}
