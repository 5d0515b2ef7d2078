/** What a connection keeps true in every reachable state. */
module H2Invariant {
  import opened Base
  import opened H2Types
  import opened H2History
  import opened H2Connection

  /** All that the histories say of one stream. */
  datatype Facts = Facts(
    out: seq<Byte>, ended: bool, aborted: bool, accepted: seq<Byte>,
    trace: Trace, body: nat, declared: Option<nat>, wasReset: bool)

  function FactsOf(wire: seq<Frame>, log: seq<Event>, sends: seq<Accepted>, id: nat): Facts {
    Facts(DataOut(wire, id), EndOut(wire, id), ResetOut(wire, id), DataAccepted(sends, id),
          TraceOf(log, id), BodyLength(log, id), DeclaredLength(log, id), WasReset(log, id))
  }

  const NO_FACTS := Facts([], false, false, [], Before, 0, None, false)

  function WithFrame(x: Facts, f: Frame, id: nat): Facts {
    x.(out := x.out + DataIn(f, id), ended := x.ended || EndsIn(f, id), aborted := x.aborted || ResetsIn(f, id))
  }

  function WithEvent(x: Facts, e: Event, id: nat): Facts {
    x.(trace := Next(x.trace, e, id), body := x.body + BodyIn(e, id),
       declared := if e.HeadersReceived? && e.id == id then Declared(e.headers) else x.declared,
       wasReset := x.wasReset || (e.StreamReset? && e.id == id))
  }

  function Know(c: Conn, id: nat): Facts {
    FactsOf(c.wire, c.log, c.sends, id)
  }

  lemma EmitFacts(c: Conn, f: Frame, id: nat)
    ensures FactsOf(c.wire + [f], c.log, c.sends, id) == WithFrame(Know(c, id), f, id)
  {
    ExtendWire(c.wire, f, id);
  }

  lemma QueueFacts(wire: seq<Frame>, log: seq<Event>, sends: seq<Accepted>, e: Event, id: nat)
    ensures FactsOf(wire, log + [e], sends, id) == WithEvent(FactsOf(wire, log, sends, id), e, id)
  {
    ExtendLog(log, e, id);
  }

  lemma AcceptFacts(c: Conn, id: nat, data: seq<Byte>, other: nat)
    ensures FactsOf(c.wire, c.log, c.sends + [Accepted(id, data)], other)
         == (if other == id then Know(c, other).(accepted := Know(c, other).accepted + data) else Know(c, other))
  {
    ExtendSends(c.sends, Accepted(id, data), other);
  }

  // ---- One stream ----

  /** The first header block of the stream has begun and is not whole. */
  predicate UnderWay(c: Conn, id: nat) {
    c.open.Some? && c.open.value.isNew && c.open.value.id == id
  }

  /** Identifiers that no stream has used yet: a server's streams come from the peer in
      increasing order, a client's from its own counter. */
  predicate Unused(c: Conn, id: nat) {
    if c.role.Server? then id > c.lastRecv || UnderWay(c, id) else id >= c.nextId
  }

  /** Conservation: what went out and what is queued is what was accepted; the end goes out
      last and once; windows stay within bounds and count what was granted and sent. */
  predicate SendingOk(c: Conn, s: Stream, x: Facts) {
    && !s.state.Idle?
    && (HasQueued(s) ==> s.state.CanSend())
    && |s.buffer| <= DEFAULT_WINDOW
    && x.out + s.buffer == x.accepted
    && (x.ended <==> s.state.HalfClosedLocal? || s.state.Closed?)
    && !x.aborted
    && s.sendInitial == c.remote.initialWindow
    && s.sendWindow == s.sendInitial + s.granted - |x.out|
    && -MAX_WINDOW <= s.sendWindow - s.sendInitial && s.sendWindow <= MAX_WINDOW
    && 0 <= s.recvWindow <= MAX_WINDOW
  }

  /** On a server, the events so far are a message up to where the peer has sent it, and the
      body counters are what the events say. */
  predicate ReceivingOk(s: Stream, x: Facts) {
    && x.trace == Message(s.state.HalfClosedRemote? || s.state.Closed?)
    && s.initialHeaders && !s.noContent
    && x.body == s.received && x.declared == s.expected
    && (s.expected.Some? ==> s.received <= s.expected.value)
  }

  /** A stream that is gone: nothing was lost unless it was reset, and nothing after its end. */
  predicate GoneOk(c: Conn, id: nat, x: Facts) {
    && x.out <= x.accepted
    && (!x.wasReset || x.ended ==> x.out == x.accepted)
    && (c.role.Server? ==> x.trace.Before? || x.trace.Over?)
    && (Unused(c, id) ==> x == NO_FACTS)
  }

  predicate StreamOk(c: Conn, id: nat) {
    && (id in c.streams || id in c.closed ==> !Unused(c, id))
    && !(id in c.streams && id in c.closed)
    && (id in c.streams ==>
          SendingOk(c, c.streams[id], Know(c, id)) && (c.role.Server? ==> ReceivingOk(c.streams[id], Know(c, id))))
    && (id !in c.streams ==> GoneOk(c, id, Know(c, id)))
  }

  // ---- The connection ----

  /** The windows of the connection count what was granted, sent, charged and refilled; every
      octet charged was reported, but for padding and what is still to be reported. */
  predicate CreditOk(c: Conn, unreported: nat) {
    && c.sendWindow == DEFAULT_WINDOW + c.granted - TotalOut(c.wire)
    && 0 <= c.sendWindow <= MAX_WINDOW
    && c.recvWindow == DEFAULT_WINDOW + c.refilled - c.charged
    && 0 <= c.recvWindow <= MAX_WINDOW
    && c.charged == Reported(c.log) + c.padding + unreported
  }

  /** What is noted of a block is about the one under way; a client's is on a stream of its own. */
  predicate BlockOk(c: Conn) {
    match c.open
    case None => !c.refused && !c.tunnelled
    case Some(b) =>
      && b.id % 2 == 1 && b.id <= c.lastRecv
      && (c.refused ==> b.isNew) && (c.tunnelled ==> !b.isNew) && (c.role.Client? ==> !b.isNew)
  }

  predicate ConnOk(c: Conn) {
    && c.remote.Valid() && c.local.Valid()
    && Orderly(c.wire)
    && BlockOk(c)
    && (c.role.Server? ==> BodiesFit(c.log))
    && (c.role.Client? ==> c.lastRecv < c.nextId)
  }

  ghost predicate Core(c: Conn, unreported: nat) {
    CreditOk(c, unreported) && ConnOk(c) && forall id: nat :: StreamOk(c, id)
  }

  /** Between operations a stream is not closed, its end waits only behind data, and data
      waits only for want of credit. */
  predicate CalmStream(c: Conn, s: Stream) {
    && !s.state.Closed?
    && (s.pendingEnd ==> s.buffer != [])
    && (s.buffer != [] ==> c.sendWindow <= 0 || s.sendWindow <= 0)
  }

  predicate Calm(c: Conn) {
    forall id :: id in c.streams ==> CalmStream(c, c.streams[id])
  }

  /** Room kept for the stream whose first header block is under way. */
  function Reserved(c: Conn): nat {
    if c.open.Some? && c.open.value.isNew && !c.refused then 1 else 0
  }

  /** A server never has more streams than it advertised. */
  predicate WithinLimit(c: Conn) {
    c.role.Server? && c.local.maxConcurrent.Some? ==> |c.streams| + Reserved(c) <= c.local.maxConcurrent.value
  }

  ghost predicate Inv(c: Conn) {
    Core(c, 0) && Calm(c) && WithinLimit(c)
  }

  lemma NewConnOk(role: Role, local: Settings, remote: Settings)
    requires local.Valid() && remote.Valid()
    ensures Inv(NewConn(role, local, remote))
  {
    var c := NewConn(role, local, remote);
    forall id: nat ensures StreamOk(c, id) {
    }
  }

  // ---- Steps that every operation is made of ----

  function Optional<T>(x: Option<T>): seq<T> {
    if x.Some? then [x.value] else []
  }

  predicate FrameOf(f: Frame, id: nat) {
    f.Data? || f.HeaderBlock? || f.RstStream? ==> f.id == id
  }

  predicate EventOf(e: Event, id: nat) {
    match e
    case HeadersReceived(i, _, _) => i == id
    case DataReceived(i, _, _) => i == id
    case TrailersReceived(i, _) => i == id
    case StreamClosed(i) => i == id
    case StreamReset(i, _, _) => i == id
    case _ => true
  }

  function AfterFrame(x: Facts, f: Option<Frame>, id: nat): Facts {
    if f.Some? then WithFrame(x, f.value, id) else x
  }

  function AfterEvent(x: Facts, e: Option<Event>, id: nat): Facts {
    if e.Some? then WithEvent(x, e.value, id) else x
  }

  function OctetsOf(f: Option<Frame>): nat {
    if f.Some? then Octets(f.value) else 0
  }

  function CreditOf(e: Option<Event>): nat {
    if e.Some? then CreditIn(e.value) else 0
  }

  /** The header block under way is the same, or is over. */
  predicate NextBlock(c: Conn, d: Conn) {
    || (d.open == c.open && d.tunnelled == c.tunnelled && d.refused == c.refused)
    || (d.open.None? && !d.tunnelled && !d.refused)
  }

  /** At most one frame and one event, both about one stream, and no other stream touched. */
  predicate Steps(c: Conn, d: Conn, id: nat, f: Option<Frame>, e: Option<Event>) {
    && d.wire == c.wire + Optional(f) && d.log == c.log + Optional(e) && d.sends == c.sends
    && (f.Some? ==> FrameOf(f.value, id)) && (e.Some? ==> EventOf(e.value, id))
    && d.role == c.role && d.local == c.local && d.remote == c.remote
    && d.nextId >= c.nextId && d.lastRecv >= c.lastRecv && NextBlock(c, d)
    && d.streams - {id} == c.streams - {id}
    && d.closed <= c.closed + {id}
  }

  lemma StepFacts(c: Conn, d: Conn, id: nat, f: Option<Frame>, e: Option<Event>, other: nat)
    requires Steps(c, d, id, f, e)
    ensures Know(d, other) == AfterEvent(AfterFrame(Know(c, other), f, other), e, other)
    ensures other != id ==> Know(d, other) == Know(c, other)
  {
    hide DataOut, EndOut, ResetOut, DataAccepted, TraceOf, BodyLength, DeclaredLength, WasReset;
    assert c.wire + [] == c.wire && c.log + [] == c.log;
    if f.Some? {
      ExtendWire(c.wire, f.value, other);
    }
    if e.Some? {
      ExtendLog(c.log, e.value, other);
    }
  }

  lemma StepTotals(c: Conn, d: Conn, id: nat, f: Option<Frame>, e: Option<Event>)
    requires Steps(c, d, id, f, e)
    ensures TotalOut(d.wire) == TotalOut(c.wire) + OctetsOf(f)
    ensures Reported(d.log) == Reported(c.log) + CreditOf(e)
    ensures Orderly(d.wire) <==> Orderly(c.wire) && (f.Some? ==> MayFollow(c.wire, f.value))
    ensures BodiesFit(d.log) <==> BodiesFit(c.log) && (e.Some? ==> FitsDeclared(c.log, e.value))
  {
    hide TotalOut, Reported, Orderly, BodiesFit;
    assert c.wire + [] == c.wire && c.log + [] == c.log;
    if f.Some? {
      ExtendWire(c.wire, f.value, id);
    }
    if e.Some? {
      ExtendLog(c.log, e.value, id);
    }
  }

  /** The books of the connection after a step. */
  predicate Balances(c: Conn, d: Conn, f: Option<Frame>, e: Option<Event>, before: int, after: int) {
    && d.sendWindow - c.sendWindow == d.granted - c.granted - OctetsOf(f)
    && 0 <= d.sendWindow <= MAX_WINDOW
    && d.recvWindow - c.recvWindow == d.refilled - c.refilled - (d.charged - c.charged)
    && 0 <= d.recvWindow <= MAX_WINDOW
    && d.charged + before == c.charged + CreditOf(e) + d.padding - c.padding + after
  }

  /** A step keeps everything if it keeps its own stream. */
  lemma StepKeeps(c: Conn, d: Conn, id: nat, f: Option<Frame>, e: Option<Event>, before: nat, after: nat)
    requires Core(c, before) && Steps(c, d, id, f, e) && Balances(c, d, f, e, before, after)
    requires f.Some? ==> MayFollow(c.wire, f.value)
    requires e.Some? && c.role.Server? ==> FitsDeclared(c.log, e.value)
    requires c.role.Client? ==> d.lastRecv < d.nextId
    requires StreamOk(d, id)
    ensures Core(d, after)
  {
    hide FactsOf, Orderly, BodiesFit, TotalOut, Reported, MayFollow, FitsDeclared, SendingOk, ReceivingOk, GoneOk;
    StepTotals(c, d, id, f, e);
    forall other: nat ensures StreamOk(d, other) {
      if other != id {
        StepKeepsOther(c, d, id, f, e, other);
      }
    }
  }

  lemma StepKeepsOther(c: Conn, d: Conn, id: nat, f: Option<Frame>, e: Option<Event>, other: nat)
    requires StreamOk(c, other) && Steps(c, d, id, f, e) && other != id
    ensures StreamOk(d, other)
  {
    hide FactsOf;
    StepFacts(c, d, id, f, e, other);
    assert other in d.streams <==> other in d.streams - {id};
    assert other in c.streams <==> other in c.streams - {id};
    assert other in c.streams ==> (d.streams - {id})[other] == (c.streams - {id})[other];
  }

  /** A stream that can still send has neither ended nor been reset. */
  lemma MessageMayFollow(c: Conn, f: Frame)
    requires (f.Data? || f.HeaderBlock?) && StreamOk(c, f.id) && f.id in c.streams && c.streams[f.id].state.CanSend()
    ensures MayFollow(c.wire, f)
  {
  }

  // ---- Sending data ----

  /** One slice of a stream's queue goes out: no error, and all is kept. */
  lemma SliceKeeps(c: Conn, id: nat, n: nat)
    requires Core(c, 0) && id in c.streams && 0 < n <= SliceSize(c, c.streams[id])
    ensures SendSlice(c, id, n).Ok? && Core(SendSlice(c, id, n).value, 0)
  {
    hide FactsOf, Orderly, BodiesFit, TotalOut, Reported, MayFollow;
    assert StreamOk(c, id);
    var s := c.streams[id];
    var f := Data(id, s.buffer[..n], s.pendingEnd && s.buffer[n..] == []);
    var d := SendSlice(c, id, n).value;
    MessageMayFollow(c, f);
    SliceKeepsOwn(c, id, n, f);
    StepKeeps(c, d, id, Some(f), None, 0, 0);
  }

  lemma SliceKeepsOwn(c: Conn, id: nat, n: nat, f: Frame)
    requires StreamOk(c, id) && c.remote.Valid() && id in c.streams && 0 < n <= SliceSize(c, c.streams[id])
    requires f == Data(id, c.streams[id].buffer[..n], c.streams[id].pendingEnd && c.streams[id].buffer[n..] == [])
    requires SendSlice(c, id, n).Ok?
    ensures StreamOk(SendSlice(c, id, n).value, id)
  {
    hide FactsOf;
    EmitFacts(c, f, id);
    var s := c.streams[id];
    assert s.buffer == s.buffer[..n] + s.buffer[n..];
  }

  lemma EmptyEndKeeps(c: Conn, id: nat)
    requires Core(c, 0)
    ensures SendEmptyEnd(c, id).Ok? && Core(SendEmptyEnd(c, id).value, 0)
  {
    hide FactsOf, Orderly, BodiesFit, TotalOut, Reported, MayFollow;
    assert StreamOk(c, id);
    if id in c.streams && c.streams[id].pendingEnd && c.streams[id].buffer == [] {
      var f := Data(id, [], true);
      var d := SendEmptyEnd(c, id).value;
      MessageMayFollow(c, f);
      EmitFacts(c, f, id);
      StepKeeps(c, d, id, Some(f), None, 0, 0);
    }
  }

  /** A stream both sides have ended is dropped; on a server that ends its events. */
  lemma CloseKeeps(c: Conn, id: nat)
    requires Core(c, 0) && id in c.streams && c.streams[id].state.Closed?
    ensures Core(c.Queue(StreamClosed(id)).Drop(id), 0)
  {
    hide FactsOf, Orderly, BodiesFit, TotalOut, Reported, MayFollow, Remember;
    assert StreamOk(c, id);
    var d := c.Queue(StreamClosed(id)).Drop(id);
    QueueFacts(c.wire, c.log, c.sends, StreamClosed(id), id);
    assert d.streams - {id} == c.streams - {id};
    StepKeeps(c, d, id, None, Some(StreamClosed(id)), 0, 0);
  }

  /** A reset reports what the stream error cost and drops the stream if it still exists. */
  lemma ResetKeeps(c: Conn, id: nat, code: ErrorCode, consumed: nat)
    requires Core(c, consumed) && !c.IsIdle(id) && (id !in c.streams ==> consumed == 0)
    requires id in c.streams || !UnderWay(c, id)
    requires c.role.Client? ==> id % 2 == 1 || id in c.streams || id in c.closed
    ensures Core(Reset(c, id, code, consumed), 0)
  {
    hide FactsOf, Orderly, BodiesFit, TotalOut, Reported, Remember;
    assert StreamOk(c, id);
    var d := Reset(c, id, code, consumed);
    var f := RstStream(id, code);
    EmitFacts(c, f, id);
    assert d.streams - {id} == c.streams - {id};
    if id in c.streams {
      var e := StreamReset(id, code, consumed);
      QueueFacts(c.wire + [f], c.log, c.sends, e, id);
      StepKeeps(c, d, id, Some(f), Some(e), consumed, 0);
    } else {
      StepKeeps(c, d, id, Some(f), None, consumed, 0);
    }
  }

  /** A header block is whole, and its identifier has been seen. */
  predicate Arrives(c: Conn, d: Conn, id: nat) {
    && d == c.(lastRecv := d.lastRecv, open := None, tunnelled := false, refused := false)
    && c.lastRecv <= d.lastRecv && id <= d.lastRecv
  }

  /** A stream that is refused before it exists leaves only the reset behind. */
  lemma RefuseKeeps(c: Conn, d: Conn, id: nat, code: ErrorCode)
    requires Core(c, 0) && id !in c.streams && Unused(c, id) && c.role.Server? && Arrives(c, d, id)
    ensures Core(Reset(Ensure(d, id), id, code, 0), 0)
  {
    hide FactsOf, Orderly, BodiesFit, TotalOut, Reported, Remember;
    assert StreamOk(c, id);
    var r := Reset(Ensure(d, id), id, code, 0);
    var f, e := RstStream(id, code), StreamReset(id, code, 0);
    EmitFacts(c, f, id);
    QueueFacts(c.wire + [f], c.log, c.sends, e, id);
    assert r.streams == c.streams;
    StepKeeps(c, r, id, Some(f), Some(e), 0, 0);
  }

  /** Data taken into a stream's queue. */
  lemma QueueDataKeeps(c: Conn, id: nat, data: seq<Byte>, endStream: bool)
    requires Core(c, 0) && id in c.streams && c.streams[id].state.CanSend() && QueueData(c, id, data, endStream).Ok?
    ensures Core(QueueData(c, id, data, endStream).value, 0)
  {
    hide FactsOf, Orderly, BodiesFit, TotalOut, Reported;
    var d := QueueData(c, id, data, endStream).value;
    forall other: nat ensures StreamOk(d, other) {
      assert StreamOk(c, other);
      AcceptFacts(c, id, data, other);
      if other == id {
        assert c.streams[id].buffer + data == d.streams[id].buffer;
      }
    }
  }
}
