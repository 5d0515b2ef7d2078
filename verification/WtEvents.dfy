/** What the application of a session is told: streams open in order, each stream's data
    arrives whole and in order, and nothing follows its end. */
module WtEvents {
  import opened Base
  import opened Bounded
  import opened WtTypes
  import opened WtHistory
  import opened WtSession
  import opened WtInvariant
  import opened WtReceive
  import opened WtAccept
  import opened WtProtocol

  /** The octets carried on a stream, in order. */
  function Payload(h: seq<Capsule>, id: StreamId): seq<Byte> {
    if h == [] then []
    else Payload(h[..|h| - 1], id) + (if h[|h| - 1].WtStream? && h[|h| - 1].id == id then h[|h| - 1].data else [])
  }

  /** The octets handed to the application on a stream, in order. */
  function Delivered(log: seq<WtEvent>, id: StreamId): seq<Byte> {
    if log == [] then [] else Delivered(log[..|log| - 1], id) + DataIn(log[|log| - 1], id)
  }

  function DataIn(e: WtEvent, id: StreamId): seq<Byte> {
    if e.StreamData? && e.id == id then e.data else []
  }

  predicate EndsIn(e: WtEvent, id: StreamId) {
    (e.StreamData? && e.id == id && e.fin) || (e.StreamReset? && e.id == id)
  }

  /** Whether the application was told that a stream is over. */
  predicate Over(log: seq<WtEvent>, id: StreamId) {
    log != [] && (Over(log[..|log| - 1], id) || EndsIn(log[|log| - 1], id))
  }

  predicate OpensIn(e: WtEvent, client: bool, bidi: bool) {
    e.StreamOpened? && e.id.client == client && e.id.bidi == bidi
  }

  /** How many streams of a type the application was told of. */
  function Told(log: seq<WtEvent>, client: bool, bidi: bool): nat {
    if log == [] then 0
    else Told(log[..|log| - 1], client, bidi) + if OpensIn(log[|log| - 1], client, bidi) then 1 else 0
  }

  /** Whether e may follow log: openings come in order of index without gaps, and data or a
      reset comes only on an open stream that is not over. */
  predicate Follows(client: bool, log: seq<WtEvent>, e: WtEvent) {
    match e
    case StreamOpened(id) => id.client != client && id.index == Told(log, id.client, id.bidi)
    case StreamData(id, _, _) => !Over(log, id) && (id.client != client ==> id.index < Told(log, id.client, id.bidi))
    case StreamReset(id, _) => !Over(log, id) && (id.client != client ==> id.index < Told(log, id.client, id.bidi))
    case _ => true
  }

  predicate Orderly(client: bool, log: seq<WtEvent>) {
    log != [] ==> Orderly(client, log[..|log| - 1]) && Follows(client, log[..|log| - 1], log[|log| - 1])
  }

  lemma LogSnoc(log: seq<WtEvent>, e: WtEvent)
    ensures (log + [e])[..|log + [e]| - 1] == log && (log + [e])[|log + [e]| - 1] == e && log + [e] != []
  {
  }

  lemma ExtendLog(client: bool, log: seq<WtEvent>, e: WtEvent, id: StreamId)
    ensures Delivered(log + [e], id) == Delivered(log, id) + DataIn(e, id)
    ensures Over(log + [e], id) <==> Over(log, id) || EndsIn(e, id)
    ensures Told(log + [e], id.client, id.bidi)
         == Told(log, id.client, id.bidi) + if OpensIn(e, id.client, id.bidi) then 1 else 0
    ensures Orderly(client, log + [e]) <==> Orderly(client, log) && Follows(client, log, e)
  {
    LogSnoc(log, e);
  }

  lemma ExtendPayload(h: seq<Capsule>, c: Capsule, id: StreamId)
    ensures Payload(h + [c], id) == Payload(h, id) + (if c.WtStream? && c.id == id then c.data else [])
  {
    Snoc(h, c);
  }

  /** Counting octets and collecting them agree. */
  lemma {:induction false} SentIsPayload(h: seq<Capsule>, id: StreamId)
    ensures Sent(h, id) == |Payload(h, id)|
  {
    if h != [] {
      SentIsPayload(h[..|h| - 1], id);
    }
  }

  lemma {:induction false} PayloadPrefix(p: seq<Capsule>, h: seq<Capsule>, id: StreamId)
    requires p <= h
    ensures Payload(p, id) <= Payload(h, id)
  {
    if |p| < |h| {
      PayloadPrefix(p, h[..|h| - 1], id);
    } else {
      assert p == h;
    }
  }

  /** The application has been told of one stream exactly what was taken up on it. */
  ghost predicate ToldOf(log: seq<WtEvent>, h: seq<Capsule>, id: StreamId) {
    && Delivered(log, id) == Payload(h, id)
    && (Over(log, id) <==> Ended(h, id))
  }

  ghost predicate EventsOk(s: Session) {
    && Orderly(s.client, s.log)
    && Told(s.log, !s.client, true) == Opened(s.processed, !s.client, true)
    && Told(s.log, !s.client, false) == Opened(s.processed, !s.client, false)
    && forall id :: ToldOf(s.log, s.processed, id)
  }

  /** Nothing has been told at the start. */
  lemma NewSessionTells(client: bool, config: Config, peer: Config)
    ensures EventsOk(NewSession(client, config, peer))
  {
    var s := NewSession(client, config, peer);
    forall id ensures ToldOf(s.log, s.processed, id) {
    }
  }

  /** The receive offset of a live stream is the number of octets its application was handed. */
  lemma OffsetIsDelivered(s: Session, id: StreamId)
    requires Inv(s) && EventsOk(s) && id in s.streams && s.HasRecvPart(id)
    ensures s.streams[id].recvOffset == |Delivered(s.log, id)|
  {
    hide Sent, Ended, Stopped, Granted, Opened, Named, FlowOk, LegalScript, Delivered, Payload, Over;
    assert StreamOk(s, id) && ToldOf(s.log, s.processed, id);
    SentIsPayload(s.processed, id);
  }

  // ---- Openings ----

  /** From index k on, exactly the streams below n exist. */
  ghost predicate ExistBelow(s: Session, id: StreamId, k: nat, n: nat) {
    forall j :: UpTo(id, k, j) ==> (j in s.streams || j in s.closedSendMax <==> j.index < n)
  }

  /** log1 adds to log0 openings of streams of the type of id, count of them in all, in order. */
  ghost predicate Opens(client: bool, log0: seq<WtEvent>, log1: seq<WtEvent>, id: StreamId, count: nat, other: StreamId) {
    && Orderly(client, log1)
    && Told(log1, id.client, id.bidi) == count
    && (other.client != id.client || other.bidi != id.bidi ==>
          Told(log1, other.client, other.bidi) == Told(log0, other.client, other.bidi))
    && Delivered(log1, other) == Delivered(log0, other)
    && (Over(log1, other) <==> Over(log0, other))
  }

  /** The state in which index k + 1 is looked at. */
  ghost function AfterIndex(s: Session, id: StreamId, k: nat): Session {
    var each := id.(index := k);
    if each in s.streams || each in s.closedSendMax then s else CreatePeerStream(s, each)
  }

  lemma AfterIndexExists(s: Session, id: StreamId, k: nat, n: nat)
    requires ExistBelow(s, id, k, n) && k <= id.index
    ensures ExistBelow(AfterIndex(s, id, k), id, k + 1, n)
    ensures AfterIndex(s, id, k).log == if k < n then s.log else s.log + [StreamOpened(id.(index := k))]
    ensures AfterIndex(s, id, k).client == s.client
  {
    assert UpTo(id, k, id.(index := k));
    var t := AfterIndex(s, id, k);
    forall j | UpTo(id, k + 1, j) ensures j in t.streams || j in t.closedSendMax <==> j.index < n {
      assert UpTo(id, k, j);
    }
  }

  /** Creation announces the new streams in order and nothing else. */
  lemma {:induction false} CreateTells(s: Session, id: StreamId, k: nat, n: nat, other: StreamId)
    requires Orderly(s.client, s.log) && !s.IsLocal(id) && ExistBelow(s, id, k, n)
    requires k <= id.index + 1 && Told(s.log, id.client, id.bidi) == Max(n, k)
    ensures Opens(s.client, s.log, CreateFrom(s, id, k).log, id, Max(n, id.index + 1), other)
    decreases id.index + 1 - k
  {
    hide Orderly, Told, Delivered, Over, ExistBelow, AfterIndex;
    if k <= id.index {
      var t := AfterIndex(s, id, k);
      AfterIndexExists(s, id, k, n);
      CreateUnfolds(s, id, k);
      if k >= n {
        TellOne(s, id.(index := k), other);
      }
      CreateTells(t, id, k + 1, n, other);
    }
  }

  lemma CreateUnfolds(s: Session, id: StreamId, k: nat)
    requires k <= id.index
    ensures CreateFrom(s, id, k) == CreateFrom(AfterIndex(s, id, k), id, k + 1)
  {
  }

  lemma TellOne(s: Session, id: StreamId, other: StreamId)
    requires Orderly(s.client, s.log) && !s.IsLocal(id) && Told(s.log, id.client, id.bidi) == id.index
    ensures Opens(s.client, s.log, s.log + [StreamOpened(id)], id, id.index + 1, other)
  {
    hide Orderly, Told, Delivered, Over;
    ExtendLog(s.client, s.log, StreamOpened(id), id);
    ExtendLog(s.client, s.log, StreamOpened(id), other);
  }

  // ---- Capsules ----

  /** An event that opens no stream, and carries what the capsule carries. */
  ghost predicate Reports(e: WtEvent, c: Capsule) {
    match c
    case WtStream(id, data, fin) => e == StreamData(id, data, fin)
    case WtResetStream(id, code, _) => e == StreamReset(id, code)
    case _ => !e.StreamOpened? && !e.StreamData? && !e.StreamReset?
  }

  /** The log before the report of a capsule: the streams the capsule opens are announced. */
  ghost predicate Prepared(s: Session, log: seq<WtEvent>, c: Capsule) {
    && Orderly(s.client, log)
    && Told(log, !s.client, true) == Opened(s.processed + [c], !s.client, true)
    && Told(log, !s.client, false) == Opened(s.processed + [c], !s.client, false)
    && forall id :: ToldOf(log, s.processed, id)
  }

  /** Reporting the capsule keeps the log in order and complete. */
  lemma ReportKeeps(s: Session, t: Session, log: seq<WtEvent>, e: WtEvent, c: Capsule)
    requires Inv(s) && Prepared(s, log, c) && Reports(e, c) && Acceptable(s, c)
    requires t.client == s.client && t.processed == s.processed + [c] && t.log == log + [e]
    ensures EventsOk(t)
  {
    hide Orderly, Told, Delivered, Over, Payload, Ended, Sent, Opened, Named, Stopped, Granted, Total, StreamOk;
    ReportFollows(s, log, e, c);
    var probe := StreamId(!s.client, true, 0);
    ExtendLog(s.client, log, e, probe);
    ExtendLog(s.client, log, e, probe.(bidi := false));
    forall id ensures ToldOf(t.log, t.processed, id) {
      ExtendLog(s.client, log, e, id);
      ExtendPayload(s.processed, c, id);
      ExtendStream(s.processed, c, id);
      assert ToldOf(log, s.processed, id);
    }
  }

  lemma ReportFollows(s: Session, log: seq<WtEvent>, e: WtEvent, c: Capsule)
    requires Inv(s) && Prepared(s, log, c) && Reports(e, c) && Acceptable(s, c)
    ensures Follows(s.client, log, e)
  {
    hide Orderly, Told, Delivered, Over, Payload, Ended, Sent, Opened, Named, Stopped, Granted, Total, StreamOk;
    if c.WtStream? || c.WtResetStream? {
      assert ToldOf(log, s.processed, c.id);
      ExtendFlow(s.processed, c, c.id.client, c.id.bidi);
    }
  }

  /** Capsules that open no stream find the log prepared. */
  lemma AlreadyPrepared(s: Session, c: Capsule)
    requires EventsOk(s)
    requires Opening(c, !s.client, true) <= Opened(s.processed, !s.client, true)
    requires Opening(c, !s.client, false) <= Opened(s.processed, !s.client, false)
    ensures Prepared(s, s.log, c)
  {
    hide Orderly, Told, Delivered, Over, Payload, Ended, Opened, ToldOf;
    ExtendFlow(s.processed, c, !s.client, true);
    ExtendFlow(s.processed, c, !s.client, false);
  }

  /** Creating the streams a capsule opens prepares the log. */
  lemma CreatePrepares(s: Session, id: StreamId, c: Capsule)
    requires Inv(s) && EventsOk(s) && !s.IsLocal(id) && !Created(s, id)
    requires Names(c, id) && Opening(c, id.client, id.bidi) == id.index + 1
    ensures Prepared(s, AfterOpening(s, id, c).log, c)
  {
    hide Orderly, Told, Delivered, Over, Payload, Ended, Sent, Opened, Named, Stopped, Granted, Total, StreamOk, CreateFrom;
    var s1 := s.(processed := s.processed + [c]);
    var n := Opened(s.processed, id.client, id.bidi);
    CreatedBelow(s, s1, id, n);
    var opposite := id.(bidi := !id.bidi);
    ExtendFlow(s.processed, c, id.client, id.bidi);
    ExtendFlow(s.processed, c, id.client, opposite.bidi);
    CreateTells(s1, id, 0, n, opposite);
    forall other ensures ToldOf(AfterOpening(s, id, c).log, s.processed, other) {
      assert ToldOf(s.log, s.processed, other);
      CreateTells(s1, id, 0, n, other);
    }
  }

  lemma CreatedBelow(s: Session, s1: Session, id: StreamId, n: nat)
    requires Inv(s) && !s.IsLocal(id) && n == Opened(s.processed, id.client, id.bidi)
    requires s1.streams == s.streams && s1.closedSendMax == s.closedSendMax
    ensures ExistBelow(s1, id, 0, n)
  {
    hide Opened, Named, Stopped, Sent, Ended, Granted, Total;
    forall j | UpTo(id, 0, j) ensures j in s1.streams || j in s1.closedSendMax <==> j.index < n {
      assert StreamOk(s, j);
    }
  }

  /** A capsule that changes no data needs no report. */
  lemma SilenceKeeps(s: Session, t: Session, log: seq<WtEvent>, c: Capsule)
    requires Prepared(s, log, c) && !c.WtStream? && !c.WtResetStream?
    requires t.client == s.client && t.processed == s.processed + [c] && t.log == log
    ensures EventsOk(t)
  {
    hide Orderly, Told, Delivered, Over, Payload, Ended, Opened;
    forall id ensures ToldOf(t.log, t.processed, id) {
      ExtendPayload(s.processed, c, id);
      ExtendStream(s.processed, c, id);
      assert ToldOf(log, s.processed, id);
    }
  }

  /** The log when a capsule about a stream is acted upon. */
  ghost function LogBefore(s: Session, id: StreamId, c: Capsule): seq<WtEvent> {
    if Created(s, id) then s.log else AfterOpening(s, id, c).log
  }

  lemma LogIsPrepared(s: Session, id: StreamId, c: Capsule)
    requires Inv(s) && EventsOk(s) && Names(c, id) && Acceptable(s, c)
    ensures Prepared(s, LogBefore(s, id, c), c)
  {
    hide Orderly, Told, Delivered, Over, Payload, Ended, Sent, Opened, Named, Stopped, Granted, Total, StreamOk,
         AfterOpening, EventsOk, Prepared;
    if Created(s, id) {
      AlreadyPrepared(s, c);
    } else {
      CreatePrepares(s, id, c);
    }
  }

  /** Data adds one report after the openings. */
  lemma DataLog(s: Session, id: StreamId, data: seq<Byte>, fin: bool)
    requires Inv(s) && Acceptable(s, WtStream(id, data, fin))
    ensures HandleStreamData(s.(processed := s.processed + [WtStream(id, data, fin)]), id, data, fin).session.log
         == LogBefore(s, id, WtStream(id, data, fin)) + [StreamData(id, data, fin)]
  {
    hide Ended, Sent, Opened, Named, Stopped, Granted, Total, Acceptable, CreateFrom;
    AcceptsData(s, id, data, fin);
    assert StreamOk(s, id);
  }

  lemma StopLog(s: Session, id: StreamId, code: nat)
    requires Inv(s) && Acceptable(s, WtStopSending(id, code))
    ensures HandleStopSending(s.(processed := s.processed + [WtStopSending(id, code)]), id, code).session.log
         == LogBefore(s, id, WtStopSending(id, code)) + [StopSending(id, code)]
  {
    hide Ended, Sent, Opened, Named, Stopped, Granted, Total, Acceptable, CreateFrom, ResetStream;
    var s1 := s.(processed := s.processed + [WtStopSending(id, code)]);
    AcceptsStop(s, id, code);
    assert StreamOk(s, id);
    ResetLog(NoteStop(CreateImplicitPeerBidi(s1, id).session, id), id, code);
  }

  lemma ResetLog(s: Session, id: StreamId, code: nat)
    ensures ResetStream(s, id, code).session.log == s.log
  {
    hide MapInsert;
  }

  lemma CreditLog(s: Session, id: StreamId, maximum: nat)
    requires Inv(s) && Acceptable(s, WtMaxStreamData(id, maximum)) && maximum <= MAX_VALUE
    ensures HandleMaxStreamData(s.(processed := s.processed + [WtMaxStreamData(id, maximum)]), id, maximum).session.log
         == LogBefore(s, id, WtMaxStreamData(id, maximum))
  {
    hide Ended, Sent, Opened, Named, Stopped, Granted, Total, Acceptable, CreateFrom;
    AcceptsCredit(s, id, maximum);
    assert StreamOk(s, id);
  }

  /** Whatever a session accepts, its application is told of it in order and in full. */
  lemma HandleTells(s: Session, c: Capsule)
    requires Inv(s) && EventsOk(s) && Encodable(c) && HandleCapsule(s, c).error.None?
    ensures EventsOk(HandleCapsule(s, c).session)
  {
    hide Inv, EventsOk, Prepared, LogBefore, Acceptable, HandleStreamData, HandleResetStream, HandleStopSending,
         HandleMaxStreamData;
    if !s.phase.Closed? {
      var t := HandleCapsule(s, c).session;
      AcceptsExactly(s, c);
      HandleShape(s, c);
      match c {
        case WtStream(id, data, fin) =>
          LogIsPrepared(s, id, c);
          DataLog(s, id, data, fin);
          ReportKeeps(s, t, LogBefore(s, id, c), StreamData(id, data, fin), c);
        case WtResetStream(id, code, size) => ResetTells(s, id, code, size);
        case WtStopSending(id, code) =>
          LogIsPrepared(s, id, c);
          StopLog(s, id, code);
          ReportKeeps(s, t, LogBefore(s, id, c), StopSending(id, code), c);
        case WtMaxStreamData(id, maximum) =>
          LogIsPrepared(s, id, c);
          CreditLog(s, id, maximum);
          SilenceKeeps(s, t, LogBefore(s, id, c), c);
        case _ => OtherTells(s, c);
      }
    }
  }

  lemma ResetTells(s: Session, id: StreamId, code: nat, size: nat)
    requires Inv(s) && EventsOk(s) && !s.phase.Closed? && Acceptable(s, WtResetStream(id, code, size))
    requires HandleCapsule(s, WtResetStream(id, code, size)).error.None?
    ensures EventsOk(HandleCapsule(s, WtResetStream(id, code, size)).session)
  {
    hide Inv, EventsOk, Prepared, Acceptable, Created, MapInsert;
    var c := WtResetStream(id, code, size);
    AlreadyPrepared(s, c);
    ReportKeeps(s, HandleCapsule(s, c).session, s.log, StreamReset(id, code), c);
  }

  lemma OtherTells(s: Session, c: Capsule)
    requires Inv(s) && EventsOk(s) && !s.phase.Closed? && Acceptable(s, c) && HandleCapsule(s, c).error.None?
    requires !c.WtStream? && !c.WtResetStream? && !c.WtStopSending? && !c.WtMaxStreamData?
    ensures EventsOk(HandleCapsule(s, c).session)
  {
    hide Inv, EventsOk, Prepared, Acceptable;
    AlreadyPrepared(s, c);
    var t := HandleCapsule(s, c).session;
    if |t.log| == |s.log| {
      SilenceKeeps(s, t, s.log, c);
    } else {
      ReportKeeps(s, t, s.log, t.log[|s.log|], c);
    }
  }

  // ---- What an orderly log is like ----

  lemma {:induction false} OpeningIsCounted(client: bool, log: seq<WtEvent>, i: nat)
    requires Orderly(client, log) && i < |log| && log[i].StreamOpened?
    ensures log[i].id.index < Told(log, log[i].id.client, log[i].id.bidi)
  {
    if i < |log| - 1 {
      OpeningIsCounted(client, log[..|log| - 1], i);
    }
  }

  /** Streams of a type are announced in increasing order, so each of them once. */
  lemma {:induction false} OpeningsIncrease(client: bool, log: seq<WtEvent>, i: nat, j: nat)
    requires Orderly(client, log) && i < j < |log| && log[i].StreamOpened? && log[j].StreamOpened?
    requires log[i].id.client == log[j].id.client && log[i].id.bidi == log[j].id.bidi
    ensures log[i].id.index < log[j].id.index
  {
    var last := |log| - 1;
    if j < last {
      OpeningsIncrease(client, log[..last], i, j);
    } else {
      OpeningIsCounted(client, log[..last], i);
    }
  }

  lemma {:induction false} EndIsKept(log: seq<WtEvent>, i: nat, id: StreamId)
    requires i < |log| && EndsIn(log[i], id)
    ensures Over(log, id)
  {
    if i < |log| - 1 {
      EndIsKept(log[..|log| - 1], i, id);
    }
  }

  /** Nothing is delivered on a stream after its end or its reset. */
  lemma {:induction false} NothingAfterTheEnd(client: bool, log: seq<WtEvent>, i: nat, j: nat)
    requires Orderly(client, log) && i < j < |log| && (log[j].StreamData? || log[j].StreamReset?)
    ensures !EndsIn(log[i], log[j].id)
  {
    var last := |log| - 1;
    if j < last {
      NothingAfterTheEnd(client, log[..last], i, j);
    } else if EndsIn(log[i], log[j].id) {
      EndIsKept(log[..last], i, log[j].id);
    }
  }

  // ---- Two ends ----

  /** End to end: what the application of b was handed on a stream is the beginning of what
      the application of a sent on it, all of it once the channel is empty. */
  lemma DeliveredIsSent(a: Session, b: Session, id: StreamId)
    requires Linked(a, b) && EventsOk(b)
    ensures Delivered(b.log, id) <= Payload(a.emitted, id)
    ensures b.processed == a.emitted ==> Delivered(b.log, id) == Payload(a.emitted, id)
  {
    assert ToldOf(b.log, b.processed, id);
    PayloadPrefix(b.processed, a.emitted, id);
  }

  /** Every step of a run keeps both applications told in order and in full. */
  lemma StepTells(y: System, e: Event)
    requires Sound(y) && Allowed(y, e) && EventsOk(y.client) && EventsOk(y.server)
    ensures EventsOk(Step(y, e).0.client) && EventsOk(Step(y, e).0.server)
  {
    hide Inv, HasRoom, Careful, Apply, HandleCapsule;
    match e {
      case Local(isClient, op) => ApplyShape(y.End(isClient), op);
      case Deliver(toClient) =>
        var a, b := y.End(!toClient), y.End(toClient);
        if Pending(a, b) {
          StepIsSafe(y, e);
          NextIsAcceptable(a, b);
          HandleTells(b, NextCapsule(a, b));
        }
    }
  }

  /** Over any run of two sessions that were told in order and in full, as fresh ones are. */
  lemma {:induction false} RunTells(y: System, events: seq<Event>)
    requires Sound(y) && AllAllowed(y, events) && EventsOk(y.client) && EventsOk(y.server)
    ensures EventsOk(End(y, events).client) && EventsOk(End(y, events).server)
    decreases |events|
  {
    hide Sound, Step, Allowed, EventsOk;
    if events != [] {
      StepIsSafe(y, events[0]);
      StepTells(y, events[0]);
      RunTells(Step(y, events[0]).0, events[1..]);
    }
  }
}
