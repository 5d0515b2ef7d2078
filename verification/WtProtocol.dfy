/** Two sessions joined by two first-in first-out channels never fail each other. */
module WtProtocol {
  import opened Base
  import opened WtTypes
  import opened Bounded
  import opened WtHistory
  import opened WtSession
  import opened WtInvariant
  import opened WtReceive
  import opened WtAccept

  // ---- What an application may do ----

  datatype Op =
    | DoInitiate
    | DoOpen(bidi: bool)
    | DoSend(id: StreamId, data: seq<Byte>, fin: bool)
    | DoReset(id: StreamId, code: nat)
    | DoStop(id: StreamId, code: nat)
    | DoDatagram(data: seq<Byte>)
    | DoClose(closeCode: nat, reason: seq<Byte>)
    | DoDrain
    | DoMaxData(maximum: nat)
    | DoMaxStreamData(id: StreamId, maximum: nat)
    | DoMaxStreams(maximum: nat, bidi: bool)
    | DoGrowRecv(increment: nat)
    | DoGrowStream(id: StreamId, increment: nat)
    | DoGrowStreams(increment: nat, bidi: bool)
    | DoPoll

  ghost function Apply(s: Session, op: Op): Outcome {
    match op
    case DoInitiate => Initiate(s)
    case DoOpen(bidi) => OpenStream(s, bidi)
    case DoSend(id, data, fin) => SendStreamData(s, id, data, fin)
    case DoReset(id, code) => ResetStream(s, id, code)
    case DoStop(id, code) => StopSendingStream(s, id, code)
    case DoDatagram(data) => SendDatagram(s, data)
    case DoClose(code, reason) => Close(s, code, reason)
    case DoDrain => Drain(s)
    case DoMaxData(maximum) => SendMaxData(s, maximum)
    case DoMaxStreamData(id, maximum) => SendMaxStreamData(s, id, maximum)
    case DoMaxStreams(maximum, bidi) => SendMaxStreams(s, maximum, bidi)
    case DoGrowRecv(increment) => GrowRecvWindow(s, increment)
    case DoGrowStream(id, increment) => GrowStreamRecvWindow(s, id, increment)
    case DoGrowStreams(increment, bidi) => GrowMaxStreams(s, increment, bidi)
    case DoPoll => Done(PollEvent(s))
  }

  /** The two things an application must not do: send nothing, without the end, on a stream
      that has carried data; and reset a stream of its own before telling the peer of it. */
  ghost predicate Careful(s: Session, op: Op) {
    match op
    case DoSend(id, data, fin) => data != [] || fin || Sent(s.emitted, id) == 0
    case DoReset(id, _) => s.IsLocal(id) ==> id.index < Opened(s.emitted, s.client, id.bidi)
    case _ => true
  }

  lemma ApplyKeeps(s: Session, op: Op)
    requires Inv(s) && HasRoom(s) && Careful(s, op)
    ensures Inv(Apply(s, op).session)
  {
    hide Inv, Sent, Opened, OpenStream, SendStreamData, ResetStream, StopSendingStream, SendMaxStreamData, PollEvent,
         SendMaxData, SendMaxStreams, SendDatagram, Close, Drain;
    match op {
      case DoInitiate => QueueKeeps(s, Apply(s, op).session);
      case DoOpen(bidi) => OpenKeeps(s, bidi);
      case DoSend(id, data, fin) => SendKeeps(s, id, data, fin);
      case DoReset(id, code) => ResetKeeps(s, id, code);
      case DoStop(id, code) => StopKeeps(s, id, code);
      case DoDatagram(_) => NeutralKeeps(s, op);
      case DoClose(_, _) => NeutralKeeps(s, op);
      case DoDrain => NeutralKeeps(s, op);
      case DoMaxData(maximum) => MaxDataKeeps(s, maximum);
      case DoMaxStreamData(id, maximum) => MaxStreamDataKeeps(s, id, maximum);
      case DoMaxStreams(maximum, bidi) => MaxStreamsKeeps(s, maximum, bidi);
      case DoGrowRecv(increment) => MaxDataKeeps(s, s.flow.recvMax + increment);
      case DoGrowStream(id, increment) =>
        if id in s.streams {
          MaxStreamDataKeeps(s, id, s.streams[id].recvMax + increment);
        }
      case DoGrowStreams(increment, bidi) => MaxStreamsKeeps(s, s.flow.LocalMax(bidi) + increment, bidi);
      case DoPoll => PollKeeps(s);
    }
  }

  lemma NeutralKeeps(s: Session, op: Op)
    requires Inv(s) && (op.DoDatagram? || op.DoClose? || op.DoDrain?)
    ensures Inv(Apply(s, op).session)
  {
    hide Inv;
    var o := Apply(s, op);
    if o.error.None? {
      var c := o.session.emitted[|s.emitted|];
      var t := s.Emit(c);
      EmitKeeps(s, t, c);
      QueueKeeps(t, o.session);
    }
  }

  lemma MaxDataKeeps(s: Session, maximum: nat)
    requires Inv(s)
    ensures Inv(SendMaxData(s, maximum).session)
  {
    hide StreamOk, LegalScript, Total, DataGranted, StreamsGranted, Opened;
    if SendMaxData(s, maximum).error.None? {
      EmitKeeps(s, SendMaxData(s, maximum).session, WtMaxData(maximum));
    }
  }

  lemma MaxStreamsKeeps(s: Session, maximum: nat, bidi: bool)
    requires Inv(s)
    ensures Inv(SendMaxStreams(s, maximum, bidi).session)
  {
    hide StreamOk, LegalScript, Total, DataGranted, StreamsGranted, Opened;
    if SendMaxStreams(s, maximum, bidi).error.None? {
      assert CountsOk(s, bidi);
      EmitKeeps(s, SendMaxStreams(s, maximum, bidi).session, WtMaxStreams(maximum, bidi));
    }
  }

  /** Operations of the application take up no capsule and emit at most one. */
  ghost predicate OnlyEmits(s: Session, t: Session) {
    && s.emitted <= t.emitted && |t.emitted| <= |s.emitted| + 1 && t.processed == s.processed
    && t.client == s.client && t.config == s.config && t.peer == s.peer && t.log == s.log
  }

  lemma ApplyShape(s: Session, op: Op)
    ensures OnlyEmits(s, Apply(s, op).session)
    ensures Apply(s, op).error.Some? ==> Apply(s, op).session == s
  {
    if op.DoInitiate? || op.DoOpen? || op.DoSend? || op.DoReset? || op.DoStop? || op.DoPoll? {
      ApplyShapeStreams(s, op);
    } else {
      hide OpenStream, SendStreamData, ResetStream, StopSendingStream, PollEvent, Truncate;
    }
  }

  lemma ApplyShapeStreams(s: Session, op: Op)
    requires op.DoInitiate? || op.DoOpen? || op.DoSend? || op.DoReset? || op.DoStop? || op.DoPoll?
    ensures OnlyEmits(s, Apply(s, op).session)
    ensures Apply(s, op).error.Some? ==> Apply(s, op).session == s
  {
    hide SendMaxData, SendMaxStreams, SendMaxStreamData, SendDatagram, Close, Drain, GrowRecvWindow, GrowMaxStreams,
         GrowStreamRecvWindow;
  }

  // ---- The two ends ----

  /** Both sessions. What one has emitted and the other has not taken up is in the channel. */
  datatype System = System(client: Session, server: Session) {
    function End(isClient: bool): Session {
      if isClient then client else server
    }

    function With(isClient: bool, s: Session): System {
      if isClient then this.(client := s) else this.(server := s)
    }
  }

  /** What b has taken up is the beginning of what a has emitted, and each knows what the
      other advertised. */
  predicate Linked(a: Session, b: Session) {
    b.processed <= a.emitted && b.client == !a.client && b.peer == a.config
  }

  ghost predicate Sound(y: System) {
    && y.client.client
    && Inv(y.client) && Inv(y.server)
    && Linked(y.client, y.server) && Linked(y.server, y.client)
  }

  /** Whether a capsule is on its way to b. */
  predicate Pending(a: Session, b: Session) {
    |b.processed| < |a.emitted|
  }

  function NextCapsule(a: Session, b: Session): Capsule
    requires Pending(a, b)
  {
    a.emitted[|b.processed|]
  }

  datatype Event = Local(isClient: bool, op: Op) | Deliver(toClient: bool)

  /** One event. Delivering from an empty channel does nothing. */
  ghost function Step(y: System, e: Event): (System, Option<WtError>) {
    match e
    case Local(isClient, op) => (y.With(isClient, Apply(y.End(isClient), op).session), None)
    case Deliver(toClient) =>
      var a, b := y.End(!toClient), y.End(toClient);
      if Pending(a, b) then
        var o := HandleCapsule(b, NextCapsule(a, b));
        (y.With(toClient, o.session), o.error)
      else (y, None)
  }

  ghost predicate Allowed(y: System, e: Event) {
    && HasRoom(y.client) && HasRoom(y.server)
    && (e.Local? ==> Careful(y.End(e.isClient), e.op))
  }

  /** Everything a sender promises about one stream bounds what the receiver sees of it. */
  lemma CreditCovers(a: Session, b: Session, id: StreamId)
    requires Inv(a) && Inv(b) && Linked(a, b) && Linked(b, a)
    ensures SendLimit(a, id) <= RecvLimit(b, id)
    ensures a.flow.sendMax <= b.flow.recvMax
    ensures a.flow.RemoteMax(id.bidi) <= b.flow.LocalMax(id.bidi)
  {
    hide Granted, DataGranted, StreamsGranted, Total, Opened, LegalScript, StreamOk;
    StreamMonotone(a.processed, b.emitted, id);
    FlowMonotone(a.processed, b.emitted, b.client, id.bidi);
  }

  /** A stream the sender has named is one the receiver knows or must let it open. */
  lemma NamedIsReachable(a: Session, b: Session, id: StreamId)
    requires Inv(a) && Inv(b) && Linked(a, b) && Linked(b, a) && Named(a.emitted, id)
    ensures Reachable(b, id)
    ensures b.IsLocal(id) ==> id.index < Opened(b.emitted, b.client, id.bidi)
  {
    hide Granted, DataGranted, StreamsGranted, Total, Opened, LegalScript, Named, Sent, Ended, Stopped;
    assert StreamOk(a, id);
    CreditCovers(a, b, id);
    FlowMonotone(a.processed, b.emitted, b.client, id.bidi);
    assert CountsOk(a, id.bidi) && CountsOk(b, id.bidi);
  }

  /** The next capsule of an honest sender is legal after what the receiver has taken up. */
  lemma NextIsLegal(a: Session, b: Session)
    requires Inv(a) && Linked(a, b) && Pending(a, b)
    ensures LegalNext(a.client, a.config, b.processed, NextCapsule(a, b))
    ensures b.processed + [NextCapsule(a, b)] <= a.emitted
  {
    hide LegalNext, FlowOk, StreamOk;
    assert a.emitted[..|b.processed|] == b.processed;
    LegalAt(a.client, a.config, a.emitted, |b.processed|);
  }

  /** The streams of this side that the peer asks to stop are ones it has been told of. */
  ghost predicate Announced(s: Session, c: Capsule) {
    c.WtStopSending? && s.IsLocal(c.id) ==> c.id.index < Opened(s.emitted, s.client, c.id.bidi)
  }

  /** So it is acceptable to the receiver. */
  lemma NextIsAcceptable(a: Session, b: Session)
    requires Inv(a) && Inv(b) && Linked(a, b) && Linked(b, a) && Pending(a, b)
    ensures Acceptable(b, NextCapsule(a, b)) && Encodable(NextCapsule(a, b)) && Announced(b, NextCapsule(a, b))
  {
    hide Granted, DataGranted, StreamsGranted, Total, Opened, LegalScript, Named, Sent, Ended, Stopped, StreamOk, Reachable;
    NextIsLegal(a, b);
    match NextCapsule(a, b) {
      case WtStream(id, data, fin) => DataIsAcceptable(a, b, id, data, fin);
      case WtResetStream(id, _, _) => ResetIsAcceptable(a, b, id);
      case WtStopSending(id, _) => NextIsReachable(a, b, id);
      case WtMaxStreamData(id, _) => NextIsReachable(a, b, id);
      case _ =>
    }
  }

  lemma NextIsReachable(a: Session, b: Session, id: StreamId)
    requires Inv(a) && Inv(b) && Linked(a, b) && Linked(b, a) && Pending(a, b) && Names(NextCapsule(a, b), id)
    ensures Reachable(b, id)
    ensures b.IsLocal(id) ==> id.index < Opened(b.emitted, b.client, id.bidi)
  {
    hide Inv, Reachable, Opened, Named;
    NamedIn(a.emitted, |b.processed|, id);
    NamedIsReachable(a, b, id);
  }

  lemma ResetIsAcceptable(a: Session, b: Session, id: StreamId)
    requires Inv(a) && Inv(b) && Linked(a, b) && Linked(b, a) && Pending(a, b)
    requires NextCapsule(a, b).WtResetStream? && NextCapsule(a, b).id == id
    ensures Acceptable(b, NextCapsule(a, b))
  {
    hide Granted, DataGranted, StreamsGranted, Total, Opened, LegalScript, Named, Sent, Ended, Stopped, StreamOk;
    NextIsLegal(a, b);
    NextIsReachable(a, b, id);
  }

  /** In-flight data is covered by the credit the receiver remembers having granted. */
  lemma DataIsAcceptable(a: Session, b: Session, id: StreamId, data: seq<Byte>, fin: bool)
    requires Inv(a) && Inv(b) && Linked(a, b) && Linked(b, a) && Pending(a, b)
    requires NextCapsule(a, b) == WtStream(id, data, fin)
    ensures Acceptable(b, NextCapsule(a, b))
  {
    hide Granted, DataGranted, StreamsGranted, Total, Opened, LegalScript, Named, Sent, Ended, Stopped, Reachable;
    var c := WtStream(id, data, fin);
    NextIsLegal(a, b);
    NextIsReachable(a, b, id);
    CreditCovers(a, b, id);
    ExtendStream(b.processed, c, id);
    StreamMonotone(b.processed + [c], a.emitted, id);
    ExtendFlow(b.processed, c, a.client, id.bidi);
    FlowMonotone(b.processed + [c], a.emitted, a.client, id.bidi);
    assert StreamOk(a, id);
  }

  /** Only resets were added. */
  predicate AddsResets(before: seq<Capsule>, after: seq<Capsule>) {
    before <= after && forall k :: |before| <= k < |after| ==> after[k].WtResetStream?
  }

  /** Handling a capsule takes up that one, or none once closed, and emits nothing but resets. */
  lemma HandleShape(s: Session, c: Capsule)
    ensures var t := HandleCapsule(s, c).session;
            && AddsResets(s.emitted, t.emitted) && t.client == s.client && t.config == s.config && t.peer == s.peer
            && t.processed == (if s.phase.Closed? then s.processed else s.processed + [c])
  {
    hide HandleStreamData, HandleResetStream, HandleStopSending, HandleMaxStreamData;
    var s1 := s.(processed := s.processed + [c]);
    match c {
      case WtStream(id, data, fin) => HandleDataShape(s1, id, data, fin);
      case WtResetStream(id, code, size) => HandleResetShape(s1, id, code, size);
      case WtStopSending(id, code) => HandleStopShape(s1, id, code);
      case WtMaxStreamData(id, maximum) => HandleCreditShape(s1, id, maximum);
      case _ =>
    }
  }

  ghost predicate TakesUp(s: Session, t: Session) {
    && AddsResets(s.emitted, t.emitted) && t.processed == s.processed
    && t.client == s.client && t.config == s.config && t.peer == s.peer
  }

  lemma HandleDataShape(s: Session, id: StreamId, data: seq<Byte>, fin: bool)
    ensures TakesUp(s, HandleStreamData(s, id, data, fin).session)
  {
    hide CreateFrom;
    CreateFromShape(s, id, 0, id);
  }

  lemma HandleResetShape(s: Session, id: StreamId, code: nat, size: nat)
    ensures TakesUp(s, HandleResetStream(s, id, code, size).session)
  {
  }

  lemma HandleStopShape(s: Session, id: StreamId, code: nat)
    ensures TakesUp(s, HandleStopSending(s, id, code).session)
  {
    hide CreateImplicitPeerBidi, NoteStop, ResetStream;
    var u := CreateImplicitPeerBidi(s, id).session;
    NoteShape(s, u, id);
    ResetShape(NoteStop(u, id), id, code);
  }

  lemma NoteShape(s: Session, u: Session, id: StreamId)
    requires u == CreateImplicitPeerBidi(s, id).session
    ensures TakesUp(s, u) && TakesUp(s, NoteStop(u, id))
  {
    hide CreateFrom, SetInsert;
    CreateFromShape(s, id, 0, id);
  }

  lemma ResetShape(s: Session, id: StreamId, code: nat)
    ensures TakesUp(s, ResetStream(s, id, code).session)
  {
  }

  lemma HandleCreditShape(s: Session, id: StreamId, maximum: nat)
    ensures TakesUp(s, HandleMaxStreamData(s, id, maximum).session)
  {
    hide CreateFrom;
    CreateFromShape(s, id, 0, id);
  }

  // ---- Safety ----

  /** Delivery to one end: no error, and both ends stay sound. */
  lemma DeliverIsSafe(a: Session, b: Session)
    requires Inv(a) && Inv(b) && Linked(a, b) && Linked(b, a) && Pending(a, b) && HasRoom(b)
    ensures var o := HandleCapsule(b, NextCapsule(a, b));
            o.error.None? && Inv(o.session) && Linked(a, o.session) && Linked(o.session, a)
  {
    hide Inv, HandleCapsule, LegalNext, Acceptable, Announced;
    var c := NextCapsule(a, b);
    NextIsAcceptable(a, b);
    NextIsLegal(a, b);
    ClosedAccepts(b, c);
    if !b.phase.Closed? {
      AcceptsExactly(b, c);
    }
    HandleKeeps(b, c);
    if c.WtStopSending? {
      AnnouncedIsHarmless(b, c);
    }
    HandleShape(b, c);
  }

  lemma AnnouncedIsHarmless(s: Session, c: Capsule)
    requires Announced(s, c) && c.WtStopSending?
    ensures !AnswersUnannounced(s, c.id, c.code)
  {
  }

  lemma ClosedAccepts(s: Session, c: Capsule)
    ensures s.phase.Closed? ==> HandleCapsule(s, c).error.None?
  {
  }

  lemma StepIsSafe(y: System, e: Event)
    requires Sound(y) && Allowed(y, e)
    ensures Step(y, e).1.None? && Sound(Step(y, e).0)
  {
    hide Inv, Apply, HandleCapsule, Careful, HasRoom;
    match e {
      case Local(isClient, op) =>
        ApplyKeeps(y.End(isClient), op);
        ApplyShape(y.End(isClient), op);
      case Deliver(toClient) =>
        if Pending(y.End(!toClient), y.End(toClient)) {
          DeliverIsSafe(y.End(!toClient), y.End(toClient));
        }
    }
  }

  /** Every event of the run is allowed where it happens. */
  ghost predicate AllAllowed(y: System, events: seq<Event>)
    decreases |events|
  {
    events != [] ==> Allowed(y, events[0]) && AllAllowed(Step(y, events[0]).0, events[1..])
  }

  /** No delivery of the run fails. */
  ghost predicate NeverFails(y: System, events: seq<Event>)
    decreases |events|
  {
    events != [] ==> Step(y, events[0]).1.None? && NeverFails(Step(y, events[0]).0, events[1..])
  }

  /** The state a run ends in. */
  ghost function End(y: System, events: seq<Event>): System
    decreases |events|
  {
    if events == [] then y else End(Step(y, events[0]).0, events[1..])
  }

  /** Two careful ends never fail each other, however their steps interleave. */
  lemma {:induction false} RunIsSafe(y: System, events: seq<Event>)
    requires Sound(y) && AllAllowed(y, events)
    ensures NeverFails(y, events) && Sound(End(y, events))
    decreases |events|
  {
    hide Sound, Step, Allowed;
    if events != [] {
      StepIsSafe(y, events[0]);
      RunIsSafe(Step(y, events[0]).0, events[1..]);
    }
  }

  /** A fresh pair of sessions, each knowing what the other advertises, is sound. */
  lemma StartIsSound(c: Config, d: Config)
    requires c.Valid() && d.Valid()
    ensures Sound(System(NewSession(true, c, d), NewSession(false, d, c)))
  {
    hide Inv;
    NewSessionOk(true, c, d);
    NewSessionOk(false, d, c);
  }

  // ---- The two rules are exactly what is needed ----

  /** When everything has been delivered and a sends data or resets a stream, the peer
      accepts the capsule if and only if the operation was careful. */
  lemma CareIsNeeded(a: Session, b: Session, op: Op)
    requires Inv(a) && Inv(b) && Linked(a, b) && Linked(b, a) && HasRoom(a) && HasRoom(b)
    requires b.processed == a.emitted && !b.phase.Closed?
    requires (op.DoSend? || op.DoReset?) && Apply(a, op).error.None?
    ensures Pending(Apply(a, op).session, b)
    ensures HandleCapsule(b, NextCapsule(Apply(a, op).session, b)).error.None? <==> Careful(a, op)
  {
    hide Inv, HandleCapsule, Acceptable, Sent, Opened, StreamOk;
    var t := Apply(a, op).session;
    SenderIsLive(a, op);
    var c := NextCapsule(t, b);
    AcceptsExactly(b, c);
    if Careful(a, op) {
      ApplyKeeps(a, op);
      ApplyShape(a, op);
      NextIsAcceptable(t, b);
    } else {
      CarelessIsRefused(a, b, op, c);
    }
  }

  /** What an accepted send or reset puts on the wire. */
  lemma SenderIsLive(a: Session, op: Op)
    requires (op.DoSend? || op.DoReset?) && Apply(a, op).error.None?
    ensures op.id in a.streams
    ensures Apply(a, op).session.emitted
         == a.emitted + [if op.DoSend? then WtStream(op.id, op.data, op.fin)
                         else WtResetStream(op.id, op.code, a.streams[op.id].sendOffset)]
  {
    hide MapInsert;
  }

  lemma CarelessIsRefused(a: Session, b: Session, op: Op, c: Capsule)
    requires Inv(a) && Inv(b) && Linked(a, b) && b.processed == a.emitted && !Careful(a, op)
    requires op.DoSend? ==> c == WtStream(op.id, op.data, op.fin)
    requires op.DoReset? ==> c.WtResetStream? && c.id == op.id
    ensures !Acceptable(b, c)
  {
    hide Sent, Opened, Ended, Named, Stopped, Granted;
  }

  /** A peer that guesses the identifier of a stream just opened is answered by a reset, and the
      session that receives the reset in good order has to refuse it. */
  lemma EarlyStop(config: Config, peer: Config)
    requires config.Valid() && peer.Valid() && peer.streamsBidi > 0
    ensures var s := OpenStream(Initiate(NewSession(true, config, peer)).session, true).session;
            var id := StreamId(true, true, 0);
            var o := HandleCapsule(s, WtStopSending(id, 0));
            && Inv(s) && id in s.streams
            && o.error.None? && o.session.emitted == [WtResetStream(id, 0, 0)] && !Inv(o.session)
            && HandleCapsule(NewSession(false, peer, config), WtResetStream(id, 0, 0)).error == Some(StreamStateError)
  {
    hide Inv, StreamOk, FlowOk, SetInsert, MapInsert;
    var s0 := NewSession(true, config, peer);
    var s1 := Initiate(s0).session;
    NewSessionOk(true, config, peer);
    QueueKeeps(s0, s1);
    OpenKeeps(s1, true);
    HandleKeeps(OpenStream(s1, true).session, WtStopSending(StreamId(true, true, 0), 0));
  }
}
