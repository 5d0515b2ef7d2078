/** One WebTransport session: its state and every operation on it, as functions on values. */
module WtSession {
  import opened Base
  import opened WtTypes
  import opened Bounded

  datatype SendState = Ready | Send | DataRecvd | ResetRecvd {
    predicate CanSend() {
      Ready? || Send?
    }
  }

  datatype RecvState = Recv | DataArrived | DataRead | ResetRead {
    predicate Terminal() {
      DataRead? || ResetRead?
    }
  }

  datatype Stream = Stream(
    sendState: SendState, recvState: RecvState,
    sendOffset: nat, recvOffset: nat, sendMax: nat, recvMax: nat,
    stopSent: bool, stopReceived: bool, hasReceivedData: bool)

  function NewStream(sendMax: nat, recvMax: nat): Stream {
    Stream(Ready, Recv, 0, 0, sendMax, recvMax, false, false, false)
  }

  /** Session credit and stream counts. */
  datatype Flow = Flow(
    sendMax: nat, sendOffset: nat, recvMax: nat, recvOffset: nat,
    bidiLocalMax: nat, bidiRemoteMax: nat, uniLocalMax: nat, uniRemoteMax: nat,
    bidiOpened: nat, uniOpened: nat) {

    function LocalMax(bidi: bool): nat {
      if bidi then bidiLocalMax else uniLocalMax
    }

    function RemoteMax(bidi: bool): nat {
      if bidi then bidiRemoteMax else uniRemoteMax
    }

    function Opened(bidi: bool): nat {
      if bidi then bidiOpened else uniOpened
    }

    function CountOpened(bidi: bool): Flow {
      if bidi then this.(bidiOpened := bidiOpened + 1) else this.(uniOpened := uniOpened + 1)
    }

    function SetLocalMax(bidi: bool, maximum: nat): Flow {
      if bidi then this.(bidiLocalMax := maximum) else this.(uniLocalMax := maximum)
    }

    function SetRemoteMax(bidi: bool, maximum: nat): Flow {
      if bidi then this.(bidiRemoteMax := maximum) else this.(uniRemoteMax := maximum)
    }
  }

  datatype Phase = Initial | Active | Draining | Closed

  /** Streams are remembered in the order of their numbers. */
  const WIRE: Rank<StreamId> := (id: StreamId) => id.Wire()

  lemma WireIsRank()
    ensures IsRank(WIRE)
  {
    forall a: StreamId, b: StreamId | WIRE(a) == WIRE(b) ensures a == b {
      WireIsInjective(a, b);
    }
  }

  /** How many closed or stopped streams are remembered. */
  const STREAM_ID_RECORD_MAX_SIZE := 10000

  /** A session. The last four fields are history: every capsule emitted, every capsule
      taken up, the one that closed the session last, every event ever queued, and how many
      of those the application has read. */
  datatype Session = Session(
    client: bool, config: Config, peer: Config, phase: Phase,
    streams: map<StreamId, Stream>,
    closedSendMax: map<StreamId, nat>,
    stopReceived: set<StreamId>,
    flow: Flow, nextBidi: nat, nextUni: nat,
    emitted: seq<Capsule>, processed: seq<Capsule>, log: seq<WtEvent>, read: nat) {

    predicate IsLocal(id: StreamId) {
      id.client == client
    }

    predicate HasSendPart(id: StreamId) {
      id.bidi || IsLocal(id)
    }

    predicate HasRecvPart(id: StreamId) {
      id.bidi || !IsLocal(id)
    }

    predicate IsReceiveOnly(id: StreamId) {
      !IsLocal(id) && !id.bidi
    }

    function NextIndex(bidi: bool): nat {
      if bidi then nextBidi else nextUni
    }

    predicate IsUncreatedLocal(id: StreamId) {
      IsLocal(id) && id.index >= NextIndex(id.bidi)
    }

    predicate IsOpen() {
      phase.Active? || phase.Draining?
    }

    /** How much may be sent on a stream when it is created. */
    function SendCredit(id: StreamId): nat {
      peer.StreamCredit(!client, id)
    }

    function RecvCredit(id: StreamId): nat {
      config.StreamCredit(client, id)
    }

    function Emit(c: Capsule): Session {
      this.(emitted := emitted + [c])
    }

    function Queue(e: WtEvent): Session {
      this.(log := log + [e])
    }

    function Put(id: StreamId, stream: Stream): Session {
      this.(streams := streams[id := stream])
    }

    predicate IsClosedStream(id: StreamId, stream: Stream) {
      && (HasSendPart(id) ==> !stream.sendState.CanSend())
      && (HasRecvPart(id) ==> stream.recvState.Terminal())
    }

    /** Forgets a stream both of whose parts have ended, but for its send limit. */
    ghost function RemoveIfClosed(id: StreamId): Session {
      if id in streams && IsClosedStream(id, streams[id]) then
        this.(streams := streams - {id},
              closedSendMax := MapInsert(WIRE, closedSendMax, id, streams[id].sendMax, STREAM_ID_RECORD_MAX_SIZE))
      else this
    }
  }

  /** The session an operation leaves behind, and its error if it failed. */
  datatype Outcome = Outcome(session: Session, error: Option<WtError>)

  ghost function Done(s: Session): Outcome {
    Outcome(s, None)
  }

  ghost function Fail(s: Session, e: WtError): Outcome {
    Outcome(s, Some(e))
  }

  function NewSession(client: bool, config: Config, peer: Config): Session {
    Session(client, config, peer, Initial, map[], map[], {},
            Flow(peer.maxData, 0, config.maxData, 0, config.streamsBidi, peer.streamsBidi,
                 config.streamsUni, peer.streamsUni, 0, 0),
            0, 0, [], [], [], 0)
  }

  // ---- What the application does ----

  ghost function Initiate(s: Session): Outcome {
    if !s.phase.Initial? then Fail(s, SessionStateError) else Done(s.(phase := Active))
  }

  /** The identifier of the next stream this side opens. */
  function NextId(s: Session, bidi: bool): StreamId {
    StreamId(s.client, bidi, s.NextIndex(bidi))
  }

  ghost function OpenStream(s: Session, bidi: bool): Outcome {
    if !s.IsOpen() then Fail(s, SessionStateError)
    else if s.flow.Opened(bidi) >= s.flow.RemoteMax(bidi) then Fail(s, FlowControlError)
    else
      var id := NextId(s, bidi);
      var t := if bidi then s.(nextBidi := s.nextBidi + 1) else s.(nextUni := s.nextUni + 1);
      Done(t.Put(id, NewStream(s.SendCredit(id), s.RecvCredit(id))).(flow := s.flow.CountOpened(bidi)))
  }

  ghost function SendStreamData(s: Session, id: StreamId, data: seq<Byte>, fin: bool): Outcome {
    if !s.IsOpen() then Fail(s, SessionStateError)
    else if id !in s.streams then Fail(s, InvalidStreamId)
    else if !s.streams[id].sendState.CanSend() || !s.HasSendPart(id) then Fail(s, StreamStateError)
    else if |data| > Available(s.flow.sendMax, s.flow.sendOffset) then Fail(s, FlowControlError)
    else if s.streams[id].sendOffset + |data| > s.streams[id].sendMax then Fail(s, FlowControlError)
    else
      var t := AfterSend(s, id, data, fin);
      Done(if fin then t.RemoveIfClosed(id) else t)
  }

  /** Both windows are charged and the capsule goes out. */
  ghost function AfterSend(s: Session, id: StreamId, data: seq<Byte>, fin: bool): Session
    requires id in s.streams
  {
    s.Put(id, s.streams[id].(sendOffset := s.streams[id].sendOffset + |data|,
                             sendState := if fin then DataRecvd else Send))
     .(flow := s.flow.(sendOffset := s.flow.sendOffset + |data|))
     .Emit(WtStream(id, data, fin))
  }

  function Available(maximum: nat, offset: nat): nat {
    if offset <= maximum then maximum - offset else 0
  }

  ghost function ResetStream(s: Session, id: StreamId, code: nat): Outcome {
    if code > MAX_APPLICATION_ERROR_CODE then Fail(s, FlowControlError)
    else if id !in s.streams then Fail(s, InvalidStreamId)
    else if !s.streams[id].sendState.CanSend() || !s.HasSendPart(id) then Fail(s, StreamStateError)
    else Done(AfterReset(s, id, code).RemoveIfClosed(id))
  }

  ghost function AfterReset(s: Session, id: StreamId, code: nat): Session
    requires id in s.streams
  {
    s.Emit(WtResetStream(id, code, s.streams[id].sendOffset)).Put(id, s.streams[id].(sendState := ResetRecvd))
  }

  ghost function StopSendingStream(s: Session, id: StreamId, code: nat): Outcome {
    if code > MAX_APPLICATION_ERROR_CODE then Fail(s, FlowControlError)
    else if id !in s.streams then Fail(s, InvalidStreamId)
    else if !s.HasRecvPart(id) || s.streams[id].stopSent || s.streams[id].recvState.ResetRead? then
      Fail(s, StreamStateError)
    else Done(s.Emit(WtStopSending(id, code)).Put(id, s.streams[id].(stopSent := true)))
  }

  ghost function SendDatagram(s: Session, data: seq<Byte>): Outcome {
    if !s.IsOpen() then Fail(s, SessionStateError) else Done(s.Emit(Datagram(data)))
  }

  /** Where to cut a text of more than n octets so as to keep whole characters. */
  function CutPoint(text: seq<Byte>, n: nat): (end: nat)
    requires n < |text|
    ensures end <= n
  {
    if n > 0 && text[n] / 64 == 2 then CutPoint(text, n - 1) else n
  }

  function Truncate(reason: seq<Byte>): (short: seq<Byte>)
    ensures |short| <= MAX_CLOSE_REASON_LEN && short <= reason
  {
    if |reason| > MAX_CLOSE_REASON_LEN then reason[..CutPoint(reason, MAX_CLOSE_REASON_LEN)] else reason
  }

  ghost function Close(s: Session, code: nat, reason: seq<Byte>): Outcome {
    if s.phase.Closed? then Fail(s, SessionStateError)
    else Done(s.Emit(WtCloseSession(code, Truncate(reason))).(phase := Closed))
  }

  ghost function Drain(s: Session): Outcome {
    if !s.phase.Active? then Fail(s, SessionStateError)
    else Done(s.Emit(WtDrainSession).(phase := Draining))
  }

  ghost function SendMaxData(s: Session, maximum: nat): Outcome {
    if maximum > MAX_VALUE || maximum <= s.flow.recvMax then Fail(s, FlowControlError)
    else Done(s.(flow := s.flow.(recvMax := maximum)).Emit(WtMaxData(maximum)))
  }

  ghost function SendMaxStreamData(s: Session, id: StreamId, maximum: nat): Outcome {
    if maximum > MAX_VALUE then Fail(s, FlowControlError)
    else if id !in s.streams then Fail(s, InvalidStreamId)
    else if !s.HasRecvPart(id) || s.streams[id].stopSent || !s.streams[id].recvState.Recv? then
      Fail(s, StreamStateError)
    else if maximum <= s.streams[id].recvMax then Fail(s, FlowControlError)
    else Done(s.Put(id, s.streams[id].(recvMax := maximum)).Emit(WtMaxStreamData(id, maximum)))
  }

  ghost function SendMaxStreams(s: Session, maximum: nat, bidi: bool): Outcome {
    if !s.IsOpen() then Fail(s, SessionStateError)
    else if maximum > MAX_STREAMS_LIMIT || maximum <= s.flow.LocalMax(bidi) then Fail(s, FlowControlError)
    else Done(s.(flow := s.flow.SetLocalMax(bidi, maximum)).Emit(WtMaxStreams(maximum, bidi)))
  }

  ghost function GrowRecvWindow(s: Session, increment: nat): Outcome {
    if s.flow.recvMax + increment >= TWO_64 then Fail(s, FlowControlError)
    else SendMaxData(s, s.flow.recvMax + increment)
  }

  ghost function GrowStreamRecvWindow(s: Session, id: StreamId, increment: nat): Outcome {
    if id !in s.streams then Fail(s, InvalidStreamId)
    else if s.streams[id].recvMax + increment >= TWO_64 then Fail(s, FlowControlError)
    else SendMaxStreamData(s, id, s.streams[id].recvMax + increment)
  }

  ghost function GrowMaxStreams(s: Session, increment: nat, bidi: bool): Outcome {
    if s.flow.LocalMax(bidi) + increment >= TWO_64 then Fail(s, FlowControlError)
    else SendMaxStreams(s, s.flow.LocalMax(bidi) + increment, bidi)
  }

  /** Reads the next event; reading the end of a stream may let the stream be forgotten. */
  ghost function PollEvent(s: Session): Session {
    if s.read >= |s.log| then s
    else
      var e := s.log[s.read];
      var t := s.(read := s.read + 1);
      if e.StreamData? && e.fin then
        MarkDataRead(t, e.id).RemoveIfClosed(e.id)
      else t
  }

  ghost function MarkDataRead(s: Session, id: StreamId): Session {
    if id in s.streams && s.streams[id].recvState.DataArrived? then
      s.Put(id, s.streams[id].(recvState := DataRead))
    else s
  }

  // ---- What the peer's capsules do ----

  /** Creates the streams of the same type up to the given one that were never created,
      starting at index k. */
  ghost function CreateFrom(s: Session, id: StreamId, k: nat): (t: Session)
    ensures t.closedSendMax == s.closedSendMax && s.streams.Keys <= t.streams.Keys
    ensures k <= id.index && id !in s.closedSendMax ==> id in t.streams
    decreases id.index + 1 - k
  {
    if k > id.index then s
    else
      var each := id.(index := k);
      CreateFrom(if each in s.streams || each in s.closedSendMax then s else CreatePeerStream(s, each), id, k + 1)
  }

  ghost function CreatePeerStream(s: Session, id: StreamId): Session {
    s.Put(id, NewStream(s.SendCredit(id), s.RecvCredit(id))).Queue(StreamOpened(id))
  }

  ghost function CreatePeerStreamsUpTo(s: Session, id: StreamId): (o: Outcome)
    ensures o.error.None? && id !in s.closedSendMax ==> id in o.session.streams
  {
    if id.index >= s.flow.LocalMax(id.bidi) then Fail(s, FlowControlError)
    else Done(CreateFrom(s, id, 0))
  }

  predicate WillCreateImplicitly(s: Session, id: StreamId) {
    !s.IsLocal(id) && id.bidi && id !in s.streams && id !in s.closedSendMax
  }

  ghost function CreateImplicitPeerBidi(s: Session, id: StreamId): Outcome {
    if WillCreateImplicitly(s, id) then CreatePeerStreamsUpTo(s, id) else Done(s)
  }

  ghost function HandleStreamData(s: Session, id: StreamId, data: seq<Byte>, fin: bool): Outcome {
    if id in s.closedSendMax then Fail(s, StreamStateError)
    else if id in s.streams then
      if data == [] && !fin && s.streams[id].hasReceivedData then Fail(s, StreamStateError)
      else if !id.bidi && s.IsLocal(id) then Fail(s, StreamStateError)
      else ReceiveData(s, id, data, fin)
    else if s.IsLocal(id) then Fail(s, StreamStateError)
    else
      var created := CreatePeerStreamsUpTo(s, id);
      if created.error.Some? then created
      else ReceiveData(created.session, id, data, fin)
  }

  ghost function ReceiveData(s: Session, id: StreamId, data: seq<Byte>, fin: bool): Outcome
    requires id in s.streams
  {
    var stream := s.streams[id];
    if !stream.recvState.Recv? then Fail(s, StreamStateError)
    else if stream.recvOffset + |data| > stream.recvMax then Fail(s, FlowControlError)
    else
      var t := s.Put(id, Received(stream, data, fin));
      if s.flow.recvOffset + |data| > s.flow.recvMax then Fail(t, FlowControlError)
      else Done(t.(flow := s.flow.(recvOffset := s.flow.recvOffset + |data|)).Queue(StreamData(id, data, fin)))
  }

  /** What data does to the receiving part. */
  function Received(stream: Stream, data: seq<Byte>, fin: bool): Stream {
    stream.(recvOffset := stream.recvOffset + |data|,
            recvState := if fin then DataArrived else Recv,
            hasReceivedData := stream.hasReceivedData || data != [])
  }

  ghost function HandleResetStream(s: Session, id: StreamId, code: nat, reliableSize: nat): Outcome {
    if id !in s.streams || !s.streams[id].recvState.Recv? || !s.HasRecvPart(id) then Fail(s, StreamStateError)
    else if reliableSize != s.streams[id].recvOffset then Fail(s, StreamStateError)
    else Done(s.Put(id, s.streams[id].(recvState := ResetRead)).Queue(StreamReset(id, code)).RemoveIfClosed(id))
  }

  predicate StopWasReceived(s: Session, id: StreamId) {
    id in s.stopReceived || (id in s.streams && s.streams[id].stopReceived)
  }

  /** A request to stop sending opens the stream if need be and is answered by a reset. */
  ghost function HandleStopSending(s: Session, id: StreamId, code: nat): Outcome {
    if s.IsReceiveOnly(id) || s.IsUncreatedLocal(id) || StopWasReceived(s, id) then Fail(s, StreamStateError)
    else
      var created := CreateImplicitPeerBidi(s, id);
      if created.error.Some? then created
      else
        var t := NoteStop(created.session, id);
        var u := if id in t.streams && t.streams[id].sendState.CanSend() then ResetStream(t, id, code).session else t;
        Done(u.Queue(StopSending(id, code)))
  }

  ghost function NoteStop(s: Session, id: StreamId): (t: Session)
    ensures id in t.streams <==> id in s.streams
    ensures id in s.streams ==> t.streams[id].sendState == s.streams[id].sendState
  {
    var t := if id in s.streams then s.Put(id, s.streams[id].(stopReceived := true)) else s;
    t.(stopReceived := SetInsert(WIRE, t.stopReceived, id, STREAM_ID_RECORD_MAX_SIZE))
  }

  ghost function HandleMaxStreamData(s: Session, id: StreamId, maximum: nat): Outcome {
    if s.IsReceiveOnly(id) || s.IsUncreatedLocal(id) || StopWasReceived(s, id) then Fail(s, StreamStateError)
    else if WillCreateImplicitly(s, id) && maximum <= s.SendCredit(id) then Fail(s, FlowControlError)
    else if id !in s.streams && id in s.closedSendMax then
      if maximum <= s.closedSendMax[id] then Fail(s, FlowControlError)
      else Done(s.(closedSendMax := MapInsert(WIRE, s.closedSendMax, id, maximum, STREAM_ID_RECORD_MAX_SIZE)))
    else
      var created := CreateImplicitPeerBidi(s, id);
      var t := created.session;
      if created.error.Some? || id !in t.streams then created
      else if maximum > MAX_VALUE || maximum <= t.streams[id].sendMax then Fail(t, FlowControlError)
      else Done(t.Put(id, t.streams[id].(sendMax := maximum)))
  }

  /** Processes one capsule from the peer; a closed session ignores it. */
  ghost function HandleCapsule(s: Session, c: Capsule): Outcome {
    if s.phase.Closed? then Done(s) else Dispatch(s.(processed := s.processed + [c]), c)
  }

  ghost function Dispatch(s: Session, c: Capsule): Outcome {
    match c
    case Datagram(data) => Done(s.Queue(DatagramReceived(data)))
    case WtStream(id, data, fin) => HandleStreamData(s, id, data, fin)
    case WtResetStream(id, code, reliableSize) => HandleResetStream(s, id, code, reliableSize)
    case WtStopSending(id, code) => HandleStopSending(s, id, code)
    case WtMaxData(maximum) =>
      if maximum > MAX_VALUE || maximum <= s.flow.sendMax then Fail(s, FlowControlError)
      else Done(s.(flow := s.flow.(sendMax := maximum)))
    case WtMaxStreamData(id, maximum) => HandleMaxStreamData(s, id, maximum)
    case WtMaxStreams(maximum, bidi) =>
      if maximum > MAX_STREAMS_LIMIT || maximum <= s.flow.RemoteMax(bidi) then Fail(s, FlowControlError)
      else Done(s.(flow := s.flow.SetRemoteMax(bidi, maximum)))
    case WtDataBlocked(_) => Done(s)
    case WtStreamDataBlocked(id, _) =>
      if id in s.streams && s.streams[id].recvState.Recv? && s.HasRecvPart(id) then Done(s) else Fail(s, StreamStateError)
    case WtStreamsBlocked(maximum, _) =>
      if maximum > MAX_STREAMS_LIMIT then Fail(s, FlowControlError) else Done(s)
    case WtCloseSession(code, reason) => Done(s.(phase := Closed).Queue(SessionClosed(code, reason)))
    case WtDrainSession =>
      if s.phase.Active? then Done(s.(phase := Draining).Queue(SessionDraining)) else Done(s)
    case Padding(_) => Done(s)
    case Unknown(_, _) => Done(s)
  }
}
