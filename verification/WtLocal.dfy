/** Exactly when the calls of an application succeed, in terms of what was exchanged before, and
    what they emit. */
module WtLocal {
  import opened Base
  import opened WtTypes
  import opened Bounded
  import opened WtHistory
  import opened WtSession
  import opened WtInvariant
  import opened WtReceive

  /** The session credit that the peer granted this side, and that this side granted the peer. */
  ghost function SessionSendLimit(s: Session): nat {
    Max(s.peer.maxData, DataGranted(s.processed))
  }

  ghost function SessionRecvLimit(s: Session): nat {
    Max(s.config.maxData, DataGranted(s.emitted))
  }

  /** How many streams of one direction this side may open, and how many the peer may. */
  ghost function StreamsLimit(s: Session, bidi: bool): nat {
    Max(s.peer.Streams(bidi), StreamsGranted(s.processed, bidi))
  }

  ghost function PeerStreamsLimit(s: Session, bidi: bool): nat {
    Max(s.config.Streams(bidi), StreamsGranted(s.emitted, bidi))
  }

  /** This side can still send on the stream: it exists, has a part to send on, and that part has
      been neither finished nor reset. */
  ghost predicate MaySend(s: Session, id: StreamId) {
    Created(s, id) && s.HasSendPart(id) && !Ended(s.emitted, id)
  }

  /** The peer can still send on the stream, and has not been asked to stop. */
  ghost predicate MayReceive(s: Session, id: StreamId) {
    Created(s, id) && s.HasRecvPart(id) && !Ended(s.processed, id) && !Stopped(s.emitted, id)
  }

  /** Nothing but what is emitted, the streams and the credit has changed. */
  ghost predicate SaysOnly(s: Session, t: Session, cs: seq<Capsule>) {
    t == s.(emitted := s.emitted + cs, streams := t.streams, closedSendMax := t.closedSendMax, flow := t.flow)
  }

  // ---- Opening ----

  /** A stream is opened if and only if the session is open and the peer allows one more; it is the
      next of its type, nobody has used it, and nothing is emitted yet. */
  lemma OpenDoes(s: Session, bidi: bool)
    requires Inv(s)
    ensures var o := OpenStream(s, bidi);
            var id := StreamId(s.client, bidi, s.NextIndex(bidi));
            && (o.error.None? <==> s.IsOpen() && s.NextIndex(bidi) < StreamsLimit(s, bidi))
            && (o.error.Some? ==> o == Fail(s, if s.IsOpen() then FlowControlError else SessionStateError))
            && (o.error.None? ==>
                  && !Created(s, id) && id !in s.streams && id in o.session.streams
                  && o.session.streams - {id} == s.streams
                  && o.session.NextIndex(bidi) == s.NextIndex(bidi) + 1
                  && o.session.NextIndex(!bidi) == s.NextIndex(!bidi)
                  && o.session == s.(streams := o.session.streams, flow := o.session.flow,
                                     nextBidi := o.session.nextBidi, nextUni := o.session.nextUni))
  {
    hide Named, Sent, Ended, Stopped, Granted, Opened, Total, DataGranted, StreamsGranted, LegalScript;
    assert StreamOk(s, NextId(s, bidi));
    assert CountsOk(s, bidi);
    if OpenStream(s, bidi).error.None? {
      assert OpenStream(s, bidi).session.streams - {NextId(s, bidi)} == s.streams;
    }
  }

  /** What either side may send on a new stream: on a stream in both directions the side that opened it
      what the other advertised for streams opened to it, and the other side what the opener advertised
      for streams of its own; on one in one direction what its receiver advertised for those. */
  predicate StartsWith(opener: Config, other: Config, id: StreamId, openerMax: nat, otherMax: nat) {
    if id.bidi then openerMax == other.bidiRemote && otherMax == opener.bidiLocal else openerMax == other.uni
  }

  lemma OpenCredits(s: Session, bidi: bool)
    requires OpenStream(s, bidi).error.None?
    ensures var id := StreamId(s.client, bidi, s.NextIndex(bidi));
            var t := OpenStream(s, bidi).session;
            id in t.streams && StartsWith(s.config, s.peer, id, t.streams[id].sendMax, t.streams[id].recvMax)
  {
  }

  /** The same for a stream of the peer that one of its capsules opens. */
  lemma CreatedCredits(s: Session, id: StreamId, each: StreamId)
    requires !s.IsLocal(id) && each !in s.streams && each in CreateFrom(s, id, 0).streams
    ensures var t := CreateFrom(s, id, 0);
            StartsWith(s.peer, s.config, each, t.streams[each].recvMax, t.streams[each].sendMax)
  {
    hide CreateFrom;
    CreateFromShape(s, id, 0, each);
  }

  // ---- Sending ----

  lemma MaySendIs(s: Session, id: StreamId)
    requires Inv(s)
    ensures MaySend(s, id) <==> id in s.streams && s.HasSendPart(id) && s.streams[id].sendState.CanSend()
    ensures MaySend(s, id) ==> s.streams[id].sendOffset == Sent(s.emitted, id) && s.streams[id].sendMax == SendLimit(s, id)
  {
    hide Named, Sent, Ended, Stopped, Granted, Opened;
    assert StreamOk(s, id);
  }

  /** Data is sent if and only if the session is open, the stream can still be sent on, and the data
      is within what the peer granted for the stream and for the session. */
  lemma SendSucceeds(s: Session, id: StreamId, data: seq<Byte>, fin: bool)
    requires Inv(s)
    ensures var o := SendStreamData(s, id, data, fin);
            && (o.error.None? <==>
                  && s.IsOpen() && MaySend(s, id)
                  && Sent(s.emitted, id) + |data| <= SendLimit(s, id)
                  && Total(s.emitted) + |data| <= SessionSendLimit(s))
            && (o.error.Some? ==>
                  o == Fail(s, if !s.IsOpen() then SessionStateError
                               else if id !in s.streams then InvalidStreamId
                               else if !MaySend(s, id) then StreamStateError else FlowControlError))
  {
    hide Named, Sent, Ended, Stopped, Granted, Opened, Total, DataGranted, StreamsGranted, LegalScript, StreamOk,
         MaySend, AfterSend, SendLimit;
    MaySendIs(s, id);
  }

  /** Whether the part of a live stream that receives is over for the application, too. */
  predicate RecvOver(s: Session, id: StreamId)
    requires id in s.streams
  {
    s.HasRecvPart(id) ==> s.streams[id].recvState.Terminal()
  }

  /** One capsule goes out, and the stream is forgotten if that was the last of it. */
  ghost predicate SaysOn(s: Session, t: Session, id: StreamId, c: Capsule, ends: bool)
    requires id in s.streams
  {
    && SaysOnly(s, t, [c])
    && t.streams - {id} == s.streams - {id}
    && (id in t.streams <==> !(ends && RecvOver(s, id)))
    && (id in t.streams ==>
          && t.streams[id] == s.streams[id].(sendState := t.streams[id].sendState, sendOffset := t.streams[id].sendOffset)
          && (t.streams[id].sendState.CanSend() <==> !ends))
  }

  lemma SendDoes(s: Session, id: StreamId, data: seq<Byte>, fin: bool)
    requires SendStreamData(s, id, data, fin).error.None?
    ensures id in s.streams
    ensures var t := SendStreamData(s, id, data, fin).session;
            && SaysOn(s, t, id, WtStream(id, data, fin), fin)
            && t.flow == s.flow.(sendOffset := s.flow.sendOffset + |data|)
            && (id in t.streams ==> t.streams[id].sendOffset == s.streams[id].sendOffset + |data|)
            && t.closedSendMax == (if id in t.streams then s.closedSendMax
                                   else MapInsert(WIRE, s.closedSendMax, id, s.streams[id].sendMax, STREAM_ID_RECORD_MAX_SIZE))
  {
    hide MapInsert, SaysOn;
    var m := AfterSend(s, id, data, fin);
    if fin {
      RemovalSays(s, m, id, WtStream(id, data, fin));
    } else {
      StayingSays(s, m, id, WtStream(id, data, fin));
    }
  }

  lemma StayingSays(s: Session, m: Session, id: StreamId, c: Capsule)
    requires id in s.streams && id in m.streams && m.streams[id].sendState.CanSend()
    requires m == s.Put(id, m.streams[id]).(flow := m.flow).Emit(c)
    requires m.streams[id] == s.streams[id].(sendState := m.streams[id].sendState, sendOffset := m.streams[id].sendOffset)
    ensures SaysOn(s, m, id, c, false) && m.closedSendMax == s.closedSendMax
  {
    assert m.streams - {id} == s.streams - {id};
  }

  /** A stream is reset if and only if it can still be sent on and the code is one. */
  lemma ResetSucceeds(s: Session, id: StreamId, code: nat)
    requires Inv(s)
    ensures var o := ResetStream(s, id, code);
            && (o.error.None? <==> code < 0x1_0000_0000 && MaySend(s, id))
            && (o.error.Some? ==>
                  o == Fail(s, if code >= 0x1_0000_0000 then FlowControlError
                               else if id !in s.streams then InvalidStreamId else StreamStateError))
  {
    hide Named, Sent, Ended, Stopped, Granted, Opened, StreamOk, FlowOk, LegalScript, MaySend, AfterReset, SendLimit;
    MaySendIs(s, id);
  }

  /** The reset promises exactly what was sent before it. */
  lemma ResetDoes(s: Session, id: StreamId, code: nat)
    requires Inv(s) && ResetStream(s, id, code).error.None?
    ensures id in s.streams
    ensures var t := ResetStream(s, id, code).session;
            && SaysOn(s, t, id, WtResetStream(id, code, Sent(s.emitted, id)), true)
            && t.flow == s.flow
            && t.closedSendMax == (if id in t.streams then s.closedSendMax
                                   else MapInsert(WIRE, s.closedSendMax, id, s.streams[id].sendMax, STREAM_ID_RECORD_MAX_SIZE))
  {
    hide Sent, Ended, Inv, MapInsert, SaysOn, MaySend, SendLimit;
    MaySendIs(s, id);
    ResetSucceeds(s, id, code);
    ResetSays(s, id, code);
  }

  lemma ResetSays(s: Session, id: StreamId, code: nat)
    requires ResetStream(s, id, code).error.None?
    ensures var t := ResetStream(s, id, code).session;
            && SaysOn(s, t, id, WtResetStream(id, code, s.streams[id].sendOffset), true)
            && t.flow == s.flow
            && t.closedSendMax == (if id in t.streams then s.closedSendMax
                                   else MapInsert(WIRE, s.closedSendMax, id, s.streams[id].sendMax, STREAM_ID_RECORD_MAX_SIZE))
  {
    hide MapInsert, SaysOn;
    var m := AfterReset(s, id, code);
    RemovalSays(s, m, id, WtResetStream(id, code, s.streams[id].sendOffset));
  }

  /** After its last capsule a stream is forgotten if its other part is over, too. */
  lemma RemovalSays(s: Session, m: Session, id: StreamId, c: Capsule)
    requires id in s.streams && id in m.streams && s.HasSendPart(id) && !m.streams[id].sendState.CanSend()
    requires m == s.Put(id, m.streams[id]).(flow := m.flow).Emit(c)
    requires m.streams[id] == s.streams[id].(sendState := m.streams[id].sendState, sendOffset := m.streams[id].sendOffset)
    ensures var t := m.RemoveIfClosed(id);
            && SaysOn(s, t, id, c, true) && t.flow == m.flow
            && t.closedSendMax == (if id in t.streams then s.closedSendMax
                                   else MapInsert(WIRE, s.closedSendMax, id, s.streams[id].sendMax, STREAM_ID_RECORD_MAX_SIZE))
  {
    hide MapInsert;
    var t := m.RemoveIfClosed(id);
    assert m.streams - {id} == s.streams - {id};
    assert t.streams - {id} == s.streams - {id};
  }

  /** The peer is asked to stop if and only if it has not been asked before, there is something to stop
      that it has not reset, and the code is one. */
  lemma StopDoes(s: Session, id: StreamId, code: nat)
    requires Inv(s)
    ensures var o := StopSendingStream(s, id, code);
            && (o.error.None? <==>
                  && code < 0x1_0000_0000 && id in s.streams && s.HasRecvPart(id)
                  && !Stopped(s.emitted, id) && !s.streams[id].recvState.ResetRead?)
            && (o.error.Some? ==>
                  o == Fail(s, if code >= 0x1_0000_0000 then FlowControlError
                               else if id !in s.streams then InvalidStreamId else StreamStateError))
            && (o.error.None? ==>
                  && SaysOnly(s, o.session, [WtStopSending(id, code)]) && o.session.flow == s.flow
                  && o.session.closedSendMax == s.closedSendMax
                  && o.session.streams == s.streams[id := s.streams[id].(stopSent := true)])
  {
    hide Named, Sent, Ended, Stopped, Granted, Opened;
    assert StreamOk(s, id);
  }

  // ---- Credit ----

  /** Session credit is granted if and only if it is more than was granted before and a number that
      a capsule can carry. */
  lemma MaxDataDoes(s: Session, maximum: nat)
    requires Inv(s)
    ensures var o := SendMaxData(s, maximum);
            && (o.error.None? <==> SessionRecvLimit(s) < maximum <= MAX_VALUE)
            && (o.error.Some? ==> o == Fail(s, FlowControlError))
            && (o.error.None? ==> o.session == s.(flow := s.flow.(recvMax := maximum)).Emit(WtMaxData(maximum)))
  {
    hide StreamOk, LegalScript, CountsOk, DataGranted, Total;
  }

  lemma MayReceiveIs(s: Session, id: StreamId)
    requires Inv(s)
    ensures MayReceive(s, id) <==>
            && id in s.streams && s.HasRecvPart(id)
            && s.streams[id].recvState.Recv? && !s.streams[id].stopSent
    ensures MayReceive(s, id) ==> s.streams[id].recvMax == RecvLimit(s, id)
  {
    hide Named, Sent, Ended, Stopped, Granted, Opened;
    assert StreamOk(s, id);
  }

  /** Stream credit is granted if and only if the peer may still send on the stream, and it is more than
      was granted before and a number that a capsule can carry. */
  lemma MaxStreamDataDoes(s: Session, id: StreamId, maximum: nat)
    requires Inv(s)
    ensures var o := SendMaxStreamData(s, id, maximum);
            && (o.error.None? <==> MayReceive(s, id) && RecvLimit(s, id) < maximum <= MAX_VALUE)
            && (o.error.Some? ==>
                  o == Fail(s, if maximum > MAX_VALUE then FlowControlError
                               else if id !in s.streams then InvalidStreamId
                               else if !MayReceive(s, id) then StreamStateError else FlowControlError))
            && (o.error.None? ==>
                  && id in s.streams
                  && o.session == s.Put(id, s.streams[id].(recvMax := maximum)).Emit(WtMaxStreamData(id, maximum)))
  {
    hide StreamOk, LegalScript, FlowOk, MayReceive, RecvLimit;
    MayReceiveIs(s, id);
  }

  /** Streams are granted if and only if the session is open, and they are more than were granted before
      and no more than there can be. */
  lemma MaxStreamsDoes(s: Session, maximum: nat, bidi: bool)
    requires Inv(s)
    ensures var o := SendMaxStreams(s, maximum, bidi);
            && (o.error.None? <==> s.IsOpen() && PeerStreamsLimit(s, bidi) < maximum <= 0x1000_0000_0000_0000)
            && (o.error.Some? ==> o == Fail(s, if s.IsOpen() then FlowControlError else SessionStateError))
            && (o.error.None? ==>
                  o.session == s.(flow := s.flow.SetLocalMax(bidi, maximum)).Emit(WtMaxStreams(maximum, bidi)))
  {
    hide StreamOk, LegalScript, StreamsGranted, Opened;
    assert CountsOk(s, bidi);
  }

  /** Extending a limit by an increment is granting what was granted before and the increment. */
  lemma GrowDoes(s: Session, id: StreamId, increment: nat, bidi: bool)
    requires Inv(s)
    ensures var o := GrowRecvWindow(s, increment);
            && (o.error.None? <==> increment > 0 && SessionRecvLimit(s) + increment <= MAX_VALUE)
            && (o.error.None? ==> o == SendMaxData(s, SessionRecvLimit(s) + increment))
    ensures var o := GrowStreamRecvWindow(s, id, increment);
            && (o.error.None? <==> increment > 0 && MayReceive(s, id) && RecvLimit(s, id) + increment <= MAX_VALUE)
            && (o.error.None? ==> o == SendMaxStreamData(s, id, RecvLimit(s, id) + increment))
    ensures var o := GrowMaxStreams(s, increment, bidi);
            && (o.error.None? <==>
                  increment > 0 && s.IsOpen() && PeerStreamsLimit(s, bidi) + increment <= 0x1000_0000_0000_0000)
            && (o.error.None? ==> o == SendMaxStreams(s, PeerStreamsLimit(s, bidi) + increment, bidi))
  {
    hide StreamOk, LegalScript, StreamsGranted, Opened, DataGranted, Total, MayReceive, RecvLimit;
    MayReceiveIs(s, id);
    assert CountsOk(s, bidi);
  }
}
