/** What one session keeps true of itself, whatever its application does within the rules and
    whatever its peer sends that it accepts, but for the one case that WtReceive.HandleKeeps states. */
module WtInvariant {
  import opened Base
  import opened WtTypes
  import opened Bounded
  import opened WtHistory
  import opened WtSession

  ghost function SendLimit(s: Session, id: StreamId): nat {
    Max(s.SendCredit(id), Granted(s.processed, id))
  }

  ghost function RecvLimit(s: Session, id: StreamId): nat {
    Max(s.RecvCredit(id), Granted(s.emitted, id))
  }

  /** How many streams of the type of id exist or existed. */
  ghost function CreatedCount(s: Session, client: bool, bidi: bool): nat {
    if client == s.client then s.NextIndex(bidi) else Opened(s.processed, client, bidi)
  }

  ghost predicate Created(s: Session, id: StreamId) {
    id.index < CreatedCount(s, id.client, id.bidi)
  }

  /** The sending part of a live stream is what was emitted on it and what was granted for it. */
  ghost predicate SendPartOk(s: Session, id: StreamId, stream: Stream) {
    && stream.sendOffset == Sent(s.emitted, id)
    && (stream.sendState.CanSend() <==> !Ended(s.emitted, id))
    && stream.sendMax == SendLimit(s, id)
    && (stream.stopReceived <==> Stopped(s.processed, id))
  }

  /** The receiving part of a live stream is what was accepted on it and what was granted for it. */
  ghost predicate RecvPartOk(s: Session, id: StreamId, stream: Stream) {
    && stream.recvOffset == Sent(s.processed, id)
    && (stream.recvState.Recv? <==> !Ended(s.processed, id))
    && stream.recvMax == RecvLimit(s, id)
    && (stream.stopSent <==> Stopped(s.emitted, id))
    && (stream.hasReceivedData <==> Sent(s.processed, id) > 0)
  }

  ghost predicate LiveOk(s: Session, id: StreamId, stream: Stream) {
    && (s.HasSendPart(id) ==> SendPartOk(s, id, stream))
    && (s.HasRecvPart(id) ==> RecvPartOk(s, id, stream))
  }

  /** A forgotten stream has ended both ways and its send limit is remembered. */
  ghost predicate ForgottenOk(s: Session, id: StreamId, sendMax: nat) {
    && (s.HasSendPart(id) ==> Ended(s.emitted, id) && sendMax == SendLimit(s, id))
    && (s.HasRecvPart(id) ==> Ended(s.processed, id))
  }

  /** Everything the session keeps true of one stream identifier. */
  ghost predicate StreamOk(s: Session, id: StreamId) {
    && (Created(s, id) <==> id in s.streams || id in s.closedSendMax)
    && !(id in s.streams && id in s.closedSendMax)
    && (id in s.stopReceived <==> Stopped(s.processed, id))
    && (!Created(s, id) ==> !Named(s.emitted, id) && !Named(s.processed, id))
    && (s.HasSendPart(id) ==> Sent(s.emitted, id) <= SendLimit(s, id))
    && (s.HasRecvPart(id) ==> Sent(s.processed, id) <= RecvLimit(s, id))
    && (id in s.streams ==> LiveOk(s, id, s.streams[id]))
    && (id in s.closedSendMax ==> ForgottenOk(s, id, s.closedSendMax[id]))
  }

  /** Stream counts of one direction. */
  ghost predicate CountsOk(s: Session, bidi: bool) {
    && s.flow.LocalMax(bidi) == Max(s.config.Streams(bidi), StreamsGranted(s.emitted, bidi)) <= MAX_STREAMS_LIMIT
    && s.flow.RemoteMax(bidi) == Max(s.peer.Streams(bidi), StreamsGranted(s.processed, bidi)) <= MAX_STREAMS_LIMIT
    && s.flow.Opened(bidi) == s.NextIndex(bidi) <= s.flow.RemoteMax(bidi)
    && Opened(s.processed, !s.client, bidi) <= s.flow.LocalMax(bidi)
    && Opened(s.emitted, s.client, bidi) <= s.NextIndex(bidi)
  }

  /** Session credit and stream counts are what the histories say, and within the limits. */
  ghost predicate FlowOk(s: Session) {
    && s.flow.sendOffset == Total(s.emitted) <= s.flow.sendMax
    && s.flow.recvOffset == Total(s.processed) <= s.flow.recvMax
    && s.flow.sendMax == Max(s.peer.maxData, DataGranted(s.processed)) <= MAX_VALUE
    && s.flow.recvMax == Max(s.config.maxData, DataGranted(s.emitted)) <= MAX_VALUE
    && CountsOk(s, true)
    && CountsOk(s, false)
  }

  ghost predicate Inv(s: Session) {
    && s.config.Valid() && s.peer.Valid()
    && FlowOk(s)
    && LegalScript(s.client, s.config, s.emitted)
    && forall id :: StreamOk(s, id)
  }

  /** The records of closed and stopped streams have not filled up. */
  predicate HasRoom(s: Session) {
    |s.closedSendMax| < STREAM_ID_RECORD_MAX_SIZE && |s.stopReceived| < STREAM_ID_RECORD_MAX_SIZE
  }

  lemma NewSessionOk(client: bool, config: Config, peer: Config)
    requires config.Valid() && peer.Valid()
    ensures Inv(NewSession(client, config, peer))
  {
    var s := NewSession(client, config, peer);
    forall id ensures StreamOk(s, id) {
    }
  }

  // ---- Local operations ----

  lemma OpenKeeps(s: Session, bidi: bool)
    requires Inv(s)
    ensures Inv(OpenStream(s, bidi).session)
  {
    var o := OpenStream(s, bidi);
    if o.error.None? {
      forall id ensures StreamOk(o.session, id) {
        OpenKeepsStream(s, bidi, id);
      }
    }
  }

  lemma OpenKeepsStream(s: Session, bidi: bool, id: StreamId)
    requires Inv(s) && OpenStream(s, bidi).error.None?
    ensures StreamOk(OpenStream(s, bidi).session, id)
  {
    hide Named, Sent, Ended, Stopped, Granted, Opened;
    assert StreamOk(s, id);
    if id == NextId(s, bidi) {
      UnnamedIsFresh(s.emitted, id);
      UnnamedIsFresh(s.processed, id);
    }
  }

  /** Forgetting a stream that has ended both ways loses nothing the invariant needs. */
  lemma RemoveKeeps(s: Session, gone: StreamId)
    requires Inv(s) && |s.closedSendMax| < STREAM_ID_RECORD_MAX_SIZE
    ensures Inv(s.RemoveIfClosed(gone))
  {
    var t := s.RemoveIfClosed(gone);
    forall id ensures StreamOk(t, id) {
      RemoveKeepsStream(s, gone, id);
    }
  }

  lemma RemoveKeepsStream(s: Session, gone: StreamId, id: StreamId)
    requires Inv(s) && |s.closedSendMax| < STREAM_ID_RECORD_MAX_SIZE
    ensures StreamOk(s.RemoveIfClosed(gone), id)
  {
    hide MapInsert, StreamOk, FlowOk, LegalScript;
    assert StreamOk(s, id);
    var t := s.RemoveIfClosed(gone);
    if id != gone || t == s {
      SameStreamOk(s, t, id);
    } else {
      ForgetStreamOk(s, t, id);
    }
  }

  /** The invariant of one stream depends on its own records only. */
  lemma SameStreamOk(s: Session, t: Session, id: StreamId)
    requires StreamOk(s, id) && t == s.(streams := t.streams, closedSendMax := t.closedSendMax)
    requires (id in t.streams <==> id in s.streams) && (id in s.streams ==> t.streams[id] == s.streams[id])
    requires id in t.closedSendMax <==> id in s.closedSendMax
    requires id in s.closedSendMax ==> t.closedSendMax[id] == s.closedSendMax[id]
    ensures StreamOk(t, id)
  {
    hide Named, Sent, Ended, Stopped, Granted, Opened;
  }

  lemma ForgetStreamOk(s: Session, t: Session, id: StreamId)
    requires StreamOk(s, id) && id in s.streams && s.IsClosedStream(id, s.streams[id])
    requires t == s.(streams := t.streams, closedSendMax := t.closedSendMax)
    requires id !in t.streams && id in t.closedSendMax && t.closedSendMax[id] == s.streams[id].sendMax
    ensures StreamOk(t, id)
  {
    hide Named, Sent, Ended, Stopped, Granted, Opened;
  }

  /** A session that has emitted c and otherwise differs only in what c is about. */
  ghost predicate Emits(s: Session, t: Session, c: Capsule) {
    && t.emitted == s.emitted + [c]
    && t.processed == s.processed && t.client == s.client && t.config == s.config && t.peer == s.peer
    && t.nextBidi == s.nextBidi && t.nextUni == s.nextUni
    && t.closedSendMax == s.closedSendMax && t.stopReceived == s.stopReceived
  }

  /** Credit for the session and for stream counts: the flow record follows what was emitted. */
  lemma EmitKeepsFlow(s: Session, t: Session, c: Capsule)
    requires Inv(s) && Emits(s, t, c) && LegalNext(s.client, s.config, s.emitted, c)
    requires t.flow == match c
                       case WtStream(_, data, _) => s.flow.(sendOffset := s.flow.sendOffset + |data|)
                       case WtMaxData(maximum) => s.flow.(recvMax := maximum)
                       case WtMaxStreams(maximum, bidi) => s.flow.SetLocalMax(bidi, maximum)
                       case _ => s.flow
    requires t.flow.sendOffset <= t.flow.sendMax
    requires forall bidi :: Opening(c, s.client, bidi) <= s.NextIndex(bidi)
    ensures FlowOk(t) && LegalScript(t.client, t.config, t.emitted)
  {
    hide Opened, Opening, LegalScript, Total, DataGranted, StreamsGranted, Ended, Sent, Granted, Stopped;
    ExtendFlow(s.emitted, c, s.client, true);
    ExtendFlow(s.emitted, c, s.client, false);
    ExtendLegal(s.client, s.config, s.emitted, c);
    assert Opening(c, s.client, true) <= s.NextIndex(true) && Opening(c, s.client, false) <= s.NextIndex(false);
  }

  /** Streams that c is not about are left as they were. */
  lemma EmitKeepsOther(s: Session, t: Session, c: Capsule, id: StreamId)
    requires Inv(s) && Emits(s, t, c) && !Names(c, id)
    requires id in s.streams <==> id in t.streams
    requires id in s.streams ==> t.streams[id] == s.streams[id]
    ensures StreamOk(t, id)
  {
    hide Named, Sent, Ended, Stopped, Granted, Opened;
    assert StreamOk(s, id);
    ExtendStream(s.emitted, c, id);
  }

  lemma SendKeeps(s: Session, id: StreamId, data: seq<Byte>, fin: bool)
    requires Inv(s) && HasRoom(s) && (data != [] || fin || Sent(s.emitted, id) == 0)
    ensures Inv(SendStreamData(s, id, data, fin).session)
  {
    hide Inv, AfterSend, Sent;
    if SendStreamData(s, id, data, fin).error.None? {
      AfterSendOk(s, id, data, fin);
      RemoveKeeps(AfterSend(s, id, data, fin), id);
    }
  }

  lemma AfterSendOk(s: Session, id: StreamId, data: seq<Byte>, fin: bool)
    requires Inv(s) && (data != [] || fin || Sent(s.emitted, id) == 0)
    requires SendStreamData(s, id, data, fin).error.None?
    ensures Inv(AfterSend(s, id, data, fin))
    ensures AfterSend(s, id, data, fin).closedSendMax == s.closedSendMax
  {
    hide Named, Sent, Ended, Stopped, Granted, Opened, Total, DataGranted, StreamsGranted, LegalScript;
    var t := AfterSend(s, id, data, fin);
    assert StreamOk(s, id);
    EmitKeepsFlow(s, t, WtStream(id, data, fin));
    forall other ensures StreamOk(t, other) {
      if other != id {
        EmitKeepsOther(s, t, WtStream(id, data, fin), other);
      } else {
        AfterSendOwn(s, id, data, fin);
      }
    }
  }

  lemma AfterSendOwn(s: Session, id: StreamId, data: seq<Byte>, fin: bool)
    requires Inv(s) && SendStreamData(s, id, data, fin).error.None?
    ensures StreamOk(AfterSend(s, id, data, fin), id)
  {
    hide Named, Sent, Ended, Stopped, Granted, Opened;
    assert StreamOk(s, id);
    ExtendStream(s.emitted, WtStream(id, data, fin), id);
  }

  lemma ResetKeeps(s: Session, id: StreamId, code: nat)
    requires Inv(s) && |s.closedSendMax| < STREAM_ID_RECORD_MAX_SIZE
    requires s.IsLocal(id) ==> id.index < Opened(s.emitted, s.client, id.bidi)
    ensures Inv(ResetStream(s, id, code).session)
  {
    hide Named, Sent, Ended, Stopped, Granted, Opened, Total, DataGranted, StreamsGranted, LegalScript;
    if ResetStream(s, id, code).error.None? {
      var c := WtResetStream(id, code, s.streams[id].sendOffset);
      var t := AfterReset(s, id, code);
      assert StreamOk(s, id);
      EmitKeepsFlow(s, t, c);
      forall other ensures StreamOk(t, other) {
        if other != id {
          EmitKeepsOther(s, t, c, other);
        } else {
          ResetKeepsOwn(s, id, code);
        }
      }
      RemoveKeeps(t, id);
    }
  }

  lemma ResetKeepsOwn(s: Session, id: StreamId, code: nat)
    requires Inv(s) && id in s.streams && s.HasSendPart(id) && s.streams[id].sendState.CanSend()
    ensures StreamOk(AfterReset(s, id, code), id)
  {
    hide Named, Sent, Ended, Stopped, Granted, Opened;
    assert StreamOk(s, id);
    ExtendStream(s.emitted, WtResetStream(id, code, s.streams[id].sendOffset), id);
  }

  lemma StopKeeps(s: Session, id: StreamId, code: nat)
    requires Inv(s)
    ensures Inv(StopSendingStream(s, id, code).session)
  {
    hide Named, Sent, Ended, Stopped, Granted, Opened, Total, DataGranted, StreamsGranted, LegalScript;
    var o := StopSendingStream(s, id, code);
    if o.error.None? {
      var c := WtStopSending(id, code);
      assert StreamOk(s, id);
      EmitKeepsFlow(s, o.session, c);
      forall other ensures StreamOk(o.session, other) {
        if other != id {
          EmitKeepsOther(s, o.session, c, other);
        } else {
          StopKeepsOwn(s, id, code);
        }
      }
    }
  }

  lemma StopKeepsOwn(s: Session, id: StreamId, code: nat)
    requires Inv(s) && StopSendingStream(s, id, code).error.None?
    ensures StreamOk(StopSendingStream(s, id, code).session, id)
  {
    hide Named, Sent, Ended, Stopped, Granted, Opened;
    assert StreamOk(s, id);
    ExtendStream(s.emitted, WtStopSending(id, code), id);
  }

  lemma MaxStreamDataKeeps(s: Session, id: StreamId, maximum: nat)
    requires Inv(s)
    ensures Inv(SendMaxStreamData(s, id, maximum).session)
  {
    hide Named, Sent, Ended, Stopped, Granted, Opened, Total, DataGranted, StreamsGranted, LegalScript;
    var o := SendMaxStreamData(s, id, maximum);
    if o.error.None? {
      var c := WtMaxStreamData(id, maximum);
      assert StreamOk(s, id);
      EmitKeepsFlow(s, o.session, c);
      forall other ensures StreamOk(o.session, other) {
        if other != id {
          EmitKeepsOther(s, o.session, c, other);
        } else {
          MaxStreamDataKeepsOwn(s, id, maximum);
        }
      }
    }
  }

  lemma MaxStreamDataKeepsOwn(s: Session, id: StreamId, maximum: nat)
    requires Inv(s) && SendMaxStreamData(s, id, maximum).error.None?
    ensures StreamOk(SendMaxStreamData(s, id, maximum).session, id)
  {
    hide Named, Sent, Ended, Stopped, Granted, Opened;
    assert StreamOk(s, id);
    ExtendStream(s.emitted, WtMaxStreamData(id, maximum), id);
  }

  predicate AboutNoStream(c: Capsule) {
    c.Datagram? || c.WtMaxData? || c.WtMaxStreams? || c.WtCloseSession? || c.WtDrainSession?
  }

  /** Capsules that are about no stream: credit for the session, and the rest. */
  lemma EmitKeeps(s: Session, t: Session, c: Capsule)
    requires Inv(s) && Emits(s, t, c) && t.streams == s.streams && AboutNoStream(c)
    requires LegalNext(s.client, s.config, s.emitted, c)
    requires t.flow == match c
                       case WtMaxData(maximum) => s.flow.(recvMax := maximum)
                       case WtMaxStreams(maximum, bidi) => s.flow.SetLocalMax(bidi, maximum)
                       case _ => s.flow
    ensures Inv(t)
  {
    hide Named, Sent, Ended, Stopped, Granted, Opened, Total, DataGranted, StreamsGranted, LegalScript;
    EmitKeepsFlow(s, t, c);
    forall id ensures StreamOk(t, id) {
      EmitKeepsOther(s, t, c, id);
    }
  }

  lemma PollKeeps(s: Session)
    requires Inv(s) && HasRoom(s)
    ensures Inv(PollEvent(s))
  {
    hide Named, Sent, Ended, Stopped, Granted, Opened, Total, DataGranted, StreamsGranted, LegalScript;
    if s.read < |s.log| {
      var e := s.log[s.read];
      var t := s.(read := s.read + 1);
      QueueKeeps(s, t);
      if e.StreamData? && e.fin {
        MarkKeeps(t, e.id);
        RemoveKeeps(MarkDataRead(t, e.id), e.id);
      }
    }
  }

  /** The invariant does not depend on the events or on what the application has read. */
  lemma QueueKeeps(s: Session, t: Session)
    requires Inv(s) && t == s.(read := t.read, log := t.log, phase := t.phase)
    ensures Inv(t)
  {
    hide Named, Sent, Ended, Stopped, Granted, Opened, Total, DataGranted, StreamsGranted, LegalScript;
    forall id ensures StreamOk(t, id) {
      assert StreamOk(s, id);
    }
  }

  lemma MarkKeeps(s: Session, read: StreamId)
    requires Inv(s)
    ensures Inv(MarkDataRead(s, read))
  {
    hide Named, Sent, Ended, Stopped, Granted, Opened, Total, DataGranted, StreamsGranted, LegalScript;
    forall id ensures StreamOk(MarkDataRead(s, read), id) {
      MarkKeepsStream(s, read, id);
    }
  }

  lemma MarkKeepsStream(s: Session, read: StreamId, id: StreamId)
    requires Inv(s)
    ensures StreamOk(MarkDataRead(s, read), id)
  {
    hide Named, Sent, Ended, Stopped, Granted, Opened;
    assert StreamOk(s, id) && StreamOk(s, read);
  }
}
