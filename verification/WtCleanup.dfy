/** When streams are forgotten: as soon as both of their parts are over and no sooner; and what a
    closed session still does. */
module WtCleanup {
  import opened Base
  import opened Bounded
  import opened WtTypes
  import opened WtHistory
  import opened WtSession
  import opened WtInvariant
  import opened WtReceive
  import opened WtProtocol
  import opened WtLocal

  /** No stream is kept whose parts are both over. */
  ghost predicate NothingLingers(s: Session) {
    forall id :: id in s.streams ==> !s.IsClosedStream(id, s.streams[id])
  }

  // ---- Steps ----

  /** At most one record changed, to one that is not over. */
  lemma PutLingers(s: Session, t: Session, id: StreamId)
    requires NothingLingers(s) && t.client == s.client && t.streams - {id} == s.streams - {id}
    requires id in t.streams ==> !t.IsClosedStream(id, t.streams[id])
    ensures NothingLingers(t)
  {
    forall other | other in t.streams ensures !t.IsClosedStream(other, t.streams[other]) {
      if other != id {
        assert other in t.streams - {id};
        assert (t.streams - {id})[other] == t.streams[other] && (s.streams - {id})[other] == s.streams[other];
      }
    }
  }

  /** Whatever is over is forgotten. */
  lemma RemoveLingers(s: Session, m: Session, id: StreamId)
    requires NothingLingers(s) && m.client == s.client && m.streams - {id} == s.streams - {id}
    ensures NothingLingers(m.RemoveIfClosed(id))
  {
    hide MapInsert;
    var t := m.RemoveIfClosed(id);
    assert t.streams - {id} == s.streams - {id};
    PutLingers(s, t, id);
  }

  lemma {:induction false} CreateLingers(s: Session, id: StreamId, k: nat)
    requires NothingLingers(s) && !s.IsLocal(id)
    ensures NothingLingers(CreateFrom(s, id, k))
    decreases id.index + 1 - k
  {
    if k <= id.index {
      var each := id.(index := k);
      if each in s.streams || each in s.closedSendMax {
        CreateLingers(s, id, k + 1);
      } else {
        var t := CreatePeerStream(s, each);
        assert t.streams - {each} == s.streams - {each};
        PutLingers(s, t, each);
        CreateLingers(t, id, k + 1);
      }
    }
  }

  lemma ImplicitLingers(s: Session, id: StreamId)
    requires NothingLingers(s)
    ensures NothingLingers(CreateImplicitPeerBidi(s, id).session)
  {
    hide CreateFrom, NothingLingers;
    if WillCreateImplicitly(s, id) {
      CreateLingers(s, id, 0);
    }
  }

  // ---- Calls and capsules ----

  lemma ApplyLingers(s: Session, op: Op)
    requires NothingLingers(s)
    ensures NothingLingers(Apply(s, op).session)
  {
    hide NothingLingers, PollEvent, SendStreamData, ResetStream, StopSendingStream, SendMaxStreamData, OpenStream, Truncate;
    match op {
      case DoOpen(bidi) => OpenLingers(s, bidi);
      case DoSend(id, data, fin) => SendLingers(s, id, data, fin);
      case DoReset(id, code) => ResetLingers(s, id, code);
      case DoStop(id, code) => StopLingers(s, id, code);
      case DoMaxStreamData(id, maximum) => CreditLingers(s, id, maximum);
      case DoGrowStream(id, increment) =>
        if id in s.streams {
          CreditLingers(s, id, s.streams[id].recvMax + increment);
        }
      case DoPoll => PollLingers(s);
      case _ => SameStreams(s, Apply(s, op).session);
    }
  }

  lemma SameStreams(s: Session, t: Session)
    requires NothingLingers(s) && t.streams == s.streams && t.client == s.client
    ensures NothingLingers(t)
  {
  }

  lemma OpenLingers(s: Session, bidi: bool)
    requires NothingLingers(s)
    ensures NothingLingers(OpenStream(s, bidi).session)
  {
    if OpenStream(s, bidi).error.None? {
      var t := OpenStream(s, bidi).session;
      assert t.streams - {NextId(s, bidi)} == s.streams - {NextId(s, bidi)};
      PutLingers(s, t, NextId(s, bidi));
    }
  }

  lemma SendLingers(s: Session, id: StreamId, data: seq<Byte>, fin: bool)
    requires NothingLingers(s)
    ensures NothingLingers(SendStreamData(s, id, data, fin).session)
  {
    hide NothingLingers, MapInsert;
    if SendStreamData(s, id, data, fin).error.None? {
      var m := AfterSend(s, id, data, fin);
      assert m.streams - {id} == s.streams - {id};
      if fin {
        RemoveLingers(s, m, id);
      } else {
        PutLingers(s, m, id);
      }
    }
  }

  lemma ResetLingers(s: Session, id: StreamId, code: nat)
    requires NothingLingers(s)
    ensures NothingLingers(ResetStream(s, id, code).session)
  {
    hide NothingLingers, MapInsert;
    if ResetStream(s, id, code).error.None? {
      var m := AfterReset(s, id, code);
      assert m.streams - {id} == s.streams - {id};
      RemoveLingers(s, m, id);
    }
  }

  lemma StopLingers(s: Session, id: StreamId, code: nat)
    requires NothingLingers(s)
    ensures NothingLingers(StopSendingStream(s, id, code).session)
  {
    if StopSendingStream(s, id, code).error.None? {
      var t := StopSendingStream(s, id, code).session;
      assert t.streams - {id} == s.streams - {id};
      PutLingers(s, t, id);
    }
  }

  lemma CreditLingers(s: Session, id: StreamId, maximum: nat)
    requires NothingLingers(s)
    ensures NothingLingers(SendMaxStreamData(s, id, maximum).session)
  {
    if SendMaxStreamData(s, id, maximum).error.None? {
      var t := SendMaxStreamData(s, id, maximum).session;
      assert t.streams - {id} == s.streams - {id};
      PutLingers(s, t, id);
    }
  }

  lemma PollIs(s: Session)
    ensures PollEvent(s)
         == if s.read >= |s.log| then s
            else if s.log[s.read].StreamData? && s.log[s.read].fin then
              MarkDataRead(s.(read := s.read + 1), s.log[s.read].id).RemoveIfClosed(s.log[s.read].id)
            else s.(read := s.read + 1)
  {
    hide MapInsert;
  }

  lemma PollLingers(s: Session)
    requires NothingLingers(s)
    ensures NothingLingers(PollEvent(s))
  {
    hide NothingLingers, PollEvent, MarkDataRead;
    PollIs(s);
    SameStreams(s, s);
    SameStreams(s, s.(read := s.read + 1));
    if s.read < |s.log| && s.log[s.read].StreamData? && s.log[s.read].fin {
      var id := s.log[s.read].id;
      MarkShape(s.(read := s.read + 1), id);
      RemoveLingers(s, MarkDataRead(s.(read := s.read + 1), id), id);
    }
  }

  lemma MarkShape(s: Session, id: StreamId)
    ensures MarkDataRead(s, id).client == s.client && MarkDataRead(s, id).streams - {id} == s.streams - {id}
  {
    assert MarkDataRead(s, id).streams - {id} == s.streams - {id};
  }

  lemma HandleLingers(s: Session, c: Capsule)
    requires NothingLingers(s)
    ensures NothingLingers(HandleCapsule(s, c).session)
  {
    hide NothingLingers, HandleStreamData, HandleResetStream, HandleStopSending, HandleMaxStreamData;
    var s1 := s.(processed := s.processed + [c]);
    SameStreams(s, s1);
    if !s.phase.Closed? {
      match c {
        case WtStream(id, data, fin) => DataLingers(s1, id, data, fin);
        case WtResetStream(id, code, size) => PeerResetLingers(s1, id, code, size);
        case WtStopSending(id, code) => PeerStopLingers(s1, id, code);
        case WtMaxStreamData(id, maximum) => PeerCreditLingers(s1, id, maximum);
        case _ => SameStreams(s, HandleCapsule(s, c).session);
      }
    }
  }

  lemma DataLingers(s: Session, id: StreamId, data: seq<Byte>, fin: bool)
    requires NothingLingers(s)
    ensures NothingLingers(HandleStreamData(s, id, data, fin).session)
  {
    hide NothingLingers, CreateFrom, ReceiveData;
    CreateFromShape(s, id, 0, id);
    if id in s.streams {
      if s.HasRecvPart(id) {
        ReceiveLingers(s, id, data, fin);
      }
    } else if !s.IsLocal(id) {
      CreateLingers(s, id, 0);
      if id !in s.closedSendMax && id.index < s.flow.LocalMax(id.bidi) {
        ReceiveLingers(CreateFrom(s, id, 0), id, data, fin);
      }
    }
  }

  lemma ReceiveLingers(s: Session, id: StreamId, data: seq<Byte>, fin: bool)
    requires NothingLingers(s) && id in s.streams && s.HasRecvPart(id)
    ensures NothingLingers(ReceiveData(s, id, data, fin).session)
  {
    hide NothingLingers;
    var t := ReceiveData(s, id, data, fin).session;
    assert t.streams - {id} == s.streams - {id};
    if t.streams[id] == s.streams[id] {
      SameStreams(s, t) by {
        assert t.streams == s.streams;
      }
    } else {
      PutLingers(s, t, id);
    }
  }

  lemma PeerResetLingers(s: Session, id: StreamId, code: nat, size: nat)
    requires NothingLingers(s)
    ensures NothingLingers(HandleResetStream(s, id, code, size).session)
  {
    hide NothingLingers, MapInsert;
    if HandleResetStream(s, id, code, size).error.None? {
      var m := AfterResetReceived(s, id, code);
      assert m.streams - {id} == s.streams - {id};
      RemoveLingers(s, m, id);
    }
  }

  lemma PeerStopLingers(s: Session, id: StreamId, code: nat)
    requires NothingLingers(s)
    ensures NothingLingers(HandleStopSending(s, id, code).session)
  {
    hide NothingLingers, CreateImplicitPeerBidi, ResetStream, SetInsert;
    var u := CreateImplicitPeerBidi(s, id).session;
    ImplicitLingers(s, id);
    var t := NoteStop(u, id);
    assert t.streams - {id} == u.streams - {id};
    NotedLingers(u, t, id);
    ResetLingers(t, id, code);
    SameStreams(t, t.Queue(StopSending(id, code)));
    SameStreams(ResetStream(t, id, code).session, ResetStream(t, id, code).session.Queue(StopSending(id, code)));
  }

  lemma NotedLingers(u: Session, t: Session, id: StreamId)
    requires NothingLingers(u) && t == NoteStop(u, id)
    ensures NothingLingers(t)
  {
    hide SetInsert;
    assert t.streams - {id} == u.streams - {id};
    PutLingers(u, t, id);
  }

  lemma PeerCreditLingers(s: Session, id: StreamId, maximum: nat)
    requires NothingLingers(s)
    ensures NothingLingers(HandleMaxStreamData(s, id, maximum).session)
  {
    hide NothingLingers, CreateImplicitPeerBidi, MapInsert;
    var u := CreateImplicitPeerBidi(s, id).session;
    ImplicitLingers(s, id);
    var t := HandleMaxStreamData(s, id, maximum).session;
    if t.streams == s.streams {
      SameStreams(s, t) by {
        CreditRole(s, id, maximum);
      }
    } else if id in u.streams {
      CreditPuts(u, id, maximum);
    }
  }

  lemma CreditRole(s: Session, id: StreamId, maximum: nat)
    ensures HandleMaxStreamData(s, id, maximum).session.client == s.client
  {
    hide CreateFrom, MapInsert;
    CreateFromShape(s, id, 0, id);
  }

  lemma CreditPuts(u: Session, id: StreamId, maximum: nat)
    requires NothingLingers(u) && id in u.streams
    ensures NothingLingers(u.Put(id, u.streams[id].(sendMax := maximum)))
  {
    var t := u.Put(id, u.streams[id].(sendMax := maximum));
    assert t.streams - {id} == u.streams - {id};
    PutLingers(u, t, id);
  }

  // ---- Runs ----

  /** Over every run of two new sessions neither end keeps a stream whose parts are both over. */
  lemma {:induction false} RunLeavesNothing(y: System, events: seq<Event>)
    requires NothingLingers(y.client) && NothingLingers(y.server)
    ensures NothingLingers(WtProtocol.End(y, events).client) && NothingLingers(WtProtocol.End(y, events).server)
    decreases |events|
  {
    hide NothingLingers, Apply, HandleCapsule;
    if events != [] {
      match events[0] {
        case Local(isClient, op) => ApplyLingers(y.End(isClient), op);
        case Deliver(toClient) =>
          if Pending(y.End(!toClient), y.End(toClient)) {
            HandleLingers(y.End(toClient), NextCapsule(y.End(!toClient), y.End(toClient)));
          }
      }
      RunLeavesNothing(Step(y, events[0]).0, events[1..]);
    }
  }

  // ---- What ends a stream for its reader ----

  /** Whether reading the next event tells the application of the end of data on a stream. */
  predicate ReadsEnd(s: Session, id: StreamId) {
    && s.read < |s.log| && s.log[s.read].StreamData? && s.log[s.read].fin && s.log[s.read].id == id
    && id in s.streams && s.streams[id].recvState.DataArrived?
  }

  /** Reading an event moves on by one; only reading the end of data on a stream changes a stream, and
      forgets it if this side is done sending on it. */
  lemma PollDoes(s: Session, id: StreamId)
    requires NothingLingers(s)
    ensures var t := PollEvent(s);
            && (ReadsEnd(s, id) ==>
                  && (id in t.streams <==> s.HasSendPart(id) && s.streams[id].sendState.CanSend())
                  && (id in t.streams ==> t.streams[id] == s.streams[id].(recvState := DataRead)))
            && (!ReadsEnd(s, id) ==>
                  (id in t.streams <==> id in s.streams) && (id in s.streams ==> t.streams[id] == s.streams[id]))
    ensures var t := PollEvent(s);
            t == s.(read := if s.read < |s.log| then s.read + 1 else s.read, streams := t.streams,
                    closedSendMax := t.closedSendMax)
  {
    hide MapInsert, NothingLingers, PollEvent;
    if s.read < |s.log| && s.log[s.read].StreamData? && s.log[s.read].fin {
      var t := s.(read := s.read + 1);
      var end := s.log[s.read].id;
      NoneIsOver(s, end);
      MarkedLeaves(t, end, id);
    }
    PollIs(s);
  }

  lemma NoneIsOver(s: Session, id: StreamId)
    requires NothingLingers(s)
    ensures id in s.streams ==> !s.IsClosedStream(id, s.streams[id])
  {
  }

  lemma MarkedLeaves(s: Session, end: StreamId, id: StreamId)
    requires end in s.streams ==> !s.IsClosedStream(end, s.streams[end])
    ensures var t := MarkDataRead(s, end).RemoveIfClosed(end);
            var ends := end == id && id in s.streams && s.streams[id].recvState.DataArrived?;
            && t == s.(streams := t.streams, closedSendMax := t.closedSendMax)
            && (ends ==>
                  && (id in t.streams <==> s.HasSendPart(id) && s.streams[id].sendState.CanSend())
                  && (id in t.streams ==> t.streams[id] == s.streams[id].(recvState := DataRead)))
            && (!ends ==>
                  (id in t.streams <==> id in s.streams) && (id in s.streams ==> t.streams[id] == s.streams[id]))
  {
    hide MapInsert;
  }

  /** Data leaves its stream waiting to be read to the end, or to go on. */
  lemma DataLeaves(s: Session, id: StreamId, data: seq<Byte>, fin: bool)
    requires HandleStreamData(s, id, data, fin).error.None?
    ensures var t := HandleStreamData(s, id, data, fin).session;
            && id in t.streams && t.streams[id].recvState == (if fin then DataArrived else Recv)
            && t.closedSendMax == s.closedSendMax
            && (id in s.streams ==> t.streams == s.streams[id := t.streams[id]] && t.streams[id].sendState == s.streams[id].sendState)
  {
    hide CreateFrom;
    CreateFromShape(s, id, 0, id);
  }

  /** A reset leaves its stream if and only if this side can still send on it. */
  lemma PeerResetLeaves(s: Session, id: StreamId, code: nat, size: nat)
    requires HandleResetStream(s, id, code, size).error.None?
    ensures id in s.streams
    ensures var t := HandleResetStream(s, id, code, size).session;
            && t.streams - {id} == s.streams - {id}
            && (id in t.streams <==> s.HasSendPart(id) && s.streams[id].sendState.CanSend())
            && (id in t.streams ==> t.streams[id] == s.streams[id].(recvState := ResetRead))
  {
    var m := AfterResetReceived(s, id, code);
    assert m.streams - {id} == s.streams - {id};
    RemovalLeaves(m, id);
  }

  lemma RemovalLeaves(s: Session, id: StreamId)
    ensures var t := s.RemoveIfClosed(id);
            && t.streams - {id} == s.streams - {id}
            && (id in t.streams <==> id in s.streams && !s.IsClosedStream(id, s.streams[id]))
            && (id in t.streams ==> t.streams[id] == s.streams[id])
  {
    hide MapInsert;
    assert s.RemoveIfClosed(id).streams - {id} == s.streams - {id};
  }

  // ---- Closed sessions ----

  /** A closed session takes nothing up and stays closed, but it does not fall silent: resets, requests
      to stop and credit for data are emitted as before, and nothing else is. */
  lemma ClosedStillSpeaks(s: Session, op: Op, c: Capsule)
    requires s.phase.Closed?
    ensures HandleCapsule(s, c) == Done(s)
    ensures var o := Apply(s, op);
            && o.session.phase.Closed?
            && (o.session.emitted != s.emitted <==>
                  && o.error.None?
                  && (op.DoReset? || op.DoStop? || op.DoMaxData? || op.DoMaxStreamData? || op.DoGrowRecv? || op.DoGrowStream?))
  {
    hide MapInsert;
    if op.DoReset? {
      ClosedResets(s, op.id, op.code);
    }
  }

  lemma ClosedResets(s: Session, id: StreamId, code: nat)
    ensures var o := ResetStream(s, id, code);
            o.session.phase == s.phase && (o.session.emitted != s.emitted <==> o.error.None?)
  {
    hide MapInsert;
    if ResetStream(s, id, code).error.None? {
      assert |ResetStream(s, id, code).session.emitted| == |s.emitted| + 1;
    }
  }

  /** So what a session emits last need not be the capsule that closes it. */
  lemma CloseIsNotLast(s: Session, code: nat, reason: seq<Byte>)
    requires Inv(s) && !s.phase.Closed? && s.flow.recvMax < MAX_VALUE
    ensures var t := Close(s, code, reason).session;
            && Close(s, code, reason).error.None?
            && SendMaxData(t, s.flow.recvMax + 1).session.emitted
               == s.emitted + [WtCloseSession(code, Truncate(reason)), WtMaxData(s.flow.recvMax + 1)]
  {
    hide Inv, Truncate;
  }
}
