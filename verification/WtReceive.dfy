/** Accepting capsules keeps the invariant of a session. */
module WtReceive {
  import opened Base
  import opened WtTypes
  import opened Bounded
  import opened WtHistory
  import opened WtSession
  import opened WtInvariant

  /** A session that has taken up c and otherwise differs only in what c is about. */
  ghost predicate Receives(s: Session, t: Session, c: Capsule) {
    && t.processed == s.processed + [c]
    && t.emitted == s.emitted && t.client == s.client && t.config == s.config && t.peer == s.peer
    && t.nextBidi == s.nextBidi && t.nextUni == s.nextUni
  }

  /** What accepting c does to session credit and stream counts. */
  ghost function FlowAfter(flow: Flow, c: Capsule): Flow {
    match c
    case WtStream(_, data, _) => flow.(recvOffset := flow.recvOffset + |data|)
    case WtMaxData(maximum) => flow.(sendMax := maximum)
    case WtMaxStreams(maximum, bidi) => flow.SetRemoteMax(bidi, maximum)
    case _ => flow
  }

  lemma ReceiveKeepsFlow(s: Session, t: Session, c: Capsule)
    requires Inv(s) && Receives(s, t, c) && t.flow == FlowAfter(s.flow, c)
    requires c.WtStream? ==> t.flow.recvOffset <= t.flow.recvMax
    requires c.WtMaxData? ==> s.flow.sendMax < c.maximum <= MAX_VALUE
    requires c.WtMaxStreams? ==> s.flow.RemoteMax(c.bidi) < c.maximum <= MAX_STREAMS_LIMIT
    requires Opening(c, !s.client, true) <= s.flow.LocalMax(true)
    requires Opening(c, !s.client, false) <= s.flow.LocalMax(false)
    ensures FlowOk(t) && LegalScript(t.client, t.config, t.emitted)
  {
    hide Opened, Opening, LegalScript, Total, DataGranted, StreamsGranted;
    ExtendFlow(s.processed, c, !s.client, true);
    ExtendFlow(s.processed, c, !s.client, false);
  }

  /** A stream that c is not about is left as it was, or has just been created. */
  lemma ReceiveKeepsOther(s: Session, t: Session, c: Capsule, id: StreamId)
    requires Inv(s) && Receives(s, t, c) && !Names(c, id)
    requires id in t.closedSendMax <==> id in s.closedSendMax
    requires id in s.closedSendMax ==> t.closedSendMax[id] == s.closedSendMax[id]
    requires id in t.stopReceived <==> id in s.stopReceived
    requires id in s.streams ==> id in t.streams && t.streams[id] == s.streams[id]
    requires id in t.streams && id !in s.streams ==>
               Created(t, id) && id !in s.closedSendMax && t.streams[id] == NewStream(s.SendCredit(id), s.RecvCredit(id))
    requires Created(s, id) ==> Created(t, id)
    requires Created(t, id) ==> Created(s, id) || id in t.streams
    ensures StreamOk(t, id)
  {
    hide Named, Sent, Ended, Stopped, Granted, Opened;
    assert StreamOk(s, id);
    ExtendStream(s.processed, c, id);
    if !Created(s, id) {
      UnnamedIsFresh(s.emitted, id);
      UnnamedIsFresh(s.processed, id);
    }
  }

  /** Capsules that are about no stream, and the ones that create or change none. */
  lemma ReceiveKeeps(s: Session, t: Session, c: Capsule)
    requires Inv(s) && Receives(s, t, c) && t.flow == FlowAfter(s.flow, c)
    requires !c.WtStream? && !c.WtResetStream? && !c.WtStopSending? && !c.WtMaxStreamData?
    requires c.WtMaxData? ==> s.flow.sendMax < c.maximum <= MAX_VALUE
    requires c.WtMaxStreams? ==> s.flow.RemoteMax(c.bidi) < c.maximum <= MAX_STREAMS_LIMIT
    requires t.streams == s.streams && t.closedSendMax == s.closedSendMax && t.stopReceived == s.stopReceived
    ensures Inv(t)
  {
    hide Named, Sent, Ended, Stopped, Granted, Opened, Total, DataGranted, StreamsGranted, LegalScript;
    ReceiveKeepsFlow(s, t, c);
    forall id ensures StreamOk(t, id) {
      assert StreamOk(s, id);
      ExtendFlow(s.processed, c, id.client, id.bidi);
      ReceiveKeepsOther(s, t, c, id);
    }
  }

  // ---- Implicit creation ----

  /** j is of the type of id and no later, and at index k or later. */
  predicate UpTo(id: StreamId, k: nat, j: StreamId) {
    j.client == id.client && j.bidi == id.bidi && k <= j.index <= id.index
  }

  /** Creation adds exactly the streams that never existed, fresh, and changes nothing else. */
  lemma {:induction false} CreateFromShape(s: Session, id: StreamId, k: nat, j: StreamId)
    ensures var t := CreateFrom(s, id, k);
            && t == s.(streams := t.streams, log := t.log)
            && (j in t.streams <==> j in s.streams || (UpTo(id, k, j) && j !in s.closedSendMax))
            && (j in s.streams ==> t.streams[j] == s.streams[j])
            && (j in t.streams && j !in s.streams ==> t.streams[j] == NewStream(s.SendCredit(j), s.RecvCredit(j)))
    decreases id.index + 1 - k
  {
    if k <= id.index {
      var each := id.(index := k);
      var u := if each in s.streams || each in s.closedSendMax then s else CreatePeerStream(s, each);
      CreateFromShape(u, id, k + 1, j);
    }
  }

  /** The state in which a capsule about a peer's stream is acted upon. */
  ghost function AfterOpening(s: Session, id: StreamId, c: Capsule): Session {
    CreateFrom(s.(processed := s.processed + [c]), id, 0)
  }

  /** Streams that c opens but is not about. */
  lemma CreateKeepsOther(s: Session, t: Session, c: Capsule, id: StreamId, other: StreamId)
    requires Inv(s) && Receives(s, t, c) && Names(c, id) && other != id && !s.IsLocal(id)
    requires Opening(c, id.client, id.bidi) == id.index + 1 && !Created(s, id)
    requires t.closedSendMax == s.closedSendMax
    requires other in t.stopReceived <==> other in s.stopReceived
    requires var u := AfterOpening(s, id, c);
             (other in t.streams <==> other in u.streams) && (other in t.streams ==> t.streams[other] == u.streams[other])
    ensures StreamOk(t, other)
  {
    hide Named, Sent, Ended, Stopped, Granted, Opened, CreateFrom;
    assert StreamOk(s, other);
    CreateFromShape(s.(processed := s.processed + [c]), id, 0, other);
    ExtendFlow(s.processed, c, other.client, other.bidi);
    ReceiveKeepsOther(s, t, c, other);
  }

  /** What the invariant says of the record of a stream, whether it existed or is new. */
  ghost predicate Fits(s: Session, id: StreamId, stream: Stream) {
    && id !in s.closedSendMax
    && (id in s.streams ==> stream == s.streams[id])
    && (id !in s.streams ==> !s.IsLocal(id) && stream == NewStream(s.SendCredit(id), s.RecvCredit(id)))
  }

  lemma FitsIsLive(s: Session, id: StreamId, stream: Stream)
    requires Inv(s) && Fits(s, id, stream)
    ensures LiveOk(s, id, stream)
    ensures s.HasSendPart(id) ==> Sent(s.emitted, id) <= SendLimit(s, id)
    ensures s.HasRecvPart(id) ==> Sent(s.processed, id) <= RecvLimit(s, id)
    ensures id !in s.stopReceived <==> !Stopped(s.processed, id)
  {
    hide Named, Sent, Ended, Stopped, Granted, Opened;
    assert StreamOk(s, id);
    if id !in s.streams {
      UnnamedIsFresh(s.emitted, id);
      UnnamedIsFresh(s.processed, id);
    }
  }

  /** The state in which a capsule about a stream is acted upon: the stream exists. */
  ghost predicate Ready(s: Session, u: Session, c: Capsule, id: StreamId) {
    && id in u.streams && Fits(s, id, u.streams[id])
    && u == (if id in s.streams then s.(processed := s.processed + [c]) else AfterOpening(s, id, c))
    && (id !in s.streams ==> !s.IsLocal(id) && id.index < s.flow.LocalMax(id.bidi))
  }

  lemma ReadyCounts(s: Session, u: Session, c: Capsule, id: StreamId)
    requires Inv(s) && Ready(s, u, c, id) && Names(c, id) && (id !in s.streams ==> !c.WtResetStream?)
    ensures id in u.streams && Created(u, id) && id !in u.closedSendMax
    ensures Receives(s, u, c) && u == s.(streams := u.streams, log := u.log, processed := u.processed)
    ensures Opening(c, !s.client, true) <= s.flow.LocalMax(true)
    ensures Opening(c, !s.client, false) <= s.flow.LocalMax(false)
  {
    hide Inv, Opened, Created, CreateFrom, Opening, Names;
    ReadyShape(s, u, c, id);
    ReadyLimits(s, c, id);
    CreatedSince(s, u, c, id);
  }

  lemma ReadyShape(s: Session, u: Session, c: Capsule, id: StreamId)
    requires Ready(s, u, c, id)
    ensures Receives(s, u, c) && u == s.(streams := u.streams, log := u.log, processed := u.processed)
    ensures id !in u.closedSendMax
  {
    hide CreateFrom;
    CreateFromShape(s.(processed := s.processed + [c]), id, 0, id);
  }

  /** What the capsule opens is within the limits. */
  lemma ReadyLimits(s: Session, c: Capsule, id: StreamId)
    requires Inv(s) && Names(c, id)
    requires id in s.streams || (!s.IsLocal(id) && id.index < s.flow.LocalMax(id.bidi))
    ensures Opening(c, !s.client, true) <= s.flow.LocalMax(true)
    ensures Opening(c, !s.client, false) <= s.flow.LocalMax(false)
  {
    hide Named, Sent, Ended, Stopped, Granted, Opened, Total, DataGranted, StreamsGranted, LegalScript;
    assert StreamOk(s, id);
  }

  lemma CreatedSince(s: Session, u: Session, c: Capsule, id: StreamId)
    requires Inv(s) && Receives(s, u, c) && Names(c, id) && (id in s.streams || (!s.IsLocal(id) && !c.WtResetStream?))
    ensures Created(u, id)
  {
    hide Named, Sent, Ended, Stopped, Granted, Opened, Total, DataGranted, StreamsGranted, LegalScript;
    assert StreamOk(s, id);
    ExtendFlow(s.processed, c, id.client, id.bidi);
  }

  /** Every other stream is as the invariant wants it, provided only the stream c is about
      has changed since. */
  lemma ReadyKeepsOther(s: Session, u: Session, t: Session, c: Capsule, id: StreamId, other: StreamId)
    requires Inv(s) && Ready(s, u, c, id) && Names(c, id) && (id !in s.streams ==> !c.WtResetStream?)
    requires other != id && Receives(s, t, c)
    requires t.closedSendMax == u.closedSendMax && (other in t.stopReceived <==> other in u.stopReceived)
    requires other in t.streams <==> other in u.streams
    requires other in t.streams ==> t.streams[other] == u.streams[other]
    ensures StreamOk(t, other)
  {
    hide Named, Sent, Ended, Stopped, Granted, Opened, CreateFrom;
    ReadyCounts(s, u, c, id);
    assert StreamOk(s, id) && StreamOk(s, other);
    if id in s.streams {
      ExtendFlow(s.processed, c, other.client, other.bidi);
      ReceiveKeepsOther(s, t, c, other);
    } else {
      CreateKeepsOther(s, t, c, id, other);
    }
  }

  // ---- Data ----

  lemma DataKeeps(s: Session, u: Session, id: StreamId, data: seq<Byte>, fin: bool)
    requires Inv(s) && Ready(s, u, WtStream(id, data, fin), id) && s.HasRecvPart(id)
    requires ReceiveData(u, id, data, fin).error.None?
    ensures Inv(ReceiveData(u, id, data, fin).session)
  {
    hide Named, Sent, Ended, Stopped, Granted, Opened, Total, DataGranted, StreamsGranted, LegalScript, Ready, StreamOk;
    var c := WtStream(id, data, fin);
    ReadyCounts(s, u, c, id);
    var t := ReceiveData(u, id, data, fin).session;
    ReceiveKeepsFlow(s, t, c);
    forall other ensures StreamOk(t, other) {
      if other != id {
        ReadyKeepsOther(s, u, t, c, id, other);
      } else {
        DataKeepsOwn(s, u, t, id, data, fin);
      }
    }
  }

  lemma DataKeepsOwn(s: Session, u: Session, t: Session, id: StreamId, data: seq<Byte>, fin: bool)
    requires Inv(s) && Ready(s, u, WtStream(id, data, fin), id) && s.HasRecvPart(id)
    requires ReceiveData(u, id, data, fin) == Done(t)
    ensures StreamOk(t, id)
  {
    hide Named, Sent, Ended, Stopped, Granted, Opened, CreateFrom;
    ReadyCounts(s, u, WtStream(id, data, fin), id);
    FitsIsLive(s, id, u.streams[id]);
    ExtendStream(s.processed, WtStream(id, data, fin), id);
  }

  /** The stream a capsule of data is for. */
  lemma DataReady(s: Session, id: StreamId, data: seq<Byte>, fin: bool) returns (u: Session)
    requires Inv(s)
    requires HandleStreamData(s.(processed := s.processed + [WtStream(id, data, fin)]), id, data, fin).error.None?
    ensures Ready(s, u, WtStream(id, data, fin), id) && s.HasRecvPart(id)
    ensures HandleStreamData(s.(processed := s.processed + [WtStream(id, data, fin)]), id, data, fin)
         == ReceiveData(u, id, data, fin)
  {
    hide Named, Sent, Ended, Stopped, Granted, Opened, CreateFrom, Inv, FlowOk;
    var c := WtStream(id, data, fin);
    var s1 := s.(processed := s.processed + [c]);
    CreateFromShape(s1, id, 0, id);
    u := if id in s.streams then s1 else AfterOpening(s, id, c);
  }

  lemma HandleDataKeeps(s: Session, id: StreamId, data: seq<Byte>, fin: bool)
    requires Inv(s)
    requires HandleStreamData(s.(processed := s.processed + [WtStream(id, data, fin)]), id, data, fin).error.None?
    ensures Inv(HandleStreamData(s.(processed := s.processed + [WtStream(id, data, fin)]), id, data, fin).session)
  {
    hide *;
    var u := DataReady(s, id, data, fin);
    DataKeeps(s, u, id, data, fin);
  }

  // ---- Resets ----

  ghost function AfterResetReceived(s: Session, id: StreamId, code: nat): Session
    requires id in s.streams
  {
    s.Put(id, s.streams[id].(recvState := ResetRead)).Queue(StreamReset(id, code))
  }

  lemma HandleResetKeeps(s: Session, id: StreamId, code: nat, size: nat)
    requires Inv(s) && HasRoom(s)
    requires HandleResetStream(s.(processed := s.processed + [WtResetStream(id, code, size)]), id, code, size).error.None?
    ensures Inv(HandleResetStream(s.(processed := s.processed + [WtResetStream(id, code, size)]), id, code, size).session)
  {
    hide Named, Sent, Ended, Stopped, Granted, Opened, Total, DataGranted, StreamsGranted, LegalScript, StreamOk;
    var c := WtResetStream(id, code, size);
    var u := s.(processed := s.processed + [c]);
    var t := AfterResetReceived(u, id, code);
    ResetReady(s, u, id, c);
    ReadyCounts(s, u, c, id);
    ReceiveKeepsFlow(s, t, c);
    forall other ensures StreamOk(t, other) {
      if other != id {
        ReadyKeepsOther(s, u, t, c, id, other);
      } else {
        ResetKeepsOwn(s, u, t, id, code, size);
      }
    }
    RemoveKeeps(t, id);
  }

  lemma ResetReady(s: Session, u: Session, id: StreamId, c: Capsule)
    requires Inv(s) && u == s.(processed := s.processed + [c]) && id in s.streams
    ensures Ready(s, u, c, id)
  {
    hide Named, Sent, Ended, Stopped, Granted, Opened;
    assert StreamOk(s, id);
  }

  lemma ResetKeepsOwn(s: Session, u: Session, t: Session, id: StreamId, code: nat, size: nat)
    requires Inv(s) && Ready(s, u, WtResetStream(id, code, size), id) && id in s.streams && s.HasRecvPart(id)
    requires t == AfterResetReceived(u, id, code)
    ensures StreamOk(t, id)
  {
    hide Named, Sent, Ended, Stopped, Granted, Opened, CreateFrom;
    ReadyCounts(s, u, WtResetStream(id, code, size), id);
    FitsIsLive(s, id, u.streams[id]);
    ExtendStream(s.processed, WtResetStream(id, code, size), id);
  }

  // ---- Requests to stop sending ----

  /** A stream that is still alive, or is opened by the request. */
  lemma StopKeepsLive(s: Session, u: Session, id: StreamId, code: nat)
    requires Inv(s) && HasRoom(s) && Ready(s, u, WtStopSending(id, code), id)
    ensures Inv(NoteStop(u, id))
  {
    hide Named, Sent, Ended, Stopped, Granted, Opened, Total, DataGranted, StreamsGranted, LegalScript, StreamOk, Ready;
    var c := WtStopSending(id, code);
    ReadyCounts(s, u, c, id);
    var t := NoteStop(u, id);
    ReceiveKeepsFlow(s, t, c);
    forall other ensures StreamOk(t, other) {
      if other != id {
        ReadyKeepsOther(s, u, t, c, id, other);
      } else {
        StopKeepsOwn(s, u, id, code);
      }
    }
  }

  lemma StopKeepsOwn(s: Session, u: Session, id: StreamId, code: nat)
    requires Inv(s) && HasRoom(s) && Ready(s, u, WtStopSending(id, code), id)
    ensures StreamOk(NoteStop(u, id), id)
  {
    hide Named, Sent, Ended, Stopped, Granted, Opened, CreateFrom, SetInsert;
    ReadyCounts(s, u, WtStopSending(id, code), id);
    FitsIsLive(s, id, u.streams[id]);
    ExtendStream(s.processed, WtStopSending(id, code), id);
  }

  /** A stream that has been forgotten. */
  lemma StopKeepsForgotten(s: Session, id: StreamId, code: nat)
    requires Inv(s) && HasRoom(s) && id in s.closedSendMax && !s.IsReceiveOnly(id)
    ensures Inv(NoteStop(s.(processed := s.processed + [WtStopSending(id, code)]), id))
  {
    hide Named, Sent, Ended, Stopped, Granted, Opened, Total, DataGranted, StreamsGranted, LegalScript, SetInsert;
    var c := WtStopSending(id, code);
    var t := NoteStop(s.(processed := s.processed + [c]), id);
    assert StreamOk(s, id);
    ReceiveKeepsFlow(s, t, c);
    forall other ensures StreamOk(t, other) {
      assert StreamOk(s, other);
      ExtendFlow(s.processed, c, other.client, other.bidi);
      if other != id {
        ReceiveKeepsOther(s, t, c, other);
      } else {
        ExtendStream(s.processed, c, id);
      }
    }
  }

  /** The stream a request to stop or a credit is for, unless it has been forgotten. */
  lemma ImplicitReady(s: Session, id: StreamId, c: Capsule)
    requires Inv(s) && !s.IsReceiveOnly(id) && !s.IsUncreatedLocal(id)
    requires CreateImplicitPeerBidi(s.(processed := s.processed + [c]), id).error.None?
    ensures var u := CreateImplicitPeerBidi(s.(processed := s.processed + [c]), id).session;
            if id in s.closedSendMax then id !in s.streams && u == s.(processed := s.processed + [c])
            else Ready(s, u, c, id)
  {
    hide Named, Sent, Ended, Stopped, Granted, Opened, CreateFrom;
    assert StreamOk(s, id);
    CreateFromShape(s.(processed := s.processed + [c]), id, 0, id);
  }

  /** The request is for a live stream of this side that the peer has not been told of, and
      will be answered by a reset that the peer cannot place. */
  ghost predicate AnswersUnannounced(s: Session, id: StreamId, code: nat) {
    && s.IsLocal(id) && id.index >= Opened(s.emitted, s.client, id.bidi)
    && id in s.streams && s.streams[id].sendState.CanSend()
    && code <= MAX_APPLICATION_ERROR_CODE
  }

  /** An accepted request keeps the invariant if and only if its answer is not such a reset. */
  lemma HandleStopKeeps(s: Session, id: StreamId, code: nat)
    requires Inv(s) && HasRoom(s)
    requires HandleStopSending(s.(processed := s.processed + [WtStopSending(id, code)]), id, code).error.None?
    ensures Inv(HandleStopSending(s.(processed := s.processed + [WtStopSending(id, code)]), id, code).session)
       <==> !AnswersUnannounced(s, id, code)
  {
    hide Inv, Opened, CreateImplicitPeerBidi, Ready, HasRoom, ResetStream;
    var c := WtStopSending(id, code);
    var u := CreateImplicitPeerBidi(s.(processed := s.processed + [c]), id).session;
    ImplicitReady(s, id, c);
    if id in s.closedSendMax {
      StopKeepsForgotten(s, id, code);
    } else {
      StopKeepsLive(s, u, id, code);
      ReadyCounts(s, u, c, id);
    }
    LocalIsNotCreated(s, id, c);
    if AnswersUnannounced(s, id, code) {
      AnswerBreaks(s, u, id, code);
    } else {
      AnswerKeeps(s, u, id, code);
    }
  }

  /** A stream of this side is never created by the peer. */
  lemma LocalIsNotCreated(s: Session, id: StreamId, c: Capsule)
    ensures s.IsLocal(id) ==>
              CreateImplicitPeerBidi(s.(processed := s.processed + [c]), id).session == s.(processed := s.processed + [c])
  {
  }

  /** The reset that answers a request to stop keeps the invariant too. */
  lemma AnswerKeeps(s: Session, u: Session, id: StreamId, code: nat)
    requires HasRoom(s) && Inv(NoteStop(u, id)) && u == s.(streams := u.streams, log := u.log, processed := u.processed)
    requires s.IsLocal(id) ==> u.streams == s.streams
    requires !AnswersUnannounced(s, id, code)
    ensures var t := NoteStop(u, id);
            var v := if id in t.streams && t.streams[id].sendState.CanSend() then ResetStream(t, id, code).session else t;
            Inv(v.Queue(StopSending(id, code)))
  {
    hide Inv, Opened;
    var t := NoteStop(u, id);
    var v := if id in t.streams && t.streams[id].sendState.CanSend() then ResetStream(t, id, code).session else t;
    if id in t.streams && t.streams[id].sendState.CanSend() && code <= MAX_APPLICATION_ERROR_CODE {
      ResetKeeps(t, id, code);
    }
    QueueKeeps(v, v.Queue(StopSending(id, code)));
  }

  /** What this side emits is then no longer a legal script. */
  lemma AnswerBreaks(s: Session, u: Session, id: StreamId, code: nat)
    requires AnswersUnannounced(s, id, code) && u == s.(processed := u.processed)
    requires Inv(NoteStop(u, id))
    ensures var v := ResetStream(NoteStop(u, id), id, code).session;
            && v.emitted == s.emitted + [WtResetStream(id, code, s.streams[id].sendOffset)]
            && !Inv(v.Queue(StopSending(id, code)))
  {
    hide Opened, Ended, Sent, StreamOk, FlowOk, MapInsert, SetInsert;
    var v := ResetStream(NoteStop(u, id), id, code).session;
    Snoc(s.emitted, WtResetStream(id, code, s.streams[id].sendOffset));
    assert !LegalNext(v.client, v.config, s.emitted, WtResetStream(id, code, s.streams[id].sendOffset));
  }

  // ---- Stream credit ----

  lemma CreditKeepsLive(s: Session, u: Session, id: StreamId, maximum: nat)
    requires Inv(s) && Ready(s, u, WtMaxStreamData(id, maximum), id) && s.HasSendPart(id)
    requires u.streams[id].sendMax < maximum
    ensures Inv(u.Put(id, u.streams[id].(sendMax := maximum)))
  {
    hide Named, Sent, Ended, Stopped, Granted, Opened, Total, DataGranted, StreamsGranted, LegalScript, StreamOk, Ready;
    var c := WtMaxStreamData(id, maximum);
    ReadyCounts(s, u, c, id);
    var t := u.Put(id, u.streams[id].(sendMax := maximum));
    ReceiveKeepsFlow(s, t, c);
    forall other ensures StreamOk(t, other) {
      if other != id {
        ReadyKeepsOther(s, u, t, c, id, other);
      } else {
        CreditKeepsOwn(s, u, id, maximum);
      }
    }
  }

  lemma CreditKeepsOwn(s: Session, u: Session, id: StreamId, maximum: nat)
    requires Inv(s) && Ready(s, u, WtMaxStreamData(id, maximum), id) && s.HasSendPart(id)
    requires u.streams[id].sendMax < maximum
    ensures StreamOk(u.Put(id, u.streams[id].(sendMax := maximum)), id)
  {
    hide Named, Sent, Ended, Stopped, Granted, Opened, CreateFrom;
    ReadyCounts(s, u, WtMaxStreamData(id, maximum), id);
    FitsIsLive(s, id, u.streams[id]);
    ExtendStream(s.processed, WtMaxStreamData(id, maximum), id);
  }

  lemma CreditKeepsForgotten(s: Session, id: StreamId, maximum: nat)
    requires Inv(s) && HasRoom(s) && id in s.closedSendMax && s.HasSendPart(id) && s.closedSendMax[id] < maximum
    ensures Inv(s.(processed := s.processed + [WtMaxStreamData(id, maximum)],
                   closedSendMax := s.closedSendMax[id := maximum]))
  {
    hide Named, Sent, Ended, Stopped, Granted, Opened, Total, DataGranted, StreamsGranted, LegalScript;
    var c := WtMaxStreamData(id, maximum);
    var t := s.(processed := s.processed + [c], closedSendMax := s.closedSendMax[id := maximum]);
    assert StreamOk(s, id);
    ReceiveKeepsFlow(s, t, c);
    forall other ensures StreamOk(t, other) {
      assert StreamOk(s, other);
      ExtendFlow(s.processed, c, other.client, other.bidi);
      if other != id {
        ReceiveKeepsOther(s, t, c, other);
      } else {
        ExtendStream(s.processed, c, id);
      }
    }
  }

  lemma HandleCreditKeeps(s: Session, id: StreamId, maximum: nat)
    requires Inv(s) && HasRoom(s)
    requires HandleMaxStreamData(s.(processed := s.processed + [WtMaxStreamData(id, maximum)]), id, maximum).error.None?
    ensures Inv(HandleMaxStreamData(s.(processed := s.processed + [WtMaxStreamData(id, maximum)]), id, maximum).session)
  {
    hide Inv, CreateImplicitPeerBidi, Ready;
    var c := WtMaxStreamData(id, maximum);
    var s1 := s.(processed := s.processed + [c]);
    if id !in s.streams && id in s.closedSendMax {
      CreditKeepsForgotten(s, id, maximum);
    } else {
      var u := CreateImplicitPeerBidi(s1, id).session;
      ImplicitReady(s, id, c);
      ReadyCounts(s, u, c, id);
      CreditKeepsLive(s, u, id, maximum);
    }
  }

  // ---- Any capsule ----

  /** Whatever a session accepts keeps its invariant, if and only if it is not a request that
      makes it reset a stream the peer has not been told of. */
  lemma HandleKeeps(s: Session, c: Capsule)
    requires Inv(s) && HasRoom(s) && HandleCapsule(s, c).error.None?
    ensures Inv(HandleCapsule(s, c).session)
       <==> !(!s.phase.Closed? && c.WtStopSending? && AnswersUnannounced(s, c.id, c.code))
  {
    hide Inv, HandleStreamData, HandleResetStream, HandleStopSending, HandleMaxStreamData, AnswersUnannounced;
    if !s.phase.Closed? {
      match c {
        case WtStream(id, data, fin) => HandleDataKeeps(s, id, data, fin);
        case WtResetStream(id, code, size) => HandleResetKeeps(s, id, code, size);
        case WtStopSending(id, code) => HandleStopKeeps(s, id, code);
        case WtMaxStreamData(id, maximum) => HandleCreditKeeps(s, id, maximum);
        case _ => HandleOtherKeeps(s, c);
      }
    }
  }

  lemma HandleOtherKeeps(s: Session, c: Capsule)
    requires Inv(s) && !s.phase.Closed? && HandleCapsule(s, c).error.None?
    requires !c.WtStream? && !c.WtResetStream? && !c.WtStopSending? && !c.WtMaxStreamData?
    ensures Inv(HandleCapsule(s, c).session)
  {
    hide Inv;
    ReceiveKeeps(s, HandleCapsule(s, c).session, c);
  }
}
