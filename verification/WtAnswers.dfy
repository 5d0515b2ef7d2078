/** What a session does with each capsule that it accepts: the events its application gets, in
    full, the capsule that answers a request to stop, and which streams are left. */
module WtAnswers {
  import opened Base
  import opened Bounded
  import opened WtTypes
  import opened WtHistory
  import opened WtSession
  import opened WtInvariant
  import opened WtReceive
  import opened WtAccept
  import opened WtEvents

  // ---- Events ----

  /** The announcements of streams of the type of id from one index up to another. */
  function Openings(id: StreamId, from: nat, to: nat): seq<WtEvent>
    decreases to - from
  {
    if from >= to then [] else [StreamOpened(id.(index := from))] + Openings(id, from + 1, to)
  }

  /** The streams that a capsule opens: those of its type that never existed, up to its own. */
  ghost function Announcements(s: Session, c: Capsule): seq<WtEvent> {
    match c
    case WtStream(id, _, _) => if Created(s, id) then [] else NewOnes(s, id)
    case WtStopSending(id, _) => if Created(s, id) then [] else NewOnes(s, id)
    case WtMaxStreamData(id, _) => if Created(s, id) then [] else NewOnes(s, id)
    case _ => []
  }

  ghost function NewOnes(s: Session, id: StreamId): seq<WtEvent> {
    Openings(id, Opened(s.processed, id.client, id.bidi), id.index + 1)
  }

  /** The event that is about the capsule itself. */
  function OwnEvent(s: Session, c: Capsule): seq<WtEvent> {
    match c
    case Datagram(data) => [DatagramReceived(data)]
    case WtStream(id, data, fin) => [StreamData(id, data, fin)]
    case WtResetStream(id, code, _) => [StreamReset(id, code)]
    case WtStopSending(id, code) => [StopSending(id, code)]
    case WtCloseSession(code, reason) => [SessionClosed(code, reason)]
    case WtDrainSession => if s.phase.Active? then [SessionDraining] else []
    case _ => []
  }

  /** Creation announces the new streams, in order, and nothing else. */
  lemma {:induction false} CreateLog(s: Session, id: StreamId, k: nat, n: nat)
    requires ExistBelow(s, id, k, n) && k <= id.index + 1
    ensures CreateFrom(s, id, k).log == s.log + Openings(id, Max(n, k), id.index + 1)
    decreases id.index + 1 - k
  {
    hide ExistBelow, AfterIndex;
    if k <= id.index {
      var t := AfterIndex(s, id, k);
      AfterIndexExists(s, id, k, n);
      CreateUnfolds(s, id, k);
      CreateLog(t, id, k + 1, n);
      if k >= n {
        var one := [StreamOpened(id.(index := k))];
        assert s.log + one + Openings(id, k + 1, id.index + 1) == s.log + (one + Openings(id, k + 1, id.index + 1));
      }
    } else {
      assert s.log + [] == s.log;
    }
  }

  lemma LogBeforeIs(s: Session, id: StreamId, c: Capsule)
    requires Inv(s) && Names(c, id) && (Created(s, id) || !s.IsLocal(id))
    ensures LogBefore(s, id, c) == s.log + (if Created(s, id) then [] else NewOnes(s, id))
  {
    hide Opened, Named, Sent, Ended, Stopped, Granted, StreamOk, FlowOk, LegalScript, CreateFrom, Openings;
    if Created(s, id) {
      assert s.log + [] == s.log;
    } else {
      var s1 := s.(processed := s.processed + [c]);
      var n := Opened(s.processed, id.client, id.bidi);
      CreatedBelow(s, s1, id, n);
      CreateLog(s1, id, 0, n);
    }
  }

  /** What is accepted is reported: first the streams it opens, each once and in order, and then the
      capsule itself, as it came. */
  lemma HandleReports(s: Session, c: Capsule)
    requires Inv(s) && !s.phase.Closed? && Encodable(c) && HandleCapsule(s, c).error.None?
    ensures HandleCapsule(s, c).session.log == s.log + Announcements(s, c) + OwnEvent(s, c)
  {
    hide Inv, Acceptable, HandleStreamData, HandleResetStream, HandleStopSending, HandleMaxStreamData, LogBefore,
         NewOnes, Created;
    AcceptsExactly(s, c);
    assert s.log + [] == s.log;
    match c {
      case WtStream(id, data, fin) =>
        DataLog(s, id, data, fin);
        NewIsThePeers(s, id, c);
        LogBeforeIs(s, id, c);
      case WtResetStream(id, code, size) => ResetReports(s, id, code, size);
      case WtStopSending(id, code) =>
        StopLog(s, id, code);
        NewIsThePeers(s, id, c);
        LogBeforeIs(s, id, c);
      case WtMaxStreamData(id, maximum) =>
        CreditLog(s, id, maximum);
        NewIsThePeers(s, id, c);
        LogBeforeIs(s, id, c);
        assert s.log + Announcements(s, c) + [] == s.log + Announcements(s, c);
      case _ =>
    }
  }

  lemma NewIsThePeers(s: Session, id: StreamId, c: Capsule)
    requires Acceptable(s, c) && Names(c, id)
    ensures Created(s, id) || !s.IsLocal(id)
  {
    hide Ended, Sent, Stopped, Granted, Total;
  }

  lemma ResetReports(s: Session, id: StreamId, code: nat, size: nat)
    requires HandleCapsule(s, WtResetStream(id, code, size)).error.None? && !s.phase.Closed?
    ensures HandleCapsule(s, WtResetStream(id, code, size)).session.log == s.log + [StreamReset(id, code)]
  {
    hide MapInsert;
  }

  // ---- Answers ----

  /** The capsule that answers a request to stop: a reset with the code of the request, which promises
      what was sent, if this side could still send. */
  ghost function Answer(s: Session, c: Capsule): seq<Capsule> {
    if c.WtStopSending? && !Ended(s.emitted, c.id) && c.code < 0x1_0000_0000 then
      [WtResetStream(c.id, c.code, Sent(s.emitted, c.id))]
    else []
  }

  /** The phase after a capsule. */
  function PhaseAfter(phase: Phase, c: Capsule): Phase {
    if c.WtCloseSession? then Closed else if c.WtDrainSession? && phase.Active? then Draining else phase
  }

  /** What was accepted is answered by nothing but that, and leaves alone what it is not about. */
  lemma HandleAnswers(s: Session, c: Capsule)
    requires Inv(s) && !s.phase.Closed? && Encodable(c) && HandleCapsule(s, c).error.None?
    ensures var t := HandleCapsule(s, c).session;
            && t.emitted == s.emitted + Answer(s, c) && t.processed == s.processed + [c]
            && t.phase == PhaseAfter(s.phase, c) && t.read == s.read
            && t.nextBidi == s.nextBidi && t.nextUni == s.nextUni
  {
    hide Inv, Acceptable, HandleStreamData, HandleResetStream, HandleStopSending, HandleMaxStreamData, Ended, Sent;
    var s1 := s.(processed := s.processed + [c]);
    assert s.emitted + [] == s.emitted;
    match c {
      case WtStream(id, data, fin) => DataIsQuiet(s1, id, data, fin);
      case WtResetStream(id, code, size) => ResetIsQuiet(s1, id, code, size);
      case WtStopSending(id, code) => StopAnswers(s, id, code);
      case WtMaxStreamData(id, maximum) => CreditIsQuiet(s1, id, maximum);
      case _ =>
    }
  }

  /** Nothing is emitted, and the session is as it was. */
  ghost predicate Quiet(s: Session, t: Session) {
    && t.emitted == s.emitted && t.processed == s.processed && t.phase == s.phase && t.read == s.read
    && t.nextBidi == s.nextBidi && t.nextUni == s.nextUni
  }

  lemma DataIsQuiet(s: Session, id: StreamId, data: seq<Byte>, fin: bool)
    ensures Quiet(s, HandleStreamData(s, id, data, fin).session)
  {
    hide CreateFrom;
    CreateFromShape(s, id, 0, id);
  }

  lemma ResetIsQuiet(s: Session, id: StreamId, code: nat, size: nat)
    ensures Quiet(s, HandleResetStream(s, id, code, size).session)
  {
    hide MapInsert;
  }

  lemma CreditIsQuiet(s: Session, id: StreamId, maximum: nat)
    ensures Quiet(s, HandleMaxStreamData(s, id, maximum).session)
  {
    hide CreateFrom, MapInsert;
    CreateFromShape(s, id, 0, id);
  }

  lemma StopAnswers(s: Session, id: StreamId, code: nat)
    requires Inv(s) && HandleStopSending(s.(processed := s.processed + [WtStopSending(id, code)]), id, code).error.None?
    ensures var t := HandleStopSending(s.(processed := s.processed + [WtStopSending(id, code)]), id, code).session;
            && t.emitted == s.emitted + Answer(s, WtStopSending(id, code))
            && t.processed == s.processed + [WtStopSending(id, code)]
            && t.phase == s.phase && t.read == s.read && t.nextBidi == s.nextBidi && t.nextUni == s.nextUni
  {
    hide Inv, Ended, Sent, CreateImplicitPeerBidi, WtReceive.Ready, ResetStream;
    var c := WtStopSending(id, code);
    var u := CreateImplicitPeerBidi(s.(processed := s.processed + [c]), id).session;
    ImplicitReady(s, id, c);
    if id in s.closedSendMax {
      ForgottenHasEnded(s, id);
    } else {
      ReadyShape(s, u, c, id);
      ReadySends(s, u, id, c);
    }
    NotedShape(u, id);
    ResetEmits(NoteStop(u, id), id, code);
    assert s.emitted + [] == s.emitted;
  }

  lemma ForgottenHasEnded(s: Session, id: StreamId)
    requires Inv(s) && id in s.closedSendMax && s.HasSendPart(id)
    ensures Ended(s.emitted, id)
  {
    hide Named, Sent, Ended, Stopped, Granted, Opened;
    assert StreamOk(s, id);
  }

  lemma ReadySends(s: Session, u: Session, id: StreamId, c: Capsule)
    requires Inv(s) && WtReceive.Ready(s, u, c, id) && s.HasSendPart(id)
    ensures id in u.streams
    ensures u.streams[id].sendState.CanSend() <==> !Ended(s.emitted, id)
    ensures u.streams[id].sendOffset == Sent(s.emitted, id)
  {
    hide Named, Sent, Ended, Stopped, Granted, Opened, CreateFrom, FlowOk, LegalScript, StreamOk;
    FitsIsLive(s, id, u.streams[id]);
  }

  lemma NotedShape(s: Session, id: StreamId)
    ensures var t := NoteStop(s, id);
            && t == s.(streams := t.streams, stopReceived := t.stopReceived)
            && (id in s.streams ==> id in t.streams && t.streams[id].sendState == s.streams[id].sendState
                                    && t.streams[id].sendOffset == s.streams[id].sendOffset)
  {
    hide SetInsert;
  }

  lemma ResetEmits(s: Session, id: StreamId, code: nat)
    ensures var o := ResetStream(s, id, code);
            && o.session.processed == s.processed && o.session.phase == s.phase && o.session.read == s.read
            && o.session.nextBidi == s.nextBidi && o.session.nextUni == s.nextUni
            && o.session.emitted
               == s.emitted + (if code < 0x1_0000_0000 && id in s.streams && s.streams[id].sendState.CanSend()
                                  && s.HasSendPart(id) then
                                 [WtResetStream(id, code, s.streams[id].sendOffset)]
                               else [])
  {
    hide MapInsert;
    assert s.emitted + [] == s.emitted;
  }
}
