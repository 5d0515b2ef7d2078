/** Exactly which capsules a session accepts, in terms of what was exchanged before. */
module WtAccept {
  import opened Base
  import opened WtTypes
  import opened Bounded
  import opened WtHistory
  import opened WtSession
  import opened WtInvariant
  import opened WtReceive

  /** The stream exists or existed, or the peer may open it. */
  ghost predicate Reachable(s: Session, id: StreamId) {
    Created(s, id) || (!s.IsLocal(id) && id.index < s.flow.LocalMax(id.bidi))
  }

  /** What a capsule must meet to be accepted after the history of the session. */
  ghost predicate Acceptable(s: Session, c: Capsule) {
    match c
    case WtStream(id, data, fin) =>
      && s.HasRecvPart(id) && Reachable(s, id)
      && !Ended(s.processed, id)
      && (data != [] || fin || Sent(s.processed, id) == 0)
      && Sent(s.processed, id) + |data| <= RecvLimit(s, id)
      && Total(s.processed) + |data| <= s.flow.recvMax
    case WtResetStream(id, _, reliableSize) =>
      && s.HasRecvPart(id) && Created(s, id)
      && !Ended(s.processed, id)
      && reliableSize == Sent(s.processed, id)
    case WtStopSending(id, _) => s.HasSendPart(id) && Reachable(s, id) && !Stopped(s.processed, id)
    case WtMaxStreamData(id, maximum) =>
      && s.HasSendPart(id) && Reachable(s, id)
      && !Stopped(s.processed, id)
      && SendLimit(s, id) < maximum
    case WtMaxData(maximum) => s.flow.sendMax < maximum
    case WtMaxStreams(maximum, bidi) => s.flow.RemoteMax(bidi) < maximum <= MAX_STREAMS_LIMIT
    case WtStreamDataBlocked(id, _) => s.HasRecvPart(id) && Created(s, id) && !Ended(s.processed, id)
    case WtStreamsBlocked(maximum, _) => maximum <= MAX_STREAMS_LIMIT
    case _ => true
  }

  /** A number that a capsule can carry. */
  predicate Encodable(c: Capsule) {
    && (c.WtMaxData? || c.WtMaxStreamData? ==> c.maximum <= MAX_VALUE)
  }

  /** A session that is not closed accepts a capsule if and only if it is acceptable. */
  lemma AcceptsExactly(s: Session, c: Capsule)
    requires Inv(s) && !s.phase.Closed? && Encodable(c)
    ensures HandleCapsule(s, c).error.None? <==> Acceptable(s, c)
  {
    hide Named, Sent, Ended, Stopped, Granted, Opened, Total, DataGranted, StreamsGranted, LegalScript,
         HandleStreamData, HandleStopSending, HandleMaxStreamData, HandleResetStream;
    match c {
      case WtStream(id, data, fin) => AcceptsData(s, id, data, fin);
      case WtResetStream(id, code, size) => AcceptsReset(s, id, code, size);
      case WtStopSending(id, code) => AcceptsStop(s, id, code);
      case WtMaxStreamData(id, maximum) => AcceptsCredit(s, id, maximum);
      case WtStreamDataBlocked(id, _) => assert StreamOk(s, id);
      case _ =>
    }
  }

  lemma AcceptsData(s: Session, id: StreamId, data: seq<Byte>, fin: bool)
    requires Inv(s)
    ensures HandleStreamData(s.(processed := s.processed + [WtStream(id, data, fin)]), id, data, fin).error.None?
       <==> Acceptable(s, WtStream(id, data, fin))
  {
    hide Named, Sent, Ended, Stopped, Granted, Opened, Total, DataGranted, StreamsGranted, LegalScript, CreateFrom;
    assert StreamOk(s, id);
    if id !in s.streams {
      UnnamedIsFresh(s.processed, id);
      UnnamedIsFresh(s.emitted, id);
      CreateFromShape(s.(processed := s.processed + [WtStream(id, data, fin)]), id, 0, id);
    }
  }

  lemma AcceptsReset(s: Session, id: StreamId, code: nat, size: nat)
    requires Inv(s)
    ensures HandleResetStream(s.(processed := s.processed + [WtResetStream(id, code, size)]), id, code, size).error.None?
       <==> Acceptable(s, WtResetStream(id, code, size))
  {
    hide Named, Sent, Ended, Stopped, Granted, Opened;
    assert StreamOk(s, id);
  }

  lemma AcceptsStop(s: Session, id: StreamId, code: nat)
    requires Inv(s)
    ensures HandleStopSending(s.(processed := s.processed + [WtStopSending(id, code)]), id, code).error.None?
       <==> Acceptable(s, WtStopSending(id, code))
  {
    hide Named, Sent, Ended, Stopped, Granted, Opened, CreateFrom, ResetStream;
    assert StreamOk(s, id);
  }

  lemma AcceptsCredit(s: Session, id: StreamId, maximum: nat)
    requires Inv(s) && maximum <= MAX_VALUE
    ensures HandleMaxStreamData(s.(processed := s.processed + [WtMaxStreamData(id, maximum)]), id, maximum).error.None?
       <==> Acceptable(s, WtMaxStreamData(id, maximum))
  {
    hide Named, Sent, Ended, Stopped, Granted, Opened, Total, DataGranted, StreamsGranted, LegalScript, CreateFrom, MapInsert;
    assert StreamOk(s, id);
    if id !in s.streams {
      UnnamedIsFresh(s.processed, id);
      CreateFromShape(s.(processed := s.processed + [WtMaxStreamData(id, maximum)]), id, 0, id);
    }
  }

  // ---- Why a capsule is refused ----

  /** The capsule is in order but for a limit that it exceeds. */
  ghost predicate TooMuch(s: Session, c: Capsule) {
    match c
    case WtStream(id, data, fin) =>
      || (!Created(s, id) && !s.IsLocal(id) && id.index >= s.flow.LocalMax(id.bidi))
      || (s.HasRecvPart(id) && Reachable(s, id) && !Ended(s.processed, id)
          && (data != [] || fin || Sent(s.processed, id) == 0))
    case WtStopSending(id, _) => !Created(s, id) && !s.IsLocal(id) && id.bidi
    case WtMaxStreamData(id, _) => s.HasSendPart(id) && (Created(s, id) || !s.IsLocal(id)) && !Stopped(s.processed, id)
    case WtResetStream(_, _, _) => false
    case WtStreamDataBlocked(_, _) => false
    case _ => true
  }

  /** A capsule that is refused is an error of flow control if only a limit speaks against it, and of
      the stream's state otherwise. */
  lemma RefusedAs(s: Session, c: Capsule)
    requires Inv(s) && !s.phase.Closed? && HandleCapsule(s, c).error.Some?
    ensures HandleCapsule(s, c).error == Some(if TooMuch(s, c) then FlowControlError else StreamStateError)
  {
    hide Named, Sent, Ended, Stopped, Granted, Opened, Total, DataGranted, StreamsGranted, LegalScript,
         HandleStreamData, HandleStopSending, HandleMaxStreamData, TooMuch;
    match c {
      case WtStream(id, data, fin) => RefusesData(s, id, data, fin);
      case WtStopSending(id, code) => RefusesStop(s, id, code);
      case WtMaxStreamData(id, maximum) => RefusesCredit(s, id, maximum);
      case _ => OthersTooMuch(s, c);
    }
  }

  lemma OthersTooMuch(s: Session, c: Capsule)
    requires !c.WtStream? && !c.WtStopSending? && !c.WtMaxStreamData?
    ensures TooMuch(s, c) <==> !c.WtResetStream? && !c.WtStreamDataBlocked?
  {
  }

  lemma RefusesData(s: Session, id: StreamId, data: seq<Byte>, fin: bool)
    requires Inv(s)
    ensures var o := HandleStreamData(s.(processed := s.processed + [WtStream(id, data, fin)]), id, data, fin);
            o.error.Some? ==>
              o.error == Some(if TooMuch(s, WtStream(id, data, fin)) then FlowControlError else StreamStateError)
  {
    hide Named, Sent, Ended, Stopped, Granted, Opened, Total, DataGranted, StreamsGranted, LegalScript, CreateFrom;
    assert StreamOk(s, id);
    if id !in s.streams {
      UnnamedIsFresh(s.processed, id);
      UnnamedIsFresh(s.emitted, id);
      CreateFromShape(s.(processed := s.processed + [WtStream(id, data, fin)]), id, 0, id);
    }
  }

  lemma RefusesStop(s: Session, id: StreamId, code: nat)
    requires Inv(s)
    ensures var o := HandleStopSending(s.(processed := s.processed + [WtStopSending(id, code)]), id, code);
            o.error.Some? ==>
              o.error == Some(if TooMuch(s, WtStopSending(id, code)) then FlowControlError else StreamStateError)
  {
    hide Named, Sent, Ended, Stopped, Granted, Opened, CreateFrom, ResetStream;
    assert StreamOk(s, id);
    if !Created(s, id) {
      UnnamedIsFresh(s.processed, id);
    }
  }

  lemma RefusesCredit(s: Session, id: StreamId, maximum: nat)
    requires Inv(s)
    ensures var o := HandleMaxStreamData(s.(processed := s.processed + [WtMaxStreamData(id, maximum)]), id, maximum);
            o.error.Some? ==>
              o.error == Some(if TooMuch(s, WtMaxStreamData(id, maximum)) then FlowControlError else StreamStateError)
  {
    hide Named, Sent, Ended, Stopped, Granted, Opened, Total, DataGranted, StreamsGranted, LegalScript, CreateFrom, MapInsert;
    assert StreamOk(s, id);
    if id !in s.streams {
      UnnamedIsFresh(s.processed, id);
      CreateFromShape(s.(processed := s.processed + [WtMaxStreamData(id, maximum)]), id, 0, id);
    }
  }
}
