/** Books that balance: session offsets, stream offsets, identifiers and limits. */
module WtAccounting {
  import opened WtTypes
  import opened WtHistory
  import opened WtSession
  import opened WtInvariant

  /** Some member of a set, always the same one. */
  ghost function Pick(ids: set<StreamId>): (id: StreamId)
    requires ids != {}
    ensures id in ids
  {
    var id :| id in ids;
    id
  }

  /** The octets carried on the streams of a set. */
  ghost function SumSent(h: seq<Capsule>, ids: set<StreamId>): nat
    decreases |ids|
  {
    if ids == {} then 0 else Sent(h, Pick(ids)) + SumSent(h, ids - {Pick(ids)})
  }

  lemma {:induction false} SumExtend(h: seq<Capsule>, c: Capsule, ids: set<StreamId>)
    ensures SumSent(h + [c], ids) == SumSent(h, ids) + if c.WtStream? && c.id in ids then |c.data| else 0
    decreases |ids|
  {
    hide Sent;
    if ids != {} {
      ExtendStream(h, c, Pick(ids));
      SumExtend(h, c, ids - {Pick(ids)});
    }
  }

  lemma {:induction false} SumOfNothing(ids: set<StreamId>)
    ensures SumSent([], ids) == 0
    decreases |ids|
  {
    if ids != {} {
      SumOfNothing(ids - {Pick(ids)});
    }
  }

  /** The session total is the sum over any set that holds every stream that was named. */
  lemma {:induction false} TotalIsSum(h: seq<Capsule>, ids: set<StreamId>)
    requires forall id :: Named(h, id) ==> id in ids
    ensures Total(h) == SumSent(h, ids)
  {
    if h == [] {
      SumOfNothing(ids);
    } else {
      var p, c := h[..|h| - 1], h[|h| - 1];
      forall id | Named(p, id) ensures id in ids {
        assert Named(h, id);
      }
      TotalIsSum(p, ids);
      assert p + [c] == h;
      SumExtend(p, c, ids);
      if c.WtStream? {
        assert Named(h, c.id);
      }
    }
  }

  /** The session offsets are the sums of the stream offsets over live and forgotten streams. */
  lemma OffsetsAddUp(s: Session)
    requires Inv(s)
    ensures s.flow.sendOffset == SumSent(s.emitted, s.streams.Keys + s.closedSendMax.Keys)
    ensures s.flow.recvOffset == SumSent(s.processed, s.streams.Keys + s.closedSendMax.Keys)
    ensures forall id :: id in s.streams && s.HasSendPart(id) ==>
              s.streams[id].sendOffset == Sent(s.emitted, id) <= s.streams[id].sendMax
    ensures forall id :: id in s.streams && s.HasRecvPart(id) ==>
              s.streams[id].recvOffset == Sent(s.processed, id) <= s.streams[id].recvMax
  {
    hide Sent, Ended, Stopped, Granted, Opened, Total, DataGranted, StreamsGranted, LegalScript, Named;
    var ids := s.streams.Keys + s.closedSendMax.Keys;
    forall id ensures Named(s.emitted, id) || Named(s.processed, id) ==> id in ids {
      assert StreamOk(s, id);
    }
    TotalIsSum(s.emitted, ids);
    TotalIsSum(s.processed, ids);
    forall id | id in s.streams ensures
        && (s.HasSendPart(id) ==> s.streams[id].sendOffset == Sent(s.emitted, id) <= s.streams[id].sendMax)
        && (s.HasRecvPart(id) ==> s.streams[id].recvOffset == Sent(s.processed, id) <= s.streams[id].recvMax)
    {
      assert StreamOk(s, id);
    }
  }

  /** Every identifier that was emitted or taken up names a stream that was created, within the
      stream limits, and fits the 62 bits of a variable-length integer. */
  lemma IdentifiersFit(s: Session, id: StreamId)
    requires Inv(s) && (Named(s.emitted, id) || Named(s.processed, id))
    ensures id in s.streams || id in s.closedSendMax
    ensures id.index < if s.IsLocal(id) then s.flow.RemoteMax(id.bidi) else s.flow.LocalMax(id.bidi)
    ensures id.Wire() <= MAX_VALUE
  {
    hide Sent, Ended, Stopped, Granted, Opened, Total, DataGranted, StreamsGranted, LegalScript, Named;
    assert StreamOk(s, id);
    assert CountsOk(s, id.bidi);
    WireArithmetic(id, id, 0);
  }

  /** The identifiers this side has issued are exactly those below its counters, and the
      peer's are exactly the first ones of their type. */
  lemma IdentifiersArePrefixes(s: Session, id: StreamId)
    requires Inv(s)
    ensures id in s.streams || id in s.closedSendMax <==> id.index < CreatedCount(s, id.client, id.bidi)
    ensures CreatedCount(s, id.client, id.bidi)
         <= if s.IsLocal(id) then s.flow.RemoteMax(id.bidi) else s.flow.LocalMax(id.bidi)
  {
    hide Sent, Ended, Stopped, Granted, Opened, Total, DataGranted, StreamsGranted, LegalScript, Named;
    assert StreamOk(s, id);
    assert CountsOk(s, id.bidi);
  }

  /** Whatever capsule names a stream of the peer beyond the limit is refused and creates nothing
      at all: for want of stream credit where it could have opened the stream. */
  lemma OverLimitCreatesNothing(s: Session, c: Capsule, id: StreamId)
    requires Inv(s) && !s.phase.Closed? && Names(c, id)
    requires !s.IsLocal(id) && id.index >= s.flow.LocalMax(id.bidi)
    ensures HandleCapsule(s, c)
         == Fail(s.(processed := s.processed + [c]),
                 if c.WtStream? || (id.bidi && !c.WtResetStream?) then FlowControlError else StreamStateError)
  {
    hide Sent, Ended, Stopped, Granted, Opened, Total, DataGranted, StreamsGranted, LegalScript, Named, FlowOk, CreateFrom;
    IdentifiersArePrefixes(s, id);
    assert StreamOk(s, id);
    UnnamedIsFresh(s.processed, id);
  }

  /** The Reliable Size of an emitted reset is the number of octets emitted on the stream before. */
  lemma ResetsAreReliable(s: Session, k: nat)
    requires Inv(s) && k < |s.emitted| && s.emitted[k].WtResetStream?
    ensures s.emitted[k].reliableSize == Sent(s.emitted[..k], s.emitted[k].id)
    ensures !Ended(s.emitted[..k], s.emitted[k].id)
  {
    LegalAt(s.client, s.config, s.emitted, k);
  }
}
