/** What a client relies on: that the peer answers only on streams the client opened. */
module H2Client {
  import opened Base
  import opened H2Types
  import opened H2History
  import opened H2Connection
  import opened H2Invariant
  import opened H2Receiving
  import opened H2Runs

  /** The stream that a header block on an unknown identifier makes on a client. */
  function Answered(c: Conn, h: Headers, endStream: bool): Stream {
    c.NewStream().(state := if endStream then HalfClosedRemote else Open, expected := Declared(h),
                   initialHeaders := !h.informational)
  }

  /** Whether an unknown identifier's header block is taken for a response, or refused by a reset. */
  predicate TakenAsResponse(c: Conn, h: Headers, endStream: bool) {
    && !(c.local.maxConcurrent.Some? && OpenCount(c) >= c.local.maxConcurrent.value)
    && h.hasPseudo && h.validResponse && !h.contentLength.Malformed?
    && !(h.informational && endStream)
    && !(endStream && Declared(h).Some? && Declared(h).value != 0 && !h.noContentStatus)
  }

  /** A client gives a header block on an identifier it does not know either a stream of its
      own or a reset. */
  lemma UnknownIsAnswered(c: Conn, id: nat, h: Headers, endStream: bool)
    requires c.role.Client? && id !in c.streams && id !in c.closed && OnHeaders(c, id, h, endStream).Ok?
    requires !c.refused && !c.tunnelled
    ensures var d := OnHeaders(c, id, h, endStream).value;
            if TakenAsResponse(c, h, endStream) then
              d == Take(Seen(c, id), id, Answered(c, h, endStream), HeadersReceived(id, h, endStream))
            else
              || d == Reset(Ensure(Seen(c, id), id), id, RefusedStream, 0)
              || d == Reset(Ensure(Seen(c, id), id), id, ProtocolError, 0)
  {
    hide OpenCount, Reset;
    var d := Seen(c, id);
    if !(c.local.maxConcurrent.Some? && OpenCount(c) >= c.local.maxConcurrent.value) {
      var n := c.NewStream();
      var t := Answered(c, h, endStream);
      EnsureTwice(d, id, n);
      ResetForgets(d, id, n, ProtocolError);
      ResetForgets(d, id, t, ProtocolError);
    }
  }

  /** What the client has said on a stream that is gone and forgotten: at most a header block
      without the end, which the new record would not have to account for. */
  predicate Blank(c: Conn, id: nat) {
    && DataAccepted(c.sends, id) == [] && DataOut(c.wire, id) == []
    && !EndOut(c.wire, id) && !ResetOut(c.wire, id)
  }

  /** A header block in one frame that a client accepts keeps its invariant if and only if the
      identifier is below the client's own counter, and is not one that the client has used for
      more than such a header block and forgotten, so that this block makes a new stream of it. */
  lemma SolicitationIsNeeded(c: Conn, id: nat, h: Headers, endStream: bool)
    requires Inv(c) && c.role.Client? && Apply(c, GetHeaders(id, h, endStream)).Ok?
    ensures Inv(Apply(c, GetHeaders(id, h, endStream)).value)
       <==> && id < c.nextId
            && (!Solicited(c, id) && TakenAsResponse(c, h, endStream) ==> Blank(c, id))
  {
    hide Inv, OnHeaders, Blank, TakenAsResponse, Reset, BlockOk;
    FlagsAreDown(c);
    AtRest(c);
    if Solicited(c, id) {
      OnHeadersKeeps(c, id, h, endStream);
      KnownIsBelowCounter(c, id);
    } else {
      UnknownIsAnswered(c, id, h, endStream);
      if id >= c.nextId {
        SeenBreaks(c, id, h, endStream);
      } else if TakenAsResponse(c, h, endStream) {
        TakenKeeps(c, id, h, endStream);
      } else {
        RefusedKeeps(c, id, RefusedStream);
        RefusedKeeps(c, id, ProtocolError);
      }
    }
  }

  /** Between blocks nothing is noted of any. */
  lemma AtRest(c: Conn)
    requires BlockOk(c) && c.open.None?
    ensures !c.refused && !c.tunnelled
  {
  }

  /** The largest identifier seen overtakes the counter. */
  lemma SeenBreaks(c: Conn, id: nat, h: Headers, endStream: bool)
    requires c.role.Client? && id >= c.nextId && OnHeaders(c, id, h, endStream).Ok?
    requires id !in c.streams && id !in c.closed && !c.refused && !c.tunnelled
    ensures var d := OnHeaders(c, id, h, endStream).value;
            && d.nextId == c.nextId && id <= d.lastRecv && !Inv(d)
  {
    hide StreamOk, OpenCount, Reset, CreditOk;
    UnknownIsAnswered(c, id, h, endStream);
    ResetCounters(Ensure(Seen(c, id), id), id, RefusedStream);
    ResetCounters(Ensure(Seen(c, id), id), id, ProtocolError);
  }

  lemma ResetCounters(c: Conn, id: nat, code: ErrorCode)
    ensures var d := Reset(c, id, code, 0); d.role == c.role && d.nextId == c.nextId && d.lastRecv == c.lastRecv
  {
  }

  lemma TakenKeeps(c: Conn, id: nat, h: Headers, endStream: bool)
    requires Inv(c) && c.role.Client? && id !in c.streams && id !in c.closed && id < c.nextId
    ensures Inv(Take(Seen(c, id), id, Answered(c, h, endStream), HeadersReceived(id, h, endStream))) <==> Blank(c, id)
  {
    hide FactsOf, Orderly, BodiesFit, TotalOut, Reported;
    var e := HeadersReceived(id, h, endStream);
    var d := Take(Seen(c, id), id, Answered(c, h, endStream), e);
    assert StreamOk(c, id);
    QueueFacts(c.wire, c.log, c.sends, e, id);
    BlankFacts(c, id);
    assert d.streams - {id} == c.streams - {id};
    if Blank(c, id) {
      StepKeeps(c, d, id, None, Some(e), 0, 0);
    } else {
      assert !StreamOk(d, id);
    }
  }

  lemma BlankFacts(c: Conn, id: nat)
    ensures var x := Know(c, id); Blank(c, id) <==> x.accepted == [] && x.out == [] && !x.ended && !x.aborted
  {
  }

  lemma RefusedKeeps(c: Conn, id: nat, code: ErrorCode)
    requires Inv(c) && c.role.Client? && id !in c.streams && id < c.nextId
    ensures Inv(Reset(Ensure(Seen(c, id), id), id, code, 0))
  {
    hide FactsOf, Orderly, BodiesFit, TotalOut, Reported, Remember;
    var d := Reset(Ensure(Seen(c, id), id), id, code, 0);
    var f, e := RstStream(id, code), StreamReset(id, code, 0);
    assert StreamOk(c, id);
    EmitFacts(c, f, id);
    QueueFacts(c.wire + [f], c.log, c.sends, e, id);
    assert d.streams == c.streams;
    StepKeeps(c, d, id, Some(f), Some(e), 0, 0);
  }

  /** A plain response on an identifier yet to be opened is reported to the application and makes
      a stream at or above the client's own counter. */
  lemma UnsolicitedResponse(c: Conn, id: nat, h: Headers)
    requires Inv(c) && c.open.None? && c.role.Client? && id % 2 == 1 && id >= c.nextId && !c.phase.GoawaySent?
    requires c.local.maxConcurrent.None? && h.hasPseudo && h.validResponse && h.contentLength.Absent?
    ensures OnHeaders(c, id, h, false).Ok?
    ensures var d := OnHeaders(c, id, h, false).value;
            && id in d.streams && d.streams[id].initialHeaders == !h.informational
            && d.nextId == c.nextId <= id
            && d.log == c.log + [HeadersReceived(id, h, false)]
            && !Inv(d)
  {
    hide FactsOf, TotalOut, Reported, Orderly, BodiesFit, Reset;
    assert StreamOk(c, id);
    assert c.lastRecv < c.nextId;
    UnknownIsAnswered(c, id, h, false);
    SolicitationIsNeeded(c, id, h, false);
  }

  /** When the counter gets there, the request that the client then starts replaces that stream's
      record: the response it was given before is of no stream that the client has. */
  lemma StartReplaces(c: Conn, h: Headers, request: Headers, endStream: bool)
    requires Inv(c) && c.open.None? && c.role.Client? && c.nextId % 2 == 1 && !c.phase.GoawaySent?
    requires c.local.maxConcurrent.None? && h.hasPseudo && h.validResponse && h.contentLength.Absent? && !h.informational
    requires StartError(OnHeaders(c, c.nextId, h, false).value, request).None?
    ensures var d := OnHeaders(c, c.nextId, h, false).value;
            var r := StartStream(d, request, endStream);
            && c.nextId in d.streams && d.streams[c.nextId].initialHeaders
            && r.Ok? && r.value.streams.Keys == d.streams.Keys
            && !r.value.streams[c.nextId].initialHeaders
            && HeadersReceived(c.nextId, h, false) in r.value.log
  {
    hide Inv, OnHeaders, OpenCount, StartError;
    UnsolicitedResponse(c, c.nextId, h);
    var d := OnHeaders(c, c.nextId, h, false).value;
    assert HeadersReceived(c.nextId, h, false) == d.log[|c.log|];
  }
}
