/** Two sessions joined by streams of bytes: what one end emits is encoded, carried in pieces of
    any size, decoded within the buffer limit of the other end, and handled. */
module WtBytes {
  import opened Base
  import opened WtTypes
  import opened Bounded
  import opened Utf8
  import opened WtSession
  import opened WtInvariant
  import opened WtProtocol
  import opened CapsuleFormat
  import opened CapsuleCodec
  import opened Streaming

  ghost predicate AllWellFormed(cs: seq<Capsule>) {
    forall k :: 0 <= k < |cs| ==> WellFormed(cs[k])
  }

  // ---- The beginning of a stream of capsules ----

  lemma {:induction false} EncodeJoin(cs: seq<Capsule>, ds: seq<Capsule>)
    requires AllWellFormed(cs) && AllWellFormed(ds)
    ensures AllWellFormed(cs + ds) && EncodeAll(cs + ds) == EncodeAll(cs) + EncodeAll(ds)
    decreases |cs|
  {
    hide WellFormed, CapsuleBytes;
    if cs == [] {
      assert cs + ds == ds;
    } else {
      assert (cs + ds)[1..] == cs[1..] + ds;
      EncodeJoin(cs[1..], ds);
    }
  }

  /** Part of a capsule is not yet anything. */
  lemma PartIsIncomplete(c: Capsule, bytes: seq<Byte>)
    requires WellFormed(c) && bytes < CapsuleBytes(c)
    ensures Next(bytes) == Front.Incomplete
  {
    hide Next, CapsuleBytes, WellFormed;
    var whole := CapsuleBytes(c);
    var more := whole[|bytes|..];
    assert bytes + more == whole && whole + [] == whole;
    CapsuleRoundTrip(c, []);
    NextAppend(bytes, more);
  }

  /** What is decoded off the beginning of a stream of capsules: those that are there whole, and
      of the next one a part. */
  lemma {:induction false} BeginningReads(cs: seq<Capsule>, bytes: seq<Byte>) returns (n: nat)
    requires AllWellFormed(cs) && bytes <= EncodeAll(cs)
    ensures n <= |cs| && Steady(CapsuleReader())
    ensures |EncodeAll(cs[..n])| <= |bytes|
    ensures var rest := bytes[|EncodeAll(cs[..n])|..];
            && bytes == EncodeAll(cs[..n]) + rest
            && ReadAll(CapsuleReader(), bytes) == Reading(cs[..n], More(rest))
            && (n < |cs| ==> rest < CapsuleBytes(cs[n])) && (n == |cs| ==> rest == [])
    decreases |cs|
  {
    hide WellFormed, CapsuleBytes, Next, Steady;
    CapsulesAreSteady();
    if cs == [] {
      n := 0;
      NothingRead();
    } else {
      var first, others := CapsuleBytes(cs[0]), EncodeAll(cs[1..]);
      if |bytes| < |first| {
        n := 0;
        assert bytes == first[..|bytes|];
        PartIsIncomplete(cs[0], bytes);
        assert cs[..0] == [] && bytes[0..] == bytes;
      } else {
        var after := bytes[|first|..];
        assert bytes == first + after;
        CapsuleRoundTrip(cs[0], after);
        assert after <= others;
        var m := BeginningReads(cs[1..], after);
        n := m + 1;
        assert cs[..n] == [cs[0]] + cs[1..][..m];
        assert cs[..n][1..] == cs[1..][..m];
        assert bytes[|EncodeAll(cs[..n])|..] == after[|EncodeAll(cs[1..][..m])|..];
      }
    }
  }

  /** A whole capsule takes room. */
  lemma CapsuleTakesRoom(c: Capsule)
    requires WellFormed(c)
    ensures CapsuleBytes(c) != []
  {
    hide WellFormed, CapsuleBytes, Next;
    NothingStands();
    CapsuleRoundTrip(c, []);
    assert CapsuleBytes(c) + [] == CapsuleBytes(c);
  }

  lemma NothingStands()
    ensures Next([]).Incomplete?
  {
    EmptyIsIncomplete();
  }

  // ---- What is emitted ----

  ghost predicate AllPhysical(cs: seq<Capsule>) {
    forall k :: 0 <= k < |cs| ==> Physical(cs[k])
  }

  /** Data that fits in memory, and a reason that is text. */
  predicate OpPhysical(op: Op) {
    match op
    case DoSend(_, data, _) => |data| < MEMORY_LIMIT
    case DoDatagram(data) => |data| < MEMORY_LIMIT
    case DoClose(code, reason) => code < TWO_32 && IsUtf8(reason)
    case _ => true
  }

  lemma ApplyEmitsPhysical(s: Session, op: Op)
    requires OpPhysical(op) && AllPhysical(s.emitted)
    ensures AllPhysical(Apply(s, op).session.emitted)
  {
    hide Apply, OpPhysical, Physical;
    ApplyShape(s, op);
    var t := Apply(s, op).session;
    if t.emitted != s.emitted {
      EmissionIsPhysical(s, op);
    }
  }

  lemma EmissionIsPhysical(s: Session, op: Op)
    requires OpPhysical(op)
    requires var t := Apply(s, op).session; s.emitted < t.emitted && |t.emitted| == |s.emitted| + 1
    ensures Physical(Apply(s, op).session.emitted[|s.emitted|])
  {
    hide Apply, Physical, OpPhysical;
    if op.DoClose? || op.DoDatagram? || op.DoDrain? {
      TextIsPhysical(s, op);
    } else if op.DoSend? || op.DoReset? || op.DoStop? {
      StreamIsPhysical(s, op);
    } else {
      CreditIsPhysical(s, op);
    }
  }

  lemma TextIsPhysical(s: Session, op: Op)
    requires OpPhysical(op) && (op.DoClose? || op.DoDatagram? || op.DoDrain?)
    requires var t := Apply(s, op).session; s.emitted < t.emitted && |t.emitted| == |s.emitted| + 1
    ensures Physical(Apply(s, op).session.emitted[|s.emitted|])
  {
    hide IsUtf8, Truncate;
    if op.DoClose? {
      TruncateKeepsUtf8(op.reason);
    }
  }

  lemma StreamIsPhysical(s: Session, op: Op)
    requires OpPhysical(op) && (op.DoSend? || op.DoReset? || op.DoStop?)
    requires var t := Apply(s, op).session; s.emitted < t.emitted && |t.emitted| == |s.emitted| + 1
    ensures Physical(Apply(s, op).session.emitted[|s.emitted|])
  {
    hide IsUtf8, MapInsert;
  }

  lemma CreditIsPhysical(s: Session, op: Op)
    requires !op.DoClose? && !op.DoDatagram? && !op.DoDrain? && !op.DoSend? && !op.DoReset? && !op.DoStop?
    requires var t := Apply(s, op).session; s.emitted < t.emitted && |t.emitted| == |s.emitted| + 1
    ensures Physical(Apply(s, op).session.emitted[|s.emitted|])
  {
    hide IsUtf8, MapInsert;
  }

  lemma ResetsArePhysical(before: seq<Capsule>, after: seq<Capsule>)
    requires AllPhysical(before) && AddsResets(before, after)
    ensures AllPhysical(after)
  {
    forall k | 0 <= k < |after| ensures Physical(after[k]) {
      if k < |before| {
        assert after[k] == before[k];
      }
    }
  }

  lemma EmittedCanBeWritten(s: Session)
    requires Inv(s) && AllPhysical(s.emitted)
    ensures AllWellFormed(s.emitted)
  {
    hide Inv, Physical, WellFormed;
    forall k | 0 <= k < |s.emitted| ensures WellFormed(s.emitted[k]) {
      EmittedIsWellFormed(s, k);
    }
  }

  /** All that a session has put out. */
  ghost function Output(s: Session): seq<Byte> {
    if AllWellFormed(s.emitted) then EncodeAll(s.emitted) else []
  }

  // ---- One direction ----

  /** What has come in at one end: the octets carried there, the capsules decoded off them, and
      the octets that wait for more. */
  datatype Inbound = Inbound(carried: nat, taken: nat, buffer: seq<Byte>)

  datatype Fault = BufferOverflow | Unreadable(error: CapsuleError) | Refused(reason: WtError)

  ghost function HandleAll(s: Session, cs: seq<Capsule>): Outcome
    decreases |cs|
  {
    if cs == [] then Done(s)
    else
      var o := HandleCapsule(s, cs[0]);
      if o.error.Some? then o else HandleAll(o.session, cs[1..])
  }

  /** The bounded records have room for each. */
  ghost predicate RoomFor(s: Session, cs: seq<Capsule>)
    decreases |cs|
  {
    cs != [] ==> HasRoom(s) && RoomFor(HandleCapsule(s, cs[0]).session, cs[1..])
  }

  /** More octets come in: they are refused whole if the buffer cannot hold them; otherwise
      every capsule that is there is decoded and handled. */
  ghost function Arrive(limit: nat, s: Session, d: Inbound, chunk: seq<Byte>): (Session, Inbound, Option<Fault>) {
    CapsulesAreSteady();
    if |d.buffer| + |chunk| > limit then (s, d, Some(BufferOverflow))
    else
      var r := ReadAll(CapsuleReader(), d.buffer + chunk);
      var o := HandleAll(s, r.items);
      match r.rest
      case Failed(e) => (o.session, d, Some(if o.error.Some? then Refused(o.error.value) else Unreadable(e)))
      case More(rest) =>
        (o.session, Inbound(d.carried + |chunk|, d.taken + |r.items|, rest),
         if o.error.Some? then Some(Refused(o.error.value)) else None)
  }

  /** What one end has taken off the octets of the other: whole capsules, each within the limit,
      and a part of the next; and it has handled them all, unless it was closed. */
  ghost predicate InboundOk(limit: nat, a: Session, b: Session, d: Inbound) {
    && AllWellFormed(a.emitted) && d.taken <= |a.emitted|
    && d.carried <= |EncodeAll(a.emitted)|
    && EncodeAll(a.emitted)[..d.carried] == EncodeAll(a.emitted[..d.taken]) + d.buffer
    && (if d.taken < |a.emitted| then d.buffer < CapsuleBytes(a.emitted[d.taken]) else d.buffer == [])
    && (forall k :: 0 <= k < d.taken ==> Fits(limit, a.emitted[k]))
    && |d.buffer| <= limit
    && b.processed <= a.emitted[..d.taken]
    && (!b.phase.Closed? ==> b.processed == a.emitted[..d.taken])
  }

  ghost predicate Fits(limit: nat, c: Capsule) {
    WellFormed(c) && |CapsuleBytes(c)| <= limit
  }

  ghost predicate Joined(a: Session, b: Session) {
    Inv(a) && Inv(b) && Linked(a, b) && Linked(b, a)
  }

  lemma {:induction false} ClosedHandlesNothing(s: Session, cs: seq<Capsule>)
    requires s.phase.Closed?
    ensures HandleAll(s, cs) == Done(s)
    decreases |cs|
  {
    if cs != [] {
      ClosedHandlesNothing(s, cs[1..]);
    }
  }

  /** The capsules next in line are all handled without an error. */
  lemma {:induction false} HandleAllIsSafe(a: Session, b: Session, cs: seq<Capsule>)
    requires Joined(a, b) && RoomFor(b, cs) && (b.phase.Closed? || b.processed + cs <= a.emitted)
    ensures var o := HandleAll(b, cs);
            && o.error.None? && Joined(a, o.session) && AddsResets(b.emitted, o.session.emitted)
            && b.processed <= o.session.processed <= b.processed + cs
            && (!o.session.phase.Closed? ==> o.session.processed == b.processed + cs)
    decreases |cs|
  {
    hide Inv, HasRoom, HandleCapsule;
    if b.phase.Closed? {
      ClosedHandlesNothing(b, cs);
    } else if cs == [] {
      assert b.processed + [] == b.processed;
    } else {
      assert NextCapsule(a, b) == (b.processed + cs)[|b.processed|] == cs[0];
      DeliverIsSafe(a, b);
      HandleShape(b, cs[0]);
      var c := HandleCapsule(b, cs[0]).session;
      assert b.processed + [cs[0]] + cs[1..] == b.processed + cs;
      HandleAllIsSafe(a, c, cs[1..]);
      ResetsJoin(b.emitted, c.emitted, HandleAll(c, cs[1..]).session.emitted);
    }
  }

  lemma ResetsJoin(a: seq<Capsule>, b: seq<Capsule>, c: seq<Capsule>)
    requires AddsResets(a, b) && AddsResets(b, c)
    ensures AddsResets(a, c)
  {
    forall k | |a| <= k < |c| ensures c[k].WtResetStream? {
      if k < |b| {
        assert c[k] == b[k];
      }
    }
  }

  /** Every capsule of a stream is within it. */
  lemma {:induction false} OneWithin(cs: seq<Capsule>, k: nat)
    requires AllWellFormed(cs) && k < |cs|
    ensures |CapsuleBytes(cs[k])| <= |EncodeAll(cs)|
    decreases |cs|
  {
    hide WellFormed, CapsuleBytes;
    if k > 0 {
      OneWithin(cs[1..], k - 1);
    }
  }

  /** The octets that a piece completes, together with those that waited. */
  ghost function Completed(d: Inbound, chunk: seq<Byte>): seq<Capsule> {
    CapsulesAreSteady();
    ReadAll(CapsuleReader(), d.buffer + chunk).items
  }

  /** Octets that come in are the beginning of what is still to be decoded. */
  lemma NextBeginning(a: Session, d: Inbound, n: nat)
    requires AllWellFormed(a.emitted) && d.taken <= |a.emitted| && d.carried + n <= |EncodeAll(a.emitted)|
    requires EncodeAll(a.emitted)[..d.carried] == EncodeAll(a.emitted[..d.taken]) + d.buffer
    ensures AllWellFormed(a.emitted[d.taken..])
    ensures d.buffer + EncodeAll(a.emitted)[d.carried..d.carried + n] <= EncodeAll(a.emitted[d.taken..])
    ensures EncodeAll(a.emitted) == EncodeAll(a.emitted[..d.taken]) + EncodeAll(a.emitted[d.taken..])
  {
    hide WellFormed, CapsuleBytes, EncodeAll;
    var head, tail := a.emitted[..d.taken], a.emitted[d.taken..];
    assert head + tail == a.emitted;
    EncodeJoin(head, tail);
    var out := EncodeAll(a.emitted);
    var upTo := out[..d.carried + n];
    assert upTo == out[..d.carried] + out[d.carried..d.carried + n];
    assert upTo == EncodeAll(head) + (d.buffer + out[d.carried..d.carried + n]);
    assert upTo[|EncodeAll(head)|..] == d.buffer + out[d.carried..d.carried + n];
    assert out[|EncodeAll(head)|..] == EncodeAll(tail);
  }

  /** Octets that come in raise no error but that of a full buffer, and leave all in order. */
  lemma ArriveIsSafe(limit: nat, a: Session, b: Session, d: Inbound, n: nat)
    requires Joined(a, b) && InboundOk(limit, a, b, d) && d.carried + n <= |EncodeAll(a.emitted)|
    requires var chunk := EncodeAll(a.emitted)[d.carried..d.carried + n];
             |d.buffer| + n <= limit ==> RoomFor(b, Completed(d, chunk))
    ensures var (t, e, fault) := Arrive(limit, b, d, EncodeAll(a.emitted)[d.carried..d.carried + n]);
            && fault == (if |d.buffer| + n > limit then Some(BufferOverflow) else None)
            && (fault.Some? ==> t == b && e == d)
            && Joined(a, t) && InboundOk(limit, a, t, e) && AddsResets(b.emitted, t.emitted)
  {
    hide Joined, WellFormed, CapsuleBytes, EncodeAll, RoomFor, ReadAll, HandleAll, Steady, Fits;
    if |d.buffer| + n <= limit {
      var bytes := d.buffer + EncodeAll(a.emitted)[d.carried..d.carried + n];
      var cs := a.emitted[d.taken..];
      NextBeginning(a, d, n);
      var m := BeginningReads(cs, bytes);
      HandledInLine(a, b, d.taken, m);
      InboundAfter(limit, a, b, HandleAll(b, cs[..m]).session, d, n, m);
    }
  }

  /** The capsules that complete are the next in line, unless the session is closed. */
  lemma HandledInLine(a: Session, b: Session, taken: nat, m: nat)
    requires Joined(a, b) && taken + m <= |a.emitted| && RoomFor(b, a.emitted[taken..][..m])
    requires b.processed <= a.emitted[..taken] && (!b.phase.Closed? ==> b.processed == a.emitted[..taken])
    ensures var o := HandleAll(b, a.emitted[taken..][..m]);
            var t := o.session;
            && o.error.None? && Joined(a, t) && AddsResets(b.emitted, t.emitted)
            && t.processed <= a.emitted[..taken + m]
            && (!t.phase.Closed? ==> t.processed == a.emitted[..taken + m])
  {
    hide Joined, RoomFor, HandleAll;
    var cs := a.emitted[taken..][..m];
    assert a.emitted[..taken] + cs == a.emitted[..taken + m];
    if b.phase.Closed? {
      ClosedHandlesNothing(b, cs);
      assert a.emitted[..taken] <= a.emitted[..taken + m];
    } else {
      HandleAllIsSafe(a, b, cs);
    }
  }

  lemma InboundAfter(limit: nat, a: Session, b: Session, t: Session, d: Inbound, n: nat, m: nat)
    requires InboundOk(limit, a, b, d) && d.carried + n <= |EncodeAll(a.emitted)| && |d.buffer| + n <= limit
    requires d.taken + m <= |a.emitted| && AllWellFormed(a.emitted[d.taken..])
    requires t.processed <= a.emitted[..d.taken + m]
    requires !t.phase.Closed? ==> t.processed == a.emitted[..d.taken + m]
    requires var cs := a.emitted[d.taken..];
             var bytes := d.buffer + EncodeAll(a.emitted)[d.carried..d.carried + n];
             var size := |EncodeAll(cs[..m])|;
             && size <= |bytes| && bytes == EncodeAll(cs[..m]) + bytes[size..]
             && (if m < |cs| then bytes[size..] < CapsuleBytes(cs[m]) else bytes[size..] == [])
    ensures var bytes := d.buffer + EncodeAll(a.emitted)[d.carried..d.carried + n];
            InboundOk(limit, a, t, Inbound(d.carried + n, d.taken + m, bytes[|EncodeAll(a.emitted[d.taken..][..m])|..]))
  {
    hide WellFormed, CapsuleBytes, EncodeAll, Fits;
    var out := EncodeAll(a.emitted);
    var chunk := out[d.carried..d.carried + n];
    var bytes := d.buffer + chunk;
    var head := EncodeAll(a.emitted[..d.taken]);
    var taken := EncodeAll(a.emitted[d.taken..][..m]);
    TakenFits(limit, a, d, bytes, m);
    assert out[..d.carried + n] == out[..d.carried] + chunk;
    PiecesJoin(head, d.buffer, chunk, taken);
  }

  lemma PiecesJoin(head: seq<Byte>, buffer: seq<Byte>, chunk: seq<Byte>, taken: seq<Byte>)
    requires |taken| <= |buffer + chunk| && buffer + chunk == taken + (buffer + chunk)[|taken|..]
    ensures head + buffer + chunk == head + taken + (buffer + chunk)[|taken|..]
  {
    var rest := (buffer + chunk)[|taken|..];
    assert head + buffer + chunk == head + (taken + rest);
  }

  /** What a piece completes has the form it should, and each capsule was within the limit. */
  lemma TakenFits(limit: nat, a: Session, d: Inbound, bytes: seq<Byte>, m: nat)
    requires AllWellFormed(a.emitted) && d.taken + m <= |a.emitted| && |bytes| <= limit
    requires AllWellFormed(a.emitted[d.taken..]) && |EncodeAll(a.emitted[d.taken..][..m])| <= |bytes|
    ensures EncodeAll(a.emitted[..d.taken + m]) == EncodeAll(a.emitted[..d.taken]) + EncodeAll(a.emitted[d.taken..][..m])
    ensures forall k :: d.taken <= k < d.taken + m ==> Fits(limit, a.emitted[k])
  {
    hide WellFormed, CapsuleBytes, EncodeAll;
    var cs := a.emitted[d.taken..][..m];
    assert a.emitted[..d.taken + m] == a.emitted[..d.taken] + cs;
    EncodeJoin(a.emitted[..d.taken], cs);
    forall k | d.taken <= k < d.taken + m ensures Fits(limit, a.emitted[k]) {
      OneWithin(cs, k - d.taken);
    }
  }

  /** More that is emitted changes nothing of what has come in. */
  lemma EmissionKeepsInbound(limit: nat, a: Session, t: Session, b: Session, u: Session, d: Inbound)
    requires InboundOk(limit, a, b, d) && a.emitted <= t.emitted && AllWellFormed(t.emitted)
    requires u.processed == b.processed && (b.phase.Closed? ==> u.phase.Closed?)
    ensures InboundOk(limit, t, u, d)
  {
    hide WellFormed, CapsuleBytes, EncodeAll;
    var more := t.emitted[|a.emitted|..];
    assert t.emitted == a.emitted + more;
    EncodeJoin(a.emitted, more);
    assert t.emitted[..d.taken] == a.emitted[..d.taken];
    assert EncodeAll(t.emitted)[..d.carried] == EncodeAll(a.emitted)[..d.carried];
    if d.taken == |a.emitted| && d.taken < |t.emitted| {
      CapsuleTakesRoom(t.emitted[d.taken]);
    }
  }

  // ---- Both directions ----

  datatype Bytes = Bytes(sys: System, toServer: Inbound, toClient: Inbound) {
    function In(isClient: bool): Inbound {
      if isClient then toClient else toServer
    }

    function With(isClient: bool, s: Session, d: Inbound): Bytes {
      if isClient then Bytes(sys.With(true, s), toServer, d) else Bytes(sys.With(false, s), d, toClient)
    }
  }

  /** What happens next: an application acts, or octets are carried to an end. */
  datatype ByteEvent = Act(isClient: bool, op: Op) | Carry(toClient: bool, octets: nat)

  /** One event; no more is carried than was put out. */
  ghost function StepBytes(limit: nat, y: Bytes, e: ByteEvent): (Bytes, Option<Fault>) {
    match e
    case Act(isClient, op) => (y.With(isClient, Apply(y.sys.End(isClient), op).session, y.In(isClient)), None)
    case Carry(toClient, n) =>
      var out, d := Output(y.sys.End(!toClient)), y.In(toClient);
      if d.carried + n > |out| then (y, None)
      else
        var (t, f, fault) := Arrive(limit, y.sys.End(toClient), d, out[d.carried..d.carried + n]);
        (y.With(toClient, t, f), fault)
  }

  /** What one end has emitted, and what the other has taken of it. */
  ghost predicate LineOk(limit: nat, a: Session, b: Session, d: Inbound) {
    Joined(a, b) && AllPhysical(a.emitted) && InboundOk(limit, a, b, d)
  }

  ghost predicate SoundBytes(limit: nat, y: Bytes) {
    && y.sys.client.client
    && LineOk(limit, y.sys.client, y.sys.server, y.toServer)
    && LineOk(limit, y.sys.server, y.sys.client, y.toClient)
  }

  ghost predicate AllowedBytes(limit: nat, y: Bytes, e: ByteEvent) {
    match e
    case Act(isClient, op) => HasRoom(y.sys.End(isClient)) && Careful(y.sys.End(isClient), op) && OpPhysical(op)
    case Carry(toClient, n) =>
      var out, d := Output(y.sys.End(!toClient)), y.In(toClient);
      d.carried + n <= |out| && |d.buffer| + n <= limit ==>
        RoomFor(y.sys.End(toClient), Completed(d, out[d.carried..d.carried + n]))
  }

  ghost predicate Overflows(limit: nat, y: Bytes, e: ByteEvent) {
    && e.Carry?
    && y.In(e.toClient).carried + e.octets <= |Output(y.sys.End(!e.toClient))|
    && |y.In(e.toClient).buffer| + e.octets > limit
  }

  lemma ActKeepsLines(limit: nat, a: Session, b: Session, inA: Inbound, inB: Inbound, op: Op)
    requires LineOk(limit, a, b, inB) && LineOk(limit, b, a, inA)
    requires HasRoom(a) && Careful(a, op) && OpPhysical(op)
    ensures var t := Apply(a, op).session; LineOk(limit, t, b, inB) && LineOk(limit, b, t, inA) && t.client == a.client
  {
    hide Inv, Apply, HasRoom, Careful, OpPhysical, InboundOk, AllPhysical, AllWellFormed;
    var t := Apply(a, op).session;
    ApplyKeeps(a, op);
    ApplyShape(a, op);
    ApplyEmitsPhysical(a, op);
    EmittedCanBeWritten(t);
    ClosedStays(a, op);
    EmittedCanBeWritten(b);
    EmissionKeepsInbound(limit, a, t, b, b, inB);
    EmissionKeepsInbound(limit, b, b, a, t, inA);
  }

  /** A session that is closed stays so. */
  lemma ClosedStays(s: Session, op: Op)
    ensures s.phase.Closed? ==> Apply(s, op).session.phase.Closed?
  {
    hide MapInsert, Truncate;
  }

  lemma CarryKeepsLines(limit: nat, a: Session, b: Session, inA: Inbound, inB: Inbound, n: nat)
    requires LineOk(limit, a, b, inB) && LineOk(limit, b, a, inA) && inB.carried + n <= |EncodeAll(a.emitted)|
    requires var chunk := EncodeAll(a.emitted)[inB.carried..inB.carried + n];
             |inB.buffer| + n <= limit ==> RoomFor(b, Completed(inB, chunk))
    ensures var (t, e, fault) := Arrive(limit, b, inB, EncodeAll(a.emitted)[inB.carried..inB.carried + n]);
            && fault == (if |inB.buffer| + n > limit then Some(BufferOverflow) else None)
            && LineOk(limit, a, t, e) && LineOk(limit, t, a, inA) && t.client == b.client
            && b.emitted <= t.emitted
  {
    hide Inv, InboundOk, AllPhysical, WellFormed, RoomFor, Arrive, EncodeAll;
    EmittedCanBeWritten(a);
    ArriveIsSafe(limit, a, b, inB, n);
    var (t, e, fault) := Arrive(limit, b, inB, EncodeAll(a.emitted)[inB.carried..inB.carried + n]);
    ResetsArePhysical(b.emitted, t.emitted);
    EmittedCanBeWritten(t);
    EmissionKeepsInbound(limit, b, t, a, a, inA);
  }

  /** An event raises no error but that of a full buffer, and leaves all in order. */
  lemma StepBytesIsSafe(limit: nat, y: Bytes, e: ByteEvent)
    requires SoundBytes(limit, y) && AllowedBytes(limit, y, e)
    ensures StepBytes(limit, y, e).1 == if Overflows(limit, y, e) then Some(BufferOverflow) else None
    ensures SoundBytes(limit, StepBytes(limit, y, e).0)
    ensures y.sys.client.emitted <= StepBytes(limit, y, e).0.sys.client.emitted
    ensures y.sys.server.emitted <= StepBytes(limit, y, e).0.sys.server.emitted
  {
    hide Inv, Apply, HasRoom, Careful, OpPhysical, InboundOk, AllPhysical, RoomFor, Arrive, EncodeAll;
    match e {
      case Act(isClient, op) =>
        ActKeepsLines(limit, y.sys.End(isClient), y.sys.End(!isClient), y.In(isClient), y.In(!isClient), op);
        ApplyShape(y.sys.End(isClient), op);
      case Carry(toClient, n) =>
        WrittenIsOutput(y.sys.End(!toClient));
        var out, d := Output(y.sys.End(!toClient)), y.In(toClient);
        if d.carried + n <= |out| {
          CarryKeepsLines(limit, y.sys.End(!toClient), y.sys.End(toClient), y.In(!toClient), d, n);
        }
    }
  }

  lemma WrittenIsOutput(s: Session)
    requires Inv(s) && AllPhysical(s.emitted)
    ensures AllWellFormed(s.emitted) && Output(s) == EncodeAll(s.emitted)
  {
    hide Inv, AllPhysical, EncodeAll, AllWellFormed;
    EmittedCanBeWritten(s);
  }

  // ---- Whole runs ----

  ghost predicate AllAllowedBytes(limit: nat, y: Bytes, events: seq<ByteEvent>)
    decreases |events|
  {
    events != [] ==>
      AllowedBytes(limit, y, events[0]) && AllAllowedBytes(limit, StepBytes(limit, y, events[0]).0, events[1..])
  }

  ghost function EndBytes(limit: nat, y: Bytes, events: seq<ByteEvent>): Bytes
    decreases |events|
  {
    if events == [] then y else EndBytes(limit, StepBytes(limit, y, events[0]).0, events[1..])
  }

  ghost predicate NeverFaults(limit: nat, y: Bytes, events: seq<ByteEvent>)
    decreases |events|
  {
    events != [] ==>
      StepBytes(limit, y, events[0]).1.None? && NeverFaults(limit, StepBytes(limit, y, events[0]).0, events[1..])
  }

  ghost predicate NeverOverflows(limit: nat, y: Bytes, events: seq<ByteEvent>)
    decreases |events|
  {
    events != [] ==>
      !Overflows(limit, y, events[0]) && NeverOverflows(limit, StepBytes(limit, y, events[0]).0, events[1..])
  }

  /** Two careful ends joined by streams of bytes never fail each other but by filling a decoder's
      buffer, however their steps interleave and however the octets are cut up. */
  lemma {:induction false} ByteRunIsSafe(limit: nat, y: Bytes, events: seq<ByteEvent>)
    requires SoundBytes(limit, y) && AllAllowedBytes(limit, y, events)
    ensures SoundBytes(limit, EndBytes(limit, y, events))
    ensures NeverFaults(limit, y, events) <==> NeverOverflows(limit, y, events)
    ensures y.sys.client.emitted <= EndBytes(limit, y, events).sys.client.emitted
    ensures y.sys.server.emitted <= EndBytes(limit, y, events).sys.server.emitted
    decreases |events|
  {
    hide SoundBytes, StepBytes, AllowedBytes, Overflows;
    if events != [] {
      StepBytesIsSafe(limit, y, events[0]);
      ByteRunIsSafe(limit, StepBytes(limit, y, events[0]).0, events[1..]);
    }
  }

  ghost predicate AllFit(limit: nat, cs: seq<Capsule>) {
    forall k :: 0 <= k < |cs| ==> Fits(limit, cs[k])
  }

  /** Octets are carried one at a time. */
  predicate OneByOne(events: seq<ByteEvent>) {
    forall k :: 0 <= k < |events| && events[k].Carry? ==> events[k].octets <= 1
  }

  /** If every capsule that is ever emitted fits the buffer of its receiver, a run that carries
      octet by octet never fails. */
  lemma {:induction false} FittingIsEnough(limit: nat, y: Bytes, events: seq<ByteEvent>)
    requires SoundBytes(limit, y) && AllAllowedBytes(limit, y, events) && OneByOne(events)
    requires var z := EndBytes(limit, y, events); AllFit(limit, z.sys.client.emitted) && AllFit(limit, z.sys.server.emitted)
    ensures NeverFaults(limit, y, events)
    decreases |events|
  {
    hide SoundBytes, StepBytes, AllowedBytes, Overflows, Fits;
    if events != [] {
      StepBytesIsSafe(limit, y, events[0]);
      ByteRunIsSafe(limit, y, events);
      FitsSoFar(limit, y.sys.client.emitted, EndBytes(limit, y, events).sys.client.emitted);
      FitsSoFar(limit, y.sys.server.emitted, EndBytes(limit, y, events).sys.server.emitted);
      OctetFits(limit, y, events[0]);
      FittingIsEnough(limit, StepBytes(limit, y, events[0]).0, events[1..]);
    }
  }

  lemma FitsSoFar(limit: nat, cs: seq<Capsule>, ds: seq<Capsule>)
    requires cs <= ds && AllFit(limit, ds)
    ensures AllFit(limit, cs)
  {
    hide Fits;
    forall k | 0 <= k < |cs| ensures Fits(limit, cs[k]) {
      assert cs[k] == ds[k];
    }
  }

  /** One more octet of a capsule that fits finds room. */
  lemma OctetFits(limit: nat, y: Bytes, e: ByteEvent)
    requires SoundBytes(limit, y) && (e.Carry? ==> e.octets <= 1)
    requires AllFit(limit, y.sys.client.emitted) && AllFit(limit, y.sys.server.emitted)
    ensures !Overflows(limit, y, e)
  {
    hide Inv, AllPhysical, EncodeAll, CapsuleBytes, WellFormed;
    if e.Carry? {
      var a, d := y.sys.End(!e.toClient), y.In(e.toClient);
      WrittenIsOutput(a);
      if d.taken == |a.emitted| {
        assert a.emitted[..d.taken] == a.emitted;
        AllCarried(a, d);
      } else {
        assert Fits(limit, a.emitted[d.taken]);
      }
    }
  }

  lemma AllCarried(a: Session, d: Inbound)
    requires AllWellFormed(a.emitted) && d.carried <= |EncodeAll(a.emitted)|
    requires EncodeAll(a.emitted)[..d.carried] == EncodeAll(a.emitted) + d.buffer
    ensures d.carried == |EncodeAll(a.emitted)| && d.buffer == []
  {
    hide EncodeAll;
    assert |EncodeAll(a.emitted)[..d.carried]| == d.carried;
  }

  /** And it has to be: when all that an end put out has come in at the other, however it was cut
      up, every capsule of it fits. */
  lemma FittingIsNeeded(limit: nat, y: Bytes, events: seq<ByteEvent>, toClient: bool)
    requires SoundBytes(limit, y) && AllAllowedBytes(limit, y, events)
    requires var z := EndBytes(limit, y, events); z.In(toClient).carried == |Output(z.sys.End(!toClient))|
    ensures AllFit(limit, EndBytes(limit, y, events).sys.End(!toClient).emitted)
  {
    hide Inv, AllPhysical, EncodeAll, CapsuleBytes, WellFormed, EndBytes, AllAllowedBytes;
    ByteRunIsSafe(limit, y, events);
    var z := EndBytes(limit, y, events);
    var a, d := z.sys.End(!toClient), z.In(toClient);
    WrittenIsOutput(a);
    if d.taken < |a.emitted| {
      NextBeginning(a, d, 0);
      OneWithin(a.emitted[d.taken..], 0);
    }
  }

  /** A capsule that is too large for the buffer is never taken, nor is anything after it. */
  lemma TooLargeIsNeverTaken(limit: nat, y: Bytes, events: seq<ByteEvent>, toClient: bool, k: nat)
    requires SoundBytes(limit, y) && AllAllowedBytes(limit, y, events)
    requires var cs := EndBytes(limit, y, events).sys.End(!toClient).emitted; k < |cs| && !Fits(limit, cs[k])
    ensures EndBytes(limit, y, events).In(toClient).taken <= k
  {
    hide Inv, AllPhysical, EncodeAll, Fits, EndBytes, AllAllowedBytes;
    ByteRunIsSafe(limit, y, events);
  }

  /** A fresh pair of sessions is in order. */
  lemma StartIsSoundBytes(limit: nat, c: Config, d: Config)
    requires c.Valid() && d.Valid()
    ensures SoundBytes(limit, Bytes(System(NewSession(true, c, d), NewSession(false, d, c)),
                                    Inbound(0, 0, []), Inbound(0, 0, [])))
  {
    hide Inv;
    StartIsSound(c, d);
  }
}
