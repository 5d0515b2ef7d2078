/** What the octets of a capsule mean (section 3.2 of RFC 9297, section 16 of RFC 9000 and section 6
    of draft-ietf-webtrans-http2-16), stated with no reader or writer, and that decoder and
    encoder agree with it. */
module CapsuleOctets {
  import opened Base
  import opened BigEndian
  import opened WtTypes
  import opened VarInt
  import opened Utf8
  import opened Streaming
  import opened CapsuleFormat
  import opened CapsuleCodec

  // ---- Integers ----

  /** A variable-length integer: the two bits in front tell how many octets there are. */
  predicate Number(octets: seq<Byte>, value: nat) {
    && octets != []
    && var top: Byte := octets[0] % 64;
    match octets[0] / 64
    case 0 => |octets| == 1 && value == top
    case 1 => |octets| == 2 && value == Word(0, 0, top, octets[1])
    case 2 => |octets| == 4 && value == Word(top, octets[1], octets[2], octets[3])
    case _ =>
      && |octets| == 8
      && value == 0x1_0000_0000 * Word(top, octets[1], octets[2], octets[3])
                  + Word(octets[4], octets[5], octets[6], octets[7])
  }

  /** What is read as an integer is one, and an integer is read whatever follows it. */
  lemma NumberReads(octets: seq<Byte>, rest: seq<Byte>, value: nat)
    ensures Decoding(octets + rest) == Ok((value, |octets|)) <==> Number(octets, value)
  {
    hide FromBytes, Word;
    if octets != [] {
      var data := octets + rest;
      assert data[0] == octets[0];
      var n := LengthTold(octets[0]);
      if n <= |octets| {
        assert data[1..n] == octets[1..n];
        if n == |octets| {
          Folded(octets);
        }
      }
    }
  }

  lemma Folded(octets: seq<Byte>)
    requires octets != [] && |octets| == LengthTold(octets[0])
    ensures Number(octets, FromBytes([octets[0] % 64] + octets[1..]))
  {
    hide FromBytes;
    var plain := [octets[0] % 64] + octets[1..];
    if |octets| == 8 {
      LongIs(plain);
    } else {
      WordIs(plain);
    }
  }

  /** An integer is written in as few octets as will hold it. */
  lemma ShortestIsWritten(value: nat, octets: seq<Byte>)
    requires value <= MAX_VALUE
    ensures Number(Encoding(value), value)
    ensures Number(octets, value) ==> |Encoding(value)| <= |octets|
  {
    hide Encoding, Decoding;
    RoundTrip(value, []);
    NumberReads(Encoding(value), [], value);
  }

  /** A payload that starts with these integers, however many octets each takes. */
  ghost predicate Starts(payload: seq<Byte>, ns: seq<nat>, rest: seq<Byte>)
    decreases |ns|
  {
    if ns == [] then payload == rest
    else exists k: nat :: k <= |payload| && Number(payload[..k], ns[0]) && Starts(payload[k..], ns[1..], rest)
  }

  /** The length of an integer shows in its first octet. */
  lemma NumberOnce(payload: seq<Byte>, k: nat, value: nat)
    requires k <= |payload| && Number(payload[..k], value)
    ensures Decoding(payload) == Ok((value, k))
  {
    hide Number, Decoding;
    assert payload[..k] + payload[k..] == payload;
    NumberReads(payload[..k], payload[k..], value);
  }

  lemma {:induction false} StartsReads(payload: seq<Byte>, ns: seq<nat>, rest: seq<Byte>)
    ensures ReadIntegers(payload, |ns|) == Ok((ns, rest)) <==> Starts(payload, ns, rest)
    decreases |ns|
  {
    hide Number, Decoding;
    if ns != [] {
      if Starts(payload, ns, rest) {
        var k: nat :| k <= |payload| && Number(payload[..k], ns[0]) && Starts(payload[k..], ns[1..], rest);
        NumberOnce(payload, k, ns[0]);
        StartsReads(payload[k..], ns[1..], rest);
        assert [ns[0]] + ns[1..] == ns;
      }
      if ReadIntegers(payload, |ns|) == Ok((ns, rest)) {
        var (value, k) := Decoding(payload).value;
        assert payload[..k] + payload[k..] == payload;
        NumberReads(payload[..k], payload[k..], value);
        var more := ReadIntegers(payload[k..], |ns| - 1).value;
        assert ([value] + more.0)[1..] == more.0;
        StartsReads(payload[k..], ns[1..], rest);
      }
    }
  }

  // ---- Payloads ----

  /** The capsule that a type and a payload mean. */
  ghost predicate Means(kind: nat, payload: seq<Byte>, c: Capsule) {
    match c
    case Datagram(data) => kind == 0 && payload == data
    case Padding(length) => kind == 0x190B4D38 && |payload| == length
    case WtResetStream(id, code, size) =>
      kind == 0x190B4D39 && code < 0x1_0000_0000 && Starts(payload, [id.Wire(), code, size], [])
    case WtStopSending(id, code) => kind == 0x190B4D3A && code < 0x1_0000_0000 && Starts(payload, [id.Wire(), code], [])
    case WtStream(id, data, fin) => kind == (if fin then 0x190B4D3B else 0x190B4D3C) && Starts(payload, [id.Wire()], data)
    case WtMaxData(maximum) => kind == 0x190B4D3D && Starts(payload, [maximum], [])
    case WtMaxStreamData(id, maximum) => kind == 0x190B4D3E && Starts(payload, [id.Wire(), maximum], [])
    case WtMaxStreams(maximum, bidi) => kind == (if bidi then 0x190B4D3F else 0x190B4D40) && Starts(payload, [maximum], [])
    case WtDataBlocked(maximum) => kind == 0x190B4D41 && Starts(payload, [maximum], [])
    case WtStreamDataBlocked(id, maximum) => kind == 0x190B4D42 && Starts(payload, [id.Wire(), maximum], [])
    case WtStreamsBlocked(maximum, bidi) => kind == (if bidi then 0x190B4D43 else 0x190B4D44) && Starts(payload, [maximum], [])
    case WtCloseSession(code, reason) =>
      && kind == 0x2843 && 4 <= |payload| <= 4 + 1024 && IsUtf8(reason) && reason == payload[4..]
      && code == Word(payload[0], payload[1], payload[2], payload[3])
    case WtDrainSession => kind == 0x78AE && payload == []
    case Unknown(k, data) =>
      kind == k && data == payload && kind !in {0, 0x2843, 0x78AE} && !(0x190B4D38 <= kind <= 0x190B4D44)
  }

  lemma OneReads(payload: seq<Byte>, n: nat)
    ensures ReadOne(payload) == Ok(n) <==> Starts(payload, [n], [])
  {
    hide ReadIntegers, Starts;
    StartsReads(payload, [n], []);
    if ReadIntegers(payload, 1).Ok? {
      var ns := ReadIntegers(payload, 1).value.0;
      assert ns == [ns[0]];
    }
  }

  lemma TwoRead(payload: seq<Byte>, id: StreamId, n: nat, rest: seq<Byte>)
    ensures Starts(payload, [id.Wire(), n], rest) <==>
            && ReadIntegers(payload, 2).Ok?
            && var (ns, r) := ReadIntegers(payload, 2).value;
               FromWire(ns[0]) == id && ns[1] == n && r == rest
  {
    hide ReadIntegers, Starts, FromWire;
    StartsReads(payload, [id.Wire(), n], rest);
    WireBack(id);
    if ReadIntegers(payload, 2).Ok? {
      var ns := ReadIntegers(payload, 2).value.0;
      assert ns == [ns[0], ns[1]];
    }
  }

  /** Integers may be read in two goes. */
  lemma {:induction false} ReadJoin(payload: seq<Byte>, m: nat, n: nat)
    ensures ReadIntegers(payload, m + n)
         == match ReadIntegers(payload, m)
            case Err(e) => Err(e)
            case Ok((ns, more)) =>
              match ReadIntegers(more, n)
              case Err(e) => Err(e)
              case Ok((ms, rest)) => Ok((ns + ms, rest))
    decreases m
  {
    hide Decoding;
    if m == 0 {
      if ReadIntegers(payload, n).Ok? {
        assert [] + ReadIntegers(payload, n).value.0 == ReadIntegers(payload, n).value.0;
      }
    } else if Decoding(payload).Ok? {
      var (value, k) := Decoding(payload).value;
      ReadJoin(payload[k..], m - 1, n);
      if ReadIntegers(payload[k..], m - 1).Ok? {
        var (ns, more) := ReadIntegers(payload[k..], m - 1).value;
        if ReadIntegers(more, n).Ok? {
          var ms := ReadIntegers(more, n).value.0;
          assert [value] + (ns + ms) == ([value] + ns) + ms;
        }
      }
    }
  }

  lemma ResetReads(payload: seq<Byte>, id: StreamId, code: nat, size: nat)
    ensures ReadReset(payload) == Ok(WtResetStream(id, code, size)) <==>
            code < 0x1_0000_0000 && Starts(payload, [id.Wire(), code, size], [])
  {
    hide ReadIntegers, Starts, FromWire;
    StartsReads(payload, [id.Wire(), code, size], []);
    ReadJoin(payload, 2, 1);
    WireBack(id);
    if ReadIntegers(payload, 2).Ok? {
      var (two, more) := ReadIntegers(payload, 2).value;
      if ReadIntegers(more, 1).Ok? {
        var one := ReadIntegers(more, 1).value.0;
        assert two + one == [two[0], two[1], one[0]];
      }
    }
  }

  lemma StopReads(payload: seq<Byte>, id: StreamId, code: nat)
    ensures ReadStop(payload) == Ok(WtStopSending(id, code)) <==>
            code < 0x1_0000_0000 && Starts(payload, [id.Wire(), code], [])
  {
    hide ReadIntegers, Starts, FromWire;
    TwoRead(payload, id, code, []);
  }

  lemma StreamReads(payload: seq<Byte>, fin: bool, id: StreamId, data: seq<Byte>)
    ensures ReadStream(payload, fin) == Ok(WtStream(id, data, fin)) <==> Starts(payload, [id.Wire()], data)
  {
    hide ReadIntegers, Starts, FromWire;
    StartsReads(payload, [id.Wire()], data);
    WireBack(id);
    if ReadIntegers(payload, 1).Ok? {
      var ns := ReadIntegers(payload, 1).value.0;
      assert ns == [ns[0]];
    }
  }

  lemma PairReads(payload: seq<Byte>, id: StreamId, n: nat)
    ensures ReadTwo(payload) == Ok((id, n)) <==> Starts(payload, [id.Wire(), n], [])
  {
    hide ReadIntegers, Starts, FromWire;
    TwoRead(payload, id, n, []);
  }

  lemma CloseReads(payload: seq<Byte>, c: Capsule)
    ensures ReadClose(payload) == Ok(c) <==> c.WtCloseSession? && Means(0x2843, payload, c)
  {
    hide IsUtf8, FromBytes;
    if |payload| >= 4 {
      WordIs(payload[..4]);
    }
  }

  /** A payload is read as the capsule that it means, and as none if it means none. */
  lemma ReadIsMeant(kind: nat, payload: seq<Byte>, c: Capsule)
    ensures ReadCapsule(kind, payload) == Ok(c) <==> Means(kind, payload, c)
  {
    hide ReadIntegers, Starts, FromWire, ReadReset, ReadStop, ReadStream, ReadOne, ReadTwo, ReadClose, IsUtf8, Word;
    match c {
      case WtResetStream(id, code, size) => ResetReads(payload, id, code, size);
      case WtStopSending(id, code) => StopReads(payload, id, code);
      case WtStream(id, data, fin) => StreamReads(payload, fin, id, data);
      case WtMaxData(maximum) => OneReads(payload, maximum);
      case WtMaxStreamData(id, maximum) => PairReads(payload, id, maximum);
      case WtMaxStreams(maximum, _) => OneReads(payload, maximum);
      case WtDataBlocked(maximum) => OneReads(payload, maximum);
      case WtStreamDataBlocked(id, maximum) => PairReads(payload, id, maximum);
      case WtStreamsBlocked(maximum, _) => OneReads(payload, maximum);
      case _ =>
    }
    CloseReads(payload, c);
    ShapeReads(payload);
  }

  /** What the readers for one kind of capsule return is of that kind. */
  lemma ShapeReads(payload: seq<Byte>)
    ensures ReadReset(payload).Ok? ==> ReadReset(payload).value.WtResetStream?
    ensures ReadStop(payload).Ok? ==> ReadStop(payload).value.WtStopSending?
    ensures ReadClose(payload).Ok? ==> ReadClose(payload).value.WtCloseSession?
    ensures forall fin :: ReadStream(payload, fin).Ok? ==>
              ReadStream(payload, fin).value.WtStream? && ReadStream(payload, fin).value.fin == fin
  {
    hide ReadIntegers, FromWire, IsUtf8, FromBytes;
  }

  // ---- What is no capsule ----

  /** The second integer is no application error code. */
  ghost predicate LargeCode(payload: seq<Byte>) {
    exists n, code: nat, rest :: code >= 0x1_0000_0000 && Starts(payload, [n, code], rest)
  }

  /** A violation that ends the session: an error code of more than 32 bits, or a close reason that is
      too long or no text. */
  ghost predicate Violates(kind: nat, payload: seq<Byte>) {
    || (kind in {0x190B4D39, 0x190B4D3A} && LargeCode(payload))
    || (kind == 0x2843 && |payload| >= 4 && (|payload| > 4 + 1024 || !IsUtf8(payload[4..])))
  }

  lemma ViolationIs(kind: nat, payload: seq<Byte>)
    ensures ReadCapsule(kind, payload) == Err(SessionViolation) <==> Violates(kind, payload)
  {
    hide Starts, FromWire, IsUtf8, FromBytes, ReadIntegers, ReadReset, ReadStop, ReadStream, ReadOne, ReadTwo, LargeCode;
    CodeViolation(payload);
    NoViolation(payload);
  }

  /** The integers in front of a payload that holds them. */
  lemma CodeViolation(payload: seq<Byte>)
    ensures ReadReset(payload) == Err(SessionViolation) <==> LargeCode(payload)
    ensures ReadStop(payload) == Err(SessionViolation) <==> LargeCode(payload)
  {
    hide Starts, FromWire, ReadIntegers;
    ShortIsTooShort(payload, 2);
    if ReadIntegers(payload, 2).Ok? {
      var (ns, rest) := ReadIntegers(payload, 2).value;
      assert ns == [ns[0], ns[1]];
      StartsReads(payload, [ns[0], ns[1]], rest);
      ShortIsTooShort(rest, 1);
    }
    forall n, code: nat, rest | Starts(payload, [n, code], rest)
      ensures ReadIntegers(payload, 2) == Ok(([n, code], rest))
    {
      StartsReads(payload, [n, code], rest);
    }
  }

  lemma NoViolation(payload: seq<Byte>)
    ensures ReadOne(payload) != Err(SessionViolation) && ReadTwo(payload) != Err(SessionViolation)
    ensures forall fin :: ReadStream(payload, fin) != Err(SessionViolation)
  {
    hide FromWire, ReadIntegers;
    ShortIsTooShort(payload, 1);
    ShortIsTooShort(payload, 2);
  }

  lemma {:induction false} ShortIsTooShort(payload: seq<Byte>, n: nat)
    ensures ReadIntegers(payload, n).Err? ==> ReadIntegers(payload, n).error == TooShort
    decreases n
  {
    hide Decoding;
    if n > 0 && Decoding(payload).Ok? {
      ShortIsTooShort(payload[Decoding(payload).value.1..], n - 1);
    }
  }

  // ---- Streams of octets ----

  /** The octets of a whole capsule: its type, the length of its payload, and the payload. */
  predicate IsWhole(octets: seq<Byte>, a: nat, b: nat, kind: nat)
  {
    a <= b <= |octets| && Number(octets[..a], kind) && Number(octets[a..b], |octets| - b)
  }

  /** What stands at the front of a stream of octets that holds a whole capsule is the capsule that its
      type and payload mean; if they mean none it ends the stream, as a violation or otherwise. */
  lemma NextIsMeant(octets: seq<Byte>, a: nat, b: nat, kind: nat, rest: seq<Byte>, c: Capsule)
    requires IsWhole(octets, a, b, kind)
    ensures var next := Next(octets + rest);
            && !next.Incomplete?
            && (next.Complete? ==> next.rest == rest)
            && (next == Complete(c, rest) <==> Means(kind, octets[b..], c))
            && (next == Broken(SessionViolation) <==> Violates(kind, octets[b..]))
  {
    hide Number, Means, Violates, ReadCapsule, Decoding;
    var data := octets + rest;
    assert data == octets[..a] + (octets[a..] + rest);
    NumberReads(octets[..a], octets[a..] + rest, kind);
    assert data[a..] == octets[a..b] + (octets[b..] + rest);
    NumberReads(octets[a..b], octets[b..] + rest, |octets| - b);
    assert data[b..|octets|] == octets[b..] && data[|octets|..] == rest;
    NextIs(data, kind, a, |octets| - b, b - a);
    ReadIsMeant(kind, octets[b..], c);
    ViolationIs(kind, octets[b..]);
  }

  /** Nothing is made of octets that hold no whole capsule yet. */
  lemma IncompleteIsShort(data: seq<Byte>, n: nat, a: nat, b: nat, kind: nat)
    requires Next(data).Incomplete? && n <= |data|
    ensures !IsWhole(data[..n], a, b, kind)
  {
    hide IsWhole, Next;
    assert data[..n] + data[n..] == data;
    if IsWhole(data[..n], a, b, kind) {
      NextIsMeant(data[..n], a, b, kind, data[n..], WtDrainSession);
      assert false;
    }
  }

  /** What is read off a stream of octets, or ends it, is a whole capsule in front of it. */
  lemma ReadIsWhole(data: seq<Byte>) returns (n: nat, a: nat, b: nat, kind: nat)
    requires !Next(data).Incomplete?
    ensures n <= |data| && IsWhole(data[..n], a, b, kind)
  {
    hide Number, Decoding, ReadCapsule;
    kind, a := Decoding(data).value.0, Decoding(data).value.1;
    var (length, k) := Decoding(data[a..]).value;
    b := a + k;
    n := b + length;
    var octets := data[..n];
    assert octets[..a] + data[a..] == data && octets[a..b] + data[b..] == data[a..];
    NumberReads(octets[..a], data[a..], kind);
    NumberReads(octets[a..b], data[b..], length);
  }

  /** What the encoder writes of a well-formed capsule is whole and means the capsule. */
  lemma WrittenIsMeant(c: Capsule)
    requires WellFormed(c)
    ensures var octets := CapsuleBytes(c);
            var a := |Encoding(KindOf(c))|;
            var b := a + |Encoding(|PayloadOf(c)|)|;
            IsWhole(octets, a, b, KindOf(c)) && Means(KindOf(c), octets[b..], c)
  {
    hide Number, Means, Encoding, ReadCapsule, PayloadOf, IsUtf8, AllEncodable;
    var payload := PayloadOf(c);
    var k, l := Encoding(KindOf(c)), Encoding(|payload|);
    var octets := CapsuleBytes(c);
    Parts(k, l, payload, []);
    assert octets + [] == octets;
    assert octets[..|k|] == k && octets[|k|..|k| + |l|] == l && octets[|k| + |l|..] == payload;
    ShortestIsWritten(KindOf(c), k);
    ShortestIsWritten(|payload|, l);
    PayloadRoundTrip(c);
    ReadIsMeant(KindOf(c), payload, c);
  }
}
