/** Capsules on the wire (section 3.2 of RFC 9297 and section 6 of draft-ietf-webtrans-http2-16). */
module CapsuleFormat {
  import opened Base
  import opened BigEndian
  import opened WtTypes
  import opened VarInt
  import opened Utf8

  const DATAGRAM := 0x00
  const PADDING := 0x190B4D38
  const WT_RESET_STREAM := 0x190B4D39
  const WT_STOP_SENDING := 0x190B4D3A
  const WT_STREAM_FIN := 0x190B4D3B
  const WT_STREAM := 0x190B4D3C
  const WT_MAX_DATA := 0x190B4D3D
  const WT_MAX_STREAM_DATA := 0x190B4D3E
  const WT_MAX_STREAMS_BIDI := 0x190B4D3F
  const WT_MAX_STREAMS_UNI := 0x190B4D40
  const WT_DATA_BLOCKED := 0x190B4D41
  const WT_STREAM_DATA_BLOCKED := 0x190B4D42
  const WT_STREAMS_BLOCKED_BIDI := 0x190B4D43
  const WT_STREAMS_BLOCKED_UNI := 0x190B4D44
  const WT_CLOSE_SESSION := 0x2843
  const WT_DRAIN_SESSION := 0x78AE

  /** A payload that ends too soon, one that does not fit its type, or a violation that ends
      the session. */
  datatype CapsuleError = TooShort | BadCapsule | SessionViolation

  function KindOf(c: Capsule): nat {
    match c
    case Datagram(_) => DATAGRAM
    case WtStream(_, _, fin) => if fin then WT_STREAM_FIN else WT_STREAM
    case WtResetStream(_, _, _) => WT_RESET_STREAM
    case WtStopSending(_, _) => WT_STOP_SENDING
    case WtMaxData(_) => WT_MAX_DATA
    case WtMaxStreamData(_, _) => WT_MAX_STREAM_DATA
    case WtMaxStreams(_, bidi) => if bidi then WT_MAX_STREAMS_BIDI else WT_MAX_STREAMS_UNI
    case WtDataBlocked(_) => WT_DATA_BLOCKED
    case WtStreamDataBlocked(_, _) => WT_STREAM_DATA_BLOCKED
    case WtStreamsBlocked(_, bidi) => if bidi then WT_STREAMS_BLOCKED_BIDI else WT_STREAMS_BLOCKED_UNI
    case WtCloseSession(_, _) => WT_CLOSE_SESSION
    case WtDrainSession => WT_DRAIN_SESSION
    case Padding(_) => PADDING
    case Unknown(kind, _) => kind
  }

  /** The integers a payload starts with. */
  function Integers(c: Capsule): seq<nat> {
    match c
    case WtStream(id, _, _) => [id.Wire()]
    case WtResetStream(id, code, size) => [id.Wire(), code, size]
    case WtStopSending(id, code) => [id.Wire(), code]
    case WtMaxData(maximum) => [maximum]
    case WtMaxStreamData(id, maximum) => [id.Wire(), maximum]
    case WtMaxStreams(maximum, _) => [maximum]
    case WtDataBlocked(maximum) => [maximum]
    case WtStreamDataBlocked(id, maximum) => [id.Wire(), maximum]
    case WtStreamsBlocked(maximum, _) => [maximum]
    case _ => []
  }

  /** The octets that follow them. */
  function Octets(c: Capsule): seq<Byte> {
    match c
    case Datagram(data) => data
    case WtStream(_, data, _) => data
    case WtCloseSession(code, reason) => ToBytes(code, 4) + reason
    case Padding(length) => seq(length, _ => 0 as Byte)
    case Unknown(_, data) => data
    case _ => []
  }

  predicate AllEncodable(ns: seq<nat>) {
    forall i :: 0 <= i < |ns| ==> ns[i] <= MAX_VALUE
  }

  function EncodeIntegers(ns: seq<nat>): seq<Byte>
    requires AllEncodable(ns)
  {
    if ns == [] then [] else Encoding(ns[0]) + EncodeIntegers(ns[1..])
  }

  function PayloadOf(c: Capsule): seq<Byte>
    requires AllEncodable(Integers(c))
  {
    EncodeIntegers(Integers(c)) + Octets(c)
  }

  predicate Known(kind: nat) {
    kind == DATAGRAM || PADDING <= kind <= WT_STREAMS_BLOCKED_UNI || kind == WT_CLOSE_SESSION || kind == WT_DRAIN_SESSION
  }

  /** A capsule that reads back as itself: its numbers fit, error codes are 32-bit, a close
      reason is a short text, and an unknown type really is unknown. */
  predicate WellFormed(c: Capsule) {
    && AllEncodable(Integers(c))
    && |PayloadOf(c)| <= MAX_VALUE
    && match c
       case WtResetStream(_, code, _) => code <= MAX_APPLICATION_ERROR_CODE
       case WtStopSending(_, code) => code <= MAX_APPLICATION_ERROR_CODE
       case WtCloseSession(code, reason) => code < TWO_32 && |reason| <= MAX_CLOSE_REASON_LEN && IsUtf8(reason)
       case Unknown(kind, _) => kind <= MAX_VALUE && !Known(kind)
       case _ => true
  }

  /** A capsule on the wire. */
  function CapsuleBytes(c: Capsule): seq<Byte>
    requires WellFormed(c)
  {
    Encoding(KindOf(c)) + Encoding(|PayloadOf(c)|) + PayloadOf(c)
  }

  // ---- Reading a payload ----

  /** The first n integers of a payload and what follows them. */
  function ReadIntegers(payload: seq<Byte>, n: nat): (r: Result<(seq<nat>, seq<Byte>), CapsuleError>)
    ensures r.Ok? ==> |r.value.0| == n
  {
    if n == 0 then Ok(([], payload))
    else
      match Decoding(payload)
      case Err(_) => Err(TooShort)
      case Ok((value, used)) =>
        match ReadIntegers(payload[used..], n - 1)
        case Err(e) => Err(e)
        case Ok((more, rest)) => Ok(([value] + more, rest))
  }

  /** One integer and nothing else. */
  function ReadOne(payload: seq<Byte>): Result<nat, CapsuleError> {
    match ReadIntegers(payload, 1)
    case Err(e) => Err(e)
    case Ok((ns, rest)) => if rest != [] then Err(BadCapsule) else Ok(ns[0])
  }

  /** A stream and one integer, and nothing else. */
  function ReadTwo(payload: seq<Byte>): Result<(StreamId, nat), CapsuleError> {
    match ReadIntegers(payload, 2)
    case Err(e) => Err(e)
    case Ok((ns, rest)) => if rest != [] then Err(BadCapsule) else Ok((FromWire(ns[0]), ns[1]))
  }

  function ReadReset(payload: seq<Byte>): Result<Capsule, CapsuleError> {
    match ReadIntegers(payload, 2)
    case Err(e) => Err(e)
    case Ok((two, more)) =>
      if two[1] > MAX_APPLICATION_ERROR_CODE then Err(SessionViolation)
      else
        match ReadIntegers(more, 1)
        case Err(e) => Err(e)
        case Ok((one, rest)) =>
          if rest != [] then Err(BadCapsule) else Ok(WtResetStream(FromWire(two[0]), two[1], one[0]))
  }

  function ReadStop(payload: seq<Byte>): Result<Capsule, CapsuleError> {
    match ReadIntegers(payload, 2)
    case Err(e) => Err(e)
    case Ok((ns, rest)) =>
      if ns[1] > MAX_APPLICATION_ERROR_CODE then Err(SessionViolation)
      else if rest != [] then Err(BadCapsule)
      else Ok(WtStopSending(FromWire(ns[0]), ns[1]))
  }

  function ReadStream(payload: seq<Byte>, fin: bool): Result<Capsule, CapsuleError> {
    match ReadIntegers(payload, 1)
    case Err(e) => Err(e)
    case Ok((ns, rest)) => Ok(WtStream(FromWire(ns[0]), rest, fin))
  }

  function ReadClose(payload: seq<Byte>): Result<Capsule, CapsuleError> {
    if |payload| < 4 then Err(BadCapsule)
    else if |payload| - 4 > MAX_CLOSE_REASON_LEN then Err(SessionViolation)
    else if !IsUtf8(payload[4..]) then Err(SessionViolation)
    else Ok(WtCloseSession(FromBytes(payload[..4]), payload[4..]))
  }

  function ReadCapsule(kind: nat, payload: seq<Byte>): Result<Capsule, CapsuleError> {
    if kind == DATAGRAM then Ok(Datagram(payload))
    else if kind == PADDING then Ok(Padding(|payload|))
    else if kind == WT_RESET_STREAM then ReadReset(payload)
    else if kind == WT_STOP_SENDING then ReadStop(payload)
    else if kind == WT_STREAM || kind == WT_STREAM_FIN then ReadStream(payload, kind == WT_STREAM_FIN)
    else if kind == WT_MAX_DATA then
      (match ReadOne(payload) case Err(e) => Err(e) case Ok(n) => Ok(WtMaxData(n)))
    else if kind == WT_MAX_STREAM_DATA then
      (match ReadTwo(payload) case Err(e) => Err(e) case Ok((id, n)) => Ok(WtMaxStreamData(id, n)))
    else if kind == WT_MAX_STREAMS_BIDI || kind == WT_MAX_STREAMS_UNI then
      (match ReadOne(payload) case Err(e) => Err(e) case Ok(n) => Ok(WtMaxStreams(n, kind == WT_MAX_STREAMS_BIDI)))
    else if kind == WT_DATA_BLOCKED then
      (match ReadOne(payload) case Err(e) => Err(e) case Ok(n) => Ok(WtDataBlocked(n)))
    else if kind == WT_STREAM_DATA_BLOCKED then
      (match ReadTwo(payload) case Err(e) => Err(e) case Ok((id, n)) => Ok(WtStreamDataBlocked(id, n)))
    else if kind == WT_STREAMS_BLOCKED_BIDI || kind == WT_STREAMS_BLOCKED_UNI then
      (match ReadOne(payload) case Err(e) => Err(e) case Ok(n) => Ok(WtStreamsBlocked(n, kind == WT_STREAMS_BLOCKED_BIDI)))
    else if kind == WT_CLOSE_SESSION then ReadClose(payload)
    else if kind == WT_DRAIN_SESSION then if payload != [] then Err(BadCapsule) else Ok(WtDrainSession)
    else Ok(Unknown(kind, payload))
  }

  // ---- Round trip ----

  lemma {:induction false} IntegersRoundTrip(ns: seq<nat>, rest: seq<Byte>)
    requires AllEncodable(ns)
    ensures ReadIntegers(EncodeIntegers(ns) + rest, |ns|) == Ok((ns, rest))
    decreases |ns|
  {
    hide Encoding, Decoding;
    if ns == [] {
      assert [] + rest == rest;
    } else {
      var head, tail := Encoding(ns[0]), EncodeIntegers(ns[1..]);
      assert head + tail + rest == head + (tail + rest);
      RoundTrip(ns[0], tail + rest);
      assert (head + (tail + rest))[|head|..] == tail + rest;
      IntegersRoundTrip(ns[1..], rest);
      assert [ns[0]] + ns[1..] == ns;
    }
  }

  lemma WireBack(id: StreamId)
    ensures FromWire(id.Wire()) == id
  {
    WireIsInjective(FromWire(id.Wire()), id);
  }

  /** Three integers may be read two first and one then. */
  lemma ThreeIntegers(a: nat, b: nat, c: nat)
    requires a <= MAX_VALUE && b <= MAX_VALUE && c <= MAX_VALUE
    ensures var payload := EncodeIntegers([a, b, c]);
            exists more :: ReadIntegers(payload, 2) == Ok(([a, b], more)) && ReadIntegers(more, 1) == Ok(([c], []))
  {
    hide Encoding, Decoding;
    var more := EncodeIntegers([c]);
    assert [a, b, c][1..] == [b, c] && [b, c][1..] == [c] && [a, b][1..] == [b] && [b][1..] == [];
    assert Encoding(a) + (Encoding(b) + more) == EncodeIntegers([a, b, c]);
    assert EncodeIntegers([a, b]) + more == EncodeIntegers([a, b, c]) by {
      assert EncodeIntegers([b]) == Encoding(b);
      assert Encoding(a) + Encoding(b) + more == Encoding(a) + (Encoding(b) + more);
    }
    IntegersRoundTrip([a, b], more);
    IntegersRoundTrip([c], []);
    assert more + [] == more;
    assert ReadIntegers(EncodeIntegers([a, b, c]), 2) == Ok(([a, b], more)) && ReadIntegers(more, 1) == Ok(([c], []));
  }

  /** The payload of a well-formed capsule reads back as the capsule. */
  lemma PayloadRoundTrip(c: Capsule)
    requires WellFormed(c)
    ensures ReadCapsule(KindOf(c), PayloadOf(c)) == Ok(c)
  {
    hide EncodeIntegers, ReadIntegers, IsUtf8, ToBytes, FromBytes, FromWire;
    IntegersRoundTrip(Integers(c), Octets(c));
    match c {
      case WtStream(id, _, _) => WireBack(id);
      case WtResetStream(id, code, size) => ResetRoundTrip(id, code, size);
      case WtStopSending(id, _) => WireBack(id);
      case WtMaxStreamData(id, _) => WireBack(id);
      case WtStreamDataBlocked(id, _) => WireBack(id);
      case WtCloseSession(code, reason) => CloseRoundTrip(code, reason);
      case Padding(length) => NoIntegers(Octets(c));
      case Datagram(data) => NoIntegers(data);
      case Unknown(_, data) => NoIntegers(data);
      case WtDrainSession => NoIntegers([]);
      case _ =>
    }
  }

  lemma NoIntegers(rest: seq<Byte>)
    ensures EncodeIntegers([]) + rest == rest
  {
  }

  lemma ResetRoundTrip(id: StreamId, code: nat, size: nat)
    requires WellFormed(WtResetStream(id, code, size))
    ensures ReadReset(PayloadOf(WtResetStream(id, code, size))) == Ok(WtResetStream(id, code, size))
  {
    hide EncodeIntegers, ReadIntegers, FromWire;
    WireBack(id);
    assert Integers(WtResetStream(id, code, size))[0] == id.Wire() && Integers(WtResetStream(id, code, size))[2] == size;
    ThreeIntegers(id.Wire(), code, size);
    assert EncodeIntegers([id.Wire(), code, size]) + [] == EncodeIntegers([id.Wire(), code, size]);
  }

  lemma CloseRoundTrip(code: nat, reason: seq<Byte>)
    requires WellFormed(WtCloseSession(code, reason))
    ensures ReadClose(PayloadOf(WtCloseSession(code, reason))) == Ok(WtCloseSession(code, reason))
  {
    hide IsUtf8, ToBytes, FromBytes;
    var payload := ToBytes(code, 4) + reason;
    NoIntegers(payload);
    Bounds();
    FromToBytes(code, 4);
    assert payload[..4] == ToBytes(code, 4) && payload[4..] == reason;
  }
}
