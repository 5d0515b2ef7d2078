/** The capsule encoder and the streaming capsule decoder. */
module CapsuleCodec {
  import opened Base
  import opened WtTypes
  import opened WtHistory
  import opened WtInvariant
  import opened VarInt
  import opened Utf8
  import opened CapsuleFormat
  import WtAccounting
  import S = WtSession
  import opened Streaming

  const DEFAULT_MAX_BUFFER_SIZE := 16777216

  /** What stands at the front of the bytes received: a type, a length and as much payload. A
      payload that cannot be read stays where it is and ends the stream. */
  function Next(bytes: seq<Byte>): Front<Capsule, CapsuleError> {
    match Decoding(bytes)
    case Err(_) => Front.Incomplete
    case Ok((kind, a)) =>
      match Decoding(bytes[a..])
      case Err(_) => Front.Incomplete
      case Ok((length, b)) =>
        if |bytes| < a + b + length then Front.Incomplete
        else
          match ReadCapsule(kind, bytes[a + b..a + b + length])
          case Err(e) => Broken(e)
          case Ok(c) => Complete(c, bytes[a + b + length..])
  }

  function CapsuleReader(): Reader<Capsule, CapsuleError> {
    bytes => Next(bytes)
  }

  /** The front of a stream that holds a whole capsule. */
  lemma NextIs(bytes: seq<Byte>, kind: nat, a: nat, length: nat, b: nat)
    requires Decoding(bytes) == Ok((kind, a)) && Decoding(bytes[a..]) == Ok((length, b))
    requires a + b + length <= |bytes|
    ensures Next(bytes) == match ReadCapsule(kind, bytes[a + b..a + b + length])
                           case Err(e) => Broken(e)
                           case Ok(c) => Complete(c, bytes[a + b + length..])
  {
    hide Decoding, ReadCapsule;
  }

  lemma NextAppend(bytes: seq<Byte>, more: seq<Byte>)
    ensures SteadyOn(CapsuleReader(), bytes, more)
  {
    hide Decoding, ReadCapsule;
    if Decoding(bytes).Ok? {
      var (kind, a) := Decoding(bytes).value;
      DecodingIsLocal(bytes, more);
      assert (bytes + more)[a..] == bytes[a..] + more;
      if Decoding(bytes[a..]).Ok? {
        var (length, b) := Decoding(bytes[a..]).value;
        DecodingIsLocal(bytes[a..], more);
        var end := a + b + length;
        if end <= |bytes| {
          assert (bytes + more)[a + b..end] == bytes[a + b..end];
          assert (bytes + more)[end..] == bytes[end..] + more;
          NextIs(bytes, kind, a, length, b);
          NextIs(bytes + more, kind, a, length, b);
        }
      }
    }
  }

  lemma CapsulesAreSteady()
    ensures Steady(CapsuleReader())
  {
    forall bytes: seq<Byte>, more: seq<Byte> ensures SteadyOn(CapsuleReader(), bytes, more) {
      NextAppend(bytes, more);
    }
  }

  /** Feeding the decoder in any chunks yields the same capsules, and the same error if any. */
  lemma ChunkingIsInvisible(chunks: seq<seq<Byte>>)
    ensures Steady(CapsuleReader())
    ensures ReadChunks(CapsuleReader(), Reading([], More([])), chunks) == ReadAll(CapsuleReader(), Concat(chunks))
  {
    hide ReadAll, ReadChunks, Steady;
    CapsulesAreSteady();
    ChunksDoNotMatter(CapsuleReader(), [], chunks);
    NothingRead();
    assert [] + Concat(chunks) == Concat(chunks);
  }

  /** However feeding and reading are interleaved, and whatever chunks the buffer limit refuses:
      the capsules taken, and what can still be read off the bytes pending, are what all the
      bytes accepted, read at once, amount to. */
  lemma InterleavingIsInvisible(maxBufferSize: nat, calls: seq<Call>)
    ensures Steady(CapsuleReader())
    ensures var p := PerformAll(CapsuleReader(), Some(maxBufferSize), Progress([], [], []), calls);
            ReadAll(CapsuleReader(), p.fed) == ReadAll(CapsuleReader(), p.pending).After(p.items)
  {
    hide ReadAll, PerformAll, Steady;
    CapsulesAreSteady();
    TracksStart(CapsuleReader());
    CallsDoNotMatter(CapsuleReader(), Some(maxBufferSize), Progress([], [], []), calls);
  }

  lemma NothingRead()
    requires Steady(CapsuleReader())
    ensures ReadAll(CapsuleReader(), []) == Reading([], More([]))
  {
  }

  /** A well-formed capsule is read back, whatever follows it. */
  lemma CapsuleRoundTrip(c: Capsule, rest: seq<Byte>)
    requires WellFormed(c)
    ensures Next(CapsuleBytes(c) + rest) == Complete(c, rest)
  {
    hide Encoding, Decoding, ReadCapsule, PayloadOf;
    var payload := PayloadOf(c);
    var a, b := Encoding(KindOf(c)), Encoding(|payload|);
    PayloadRoundTrip(c);
    RoundTrip(KindOf(c), b + payload + rest);
    RoundTrip(|payload|, payload + rest);
    Parts(a, b, payload, rest);
    NextIs(CapsuleBytes(c) + rest, KindOf(c), |a|, |payload|, |b|);
  }

  lemma Parts(a: seq<Byte>, b: seq<Byte>, c: seq<Byte>, d: seq<Byte>)
    ensures var all := a + b + c + d;
            && all == a + (b + c + d) && all[|a|..] == b + (c + d)
            && all[|a| + |b|..|a| + |b| + |c|] == c && all[|a| + |b| + |c|..] == d
  {
  }

  function EncodeAll(cs: seq<Capsule>): seq<Byte>
    requires forall i :: 0 <= i < |cs| ==> WellFormed(cs[i])
  {
    if cs == [] then [] else CapsuleBytes(cs[0]) + EncodeAll(cs[1..])
  }

  /** A stream of well-formed capsules is read back whole, and nothing is left over. */
  lemma {:induction false} StreamRoundTrip(cs: seq<Capsule>)
    requires forall i :: 0 <= i < |cs| ==> WellFormed(cs[i])
    ensures Steady(CapsuleReader())
    ensures ReadAll(CapsuleReader(), EncodeAll(cs)) == Reading(cs, More([]))
    decreases |cs|
  {
    hide Next, CapsuleBytes, WellFormed, Steady;
    CapsulesAreSteady();
    if cs == [] {
      NothingRead();
    } else {
      CapsuleRoundTrip(cs[0], EncodeAll(cs[1..]));
      StreamRoundTrip(cs[1..]);
      assert [cs[0]] + cs[1..] == cs;
    }
  }

  // ---- What sessions emit ----

  /** The text a session is closed with is a text, and no payload is longer than memory is. */
  predicate Physical(c: Capsule) {
    && (c.WtCloseSession? ==> c.closeCode < TWO_32 && |c.reason| <= MAX_CLOSE_REASON_LEN && IsUtf8(c.reason))
    && |Octets(c)| < MEMORY_LIMIT
  }

  const MEMORY_LIMIT := 0x2000_0000_0000_0000

  /** Whatever a session emits can be put on the wire and is read back as it was. */
  lemma EmittedIsWellFormed(s: S.Session, k: nat)
    requires Inv(s) && k < |s.emitted| && Physical(s.emitted[k])
    ensures WellFormed(s.emitted[k])
  {
    hide Sent, Ended, Stopped, Granted, Opened, Total, DataGranted, StreamsGranted, LegalScript, Named, StreamOk, IsUtf8;
    var c := s.emitted[k];
    LegalAt(s.client, s.config, s.emitted, k);
    EmittedIntegersFit(s, k);
    ShortIntegers(Integers(c));
  }

  /** Few integers take few octets. */
  lemma {:induction false} ShortIntegers(ns: seq<nat>)
    requires AllEncodable(ns)
    ensures |EncodeIntegers(ns)| <= 8 * |ns|
    decreases |ns|
  {
    hide Encoding;
    if ns != [] {
      ShortIntegers(ns[1..]);
    }
  }

  lemma EmittedIntegersFit(s: S.Session, k: nat)
    requires Inv(s) && k < |s.emitted| && LegalNext(s.client, s.config, s.emitted[..k], s.emitted[k])
    ensures AllEncodable(Integers(s.emitted[k]))
  {
    hide Sent, Ended, Stopped, Granted, Opened, Total, DataGranted, StreamsGranted, LegalScript, Named, StreamOk;
    var c := s.emitted[k];
    match c {
      case WtStream(id, _, _) => EmittedIdFits(s, k, id);
      case WtResetStream(id, _, size) =>
        EmittedIdFits(s, k, id);
        SentIsBounded(s, k, id);
      case WtStopSending(id, _) => EmittedIdFits(s, k, id);
      case WtMaxStreamData(id, _) => EmittedIdFits(s, k, id);
      case _ =>
    }
  }

  lemma EmittedIdFits(s: S.Session, k: nat, id: StreamId)
    requires Inv(s) && k < |s.emitted| && Names(s.emitted[k], id)
    ensures id.Wire() <= MAX_VALUE
  {
    hide Inv;
    NamedIn(s.emitted, k, id);
    WtAccounting.IdentifiersFit(s, id);
  }

  lemma {:induction false} SentWithinTotal(h: seq<Capsule>, id: StreamId)
    ensures Sent(h, id) <= Total(h)
  {
    if h != [] {
      SentWithinTotal(h[..|h| - 1], id);
    }
  }

  lemma SentIsBounded(s: S.Session, k: nat, id: StreamId)
    requires Inv(s) && k < |s.emitted|
    ensures Sent(s.emitted[..k], id) <= MAX_VALUE
  {
    hide Sent, Ended, Stopped, Granted, Opened, Total, DataGranted, StreamsGranted, LegalScript, Named, StreamOk;
    StreamMonotone(s.emitted[..k], s.emitted, id);
    SentWithinTotal(s.emitted, id);
  }

  // ---- The objects ----

  class CapsuleDecoder {
    const maxBufferSize: nat
    var buffer: seq<Byte>
    ghost var fed: seq<Byte>
    ghost var taken: seq<Capsule>

    /** After any calls, the capsules taken and those still pending are what all that was
        accepted, read at once, amounts to. */
    ghost predicate Valid()
      reads this
    {
      Steady(CapsuleReader()) && Tracks(CapsuleReader(), fed, taken, buffer)
    }

    constructor (maxBufferSize: nat)
      ensures Valid() && buffer == [] && this.maxBufferSize == maxBufferSize && fed == [] && taken == []
    {
      this.maxBufferSize := maxBufferSize;
      buffer, fed, taken := [], [], [];
      new;
      CapsulesAreSteady();
      TracksStart(CapsuleReader());
    }

    constructor Default()
      ensures Valid() && buffer == [] && maxBufferSize == DEFAULT_MAX_BUFFER_SIZE && fed == [] && taken == []
    {
      maxBufferSize := DEFAULT_MAX_BUFFER_SIZE;
      buffer, fed, taken := [], [], [];
      new;
      CapsulesAreSteady();
      TracksStart(CapsuleReader());
    }

    /** Takes all of the data or, when the buffer would overflow, none. */
    method Feed(data: seq<Byte>) returns (ok: bool)
      requires Valid()
      modifies this
      ensures Valid() && taken == old(taken) && fed == if ok then old(fed) + data else old(fed)
      ensures ok <==> |data| <= (if |old(buffer)| <= maxBufferSize then maxBufferSize - |old(buffer)| else 0)
      ensures buffer == if ok then old(buffer) + data else old(buffer)
    {
      hide Tracks, Steady;
      var room := if |buffer| <= maxBufferSize then maxBufferSize - |buffer| else 0;
      ok := |data| <= room;
      if ok {
        FeedTracks(CapsuleReader(), fed, taken, buffer, data);
        buffer := buffer + data;
        fed := fed + data;
      }
    }

    /** The next capsule, nothing when bytes are missing, or an error. */
    method Decode() returns (r: Result<Option<Capsule>, CapsuleError>)
      requires Valid()
      modifies this
      ensures Valid() && fed == old(fed)
      ensures match old(Next(buffer))
              case Incomplete =>
                && r == Ok(None) && buffer == old(buffer) && taken == old(taken)
                && ReadAll(CapsuleReader(), fed) == Reading(taken, More(buffer))
              case Broken(e) =>
                && r == Err(e) && buffer == old(buffer) && taken == old(taken)
                && ReadAll(CapsuleReader(), fed) == Reading(taken, Failed(e))
              case Complete(c, rest) => r == Ok(Some(c)) && buffer == rest && taken == old(taken) + [c]
    {
      hide Decoding, ReadCapsule, Tracks, Steady, ReadAll;
      NothingMissed(CapsuleReader(), fed, taken, buffer);
      if buffer == [] {
        EmptyIsIncomplete();
        return Ok(None);
      }
      var kind := Decoding(buffer);
      if kind.Err? {
        return Ok(None);
      }
      var offset := kind.value.1;
      var length := Decoding(buffer[offset..]);
      if length.Err? {
        return Ok(None);
      }
      offset := offset + length.value.1;
      var end := offset + length.value.0;
      if |buffer| < end {
        return Ok(None);
      }
      var c := ReadCapsule(kind.value.0, buffer[offset..end]);
      if c.Err? {
        return Err(c.error);
      }
      TakeTracks(CapsuleReader(), fed, taken, buffer);
      buffer := buffer[end..];
      taken := taken + [c.value];
      return Ok(Some(c.value));
    }
  }

  lemma EmptyIsIncomplete()
    ensures Decoding([]).Err?
  {
  }

  class CapsuleEncoder {
    var buffer: seq<Byte>

    constructor ()
      ensures buffer == []
    {
      buffer := [];
    }

    method Take() returns (r: seq<Byte>)
      modifies this
      ensures r == old(buffer) && buffer == []
    {
      r := buffer;
      buffer := [];
    }

    method EncodeVarInt(value: nat)
      requires value <= MAX_VALUE
      modifies this
      ensures buffer == old(buffer) + Encoding(value)
    {
      var temp := new Byte[EncodedLen(value)];
      var r := VarInt.Encode(value, temp);
      buffer := buffer + temp[..];
      assert temp[..] == temp[..r.value];
    }

    method EncodeIntegers(ns: seq<nat>)
      requires AllEncodable(ns)
      modifies this
      ensures buffer == old(buffer) + CapsuleFormat.EncodeIntegers(ns)
    {
      hide Encoding;
      ghost var whole := buffer + CapsuleFormat.EncodeIntegers(ns);
      assert ns[0..] == ns;
      for i := 0 to |ns|
        invariant buffer + CapsuleFormat.EncodeIntegers(ns[i..]) == whole
      {
        assert ns[i..][0] == ns[i] && ns[i..][1..] == ns[i + 1..];
        Join(buffer, Encoding(ns[i]), CapsuleFormat.EncodeIntegers(ns[i + 1..]));
        EncodeVarInt(ns[i]);
      }
      assert buffer + [] == buffer;
    }

    method Encode(c: Capsule)
      requires WellFormed(c)
      modifies this
      ensures buffer == old(buffer) + CapsuleBytes(c)
    {
      hide Encoding, CapsuleFormat.EncodeIntegers, Octets, Integers;
      ghost var start := buffer;
      EncodeVarInt(KindOf(c));
      EncodeVarInt(|PayloadOf(c)|);
      EncodeIntegers(Integers(c));
      buffer := buffer + Octets(c);
      Join4(start, Encoding(KindOf(c)), Encoding(|PayloadOf(c)|), CapsuleFormat.EncodeIntegers(Integers(c)), Octets(c));
    }
  }

  lemma Join(a: seq<Byte>, b: seq<Byte>, c: seq<Byte>)
    ensures a + (b + c) == a + b + c
  {
  }

  lemma Join4(a: seq<Byte>, b: seq<Byte>, c: seq<Byte>, d: seq<Byte>, e: seq<Byte>)
    ensures a + b + c + d + e == a + (b + c + (d + e))
  {
  }
}
