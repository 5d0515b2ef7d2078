/** The streaming frame decoder and the frame encoder. */
module FrameCodec {
  import opened Base
  import opened BigEndian
  import opened FrameFormat
  import opened Streaming

  // ---- A stream of bytes as frames ----

  /** A frame as it was received: its header, and the frame or what was wrong with it. */
  datatype Item = Item(header: Header, frame: Result<Frame, FrameError>)

  /** What stands at the front of the bytes received. A frame longer than is accepted ends the
      stream even before its payload is there. */
  function Next(maxFrame: nat, bytes: seq<Byte>): Front<Item, FrameError> {
    if |bytes| < FRAME_HEADER_SIZE then Incomplete
    else
      var h := ReadHeader(bytes);
      if h.length > maxFrame then Broken(OfConnection(FrameSizeError))
      else if |bytes| < FRAME_HEADER_SIZE + h.length then Incomplete
      else
        var end := FRAME_HEADER_SIZE + h.length;
        Complete(Item(h, ReadFrame(h, bytes[FRAME_HEADER_SIZE..end])), bytes[end..])
  }

  function FrameReader(maxFrame: nat): Reader<Item, FrameError> {
    bytes => Next(maxFrame, bytes)
  }

  lemma HeaderAppend(bytes: seq<Byte>, more: seq<Byte>)
    requires |bytes| >= FRAME_HEADER_SIZE
    ensures ReadHeader(bytes + more) == ReadHeader(bytes)
  {
    assert (bytes + more)[..3] == bytes[..3] && (bytes + more)[5..9] == bytes[5..9];
  }

  lemma NextAppend(maxFrame: nat, bytes: seq<Byte>, more: seq<Byte>)
    ensures SteadyOn(FrameReader(maxFrame), bytes, more)
  {
    hide ReadFrame, FromBytes, ReadId;
    if |bytes| >= FRAME_HEADER_SIZE {
      HeaderAppend(bytes, more);
      var end := FRAME_HEADER_SIZE + ReadHeader(bytes).length;
      if end <= |bytes| {
        assert (bytes + more)[FRAME_HEADER_SIZE..end] == bytes[FRAME_HEADER_SIZE..end];
        assert (bytes + more)[end..] == bytes[end..] + more;
      }
    }
  }

  /** Frames are read off a stream in a way that does not depend on how it was cut up. */
  lemma FramesAreSteady(maxFrame: nat)
    ensures Steady(FrameReader(maxFrame))
  {
    forall bytes: seq<Byte>, more: seq<Byte> ensures SteadyOn(FrameReader(maxFrame), bytes, more) {
      NextAppend(maxFrame, bytes, more);
    }
  }

  /** Feeding the decoder in any chunks, reading all it can after each, yields the same frames
      and errors and leaves the same as reading everything at once. */
  lemma ChunkingIsInvisible(maxFrame: nat, chunks: seq<seq<Byte>>)
    ensures Steady(FrameReader(maxFrame))
    ensures ReadChunks(FrameReader(maxFrame), Reading([], More([])), chunks)
         == ReadAll(FrameReader(maxFrame), Concat(chunks))
  {
    hide ReadAll, ReadChunks, Steady;
    FramesAreSteady(maxFrame);
    ChunksDoNotMatter(FrameReader(maxFrame), [], chunks);
    NothingRead(maxFrame);
    assert [] + Concat(chunks) == Concat(chunks);
  }

  /** However feeding and reading are interleaved: the frames taken, and what can still be read
      off the bytes pending, are what all the bytes fed, read at once, amount to. */
  lemma InterleavingIsInvisible(maxFrame: nat, calls: seq<Call>)
    ensures Steady(FrameReader(maxFrame))
    ensures var p := PerformAll(FrameReader(maxFrame), None, Progress([], [], []), calls);
            ReadAll(FrameReader(maxFrame), p.fed) == ReadAll(FrameReader(maxFrame), p.pending).After(p.items)
  {
    hide ReadAll, PerformAll, Steady;
    FramesAreSteady(maxFrame);
    TracksStart(FrameReader(maxFrame));
    CallsDoNotMatter(FrameReader(maxFrame), None, Progress([], [], []), calls);
  }

  lemma NothingRead(maxFrame: nat)
    requires Steady(FrameReader(maxFrame))
    ensures ReadAll(FrameReader(maxFrame), []) == Reading([], More([]))
  {
  }

  // ---- Round trip ----

  function EncodeAll(frames: seq<Frame>): seq<Byte> {
    if frames == [] then [] else Encoding(frames[0]) + EncodeAll(frames[1..])
  }

  predicate Fits(maxFrame: nat, f: Frame) {
    Sendable(f) && |PayloadOf(f)| <= maxFrame
  }

  /** A frame is read back, whatever follows it. */
  lemma FrameRoundTrip(maxFrame: nat, f: Frame, rest: seq<Byte>)
    requires Fits(maxFrame, f) && maxFrame < 0x100_0000
    ensures Next(maxFrame, Encoding(f) + rest) == Complete(Item(HeaderOf(f), Ok(f)), rest)
  {
    hide PayloadOf, ReadFrame, Sendable, HeaderBytes, ReadHeader;
    var head, payload := HeaderBytes(HeaderOf(f)), PayloadOf(f);
    IdFits(f);
    PayloadRoundTrip(f);
    HeaderRoundTrip(HeaderOf(f), payload + rest);
    assert Encoding(f) + rest == head + (payload + rest);
    assert (Encoding(f) + rest)[FRAME_HEADER_SIZE..FRAME_HEADER_SIZE + |payload|] == payload;
    assert (Encoding(f) + rest)[FRAME_HEADER_SIZE + |payload|..] == rest;
  }

  lemma IdFits(f: Frame)
    requires Sendable(f)
    ensures IdOf(f) < TWO_31
  {
  }

  /** A stream of frames is read back whole, and nothing is left over. */
  lemma {:induction false} StreamRoundTrip(maxFrame: nat, frames: seq<Frame>)
    requires maxFrame < 0x100_0000 && forall i :: 0 <= i < |frames| ==> Fits(maxFrame, frames[i])
    ensures Steady(FrameReader(maxFrame))
    ensures ReadAll(FrameReader(maxFrame), EncodeAll(frames)) == Reading(Received(frames), More([]))
    decreases |frames|
  {
    hide Next, Encoding, Fits, Steady;
    FramesAreSteady(maxFrame);
    if frames == [] {
      NothingRead(maxFrame);
    } else {
      FrameRoundTrip(maxFrame, frames[0], EncodeAll(frames[1..]));
      StreamRoundTrip(maxFrame, frames[1..]);
    }
  }

  function Received(frames: seq<Frame>): seq<Item> {
    if frames == [] then [] else [Item(HeaderOf(frames[0]), Ok(frames[0]))] + Received(frames[1..])
  }

  // ---- The objects ----

  class FrameDecoder {
    const maxFrame: nat
    var buf: seq<Byte>
    var currentHeader: Option<Header>
    var lastDecodedStreamId: Option<nat>
    ghost var raw: seq<Byte>
    ghost var fed: seq<Byte>
    ghost var taken: seq<Item>

    /** The bytes received and not yet made into a frame. */
    ghost function Pending(): seq<Byte>
      reads this
    {
      raw + buf
    }

    /** A header that has been taken off the buffer is the one those bytes spell. */
    ghost predicate HeaderOk()
      reads this
    {
      match currentHeader
      case None => raw == []
      case Some(h) => |raw| == FRAME_HEADER_SIZE && h == ReadHeader(raw) && h.length <= maxFrame
    }

    /** After any calls, the frames taken and those still pending are what all that was fed,
        read at once, amounts to. */
    ghost predicate Valid()
      reads this
    {
      && HeaderOk()
      && Steady(FrameReader(maxFrame))
      && Tracks(FrameReader(maxFrame), fed, taken, Pending())
    }

    constructor (maxFrame: nat)
      ensures Valid() && Pending() == [] && this.maxFrame == maxFrame && lastDecodedStreamId == None
      ensures fed == [] && taken == []
    {
      this.maxFrame := maxFrame;
      buf, currentHeader, lastDecodedStreamId, raw := [], None, None, [];
      fed, taken := [], [];
      new;
      FramesAreSteady(maxFrame);
      TracksStart(FrameReader(maxFrame));
      assert raw + buf == [];
    }

    method Feed(data: seq<Byte>)
      requires Valid()
      modifies this`buf, this`fed
      ensures Valid() && Pending() == old(Pending()) + data
      ensures fed == old(fed) + data
    {
      hide Tracks, Steady;
      assert raw + (buf + data) == raw + buf + data;
      FeedTracks(FrameReader(maxFrame), fed, taken, Pending(), data);
      buf := buf + data;
      fed := fed + data;
    }

    /** The next frame, an error, or nothing when bytes are missing: then all the frames in what
        was fed have been taken, and the error is the one that reading it all at once ends in. */
    method Decode() returns (r: Result<Option<Frame>, FrameError>)
      requires Valid()
      modifies this
      ensures Valid() && fed == old(fed)
      ensures match old(Next(maxFrame, Pending()))
              case Incomplete =>
                && r == Ok(None) && Pending() == old(Pending()) && taken == old(taken)
                && ReadAll(FrameReader(maxFrame), fed) == Reading(taken, More(Pending()))
              case Broken(e) =>
                && r == Err(e) && Pending() == old(Pending()) && taken == old(taken)
                && ReadAll(FrameReader(maxFrame), fed) == Reading(taken, Failed(e))
              case Complete(item, rest) =>
                && Pending() == rest && lastDecodedStreamId == Some(item.header.id) && taken == old(taken) + [item]
                && r == match item.frame
                        case Ok(f) => Ok(Some(f))
                        case Err(e) => Err(e)
    {
      hide ReadFrame, ReadId, FromBytes, Tracks, Steady, ReadAll;
      ghost var all := Pending();
      NothingMissed(FrameReader(maxFrame), fed, taken, all);
      if currentHeader.None? {
        if |buf| < FRAME_HEADER_SIZE {
          assert all == buf;
          return Ok(None);
        }
        assert all == buf;
        var head := buf[..FRAME_HEADER_SIZE];
        var header := ReadHeader(head);
        HeadIsEnough(buf);
        if header.length > maxFrame {
          return Err(OfConnection(FrameSizeError));
        }
        currentHeader, raw := Some(header), head;
        buf := buf[FRAME_HEADER_SIZE..];
        assert raw + buf == all;
      }
      HeaderAppend(raw, buf);
      var h := currentHeader.value;
      if |buf| < h.length {
        return Ok(None);
      }
      PayloadIs(raw, buf, h.length);
      var payload := buf[..h.length];
      currentHeader, lastDecodedStreamId := None, Some(h.id);
      buf, raw := buf[h.length..], [];
      assert raw + buf == buf;
      TakeTracks(FrameReader(maxFrame), fed, taken, all);
      taken := taken + [Next(maxFrame, all).item];
      var frame := ReadFrame(h, payload);
      return if frame.Ok? then Ok(Some(frame.value)) else Err(frame.error);
    }
  }

  lemma HeadIsEnough(buf: seq<Byte>)
    requires |buf| >= FRAME_HEADER_SIZE
    ensures ReadHeader(buf[..FRAME_HEADER_SIZE]) == ReadHeader(buf)
  {
    assert buf[..FRAME_HEADER_SIZE] + buf[FRAME_HEADER_SIZE..] == buf;
    HeaderAppend(buf[..FRAME_HEADER_SIZE], buf[FRAME_HEADER_SIZE..]);
  }

  lemma PayloadIs(raw: seq<Byte>, buf: seq<Byte>, n: nat)
    requires |raw| == FRAME_HEADER_SIZE && n <= |buf|
    ensures (raw + buf)[FRAME_HEADER_SIZE..FRAME_HEADER_SIZE + n] == buf[..n]
    ensures (raw + buf)[FRAME_HEADER_SIZE + n..] == buf[n..]
  {
  }

  class FrameEncoder {
    var buf: seq<Byte>

    constructor ()
      ensures buf == []
    {
      buf := [];
    }

    method Take() returns (r: seq<Byte>)
      modifies this
      ensures r == old(buf) && buf == []
    {
      r := buf;
      buf := [];
    }

    method EncodeHeader(h: Header)
      modifies this
      ensures buf == old(buf) + HeaderBytes(h)
    {
      Regroup(buf, ToBytes(h.length, 3), [h.kind, h.flags], ToBytes(h.id % TWO_31, 4));
      buf := buf + ToBytes(h.length, 3);
      buf := buf + [h.kind, h.flags];
      buf := buf + ToBytes(h.id % TWO_31, 4);
    }

    method EncodePadded(content: seq<Byte>, pad: Option<Byte>)
      modifies this
      ensures buf == old(buf) + Padded(content, pad)
    {
      match pad {
        case None => buf := buf + content;
        case Some(n) =>
          Regroup(buf, [n], content, Zeros(n));
          buf := buf + [n];
          buf := buf + content;
          buf := buf + Zeros(n);
      }
    }

    method EncodeSettings(settings: seq<Setting>)
      modifies this
      ensures buf == old(buf) + AllSettingBytes(settings)
    {
      assert settings[0..] == settings;
      ghost var whole := buf + AllSettingBytes(settings);
      for i := 0 to |settings|
        invariant buf + AllSettingBytes(settings[i..]) == whole
      {
        var s := settings[i];
        assert settings[i..][0] == s && settings[i..][1..] == settings[i + 1..];
        Regroup(buf, SettingBytes(s), AllSettingBytes(settings[i + 1..]), []);
        buf := buf + SettingBytes(s);
      }
      assert buf + [] == buf;
    }

    /** Appends a frame; PRIORITY and PUSH_PROMISE are not sent. */
    method Encode(f: Frame) returns (r: Option<FrameError>)
      modifies this
      ensures r.None? <==> !f.PriorityFrame? && !f.PushPromise?
      ensures r.None? ==> buf == old(buf) + Encoding(f)
      ensures r.Some? ==> r.value == OfConnection(ProtocolError) && buf == old(buf)
    {
      hide HeaderBytes, Padded, AllSettingBytes, KindOf, FlagsOf, IdOf;
      if f.PriorityFrame? || f.PushPromise? {
        return Some(OfConnection(ProtocolError));
      }
      ghost var start := buf;
      EncodeHeader(HeaderOf(f));
      ghost var head := HeaderBytes(HeaderOf(f));
      if f.Data? {
        EncodePadded(f.data, f.pad);
      } else if f.Headers? {
        EncodePadded(f.fragment, f.pad);
      } else if f.Settings? && !f.ack {
        EncodeSettings(f.settings);
      } else {
        buf := buf + PayloadOf(f);
      }
      assert start + head + PayloadOf(f) == start + (head + PayloadOf(f));
      return None;
    }
  }

  lemma Regroup(a: seq<Byte>, b: seq<Byte>, c: seq<Byte>, d: seq<Byte>)
    ensures a + b + c + d == a + (b + c + d)
    ensures a + b + c == a + (b + c)
  {
  }
}
