/** A header block is cut into HEADERS and CONTINUATION frames and put together again
    (sections 4.3, 6.2 and 6.10 of RFC 9113). */
module H2Fragments {
  import opened Base
  import opened DynamicTable
  import opened HpackFormat
  import opened HpackBlock

  /** The limit on what is put together when no limit was advertised. */
  const MAX_HEADER_BLOCK_FRAGMENT_SIZE := 67108864

  datatype Fragment =
    | HeadersFrame(id: nat, payload: seq<Byte>, endStream: bool, endHeaders: bool)
    | ContinuationFrame(id: nat, payload: seq<Byte>, endHeaders: bool)
    | OtherFrame

  /** The CONTINUATION frames that carry the rest of a block. */
  function Continuations(id: nat, rest: seq<Byte>, size: nat): seq<Fragment>
    requires size > 0
    decreases |rest|
  {
    if rest == [] then []
    else if |rest| <= size then [ContinuationFrame(id, rest, true)]
    else [ContinuationFrame(id, rest[..size], false)] + Continuations(id, rest[size..], size)
  }

  /** The frames that carry a block. */
  function Cut(id: nat, block: seq<Byte>, size: nat, endStream: bool): seq<Fragment>
    requires size > 0
  {
    if |block| <= size then [HeadersFrame(id, block, endStream, true)]
    else [HeadersFrame(id, block[..size], endStream, false)] + Continuations(id, block[size..], size)
  }

  /** Writes the frames of a block, one after the other. */
  method SendHeaderBlock(output: seq<Fragment>, id: nat, block: seq<Byte>, size: nat, endStream: bool)
      returns (out: seq<Fragment>)
    requires size > 0
    ensures out == output + Cut(id, block, size, endStream)
  {
    if |block| <= size {
      return output + [HeadersFrame(id, block, endStream, true)];
    }
    out := output + [HeadersFrame(id, block[..size], endStream, false)];
    var remaining := block[size..];
    ghost var whole := out + Continuations(id, remaining, size);
    while remaining != []
      invariant out + Continuations(id, remaining, size) == whole
      decreases |remaining|
    {
      var n := if |remaining| <= size then |remaining| else size;
      var chunk := remaining[..n];
      NextContinuation(id, remaining, size, n);
      remaining := remaining[n..];
      Regroup(out, [ContinuationFrame(id, chunk, remaining == [])], Continuations(id, remaining, size));
      out := out + [ContinuationFrame(id, chunk, remaining == [])];
    }
    assert out + [] == out;
    Regroup(output, [HeadersFrame(id, block[..size], endStream, false)], Continuations(id, block[size..], size));
  }

  lemma NextContinuation(id: nat, rest: seq<Byte>, size: nat, n: nat)
    requires size > 0 && rest != [] && n == if |rest| <= size then |rest| else size
    ensures Continuations(id, rest, size)
         == [ContinuationFrame(id, rest[..n], rest[n..] == [])] + Continuations(id, rest[n..], size)
  {
    if |rest| <= size {
      assert rest[..n] == rest && rest[n..] == [];
    }
  }

  lemma Regroup(a: seq<Fragment>, b: seq<Fragment>, c: seq<Fragment>)
    ensures a + (b + c) == a + b + c
  {
  }

  // ---- What the frames are like ----

  /** The payloads of the frames, end to end. */
  function Joined(frames: seq<Fragment>): seq<Byte> {
    if frames == [] || frames[0].OtherFrame? then [] else frames[0].payload + Joined(frames[1..])
  }

  /** CONTINUATION frames of one stream within the size, of which only the last ends the block. */
  predicate Tail(frames: seq<Fragment>, id: nat, size: nat) {
    forall k :: 0 <= k < |frames| ==>
      frames[k].ContinuationFrame? && frames[k].id == id && |frames[k].payload| <= size
      && (frames[k].endHeaders <==> k == |frames| - 1)
  }

  lemma OneMore(f: Fragment, more: seq<Fragment>, id: nat, size: nat)
    requires f.ContinuationFrame? && f.id == id && |f.payload| <= size && !f.endHeaders
    requires more != [] && Tail(more, id, size)
    ensures Tail([f] + more, id, size) && Joined([f] + more) == f.payload + Joined(more)
  {
    assert ([f] + more)[1..] == more;
  }

  lemma {:induction false} ContinuationsJoin(id: nat, rest: seq<Byte>, size: nat)
    requires size > 0
    ensures Joined(Continuations(id, rest, size)) == rest && Tail(Continuations(id, rest, size), id, size)
    ensures rest != [] ==> Continuations(id, rest, size) != []
    decreases |rest|
  {
    if rest != [] {
      if |rest| <= size {
        assert Joined([ContinuationFrame(id, rest, true)][1..]) == [];
      } else {
        ContinuationsJoin(id, rest[size..], size);
        OneMore(ContinuationFrame(id, rest[..size], false), Continuations(id, rest[size..], size), id, size);
        assert rest[..size] + rest[size..] == rest;
      }
    }
  }

  /** The payloads add up to the block, none exceeds the size, the first frame alone is HEADERS
      and carries the end of the stream, and the last alone ends the block. */
  lemma CutJoins(id: nat, block: seq<Byte>, size: nat, endStream: bool)
    requires size > 0
    ensures var frames := Cut(id, block, size, endStream);
            && frames != [] && Joined(frames) == block
            && frames[0].HeadersFrame? && frames[0].id == id && frames[0].endStream == endStream
            && |frames[0].payload| <= size && (frames[0].endHeaders <==> |frames| == 1)
            && Tail(frames[1..], id, size)
  {
    var frames := Cut(id, block, size, endStream);
    if |block| <= size {
      assert frames[1..] == [];
    } else {
      ContinuationsJoin(id, block[size..], size);
      assert frames[1..] == Continuations(id, block[size..], size);
      assert block[..size] + block[size..] == block;
    }
  }

  // ---- Putting the block together ----

  datatype AssemblyError = ExpectedContinuation | UnexpectedContinuation | BlockTooLarge

  /** What has been received of a block that is not complete. */
  datatype Partial = Partial(id: nat, bytes: seq<Byte>, endStream: bool)

  datatype Whole = Whole(id: nat, bytes: seq<Byte>, endStream: bool)

  /** One more frame: an error, or the block it completes if any and what is left open. */
  function Receive(open: Option<Partial>, f: Fragment, limit: nat): Result<(Option<Partial>, Option<Whole>), AssemblyError> {
    match open
    case Some(p) =>
      if !f.ContinuationFrame? || f.id != p.id then Err(ExpectedContinuation)
      else
        var bytes := p.bytes + f.payload;
        if |bytes| > limit then Err(BlockTooLarge)
        else if f.endHeaders then Ok((None, Some(Whole(p.id, bytes, p.endStream))))
        else Ok((Some(p.(bytes := bytes)), None))
    case None =>
      match f
      case HeadersFrame(id, payload, endStream, endHeaders) =>
        if endHeaders then Ok((None, Some(Whole(id, payload, endStream))))
        else if |payload| > limit then Err(BlockTooLarge)
        else Ok((Some(Partial(id, payload, endStream)), None))
      case ContinuationFrame(_, _, _) => Err(UnexpectedContinuation)
      case OtherFrame => Ok((None, None))
  }

  /** The blocks that a sequence of frames completes. */
  function ReceiveAll(open: Option<Partial>, frames: seq<Fragment>, limit: nat): Result<(Option<Partial>, seq<Whole>), AssemblyError>
    decreases |frames|
  {
    if frames == [] then Ok((open, []))
    else
      match Receive(open, frames[0], limit)
      case Err(e) => Err(e)
      case Ok((next, block)) =>
        match ReceiveAll(next, frames[1..], limit)
        case Err(e) => Err(e)
        case Ok((end, blocks)) => Ok((end, if block.Some? then [block.value] + blocks else blocks))
  }

  lemma ReceiveOne(open: Option<Partial>, f: Fragment, limit: nat, block: Whole)
    requires Receive(open, f, limit) == Ok((None, Some(block)))
    ensures ReceiveAll(open, [f], limit) == Ok((None, [block]))
  {
    assert [f][1..] == [];
    assert ReceiveAll(None, [], limit) == Ok((None, []));
    assert [block] + [] == [block];
  }

  lemma {:induction false} ContinuationsArrive(p: Partial, rest: seq<Byte>, size: nat, limit: nat)
    requires size > 0 && rest != []
    ensures ReceiveAll(Some(p), Continuations(p.id, rest, size), limit)
         == if |p.bytes| + |rest| <= limit then Ok((None, [Whole(p.id, p.bytes + rest, p.endStream)]))
            else Err(BlockTooLarge)
    decreases |rest|
  {
    if |rest| <= size {
      if |p.bytes| + |rest| <= limit {
        ReceiveOne(Some(p), ContinuationFrame(p.id, rest, true), limit, Whole(p.id, p.bytes + rest, p.endStream));
      }
    } else {
      var next := p.(bytes := p.bytes + rest[..size]);
      ContinuationsArrive(next, rest[size..], size, limit);
      assert Continuations(p.id, rest, size)[1..] == Continuations(p.id, rest[size..], size);
      assert p.bytes + rest[..size] + rest[size..] == p.bytes + rest;
    }
  }

  /** A block arrives whole, with its end of stream, if and only if it came in one frame or
      fits the limit; a block in one frame is not measured. */
  lemma BlockArrives(id: nat, block: seq<Byte>, size: nat, endStream: bool, limit: nat)
    requires size > 0
    ensures ReceiveAll(None, Cut(id, block, size, endStream), limit)
         == if |block| <= size || |block| <= limit then Ok((None, [Whole(id, block, endStream)])) else Err(BlockTooLarge)
  {
    if |block| <= size {
      ReceiveOne(None, HeadersFrame(id, block, endStream, true), limit, Whole(id, block, endStream));
    } else {
      var p := Partial(id, block[..size], endStream);
      assert Cut(id, block, size, endStream)[1..] == Continuations(id, block[size..], size);
      ContinuationsArrive(p, block[size..], size, limit);
      assert block[..size] + block[size..] == block;
    }
  }

  /** The fields of a connection that hold an unfinished block. */
  class Assembler {
    const limit: nat
    var continuing: Option<nat>
    var fragment: seq<Byte>
    var endStream: bool

    function Open(): Option<Partial>
      reads this
    {
      match continuing
      case None => None
      case Some(id) => Some(Partial(id, fragment, endStream))
    }

    constructor (maxHeaderListSize: Option<nat>)
      ensures Open() == None
      ensures limit == if maxHeaderListSize.Some? then maxHeaderListSize.value else MAX_HEADER_BLOCK_FRAGMENT_SIZE
    {
      limit := if maxHeaderListSize.Some? then maxHeaderListSize.value else MAX_HEADER_BLOCK_FRAGMENT_SIZE;
      continuing, fragment, endStream := None, [], false;
    }

    method HandleFrame(f: Fragment) returns (r: Result<Option<Whole>, AssemblyError>)
      modifies this
      ensures match old(Receive(Open(), f, limit))
              case Err(e) => r == Err(e)
              case Ok((open, block)) => r == Ok(block) && Open() == open
    {
      if continuing.Some? && (!f.ContinuationFrame? || f.id != continuing.value) {
        return Err(ExpectedContinuation);
      }
      match f {
        case HeadersFrame(id, payload, ends, endHeaders) =>
          if endHeaders {
            return Ok(Some(Whole(id, payload, ends)));
          }
          continuing, fragment, endStream := Some(id), payload, ends;
          return if |fragment| > limit then Err(BlockTooLarge) else Ok(None);
        case ContinuationFrame(id, payload, endHeaders) =>
          if continuing.None? {
            return Err(UnexpectedContinuation);
          }
          fragment := fragment + payload;
          if |fragment| > limit {
            return Err(BlockTooLarge);
          }
          if !endHeaders {
            return Ok(None);
          }
          var block := Whole(id, fragment, endStream);
          continuing, fragment, endStream := None, [], false;
          return Ok(Some(block));
        case OtherFrame => return Ok(None);
      }
    }
  }

  // ---- From header list to header list ----

  /** A header list survives compression, cutting, joining and decompression, and leaves both
      tables equal, when it is within the receiver's list limit and its block within the
      fragment limit. */
  lemma HeaderListSurvives(hp: Tables, huff: bool, link: Link, hs: Headers, maxTableSize: nat, listLimit: Option<nat>,
                           id: nat, size: nat, endStream: bool, limit: nat)
    requires hp.Valid() && link.InSync(maxTableSize) && maxTableSize < TWO_63 && AllInMemory(hs)
    requires size > 0 && !Exceeds(ListSize(0, hs), listLimit)
    requires |link.Bytes(hp, huff, hs)| <= size || |link.Bytes(hp, huff, hs)| <= limit
    ensures var r := ReceiveAll(None, Cut(id, link.Bytes(hp, huff, hs), size, endStream), limit);
            && r.Ok? && |r.value.1| == 1
            && r.value.1[0].id == id && r.value.1[0].endStream == endStream
            && DecodeFields(hp, link.receiver, maxTableSize, listLimit, false, 0, r.value.1[0].bytes)
               == Decoded(Ok(hs), EncodeFields(hp, huff, link.sender, hs).1)
  {
    hide Cut, ReceiveAll, DecodeFields, EncodeFields;
    BlockArrives(id, link.Bytes(hp, huff, hs), size, endStream, limit);
    BlockKeepsSync(hp, huff, link, hs, maxTableSize, listLimit);
  }
}
