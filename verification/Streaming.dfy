/** Reading items off a stream of bytes that arrives in chunks, whatever the items are. */
module Streaming {
  import opened Base

  /** What stands at the front of the bytes received: not enough, an item and what follows it,
      or something that ends the stream. */
  datatype Front<+T, +E> = Incomplete | Complete(item: T, rest: seq<Byte>) | Broken(error: E)

  /** How one item is read. */
  type Reader<!T, !E> = seq<Byte> -> Front<T, E>

  predicate SteadyOn<T(==), E(==)>(next: Reader<T, E>, bytes: seq<Byte>, more: seq<Byte>) {
    match next(bytes)
    case Incomplete => true
    case Complete(item, rest) => |rest| < |bytes| && next(bytes + more) == Complete(item, rest + more)
    case Broken(e) => next(bytes + more) == Broken(e)
  }

  /** Reading consumes something, and more bytes do not change what already stands at the front. */
  ghost predicate Steady<T, E>(next: Reader<T, E>) {
    forall bytes, more :: SteadyOn(next, bytes, more)
  }

  /** What is left when no more items can be read. */
  datatype Rest<+E> = More(bytes: seq<Byte>) | Failed(error: E)

  /** Everything read so far, in order, and what is left. */
  datatype Reading<+T, +E> = Reading(items: seq<T>, rest: Rest<E>) {
    function After(front: seq<T>): Reading<T, E> {
      Reading(front + items, rest)
    }
  }

  ghost function ReadAll<T, E>(next: Reader<T, E>, bytes: seq<Byte>): Reading<T, E>
    requires Steady(next)
    decreases |bytes|
  {
    match next(bytes)
    case Incomplete => Reading([], More(bytes))
    case Broken(e) => Reading([], Failed(e))
    case Complete(item, rest) =>
      assert SteadyOn(next, bytes, []);
      ReadAll(next, rest).After([item])
  }

  /** Reads on after more bytes have come. */
  ghost function Resume<T, E>(next: Reader<T, E>, r: Reading<T, E>, more: seq<Byte>): Reading<T, E>
    requires Steady(next)
  {
    match r.rest
    case Failed(_) => r
    case More(bytes) => ReadAll(next, bytes + more).After(r.items)
  }

  lemma AfterNothing<T, E>(r: Reading<T, E>)
    ensures r.After([]) == r
  {
    assert [] + r.items == r.items;
  }

  lemma AfterTwice<T, E>(r: Reading<T, E>, a: seq<T>, b: seq<T>)
    ensures r.After(a).After(b) == r.After(b + a)
  {
    assert b + (a + r.items) == b + a + r.items;
  }

  lemma ResumeAfter<T, E>(next: Reader<T, E>, r: Reading<T, E>, more: seq<Byte>, item: T)
    requires Steady(next)
    ensures Resume(next, r.After([item]), more) == Resume(next, r, more).After([item])
  {
    hide ReadAll, Steady;
    if r.rest.More? {
      AfterTwice(ReadAll(next, r.rest.bytes + more), r.items, [item]);
    }
  }

  /** Reading all the bytes at once is reading some and then the rest. */
  lemma {:induction false} ReadAppend<T, E>(next: Reader<T, E>, bytes: seq<Byte>, more: seq<Byte>)
    requires Steady(next)
    ensures ReadAll(next, bytes + more) == Resume(next, ReadAll(next, bytes), more)
    decreases |bytes|
  {
    assert SteadyOn(next, bytes, more);
    match next(bytes) {
      case Incomplete => AfterNothing(ReadAll(next, bytes + more));
      case Broken(_) =>
      case Complete(item, rest) =>
        ReadAppend(next, rest, more);
        ResumeAfter(next, ReadAll(next, rest), more, item);
    }
  }

  function Concat(chunks: seq<seq<Byte>>): seq<Byte> {
    if chunks == [] then [] else chunks[0] + Concat(chunks[1..])
  }

  /** Reads what can be read after every chunk. */
  ghost function ReadChunks<T, E>(next: Reader<T, E>, r: Reading<T, E>, chunks: seq<seq<Byte>>): Reading<T, E>
    requires Steady(next)
    decreases |chunks|
  {
    if chunks == [] then r else ReadChunks(next, Resume(next, r, chunks[0]), chunks[1..])
  }

  /** However the bytes were cut up, the same items come out and the same is left. */
  lemma {:induction false} ChunksDoNotMatter<T, E>(next: Reader<T, E>, start: seq<Byte>, chunks: seq<seq<Byte>>)
    requires Steady(next)
    ensures ReadChunks(next, ReadAll(next, start), chunks) == ReadAll(next, start + Concat(chunks))
    decreases |chunks|
  {
    hide ReadAll, Steady;
    if chunks == [] {
      assert start + [] == start;
    } else {
      ReadAppend(next, start, chunks[0]);
      ChunksDoNotMatter(next, start + chunks[0], chunks[1..]);
      assert start + chunks[0] + Concat(chunks[1..]) == start + Concat(chunks);
    }
  }

  // ---- Any interleaving of feeding and reading ----

  /** The items taken so far, and all that could still be read off the bytes pending, are what
      reading all the bytes fed at once yields. */
  ghost predicate Tracks<T, E>(next: Reader<T, E>, fed: seq<Byte>, items: seq<T>, pending: seq<Byte>)
    requires Steady(next)
  {
    ReadAll(next, fed) == ReadAll(next, pending).After(items)
  }

  lemma TracksStart<T, E>(next: Reader<T, E>)
    requires Steady(next)
    ensures Tracks(next, [], [], [])
  {
    AfterNothing(ReadAll(next, []));
  }

  lemma FeedTracks<T, E>(next: Reader<T, E>, fed: seq<Byte>, items: seq<T>, pending: seq<Byte>, more: seq<Byte>)
    requires Steady(next) && Tracks(next, fed, items, pending)
    ensures Tracks(next, fed + more, items, pending + more)
  {
    hide ReadAll, Steady;
    ReadAppend(next, fed, more);
    ReadAppend(next, pending, more);
    var r := ReadAll(next, pending);
    if r.rest.More? {
      AfterTwice(ReadAll(next, r.rest.bytes + more), r.items, items);
    }
  }

  lemma TakeTracks<T, E>(next: Reader<T, E>, fed: seq<Byte>, items: seq<T>, pending: seq<Byte>)
    requires Steady(next) && Tracks(next, fed, items, pending) && next(pending).Complete?
    ensures Tracks(next, fed, items + [next(pending).item], next(pending).rest)
  {
    hide Steady;
    assert ReadAll(next, pending) == ReadAll(next, next(pending).rest).After([next(pending).item]);
    AfterTwice(ReadAll(next, next(pending).rest), [next(pending).item], items);
  }

  /** So when no item comes, all the items have been taken, and the error if any is the one that
      reading everything at once ends in. */
  lemma NothingMissed<T, E>(next: Reader<T, E>, fed: seq<Byte>, items: seq<T>, pending: seq<Byte>)
    requires Steady(next) && Tracks(next, fed, items, pending)
    ensures next(pending).Incomplete? ==> ReadAll(next, fed) == Reading(items, More(pending))
    ensures next(pending).Broken? ==> ReadAll(next, fed) == Reading(items, Failed(next(pending).error))
  {
    hide Steady;
    assert items + [] == items;
  }

  /** One call on a decoder. */
  datatype Call = Feed(chunk: seq<Byte>) | Take

  /** All that was fed, the items taken, and what is pending. */
  datatype Progress<+T> = Progress(fed: seq<Byte>, items: seq<T>, pending: seq<Byte>)

  /** A chunk that would overflow the buffer is refused whole; a read without an item changes nothing. */
  ghost function Perform<T, E>(next: Reader<T, E>, limit: Option<nat>, p: Progress<T>, call: Call): Progress<T> {
    match call
    case Feed(chunk) =>
      if limit.Some? && |p.pending| + |chunk| > limit.value then p
      else p.(fed := p.fed + chunk, pending := p.pending + chunk)
    case Take =>
      match next(p.pending)
      case Complete(item, rest) => p.(items := p.items + [item], pending := rest)
      case _ => p
  }

  ghost function PerformAll<T, E>(next: Reader<T, E>, limit: Option<nat>, p: Progress<T>, calls: seq<Call>): Progress<T>
    decreases |calls|
  {
    if calls == [] then p else PerformAll(next, limit, Perform(next, limit, p, calls[0]), calls[1..])
  }

  /** However feeding and reading were interleaved, nothing is lost, repeated or reordered. */
  lemma {:induction false} CallsDoNotMatter<T, E>(next: Reader<T, E>, limit: Option<nat>, p: Progress<T>, calls: seq<Call>)
    requires Steady(next) && Tracks(next, p.fed, p.items, p.pending)
    ensures var q := PerformAll(next, limit, p, calls); Tracks(next, q.fed, q.items, q.pending)
    decreases |calls|
  {
    hide Steady, Tracks;
    if calls != [] {
      match calls[0] {
        case Feed(chunk) => FeedTracks(next, p.fed, p.items, p.pending, chunk);
        case Take =>
          if next(p.pending).Complete? {
            TakeTracks(next, p.fed, p.items, p.pending);
          }
      }
      CallsDoNotMatter(next, limit, Perform(next, limit, p, calls[0]), calls[1..]);
    }
  }
}
