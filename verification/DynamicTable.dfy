/** The dynamic table of HPACK (sections 2.3.2 and 4 of RFC 7541). */
module DynamicTable {
  import opened Base

  datatype HeaderField = HeaderField(name: seq<Byte>, value: seq<Byte>, sensitive: bool) {
    function Size(): nat {
      |name| + |value| + 32
    }
  }

  function TotalSize(entries: seq<HeaderField>): nat {
    if entries == [] then 0 else TotalSize(entries[..|entries| - 1]) + entries[|entries| - 1].Size()
  }

  /** Drops entries from the back until those left fit the limit. */
  function Evict(entries: seq<HeaderField>, limit: nat): (kept: seq<HeaderField>)
    ensures kept <= entries && TotalSize(kept) <= limit
  {
    if TotalSize(entries) <= limit then entries else Evict(entries[..|entries| - 1], limit)
  }

  /** Eviction keeps as many entries as fit. */
  lemma {:induction false} EvictKeepsAllThatFit(entries: seq<HeaderField>, limit: nat, n: nat)
    requires n <= |entries| && TotalSize(entries[..n]) <= limit
    ensures n <= |Evict(entries, limit)|
  {
    if TotalSize(entries) > limit {
      assert n < |entries| by {
        assert entries[..|entries|] == entries;
      }
      assert entries[..|entries| - 1][..n] == entries[..n];
      EvictKeepsAllThatFit(entries[..|entries| - 1], limit, n);
    }
  }

  /** Evicting to two limits in turn is evicting to the smaller one. */
  lemma {:induction false} EvictTwice(entries: seq<HeaderField>, a: nat, b: nat)
    ensures Evict(Evict(entries, a), b) == Evict(entries, if a <= b then a else b)
  {
    if TotalSize(entries) > a {
      EvictTwice(entries[..|entries| - 1], a, b);
      if b < a {
        assert Evict(entries, b) == Evict(entries[..|entries| - 1], b);
      }
    }
  }

  lemma {:induction false} TotalSizeFront(entry: HeaderField, entries: seq<HeaderField>)
    ensures TotalSize([entry] + entries) == entry.Size() + TotalSize(entries)
  {
    var all := [entry] + entries;
    if entries == [] {
      assert all == [entry];
      assert TotalSize([entry]) == TotalSize([]) + entry.Size();
    } else {
      var init := entries[..|entries| - 1];
      assert all[..|all| - 1] == [entry] + init;
      TotalSizeFront(entry, init);
    }
  }

  /** The number of entries is bounded by the size. */
  lemma {:induction false} TotalSizeCount(entries: seq<HeaderField>)
    ensures 32 * |entries| <= TotalSize(entries)
  {
    if entries != [] {
      TotalSizeCount(entries[..|entries| - 1]);
    }
  }

  /** A table as a value: its entries, newest first, and the size they may reach. */
  datatype Table = Table(entries: seq<HeaderField>, maxSize: nat) {

    /** What every table satisfies: the entries fit and none of them is marked sensitive. */
    ghost predicate Valid() {
      && maxSize < TWO_64
      && TotalSize(entries) <= maxSize
      && forall i :: 0 <= i < |entries| ==> !entries[i].sensitive
    }

    function Resize(size: nat): Table {
      Table(Evict(entries, size), size)
    }

    /** Adds an entry in front, evicting before; an entry that cannot fit empties the table. */
    function Insert(name: seq<Byte>, value: seq<Byte>): Table {
      var entry := HeaderField(name, value, false);
      if entry.Size() > maxSize then Table([], maxSize)
      else Table([entry] + Evict(entries, maxSize - entry.Size()), maxSize)
    }

    lemma ResizeValid(size: nat)
      requires Valid() && size < TWO_64
      ensures Resize(size).Valid()
    {
    }

    lemma InsertValid(name: seq<Byte>, value: seq<Byte>)
      requires Valid()
      ensures Insert(name, value).Valid()
    {
      var entry := HeaderField(name, value, false);
      if entry.Size() <= maxSize {
        TotalSizeFront(entry, Evict(entries, maxSize - entry.Size()));
      }
    }

    /** A new entry stands in front, followed by as many of the newest as fit beside it; one that
        cannot fit at all leaves nothing. */
    lemma InsertKeepsAllThatFit(name: seq<Byte>, value: seq<Byte>, n: nat)
      requires Valid()
      ensures var entry := HeaderField(name, value, false);
              var after := Insert(name, value);
              && after.maxSize == maxSize && (after.entries == [] <==> entry.Size() > maxSize)
              && (entry.Size() <= maxSize ==>
                    && after.entries[0] == entry && after.entries[1..] <= entries
                    && (n <= |entries| && entry.Size() + TotalSize(entries[..n]) <= maxSize ==> n < |after.entries|))
    {
      var entry := HeaderField(name, value, false);
      if entry.Size() <= maxSize && n <= |entries| && entry.Size() + TotalSize(entries[..n]) <= maxSize {
        EvictKeepsAllThatFit(entries, maxSize - entry.Size(), n);
      }
    }

    /** Only the smallest and the last of several sizes matter. */
    lemma ResizeCollapses(low: nat, last: nat, next: nat)
      requires low <= last
      ensures Resize(low).Resize(last).Resize(next) == Resize(if next < low then next else low).Resize(next)
    {
      EvictTwice(entries, low, last);
      EvictTwice(Evict(entries, low), last, next);
      EvictTwice(entries, low, next);
      EvictTwice(entries, if next < low then next else low, next);
    }
  }

  /** The first entry, from index i on, with that name and value. */
  function FirstExact(entries: seq<HeaderField>, name: seq<Byte>, value: seq<Byte>, i: nat): (r: Option<nat>)
    requires i <= |entries|
    ensures r.Some? ==> i <= r.value < |entries| && entries[r.value].name == name
    ensures r.Some? ==> entries[r.value].value == value
    ensures r.None? ==> forall k :: i <= k < |entries| ==> entries[k].name != name || entries[k].value != value
    decreases |entries| - i
  {
    if i == |entries| then None
    else if entries[i].name == name && entries[i].value == value then Some(i)
    else FirstExact(entries, name, value, i + 1)
  }

  /** The first entry, from index i on, with that name. */
  function FirstName(entries: seq<HeaderField>, name: seq<Byte>, i: nat): (r: Option<nat>)
    requires i <= |entries|
    ensures r.Some? ==> i <= r.value < |entries| && entries[r.value].name == name
    ensures r.None? ==> forall k :: i <= k < |entries| ==> entries[k].name != name
    decreases |entries| - i
  {
    if i == |entries| then None
    else if entries[i].name == name then Some(i)
    else FirstName(entries, name, i + 1)
  }

  /** The index of a field, and whether its value matches too; a full match comes first. */
  function Find(entries: seq<HeaderField>, name: seq<Byte>, value: seq<Byte>): Option<(nat, bool)> {
    match FirstExact(entries, name, value, 0)
    case Some(i) => Some((i, true))
    case None =>
      match FirstName(entries, name, 0)
      case Some(i) => Some((i, false))
      case None => None
  }

  /** Searches in one pass, remembering the first entry with the name. */
  method FindInOnePass(entries: seq<HeaderField>, name: seq<Byte>, value: seq<Byte>)
      returns (r: Option<(nat, bool)>)
    ensures r == Find(entries, name, value)
  {
    var nameMatch: Option<nat> := None;
    for i := 0 to |entries|
      invariant FirstExact(entries, name, value, 0) == FirstExact(entries, name, value, i)
      invariant match nameMatch
                case Some(k) => FirstName(entries, name, 0) == Some(k)
                case None => FirstName(entries, name, 0) == FirstName(entries, name, i)
    {
      if entries[i].name == name {
        if entries[i].value == value {
          return Some((i, true));
        }
        if nameMatch.None? {
          nameMatch := Some(i);
        }
      }
    }
    match nameMatch {
      case Some(i) => return Some((i, false));
      case None => return None;
    }
  }

  class DynamicTable {
    var entries: seq<HeaderField>
    var size: nat
    var maxSize: nat

    ghost predicate Valid()
      reads this
    {
      size == TotalSize(entries) && View().Valid()
    }

    ghost function View(): Table
      reads this
    {
      Table(entries, maxSize)
    }

    constructor (maxSize: nat)
      requires maxSize < TWO_64
      ensures Valid() && View() == Table([], maxSize)
    {
      this.entries, this.size, this.maxSize := [], 0, maxSize;
    }

    method SetMaxSize(newMax: nat)
      requires Valid() && newMax < TWO_64
      modifies this
      ensures Valid() && View() == old(View().Resize(newMax))
    {
      View().ResizeValid(newMax);
      maxSize := newMax;
      EvictTo(newMax);
    }

    /** Removes entries from the back until those left fit the limit. */
    method EvictTo(limit: nat)
      requires size == TotalSize(entries)
      modifies this`entries, this`size
      ensures entries == Evict(old(entries), limit) && size == TotalSize(entries)
    {
      while size > limit
        invariant size == TotalSize(entries)
        invariant Evict(entries, limit) == Evict(old(entries), limit)
        decreases |entries|
      {
        var removed := entries[|entries| - 1];
        entries := entries[..|entries| - 1];
        size := size - removed.Size();
      }
    }

    method Insert(name: seq<Byte>, value: seq<Byte>)
      requires Valid()
      modifies this
      ensures Valid() && View() == old(View().Insert(name, value))
    {
      View().InsertValid(name, value);
      var entry := HeaderField(name, value, false);
      if entry.Size() > maxSize {
        entries, size := [], 0;
        return;
      }
      EvictTo(maxSize - entry.Size());
      TotalSizeFront(entry, entries);
      entries := [entry] + entries;
      size := size + entry.Size();
    }
  }
}
