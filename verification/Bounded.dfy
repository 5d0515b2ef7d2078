/** Bounded ordered records that forget their smallest keys. */
module Bounded {
  /** The order of the keys, as a number that is different for different keys. */
  type Rank<!K> = K -> nat

  ghost predicate IsRank<K(!new)>(rank: Rank<K>) {
    forall a, b :: rank(a) == rank(b) ==> a == b
  }

  /** Whether a comes no later than every key. */
  ghost predicate IsSmallest<K(!new)>(rank: Rank<K>, a: K, keys: set<K>) {
    a in keys && forall b :: b in keys ==> rank(a) <= rank(b)
  }

  lemma {:induction false} SmallestExists<K(!new)>(rank: Rank<K>, keys: set<K>)
    requires keys != {}
    ensures exists a :: IsSmallest(rank, a, keys)
    decreases |keys|
  {
    var x :| x in keys;
    if keys == {x} {
      assert IsSmallest(rank, x, keys);
    } else {
      assert keys - {x} != {};
      SmallestExists(rank, keys - {x});
      var b :| IsSmallest(rank, b, keys - {x});
      assert IsSmallest(rank, if rank(x) <= rank(b) then x else b, keys);
    }
  }

  /** The key that is evicted first. */
  ghost function Smallest<K(!new)>(rank: Rank<K>, keys: set<K>): (a: K)
    requires keys != {}
    ensures IsSmallest(rank, a, keys)
  {
    SmallestExists(rank, keys);
    var a :| IsSmallest(rank, a, keys);
    a
  }

  /** Keeps the largest keys, as many as there is room for. */
  ghost function Trim<K(!new)>(rank: Rank<K>, keys: set<K>, size: nat): (kept: set<K>)
    ensures kept <= keys && |kept| <= size
    ensures |keys| <= size ==> kept == keys
    ensures forall a, b :: a in kept && b in keys - kept ==> rank(b) <= rank(a)
  {
    if |keys| <= size then keys else Trim(rank, keys - {Smallest(rank, keys)}, size)
  }

  ghost function MapInsert<K(!new)>(rank: Rank<K>, m: map<K, nat>, key: K, value: nat, size: nat): (r: map<K, nat>)
    ensures |m| < size ==> r == m[key := value]
  {
    assert |m.Keys| == |m|;
    var all := m[key := value];
    assert all.Keys == m.Keys + {key};
    map k | k in Trim(rank, all.Keys, size) :: all[k]
  }

  ghost function SetInsert<K(!new)>(rank: Rank<K>, s: set<K>, key: K, size: nat): (r: set<K>)
    ensures |s| < size ==> r == s + {key}
    ensures r <= s + {key}
  {
    Trim(rank, s + {key}, size)
  }

  lemma TrimStep<K(!new)>(rank: Rank<K>, keys: set<K>, smallest: K, size: nat)
    requires IsRank(rank) && |keys| > size && IsSmallest(rank, smallest, keys)
    ensures Trim(rank, keys, size) == Trim(rank, keys - {smallest}, size)
  {
    assert smallest == Smallest(rank, keys);
  }

  lemma MapInsertIs<K(!new)>(rank: Rank<K>, m: map<K, nat>, key: K, value: nat, size: nat, r: map<K, nat>)
    requires r.Keys == Trim(rank, (m[key := value]).Keys, size)
    requires forall k :: k in r ==> r[k] == m[key := value][k]
    ensures r == MapInsert(rank, m, key, value, size)
  {
  }

  lemma KeysWithout<K>(m: map<K, nat>, key: K)
    requires key in m
    ensures (m - {key}).Keys == m.Keys - {key} && |m - {key}| < |m|
  {
    var r := m - {key};
    assert r.Keys == m.Keys - {key};
    assert |m| == |m.Keys| && |r| == |r.Keys|;
  }

  /** An ordered map that drops its smallest keys when it outgrows its bound. */
  class BoundedMap<K(!new, ==)> {
    var inner: map<K, nat>
    const maxSize: nat
    const rank: Rank<K>

    constructor (rank: Rank<K>, maxSize: nat)
      ensures inner == map[] && this.maxSize == maxSize && this.rank == rank
    {
      this.inner := map[];
      this.maxSize, this.rank := maxSize, rank;
    }

    method Insert(key: K, value: nat)
      requires IsRank(rank)
      modifies this
      ensures inner == MapInsert(rank, old(inner), key, value, maxSize)
    {
      hide Trim, MapInsert, IsRank;
      inner := inner[key := value];
      ghost var all := inner;
      while |inner| > maxSize
        invariant Trim(rank, inner.Keys, maxSize) == Trim(rank, all.Keys, maxSize)
        invariant inner.Keys <= all.Keys && forall k :: k in inner ==> inner[k] == all[k]
        decreases |inner|
      {
        assert |inner.Keys| == |inner|;
        SmallestExists(rank, inner.Keys);
        var first :| first in inner.Keys && forall b :: b in inner.Keys ==> rank(first) <= rank(b);
        TrimStep(rank, inner.Keys, first, maxSize);
        KeysWithout(inner, first);
        inner := inner - {first};
      }
      assert |inner.Keys| == |inner|;
      MapInsertIs(rank, old(inner), key, value, maxSize, inner);
    }
  }

  /** An ordered set that drops its smallest elements when it outgrows its bound. */
  class BoundedSet<K(!new, ==)> {
    var inner: set<K>
    const maxSize: nat
    const rank: Rank<K>

    constructor (rank: Rank<K>, maxSize: nat)
      ensures inner == {} && this.maxSize == maxSize && this.rank == rank
    {
      this.inner := {};
      this.maxSize, this.rank := maxSize, rank;
    }

    method Insert(key: K)
      requires IsRank(rank)
      modifies this
      ensures inner == SetInsert(rank, old(inner), key, maxSize)
    {
      hide Trim, IsRank;
      inner := inner + {key};
      ghost var all := inner;
      while |inner| > maxSize
        invariant Trim(rank, inner, maxSize) == Trim(rank, all, maxSize)
        decreases |inner|
      {
        SmallestExists(rank, inner);
        var first :| first in inner && forall b :: b in inner ==> rank(first) <= rank(b);
        TrimStep(rank, inner, first, maxSize);
        inner := inner - {first};
      }
    }
  }
}
