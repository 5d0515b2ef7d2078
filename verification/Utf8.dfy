/** Well-formed UTF-8 (section 4 of RFC 3629), as far as close reasons need it. */
module Utf8 {
  import opened Base
  import opened WtTypes
  import opened WtSession

  predicate IsTail(b: Byte) {
    b / 64 == 2
  }

  /** The length of the character that stands at the front, if it is well formed. */
  function CharLength(s: seq<Byte>): (n: Option<nat>)
    ensures n.Some? ==> 1 <= n.value <= |s| && !IsTail(s[0])
    ensures n.Some? ==> forall k :: 1 <= k < n.value ==> IsTail(s[k])
  {
    if s == [] then None
    else if s[0] < 0x80 then Some(1)
    else if |s| < 2 then None
    else if 0xc2 <= s[0] <= 0xdf && IsTail(s[1]) then Some(2)
    else if |s| < 3 then None
    else if ThreeOctets(s[0], s[1]) && IsTail(s[2]) then Some(3)
    else if |s| < 4 then None
    else if FourOctets(s[0], s[1]) && IsTail(s[2]) && IsTail(s[3]) then Some(4)
    else None
  }

  predicate ThreeOctets(a: Byte, b: Byte) {
    && IsTail(b)
    && ((a == 0xe0 && b >= 0xa0) || 0xe1 <= a <= 0xec || (a == 0xed && b <= 0x9f) || 0xee <= a <= 0xef)
  }

  predicate FourOctets(a: Byte, b: Byte) {
    && IsTail(b)
    && ((a == 0xf0 && b >= 0x90) || 0xf1 <= a <= 0xf3 || (a == 0xf4 && b <= 0x8f))
  }

  predicate IsUtf8(s: seq<Byte>)
    decreases |s|
  {
    s != [] ==> CharLength(s).Some? && IsUtf8(s[CharLength(s).value..])
  }

  /** The first character does not depend on what follows it. */
  lemma CharIsLocal(s: seq<Byte>, n: nat)
    requires n <= |s| && CharLength(s).Some? && CharLength(s).value <= n
    ensures CharLength(s[..n]) == CharLength(s)
  {
  }

  /** Backing up within the first character ends at its start. */
  lemma {:induction false} CutInFirst(s: seq<Byte>, n: nat)
    requires n < |s| && forall k :: 1 <= k <= n ==> IsTail(s[k])
    ensures CutPoint(s, n) == 0
    decreases n
  {
    if n > 0 {
      CutInFirst(s, n - 1);
    }
  }

  /** Backing up further on is backing up in what follows the first characters. */
  lemma {:induction false} CutAfter(s: seq<Byte>, k: nat, n: nat)
    requires k <= n < |s| && !IsTail(s[k])
    ensures CutPoint(s, n) == k + CutPoint(s[k..], n - k)
    decreases n
  {
    if n > k && IsTail(s[n]) {
      CutAfter(s, k, n - 1);
    }
  }

  /** Cutting a text where a character starts leaves a text. */
  lemma {:induction false} CutKeepsUtf8(s: seq<Byte>, n: nat)
    requires IsUtf8(s) && n < |s|
    ensures IsUtf8(s[..CutPoint(s, n)])
    decreases |s|
  {
    var k := CharLength(s).value;
    if n < k {
      CutInFirst(s, n);
    } else {
      var rest := s[k..];
      assert IsUtf8(rest) && rest[0] == s[k];
      CutAfter(s, k, n);
      CutKeepsUtf8(rest, n - k);
      var end := CutPoint(s, n);
      CharIsLocal(s, end);
      assert s[..end][k..] == rest[..end - k];
    }
  }

  /** A close reason stays well formed however long it was. */
  lemma TruncateKeepsUtf8(reason: seq<Byte>)
    requires IsUtf8(reason)
    ensures IsUtf8(Truncate(reason))
  {
    if |reason| > MAX_CLOSE_REASON_LEN {
      CutKeepsUtf8(reason, MAX_CLOSE_REASON_LEN);
    }
  }

  /** A text cut within a character is no text. */
  lemma {:induction false} CutWithinIsNoText(s: seq<Byte>, n: nat)
    requires IsUtf8(s) && n < |s| && IsTail(s[n])
    ensures !IsUtf8(s[..n])
    decreases |s|
  {
    var k := CharLength(s).value;
    var rest := s[k..];
    if n < k {
      assert CharLength(s[..n]).None?;
    } else {
      assert n > k by {
        assert IsUtf8(rest);
      }
      CutWithinIsNoText(rest, n - k);
      CharIsLocal(s, n);
      assert s[..n][k..] == rest[..n - k];
    }
  }

  /** Whatever was backed over continues a character. */
  lemma {:induction false} BackedOverTails(s: seq<Byte>, n: nat, k: nat)
    requires n < |s| && CutPoint(s, n) < k <= n
    ensures IsTail(s[k])
    decreases n
  {
    if k < n {
      BackedOverTails(s, n - 1, k);
    }
  }

  /** A close reason is cut no shorter than need be: anything longer is too long or no text. */
  lemma TruncateIsLongest(reason: seq<Byte>, n: nat)
    requires IsUtf8(reason) && |Truncate(reason)| < n <= |reason|
    ensures n > MAX_CLOSE_REASON_LEN || !IsUtf8(reason[..n])
  {
    if n <= MAX_CLOSE_REASON_LEN {
      BackedOverTails(reason, MAX_CLOSE_REASON_LEN, n);
      CutWithinIsNoText(reason, n);
    }
  }
}
