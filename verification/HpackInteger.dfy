/** HPACK prefix integers (section 5.1 of RFC 7541). */
module HpackInteger {
  import opened Base
  import opened Bits

  datatype IntegerError = Incomplete | Overflow | BufferTooShort

  /** An N-bit prefix, 1 <= N <= 8. */
  type PrefixBits = n: nat | 1 <= n <= 8 witness 1

  type U64 = n: nat | n < TWO_64

  /** The largest value an N-bit prefix holds. */
  function MaxPrefix(prefixBits: PrefixBits): (m: nat)
    ensures 1 <= m <= 255
  {
    Pow2Small();
    Pow2Monotone(1, prefixBits);
    Pow2Monotone(prefixBits, 8);
    Pow2(prefixBits) - 1
  }

  /** The pattern bits above the prefix of the first octet. */
  predicate IsPattern(pattern: Byte, prefixBits: PrefixBits) {
    LowBits(pattern, prefixBits) == 0
  }

  /** The continuation octets of a remainder: seven bits each, least significant first. */
  function Continuation(remaining: nat): (bytes: seq<Byte>)
    ensures |bytes| >= 1
  {
    if remaining < 128 then [remaining] else [128 + remaining % 128] + Continuation(remaining / 128)
  }

  /** The octets of a value after the pattern bits of its first octet. */
  function Encoding(value: nat, prefixBits: PrefixBits, pattern: Byte): (bytes: seq<Byte>)
    requires IsPattern(pattern, prefixBits)
    ensures |bytes| >= 1
  {
    if value < MaxPrefix(prefixBits) then
      PatternFits(pattern, prefixBits, value);
      [pattern + value]
    else
      PatternFits(pattern, prefixBits, MaxPrefix(prefixBits));
      [pattern + MaxPrefix(prefixBits)] + Continuation(value - MaxPrefix(prefixBits))
  }

  lemma PatternFits(pattern: Byte, prefixBits: PrefixBits, low: nat)
    requires IsPattern(pattern, prefixBits)
    requires low <= MaxPrefix(prefixBits)
    ensures pattern + low < 256
    ensures LowBits(pattern + low, prefixBits) == low
    ensures Or(pattern, low) == pattern + low
  {
    Pow2Small();
    RoomBelow(pattern, 8 - prefixBits, prefixBits);
    OrDisjoint(pattern, low, prefixBits);
  }

  /** Reads continuation octets from offset on; each adds seven bits at position shift. */
  function Accumulate(buf: seq<Byte>, offset: nat, shift: nat, value: nat): Result<(nat, nat), IntegerError>
    requires offset <= |buf|
    decreases |buf| - offset
  {
    if offset == |buf| then Err(Incomplete)
    else if shift >= 63 then Err(Overflow)
    else
      var sum := value + Shl(buf[offset] % 128, shift);
      if buf[offset] < 128 then Ok((sum, offset + 1)) else Accumulate(buf, offset + 1, shift + 7, sum)
  }

  /** The value at the start of buf and the number of octets it takes. */
  function Decoding(buf: seq<Byte>, prefixBits: PrefixBits): Result<(nat, nat), IntegerError> {
    if buf == [] then Err(Incomplete)
    else
      var first := LowBits(buf[0], prefixBits);
      if first < MaxPrefix(prefixBits) then Ok((first, 1)) else Accumulate(buf, 1, 0, MaxPrefix(prefixBits))
  }

  /** Writes the encoding of value at the start of buf, or fails when it does not fit. */
  method Encode(buf: array<Byte>, value: U64, prefixBits: PrefixBits, pattern: Byte)
      returns (r: Result<nat, IntegerError>)
    requires IsPattern(pattern, prefixBits)
    modifies buf
    ensures r.Ok? <==> |Encoding(value, prefixBits, pattern)| <= buf.Length
    ensures r.Ok? ==> r.value == |Encoding(value, prefixBits, pattern)|
    ensures r.Ok? ==> buf[..] == Encoding(value, prefixBits, pattern) + old(buf[r.value..])
    ensures r.Err? ==> r.error == BufferTooShort
  {
    if buf.Length == 0 {
      return Err(BufferTooShort);
    }
    var maxPrefix := MaxPrefix(prefixBits);
    if value < maxPrefix {
      buf[0] := FirstOctet(pattern, prefixBits, value);
      return Ok(1);
    }
    buf[0] := FirstOctet(pattern, prefixBits, maxPrefix);
    r := WriteContinuation(buf, value - maxPrefix);
  }

  /** The pattern bits combined with the bits of the prefix. */
  function FirstOctet(pattern: Byte, prefixBits: PrefixBits, low: nat): (octet: Byte)
    requires IsPattern(pattern, prefixBits) && low <= MaxPrefix(prefixBits)
    ensures octet == pattern + low
  {
    PatternFits(pattern, prefixBits, low);
    Or(pattern, low)
  }

  /** The part of Encode after the first octet. */
  method WriteContinuation(buf: array<Byte>, tail: nat) returns (r: Result<nat, IntegerError>)
    requires buf.Length >= 1
    modifies buf
    ensures r.Ok? <==> 1 + |Continuation(tail)| <= buf.Length
    ensures r.Ok? ==> r.value == 1 + |Continuation(tail)|
    ensures r.Ok? ==> buf[..] == [old(buf[0])] + Continuation(tail) + old(buf[r.value..])
    ensures r.Err? ==> r.error == BufferTooShort
  {
    var remaining := tail;
    var offset := 1;
    ghost var whole := [buf[0]] + Continuation(tail);
    while remaining >= 128
      invariant 1 <= offset <= buf.Length
      invariant whole == buf[..offset] + Continuation(remaining)
      invariant buf[offset..] == old(buf[offset..])
    {
      if offset >= buf.Length {
        return Err(BufferTooShort);
      }
      OrLowSeven(remaining % 128);
      Push(buf[..offset], remaining);
      buf[offset] := Or(0x80, remaining % 128);
      assert buf[..offset + 1] == buf[..offset] + [buf[offset]];
      remaining := remaining / 128;
      offset := offset + 1;
    }
    if offset >= buf.Length {
      return Err(BufferTooShort);
    }
    buf[offset] := remaining;
    assert whole == buf[..offset + 1];
    return Ok(offset + 1);
  }

  lemma Push(written: seq<Byte>, remaining: nat)
    requires remaining >= 128
    ensures written + Continuation(remaining)
         == written + [128 + remaining % 128] + Continuation(remaining / 128)
  {
  }

  lemma OrLowSeven(low: nat)
    requires low < 128
    ensures Or(0x80, low) == 128 + low
  {
    Pow2Small();
    assert LowBits(0x80, 7) == 0;
    OrDisjoint(0x80, low, 7);
  }

  /** Reads a value from the start of buf; its running sum always fits 64 bits. */
  method Decode(buf: seq<Byte>, prefixBits: PrefixBits) returns (r: Result<(nat, nat), IntegerError>)
    ensures r == Decoding(buf, prefixBits)
    ensures r.Ok? ==> r.value.0 < TWO_64 && 1 <= r.value.1 <= |buf|
  {
    if buf == [] {
      return Err(Incomplete);
    }
    var maxPrefix := MaxPrefix(prefixBits);
    var first := LowBits(buf[0], prefixBits);
    if first < maxPrefix {
      return Ok((first, 1));
    }
    var value: nat := maxPrefix;
    var shift: nat := 0;
    var offset := 1;
    while true
      invariant 1 <= offset <= |buf| && shift == 7 * (offset - 1)
      invariant value < MaxPrefix(prefixBits) + Pow2(shift)
      invariant Decoding(buf, prefixBits) == Accumulate(buf, offset, shift, value)
      decreases |buf| - offset
    {
      if offset >= |buf| {
        return Err(Incomplete);
      }
      var byte := buf[offset];
      offset := offset + 1;
      if shift >= 63 {
        return Err(Overflow);
      }
      var contribution: nat := byte % 128;
      AccumulatorBound(value, contribution, shift, prefixBits);
      // Neither the shift nor the addition leaves 64 bits, so the checked addition never fails.
      assert Shl(contribution, shift) < TWO_64 && value + Shl(contribution, shift) < TWO_64;
      value := value + Shl(contribution, shift);
      if byte < 128 {
        break;
      }
      shift := shift + 7;
    }
    return Ok((value, offset));
  }

  lemma AccumulatorBound(value: nat, contribution: nat, shift: nat, prefixBits: PrefixBits)
    requires contribution < 128 && shift < 63 && shift % 7 == 0
    requires value < MaxPrefix(prefixBits) + Pow2(shift)
    ensures value + Shl(contribution, shift) < MaxPrefix(prefixBits) + Pow2(shift + 7)
    ensures value + Shl(contribution, shift) < TWO_64
  {
    ShlMonotone(contribution, 127, shift);
    ShlSum(127, 1, shift);
    ShlSeven(1, shift);
    ShlIsProduct(1, shift);
    ShlIsProduct(1, shift + 7);
    Pow2Monotone(shift + 7, 63);
    Pow2Large();
  }

  /** bytes stand in buf from offset on. */
  predicate HoldsAt(buf: seq<Byte>, offset: nat, bytes: seq<Byte>) {
    offset + |bytes| <= |buf| && forall i :: 0 <= i < |bytes| ==> buf[offset + i] == bytes[i]
  }

  lemma {:induction false} AccumulateContinuation(
      buf: seq<Byte>, offset: nat, remaining: nat, shift: nat, value: nat)
    requires HoldsAt(buf, offset, Continuation(remaining))
    requires shift % 7 == 0 && (shift < 63 || (shift == 63 && remaining > 0))
    ensures Accumulate(buf, offset, shift, value)
         == if remaining < Pow2(63 - shift)
            then Ok((value + Shl(remaining, shift), offset + |Continuation(remaining)|))
            else Err(Overflow)
    decreases 63 - shift
  {
    assert buf[offset + 0] == Continuation(remaining)[0];
    if shift < 63 {
      SevenMore(63 - shift - 7);
      if remaining >= 128 {
        var rest := remaining / 128;
        forall i | 0 <= i < |Continuation(rest)| ensures buf[offset + 1 + i] == Continuation(rest)[i] {
          assert buf[offset + (i + 1)] == Continuation(remaining)[i + 1];
        }
        AccumulateContinuation(buf, offset + 1, rest, shift + 7, value + Shl(remaining % 128, shift));
        ShlSeven(rest, shift);
        ShlSum(remaining % 128, 128 * rest, shift);
      }
    }
  }

  lemma SevenMore(n: nat)
    ensures Pow2(n + 7) == 128 * Pow2(n)
  {
    assert Pow2(n + 7) == 4 * Pow2(n + 5) == 16 * Pow2(n + 3) == 64 * Pow2(n + 1);
  }

  lemma AccumulateWhole(buf: seq<Byte>, remaining: nat, value: nat)
    requires HoldsAt(buf, 1, Continuation(remaining))
    ensures Accumulate(buf, 1, 0, value)
         == if remaining < TWO_63 then Ok((value + remaining, 1 + |Continuation(remaining)|)) else Err(Overflow)
  {
    hide Accumulate, Continuation, HoldsAt, Pow2;
    Pow2Large();
    AccumulateContinuation(buf, 1, remaining, 0, value);
  }

  /** Decoding an encoded value returns it exactly when its part beyond the prefix is below 2^63. */
  lemma DecodingEncoding(value: nat, prefixBits: PrefixBits, pattern: Byte, rest: seq<Byte>)
    requires IsPattern(pattern, prefixBits)
    ensures Decoding(Encoding(value, prefixBits, pattern) + rest, prefixBits)
         == if value < MaxPrefix(prefixBits) + TWO_63
            then Ok((value, |Encoding(value, prefixBits, pattern)|))
            else Err(Overflow)
  {
    var m := MaxPrefix(prefixBits);
    PatternFits(pattern, prefixBits, if value < m then value else m);
    if value >= m {
      AccumulateWhole(Encoding(value, prefixBits, pattern) + rest, value - m, m);
    }
  }

  /** In particular every value below 2^63 is read back. */
  lemma RoundTrip(value: nat, prefixBits: PrefixBits, pattern: Byte, rest: seq<Byte>)
    requires IsPattern(pattern, prefixBits) && value < TWO_63
    ensures Decoding(Encoding(value, prefixBits, pattern) + rest, prefixBits)
         == Ok((value, |Encoding(value, prefixBits, pattern)|))
  {
    DecodingEncoding(value, prefixBits, pattern, rest);
  }

  lemma {:induction false} ContinuationLength(remaining: nat, digits: nat)
    requires digits >= 1 && remaining < Pow2(7 * digits)
    ensures |Continuation(remaining)| <= digits
  {
    Pow2Small();
    if remaining >= 128 {
      assert digits > 1;
      SevenMore(7 * (digits - 1));
      ContinuationLength(remaining / 128, digits - 1);
    }
  }

  /** No 64-bit value takes more than eleven octets. */
  lemma EncodingLength(value: U64, prefixBits: PrefixBits, pattern: Byte)
    requires IsPattern(pattern, prefixBits)
    ensures |Encoding(value, prefixBits, pattern)| <= 11
  {
    if value >= MaxPrefix(prefixBits) {
      Pow2Large();
      Pow2Monotone(64, 70);
      ContinuationLength(value - MaxPrefix(prefixBits), 10);
    }
  }

  lemma {:induction false} NoPattern(n: nat)
    ensures LowBits(0, n) == 0
  {
    if n > 0 {
      NoPattern(n - 1);
    }
  }

  /** How many octets the encoding of a value takes, whatever the pattern bits. */
  method EncodedLen(value: U64, prefixBits: PrefixBits) returns (n: nat)
    ensures forall pattern: Byte :: IsPattern(pattern, prefixBits) ==> n == |Encoding(value, prefixBits, pattern)|
    ensures 1 <= n <= 11
  {
    NoPattern(prefixBits);
    EncodingLength(value, prefixBits, 0);
    var maxPrefix := MaxPrefix(prefixBits);
    if value < maxPrefix {
      return 1;
    }
    var remaining: nat := value - maxPrefix;
    var len := 1;
    while remaining >= 128
      invariant len + |Continuation(remaining)| == 1 + |Continuation(value - maxPrefix)|
    {
      remaining := remaining / 128;
      len := len + 1;
    }
    return len + 1;
  }
}
