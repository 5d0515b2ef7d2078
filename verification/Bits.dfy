/** Powers of two, bitwise OR on naturals, and bit strings with their numeric value. */
module Bits {
  import opened Base

  function Pow2(n: nat): (p: nat)
    ensures p >= 1
  {
    if n == 0 then 1 else 2 * Pow2(n - 1)
  }

  lemma {:induction false} Pow2Add(m: nat, n: nat)
    ensures Pow2(m + n) == Pow2(m) * Pow2(n)
  {
    if m > 0 {
      Pow2Add(m - 1, n);
      assert Pow2(m + n) == 2 * Pow2(m - 1 + n);
      assert 2 * (Pow2(m - 1) * Pow2(n)) == (2 * Pow2(m - 1)) * Pow2(n);
    }
  }

  lemma Pow2Small()
    ensures Pow2(0) == 1 && Pow2(1) == 2 && Pow2(2) == 4 && Pow2(3) == 8 && Pow2(4) == 16
    ensures Pow2(5) == 32 && Pow2(6) == 64 && Pow2(7) == 128 && Pow2(8) == 256
  {
    assert Pow2(7) == 128 && Pow2(8) == 256;
  }

  lemma Pow2Large()
    ensures Pow2(32) == TWO_32 && Pow2(63) == TWO_63 && Pow2(64) == TWO_64
  {
    Pow2Small();
    Pow2Add(8, 8);
    Pow2Add(16, 16);
    Pow2Add(32, 32);
    assert Pow2(64) == 2 * Pow2(63);
  }

  lemma {:induction false} Pow2Monotone(m: nat, n: nat)
    requires m <= n
    ensures Pow2(m) <= Pow2(n)
  {
    if m < n {
      Pow2Monotone(m, n - 1);
    }
  }

  /** v shifted left by n places. */
  function Shl(v: nat, n: nat): nat
    decreases n, v
  {
    if n == 0 then v else Shl(2 * v, n - 1)
  }

  lemma {:induction false} ShlIsProduct(v: nat, n: nat)
    ensures Shl(v, n) == v * Pow2(n)
    decreases n
  {
    if n > 0 {
      ShlIsProduct(2 * v, n - 1);
      assert (2 * v) * Pow2(n - 1) == v * (2 * Pow2(n - 1));
    }
  }

  lemma {:induction false} ShlSum(v: nat, w: nat, n: nat)
    ensures Shl(v + w, n) == Shl(v, n) + Shl(w, n)
    decreases n
  {
    if n > 0 {
      ShlSum(2 * v, 2 * w, n - 1);
    }
  }

  lemma {:induction false} ShlMonotone(v: nat, w: nat, n: nat)
    requires v <= w
    ensures Shl(v, n) <= Shl(w, n)
  {
    ShlSum(v, w - v, n);
  }

  lemma {:induction false} ShlAdd(v: nat, m: nat, n: nat)
    ensures Shl(v, m + n) == Shl(Shl(v, m), n)
    decreases m
  {
    if m > 0 {
      ShlAdd(2 * v, m - 1, n);
    }
  }

  /** Shifting by n + 7 is shifting a value 128 times as large by n. */
  lemma ShlSeven(v: nat, n: nat)
    ensures Shl(v, n + 7) == Shl(128 * v, n)
  {
    ShlAdd(v, 7, n);
    assert Shl(v, 7) == Shl(4 * v, 5) == Shl(16 * v, 3) == Shl(64 * v, 1) == 128 * v;
  }

  /** v shifted right by n places. */
  function Shr(v: nat, n: nat): nat
    decreases n, v
  {
    if n == 0 then v else Shr(v / 2, n - 1)
  }

  /** The n low binary digits of v: v masked with 2^n - 1. */
  function LowBits(v: nat, n: nat): nat
    decreases n, v
  {
    if n == 0 then 0 else 2 * LowBits(v / 2, n - 1) + v % 2
  }

  /** Bitwise OR, one binary digit at a time. */
  function Or(a: nat, b: nat): nat {
    if a == 0 && b == 0 then 0
    else 2 * Or(a / 2, b / 2) + (if a % 2 == 1 || b % 2 == 1 then 1 else 0)
  }

  lemma {:induction false} OrZero(a: nat)
    ensures Or(a, 0) == a
  {
    if a != 0 {
      OrZero(a / 2);
    }
  }

  /** OR of a number whose low k digits are clear with a number below 2^k is their sum. */
  lemma {:induction false} OrDisjoint(a: nat, b: nat, k: nat)
    requires LowBits(a, k) == 0 && b < Pow2(k)
    ensures Or(a, b) == a + b
    ensures LowBits(a + b, k) == b
    decreases k
  {
    if k == 0 {
      OrZero(a);
    } else {
      OrDisjoint(a / 2, b / 2, k - 1);
      assert (a + b) / 2 == a / 2 + b / 2;
    }
  }

  /** Below 2^(m + k), a number whose low k digits are clear leaves room for 2^k. */
  lemma {:induction false} RoomBelow(a: nat, m: nat, k: nat)
    requires LowBits(a, k) == 0 && a < Pow2(m + k)
    ensures a + Pow2(k) <= Pow2(m + k)
    decreases k
  {
    if k > 0 {
      RoomBelow(a / 2, m, k - 1);
    }
  }

  /** Blocks of m numbers do not overlap. */
  lemma SameBlock(x: nat, high: nat, low: nat, w: nat, m: nat)
    requires x == high * m + low && low < m
    ensures w * m <= x < w * m + m <==> w == high
    ensures x - low == w * m <==> w == high
  {
    assert (high - w) * m == high * m - w * m;
    MulOutside(high - w, m);
  }

  lemma MulOutside(d: int, m: nat)
    ensures d >= 1 ==> d * m >= m
    ensures d <= -1 ==> d * m + m <= 0
  {
    assert d * m == m + (d - 1) * m;
    assert d * m + m == (d + 1) * m;
  }

  lemma HalveDouble(v: nat, last: bool)
    ensures (2 * v + (if last then 1 else 0)) / 2 == v
    ensures (2 * v + (if last then 1 else 0)) % 2 == 1 <==> last
  {
  }

  lemma DoubleShift(a: nat, v: nat, p: nat)
    ensures 2 * (a * p + v) == a * (2 * p) + 2 * v
  {
    assert a * (2 * p) == 2 * (a * p);
  }

  /** A bit string; the last bit is the least significant. */
  datatype BitString = Empty | Snoc(init: BitString, last: bool)

  function Length(bits: BitString): nat {
    match bits
    case Empty => 0
    case Snoc(init, _) => Length(init) + 1
  }

  /** The number a bit string denotes. */
  function Value(bits: BitString): nat {
    match bits
    case Empty => 0
    case Snoc(init, last) => 2 * Value(init) + (if last then 1 else 0)
  }

  lemma {:induction false} ValueBound(bits: BitString)
    ensures Value(bits) < Pow2(Length(bits))
  {
    if bits.Snoc? {
      ValueBound(bits.init);
    }
  }

  /** The n low binary digits of v. */
  function ToBits(v: nat, n: nat): (bits: BitString)
    ensures Length(bits) == n
  {
    if n == 0 then Empty else Snoc(ToBits(v / 2, n - 1), v % 2 == 1)
  }

  lemma {:induction false} ValueToBits(v: nat, n: nat)
    requires v < Pow2(n)
    ensures Value(ToBits(v, n)) == v
  {
    if n > 0 {
      ValueToBits(v / 2, n - 1);
    }
  }

  lemma {:induction false} ToBitsValue(bits: BitString)
    ensures ToBits(Value(bits), Length(bits)) == bits
  {
    if bits.Snoc? {
      ToBitsValue(bits.init);
      HalveDouble(Value(bits.init), bits.last);
    }
  }

  /** Bit strings of one length are determined by their value. */
  lemma ValueInjective(a: BitString, b: BitString)
    requires Length(a) == Length(b) && Value(a) == Value(b)
    ensures a == b
  {
    ToBitsValue(a);
    ToBitsValue(b);
  }

  /** The bits of a followed by those of b. */
  function Cat(a: BitString, b: BitString): BitString {
    match b
    case Empty => a
    case Snoc(init, last) => Snoc(Cat(a, init), last)
  }

  lemma {:induction false} CatLength(a: BitString, b: BitString)
    ensures Length(Cat(a, b)) == Length(a) + Length(b)
  {
    if b.Snoc? {
      CatLength(a, b.init);
    }
  }

  lemma {:induction false} CatAssoc(a: BitString, b: BitString, c: BitString)
    ensures Cat(Cat(a, b), c) == Cat(a, Cat(b, c))
  {
    if c.Snoc? {
      CatAssoc(a, b, c.init);
    }
  }

  lemma {:induction false} CatEmpty(b: BitString)
    ensures Cat(Empty, b) == b
  {
    if b.Snoc? {
      CatEmpty(b.init);
    }
  }

  /** The first n bits. */
  function First(bits: BitString, n: nat): (first: BitString)
    requires n <= Length(bits)
    ensures Length(first) == n
  {
    if n == Length(bits) then bits else First(bits.init, n)
  }

  /** All but the first n bits. */
  function Rest(bits: BitString, n: nat): (rest: BitString)
    requires n <= Length(bits)
    ensures Length(rest) == Length(bits) - n
  {
    if n == Length(bits) then Empty else Snoc(Rest(bits.init, n), bits.last)
  }

  lemma {:induction false} CatFirstRest(bits: BitString, n: nat)
    requires n <= Length(bits)
    ensures Cat(First(bits, n), Rest(bits, n)) == bits
  {
    if n < Length(bits) {
      CatFirstRest(bits.init, n);
    }
  }

  lemma {:induction false} SplitCat(a: BitString, b: BitString)
    ensures Length(a) <= Length(Cat(a, b))
    ensures First(Cat(a, b), Length(a)) == a && Rest(Cat(a, b), Length(a)) == b
  {
    CatLength(a, b);
    if b.Snoc? {
      SplitCat(a, b.init);
      CatLength(a, b.init);
    }
  }

  /** A front part no longer than a is a front part of a. */
  lemma {:induction false} FirstOfCat(a: BitString, b: BitString, n: nat)
    requires n <= Length(a)
    ensures n <= Length(Cat(a, b))
    ensures First(Cat(a, b), n) == First(a, n) && Rest(Cat(a, b), n) == Cat(Rest(a, n), b)
  {
    CatLength(a, b);
    if b.Snoc? {
      FirstOfCat(a, b.init, n);
      CatLength(a, b.init);
    }
  }

  lemma {:induction false} ValueCat(a: BitString, b: BitString)
    ensures Value(Cat(a, b)) == Value(a) * Pow2(Length(b)) + Value(b)
  {
    if b.Snoc? {
      ValueCat(a, b.init);
      DoubleShift(Value(a), Value(b.init), Pow2(Length(b.init)));
    }
  }

  /** A run of n equal bits. */
  function Repeat(bit: bool, n: nat): (bits: BitString)
    ensures Length(bits) == n
  {
    if n == 0 then Empty else Snoc(Repeat(bit, n - 1), bit)
  }

  function Zeros(n: nat): BitString {
    Repeat(false, n)
  }

  function Ones(n: nat): BitString {
    Repeat(true, n)
  }

  lemma {:induction false} RepeatJoin(bit: bool, m: nat, n: nat)
    ensures Cat(Repeat(bit, m), Repeat(bit, n)) == Repeat(bit, m + n)
  {
    if n > 0 {
      RepeatJoin(bit, m, n - 1);
    }
  }

  lemma {:induction false} ValueOnes(n: nat)
    ensures Value(Ones(n)) == Pow2(n) - 1
  {
    if n > 0 {
      ValueOnes(n - 1);
    }
  }

  lemma {:induction false} ValueZeros(n: nat)
    ensures Value(Zeros(n)) == 0
  {
    if n > 0 {
      ValueZeros(n - 1);
    }
  }

  /** n one bits: (1 << n) - 1. */
  function Mask(n: nat): (m: nat)
    ensures m == Value(Ones(n))
  {
    ShlIsProduct(1, n);
    ValueOnes(n);
    Shl(1, n) - 1
  }

  lemma {:induction false} ZerosStep(bits: BitString, n: nat)
    ensures Cat(Snoc(bits, false), Zeros(n)) == Cat(bits, Zeros(n + 1))
  {
    if n > 0 {
      ZerosStep(bits, n - 1);
    }
  }

  /** Shifting left appends zeros. */
  lemma {:induction false} ShlValue(bits: BitString, n: nat)
    ensures Shl(Value(bits), n) == Value(Cat(bits, Zeros(n)))
    decreases n
  {
    if n > 0 {
      var longer := Snoc(bits, false);
      ShlValue(longer, n - 1);
      ZerosStep(bits, n - 1);
      assert Value(longer) == 2 * Value(bits);
      assert Shl(Value(bits), n) == Shl(2 * Value(bits), n - 1);
    }
  }

  /** Shifting right drops the last bits. */
  lemma {:induction false} ShrValue(a: BitString, b: BitString)
    ensures Shr(Value(Cat(a, b)), Length(b)) == Value(a)
  {
    if b.Snoc? {
      HalveDouble(Value(Cat(a, b.init)), b.last);
      ShrValue(a, b.init);
    }
  }

  /** Masking keeps the last bits. */
  lemma {:induction false} LowValue(a: BitString, b: BitString)
    ensures LowBits(Value(Cat(a, b)), Length(b)) == Value(b)
  {
    if b.Snoc? {
      HalveDouble(Value(Cat(a, b.init)), b.last);
      LowValue(a, b.init);
    }
  }

  /** Masking more bits than there are changes nothing. */
  lemma {:induction false} LowWhole(bits: BitString, n: nat)
    requires Length(bits) <= n
    ensures LowBits(Value(bits), n) == Value(bits)
    decreases n
  {
    if n > 0 {
      if bits.Empty? {
        LowWhole(Empty, n - 1);
      } else {
        HalveDouble(Value(bits.init), bits.last);
        LowWhole(bits.init, n - 1);
      }
    }
  }

  /** OR-ing bits into the zeros that end a bit string appends them. */
  lemma {:induction false} OrIntoZeros(a: BitString, b: BitString)
    ensures Or(Value(Cat(a, Zeros(Length(b)))), Value(b)) == Value(Cat(a, b))
  {
    if b.Empty? {
      OrZero(Value(a));
    } else {
      HalveDouble(Value(Cat(a, Zeros(Length(b.init)))), false);
      HalveDouble(Value(b.init), b.last);
      OrIntoZeros(a, b.init);
    }
  }

  /** The bits of a byte string, eight per octet. */
  function BytesToBits(bytes: seq<Byte>): (bits: BitString)
  {
    if bytes == [] then Empty else Cat(BytesToBits(bytes[..|bytes| - 1]), ToBits(bytes[|bytes| - 1], 8))
  }

  lemma {:induction false} BytesToBitsLength(bytes: seq<Byte>)
    ensures Length(BytesToBits(bytes)) == 8 * |bytes|
  {
    if bytes != [] {
      BytesToBitsLength(bytes[..|bytes| - 1]);
      CatLength(BytesToBits(bytes[..|bytes| - 1]), ToBits(bytes[|bytes| - 1], 8));
    }
  }

  /** Bit strings grow by eight bits with each octet appended. */
  lemma BytesToBitsAppend(bytes: seq<Byte>, byte: Byte)
    ensures BytesToBits(bytes + [byte]) == Cat(BytesToBits(bytes), ToBits(byte, 8))
  {
    assert (bytes + [byte])[..|bytes|] == bytes;
  }

  lemma OctetValue(byte: Byte)
    ensures Value(ToBits(byte, 8)) == byte
  {
    Pow2Small();
    ValueToBits(byte, 8);
  }

  lemma OctetBound(bits: BitString)
    requires Length(bits) == 8
    ensures Value(bits) < 256 && ToBits(Value(bits), 8) == bits
  {
    Pow2Small();
    ValueBound(bits);
    ToBitsValue(bits);
  }

  lemma {:induction false} BytesToBitsInjective(a: seq<Byte>, b: seq<Byte>)
    requires BytesToBits(a) == BytesToBits(b)
    ensures a == b
  {
    BytesToBitsLength(a);
    BytesToBitsLength(b);
    if a != [] {
      var n := |a| - 1;
      var x, y := BytesToBits(a[..n]), BytesToBits(b[..n]);
      BytesToBitsLength(a[..n]);
      BytesToBitsLength(b[..n]);
      SplitCat(x, ToBits(a[n], 8));
      SplitCat(y, ToBits(b[n], 8));
      BytesToBitsInjective(a[..n], b[..n]);
      OctetValue(a[n]);
      OctetValue(b[n]);
      assert a == a[..n] + [a[n]] && b == b[..n] + [b[n]];
    }
  }

  /** The n octets of a bit string of 8 * n bits. */
  function Pack(bits: BitString, n: nat): (bytes: seq<Byte>)
    requires Length(bits) == 8 * n
    ensures |bytes| == n
    decreases n
  {
    if n == 0 then []
    else
      OctetBound(Rest(bits, 8 * (n - 1)));
      Pack(First(bits, 8 * (n - 1)), n - 1) + [Value(Rest(bits, 8 * (n - 1)))]
  }

  lemma {:induction false} BytesToBitsPack(bits: BitString, n: nat)
    requires Length(bits) == 8 * n
    ensures BytesToBits(Pack(bits, n)) == bits
    decreases n
  {
    if n > 0 {
      var front, back := First(bits, 8 * (n - 1)), Rest(bits, 8 * (n - 1));
      BytesToBitsPack(front, n - 1);
      OctetBound(back);
      BytesToBitsAppend(Pack(front, n - 1), Value(back));
      CatFirstRest(bits, 8 * (n - 1));
    }
  }

  /** Packing undoes unpacking. */
  lemma PackBytesToBits(bytes: seq<Byte>)
    ensures Length(BytesToBits(bytes)) == 8 * |bytes|
    ensures Pack(BytesToBits(bytes), |bytes|) == bytes
  {
    BytesToBitsLength(bytes);
    BytesToBitsPack(BytesToBits(bytes), |bytes|);
    BytesToBitsInjective(Pack(BytesToBits(bytes), |bytes|), bytes);
  }
}
