/** Variable-length integers (section 16 of RFC 9000). */
module VarInt {
  import opened Base
  import opened BigEndian
  import opened WtTypes

  datatype VarIntError = Incomplete | InvalidInput | BufferTooShort

  function EncodedLen(value: nat): (n: nat)
    ensures n in {1, 2, 4, 8}
  {
    if value <= 63 then 1 else if value <= 16383 then 2 else if value <= 1073741823 then 4 else 8
  }

  /** The two bits that tell the length, in place at the top of an octet. */
  function Tag(n: nat): nat {
    if n == 1 then 0 else if n == 2 then 0x40 else if n == 4 then 0x80 else 0xc0
  }

  /** The length that the top bits of an octet tell. */
  function LengthTold(first: Byte): (n: nat)
    ensures n in {1, 2, 4, 8}
  {
    if first < 0x40 then 1 else if first < 0x80 then 2 else if first < 0xc0 then 4 else 8
  }

  lemma {:induction false} TopOctet(value: nat, n: nat)
    requires n > 0 && value < 64 * Bound(n - 1)
    ensures ToBytes(value, n)[0] < 64
    decreases n
  {
    if n > 1 {
      TopOctet(value / 256, n - 1);
    } else {
      assert ToBytes(value / 256, 0) == [];
    }
  }

  lemma SixBitsFree(value: nat)
    requires value <= MAX_VALUE
    ensures value < 64 * Bound(EncodedLen(value) - 1)
  {
    Bounds();
    BigBounds();
    assert Bound(8) == 256 * Bound(7);
    assert Bound(0) == 1;
  }

  function Encoding(value: nat): (bytes: seq<Byte>)
    requires value <= MAX_VALUE
    ensures |bytes| == EncodedLen(value)
  {
    var n := EncodedLen(value);
    var plain := ToBytes(value, n);
    SixBitsFree(value);
    TopOctet(value, n);
    [plain[0] + Tag(n)] + plain[1..]
  }

  /** The value at the front of a buffer and how many octets it takes. */
  function Decoding(buf: seq<Byte>): (r: Result<(nat, nat), VarIntError>)
    ensures r.Ok? ==> 1 <= r.value.1 <= |buf|
  {
    if buf == [] then Err(Incomplete)
    else
      var n := LengthTold(buf[0]);
      if |buf| < n then Err(Incomplete) else Ok((FromBytes([buf[0] % 64] + buf[1..n]), n))
  }

  /** Every value that can be encoded is read back, whatever follows. */
  lemma RoundTrip(value: nat, rest: seq<Byte>)
    requires value <= MAX_VALUE
    ensures Decoding(Encoding(value) + rest) == Ok((value, EncodedLen(value)))
  {
    var n := EncodedLen(value);
    var plain, all := ToBytes(value, n), Encoding(value) + rest;
    SixBitsFree(value);
    TopOctet(value, n);
    ValueFits(value);
    FromToBytes(value, n);
    assert all[1..n] == plain[1..];
    assert [plain[0]] + plain[1..] == plain;
  }

  lemma ValueFits(value: nat)
    requires value <= MAX_VALUE
    ensures value < Bound(EncodedLen(value))
  {
    SixBitsFree(value);
  }

  /** Whatever is read fits 62 bits, and what follows does not matter. */
  lemma DecodingIsLocal(buf: seq<Byte>, more: seq<Byte>)
    requires Decoding(buf).Ok?
    ensures Decoding(buf + more) == Decoding(buf)
    ensures Decoding(buf).value.0 <= MAX_VALUE
  {
    hide FromBytes;
    var n := LengthTold(buf[0]);
    assert (buf + more)[1..n] == buf[1..n];
    LowSixBound(buf[0] % 64, buf[1..n]);
    Bounds();
    BigBounds();
  }

  lemma {:induction false} LowSixBound(top: Byte, bytes: seq<Byte>)
    requires top < 64
    ensures FromBytes([top] + bytes) < 64 * Bound(|bytes|)
    decreases |bytes|
  {
    var all := [top] + bytes;
    if bytes == [] {
      assert all[..0] == [];
      assert FromBytes(all[..0]) == 0;
    } else {
      assert all[..|all| - 1] == [top] + bytes[..|bytes| - 1];
      LowSixBound(top, bytes[..|bytes| - 1]);
    }
  }

  /** Writes a value at the start of buf, or fails when it is too large or does not fit. */
  method Encode(value: nat, buf: array<Byte>) returns (r: Result<nat, VarIntError>)
    modifies buf
    ensures r == if value > MAX_VALUE then Err(InvalidInput)
                 else if buf.Length < EncodedLen(value) then Err(BufferTooShort)
                 else Ok(EncodedLen(value))
    ensures r.Ok? ==> buf[..r.value] == Encoding(value)
    ensures forall k :: (if r.Ok? then r.value else 0) <= k < buf.Length ==> buf[k] == old(buf[k])
  {
    if value > MAX_VALUE {
      return Err(InvalidInput);
    }
    var n := EncodedLen(value);
    if buf.Length < n {
      return Err(BufferTooShort);
    }
    var b1 := value / 0x100;
    if n == 1 {
      OneOctet(value);
      buf[0] := value;
    } else if n == 2 {
      TwoOctets(value);
      buf[0], buf[1] := 0x40 + b1, value % 0x100;
    } else if n == 4 {
      FourOctets(value);
      var b2 := b1 / 0x100;
      var b3 := b2 / 0x100;
      buf[0], buf[1], buf[2], buf[3] := 0x80 + b3, b2 % 0x100, b1 % 0x100, value % 0x100;
    } else {
      EightOctets(value);
      var b2 := b1 / 0x100;
      var b3 := b2 / 0x100;
      var b4 := b3 / 0x100;
      var b5 := b4 / 0x100;
      var b6 := b5 / 0x100;
      var b7 := b6 / 0x100;
      buf[0], buf[1], buf[2], buf[3] := 0xc0 + b7, b6 % 0x100, b5 % 0x100, b4 % 0x100;
      buf[4], buf[5], buf[6], buf[7] := b3 % 0x100, b2 % 0x100, b1 % 0x100, value % 0x100;
    }
    return Ok(n);
  }

  lemma OneOctet(value: nat)
    requires value <= 63
    ensures Encoding(value) == [value]
  {
    OneMore(value, 0, []);
    assert ToBytes(value / 256, 0) == [];
  }

  lemma TwoOctets(value: nat)
    requires 63 < value <= 16383
    ensures value / 256 < 64 && Encoding(value) == [0x40 + value / 256, value % 256]
  {
    LowTwo(value);
  }

  lemma FourOctets(value: nat)
    requires 16383 < value <= 1073741823
    ensures var b1 := value / 256; var b2 := b1 / 256; var b3 := b2 / 256;
            b3 < 64 && Encoding(value) == [0x80 + b3, b2 % 256, b1 % 256, value % 256]
  {
    LowFour(value);
  }

  lemma EightOctets(value: nat)
    requires 1073741823 < value <= MAX_VALUE
    ensures var b1 := value / 256; var b2 := b1 / 256; var b3 := b2 / 256; var b4 := b3 / 256;
            var b5 := b4 / 256; var b6 := b5 / 256; var b7 := b6 / 256;
            && b7 < 64
            && Encoding(value) == [0xc0 + b7, b6 % 256, b5 % 256, b4 % 256, b3 % 256, b2 % 256, b1 % 256, value % 256]
  {
    var b4 := value / 256 / 256 / 256 / 256;
    LowFour(b4);
    HighAndLow(value);
  }

  lemma OneMore(value: nat, n: nat, tail: seq<Byte>)
    ensures ToBytes(value, n + 1) + tail == ToBytes(value / 256, n) + ([value % 256] + tail)
  {
  }

  lemma LowTwo(value: nat)
    requires value < 0x1_0000
    ensures ToBytes(value, 2) == [value / 256, value % 256]
  {
    assert ToBytes(value / 256, 1) == ToBytes(value / 256 / 256, 0) + [value / 256 % 256];
    assert ToBytes(value / 256 / 256, 0) == [];
  }

  lemma LowFour(value: nat)
    requires value < 0x1_0000_0000
    ensures var b1 := value / 256; var b2 := b1 / 256; var b3 := b2 / 256;
            ToBytes(value, 4) == [b3, b2 % 256, b1 % 256, value % 256]
  {
    var b2 := value / 256 / 256;
    LowTwo(b2);
    assert ToBytes(value / 256, 3) == ToBytes(b2, 2) + [value / 256 % 256];
  }

  /** Eight octets are the four high ones and the four low ones. */
  lemma HighAndLow(value: nat)
    ensures var b1 := value / 256; var b2 := b1 / 256; var b3 := b2 / 256;
            ToBytes(value, 8) == ToBytes(b3 / 256, 4) + [b3 % 256, b2 % 256, b1 % 256, value % 256]
  {
    var b1 := value / 256;
    var b2 := b1 / 256;
    var b3 := b2 / 256;
    assert ToBytes(b1, 7) == ToBytes(b2, 6) + [b1 % 256];
    assert ToBytes(b2, 6) == ToBytes(b3, 5) + [b2 % 256];
    assert ToBytes(b3, 5) == ToBytes(b3 / 256, 4) + [b3 % 256];
  }
}
