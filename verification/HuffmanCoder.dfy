/** The Huffman encoder and decoder, which keep pending bits in a 64-bit accumulator. */
module HuffmanCoder {
  import opened Base
  import opened Bits
  import opened Huffman

  /** The sum of the code lengths of a byte string. */
  function BitCount(t: Code, data: seq<Byte>): nat
    requires GoodSyms(t)
  {
    if data == [] then 0 else BitCount(t, data[..|data| - 1]) + t[data[|data| - 1]].bits
  }

  /** The number of octets Encode will write. */
  function EncodedLen(t: Code, data: seq<Byte>): nat
    requires GoodSyms(t)
  {
    Octets(BitCount(t, data))
  }

  lemma {:induction false} BitCountIsLength(t: Code, data: seq<Byte>)
    requires GoodSyms(t)
    ensures BitCount(t, data) == Length(EncodeBits(t, data))
  {
    if data != [] {
      var init := data[..|data| - 1];
      BitCountIsLength(t, init);
      CatLength(EncodeBits(t, init), Word(t[data[|data| - 1]]));
    }
  }

  /** The length announced for an encoding is its length. */
  lemma EncodedLenIsLength(t: Code, data: seq<Byte>)
    requires GoodSyms(t)
    ensures EncodedLen(t, data) == |Encoding(t, data)|
  {
    BitCountIsLength(t, data);
  }

  lemma {:induction false} BitCountPrefix(t: Code, data: seq<Byte>, i: nat)
    requires GoodSyms(t) && i <= |data|
    ensures BitCount(t, data[..i]) <= BitCount(t, data)
  {
    if i < |data| {
      assert data[..|data| - 1][..i] == data[..i];
      BitCountPrefix(t, data[..|data| - 1], i);
    } else {
      assert data[..i] == data;
    }
  }

  /** The 64-bit accumulator holds the pending bits at its top, followed by zeros. */
  predicate AtTop(acc: nat, accBits: nat, pending: BitString) {
    Length(pending) == accBits <= 64 && acc == Value(Cat(pending, Zeros(64 - accBits)))
  }

  lemma AccumulatorFits(acc: nat, accBits: nat, pending: BitString)
    requires AtTop(acc, accBits, pending)
    ensures acc < TWO_64
  {
    CatLength(pending, Zeros(64 - accBits));
    ValueBound(Cat(pending, Zeros(64 - accBits)));
    Pow2Large();
  }

  /** A left-justified code word shifted to the place after n bits in use. */
  lemma ShiftedWord(sym: HuffmanSym, n: nat, k: nat)
    requires GoodSym(sym) && n + sym.bits + k == 64
    ensures Shr(Shl(sym.code, 32), n) == Value(Cat(Word(sym), Zeros(k)))
  {
    var w := Word(sym);
    CodeBits(sym);
    ShlValue(Cat(w, Zeros(32 - sym.bits)), 32);
    CatAssoc(w, Zeros(32 - sym.bits), Zeros(32));
    RepeatJoin(false, 32 - sym.bits, 32);
    RepeatJoin(false, k, n);
    CatAssoc(w, Zeros(k), Zeros(n));
    ShrValue(Cat(w, Zeros(k)), Zeros(n));
  }

  /** OR-ing the shifted code word appends it to the pending bits. */
  lemma OrAppends(acc: nat, accBits: nat, pending: BitString, w: BitString, k: nat)
    requires AtTop(acc, accBits, pending)
    requires accBits + Length(w) + k == 64
    ensures AtTop(Or(acc, Value(Cat(w, Zeros(k)))), accBits + Length(w), Cat(pending, w))
  {
    var shifted := Cat(w, Zeros(k));
    CatLength(w, Zeros(k));
    OrIntoZeros(pending, shifted);
    CatAssoc(pending, w, Zeros(k));
    CatLength(pending, w);
  }

  lemma AppendWord(acc: nat, accBits: nat, pending: BitString, sym: HuffmanSym)
    requires GoodSym(sym) && accBits < 8 && AtTop(acc, accBits, pending)
    ensures AtTop(Or(acc, Shr(Shl(sym.code, 32), accBits)), accBits + sym.bits, Cat(pending, Word(sym)))
  {
    var k := 64 - accBits - sym.bits;
    ShiftedWord(sym, accBits, k);
    OrAppends(acc, accBits, pending, Word(sym), k);
  }

  /** The top octet of the accumulator is the first eight bits. */
  lemma TopOctet(acc: nat, accBits: nat, pending: BitString)
    requires AtTop(acc, accBits, pending) && accBits >= 8
    ensures Shr(acc, 56) == Value(First(pending, 8)) < 256
  {
    var head, tail := First(pending, 8), Cat(Rest(pending, 8), Zeros(64 - accBits));
    CatFirstRest(pending, 8);
    CatAssoc(head, Rest(pending, 8), Zeros(64 - accBits));
    CatLength(Rest(pending, 8), Zeros(64 - accBits));
    ShrValue(head, tail);
    OctetBound(head);
  }

  /** Shifting out the top octet drops the first eight bits. */
  lemma ShiftOut(acc: nat, accBits: nat, pending: BitString)
    requires AtTop(acc, accBits, pending) && accBits >= 8
    ensures AtTop(LowBits(Shl(acc, 8), 64), accBits - 8, Rest(pending, 8))
  {
    var head, rest := First(pending, 8), Rest(pending, 8);
    var tail := Cat(rest, Zeros(64 - accBits + 8));
    CatFirstRest(pending, 8);
    ShlValue(Cat(pending, Zeros(64 - accBits)), 8);
    CatAssoc(pending, Zeros(64 - accBits), Zeros(8));
    RepeatJoin(false, 64 - accBits, 8);
    CatAssoc(head, rest, Zeros(64 - accBits + 8));
    CatLength(rest, Zeros(64 - accBits + 8));
    LowValue(head, tail);
  }

  /** Moving eight bits from the accumulator to the output loses none. */
  lemma MoveOctet(written: seq<Byte>, pending: BitString, octet: Byte)
    requires Length(pending) >= 8 && octet == Value(First(pending, 8))
    ensures Cat(BytesToBits(written + [octet]), Rest(pending, 8)) == Cat(BytesToBits(written), pending)
  {
    BytesToBitsAppend(written, octet);
    OctetBound(First(pending, 8));
    CatFirstRest(pending, 8);
    CatAssoc(BytesToBits(written), First(pending, 8), Rest(pending, 8));
  }

  /** Moves whole octets from the accumulator to buf. */
  method DrainOctets(buf: array<Byte>, acc0: nat, accBits0: nat, offset0: nat, ghost pending0: BitString)
      returns (acc: nat, accBits: nat, offset: nat, ghost pending: BitString)
    requires AtTop(acc0, accBits0, pending0)
    requires offset0 + accBits0 / 8 <= buf.Length
    modifies buf
    ensures AtTop(acc, accBits, pending) && accBits < 8
    ensures 8 * offset + accBits == 8 * offset0 + accBits0 && offset0 <= offset <= buf.Length
    ensures Cat(BytesToBits(buf[..offset]), pending) == Cat(BytesToBits(old(buf[..offset0])), pending0)
    ensures forall k :: offset <= k < buf.Length ==> buf[k] == old(buf[k])
  {
    acc, accBits, offset, pending := acc0, accBits0, offset0, pending0;
    while accBits >= 8
      invariant AtTop(acc, accBits, pending)
      invariant 8 * offset + accBits == 8 * offset0 + accBits0 && offset0 <= offset <= buf.Length
      invariant Cat(BytesToBits(buf[..offset]), pending) == Cat(BytesToBits(old(buf[..offset0])), pending0)
      invariant forall k :: offset <= k < buf.Length ==> buf[k] == old(buf[k])
    {
      TopOctet(acc, accBits, pending);
      ShiftOut(acc, accBits, pending);
      ghost var written := buf[..offset];
      buf[offset] := Shr(acc, 56);
      MoveOctet(written, pending, buf[offset]);
      assert buf[..offset + 1] == written + [buf[offset]];
      offset := offset + 1;
      acc := LowBits(Shl(acc, 8), 64);
      pending := Rest(pending, 8);
      accBits := accBits - 8;
    }
  }

  lemma NextWord(t: Code, data: seq<Byte>, i: nat, written: seq<Byte>, pending: BitString)
    requires GoodSyms(t) && i < |data|
    requires EncodeBits(t, data[..i]) == Cat(BytesToBits(written), pending)
    ensures EncodeBits(t, data[..i + 1]) == Cat(BytesToBits(written), Cat(pending, Word(t[data[i]])))
  {
    assert data[..i + 1][..i] == data[..i];
    CatAssoc(BytesToBits(written), pending, Word(t[data[i]]));
  }

  lemma NextWordFits(t: Code, data: seq<Byte>, i: nat, written: seq<Byte>, pending: BitString)
    requires GoodSyms(t) && i < |data|
    requires EncodeBits(t, data[..i + 1]) == Cat(BytesToBits(written), pending)
    ensures |written| + Length(pending) / 8 <= EncodedLen(t, data)
  {
    BitCountPrefix(t, data, i + 1);
    BitCountIsLength(t, data[..i + 1]);
    BytesToBitsLength(written);
    CatLength(BytesToBits(written), pending);
  }

  /** Writes the whole octets of the code words of data and returns the bits left over. */
  method WriteWords(t: Code, buf: array<Byte>, data: seq<Byte>)
      returns (acc: nat, accBits: nat, offset: nat, ghost pending: BitString)
    requires GoodSyms(t) && EncodedLen(t, data) <= buf.Length
    modifies buf
    ensures AtTop(acc, accBits, pending) && accBits < 8 && offset <= buf.Length
    ensures EncodeBits(t, data) == Cat(BytesToBits(buf[..offset]), pending)
    ensures forall k :: offset <= k < buf.Length ==> buf[k] == old(buf[k])
  {
    acc, accBits, offset, pending := 0, 0, 0, Empty;
    assert AtTop(acc, accBits, pending) by {
      ValueZeros(64);
      CatEmpty(Zeros(64));
    }
    for i := 0 to |data|
      invariant AtTop(acc, accBits, pending) && accBits < 8 && offset <= buf.Length
      invariant EncodeBits(t, data[..i]) == Cat(BytesToBits(buf[..offset]), pending)
      invariant forall k :: offset <= k < buf.Length ==> buf[k] == old(buf[k])
    {
      var sym := t[data[i]];
      var code64 := Shl(sym.code, 32);
      AppendWord(acc, accBits, pending, sym);
      NextWord(t, data, i, buf[..offset], pending);
      acc := Or(acc, Shr(code64, accBits));
      pending := Cat(pending, Word(sym));
      accBits := accBits + sym.bits;
      // At most 7 bits were pending, so no more than 37 of the 64 are in use.
      assert accBits <= 37;
      NextWordFits(t, data, i, buf[..offset], pending);
      acc, accBits, offset, pending := DrainOctets(buf, acc, accBits, offset, pending);
    }
    assert data[..|data|] == data;
  }

  /** Bits left over are completed to an octet with ones. */
  lemma PaddedOctet(acc: nat, accBits: nat, pending: BitString)
    requires AtTop(acc, accBits, pending) && 0 < accBits < 8
    ensures Or(Shr(acc, 56), Mask(8 - accBits)) == Value(Cat(pending, Ones(8 - accBits)))
    ensures Length(Cat(pending, Ones(8 - accBits))) == 8
  {
    var pad := 8 - accBits;
    RepeatJoin(false, pad, 56);
    CatAssoc(pending, Zeros(pad), Zeros(56));
    ShrValue(Cat(pending, Zeros(pad)), Zeros(56));
    OrIntoZeros(pending, Ones(pad));
    CatLength(pending, Ones(pad));
  }

  /** Writes the last octet, filled up with ones. */
  method PadLast(t: Code, buf: array<Byte>, data: seq<Byte>, acc: nat, accBits: nat, offset: nat,
                 ghost pending: BitString)
    requires GoodSyms(t) && offset < buf.Length
    requires AtTop(acc, accBits, pending) && 0 < accBits < 8
    requires EncodeBits(t, data) == Cat(BytesToBits(buf[..offset]), pending)
    modifies buf
    ensures buf[..offset + 1] == Encoding(t, data)
    ensures forall k :: offset < k < buf.Length ==> buf[k] == old(buf[k])
  {
    var paddingBits := 8 - accBits;
    PaddedOctet(acc, accBits, pending);
    OctetBound(Cat(pending, Ones(paddingBits)));
    ghost var written := buf[..offset];
    buf[offset] := Or(Shr(acc, 56), Mask(paddingBits));
    assert buf[..offset + 1] == written + [buf[offset]];
    BytesToBitsAppend(written, buf[offset]);
    CatAssoc(BytesToBits(written), pending, Ones(paddingBits));
    EncodingUnique(t, data, buf[..offset + 1], paddingBits);
  }

  /** Writes the encoding of data at the start of buf, or fails when it does not fit. */
  method Encode(t: Code, buf: array<Byte>, data: seq<Byte>) returns (r: Result<nat, HuffmanError>)
    requires GoodSyms(t)
    modifies buf
    ensures r.Ok? <==> |Encoding(t, data)| <= buf.Length
    ensures r.Ok? ==> r.value == |Encoding(t, data)|
    ensures r.Ok? ==> buf[..r.value] == Encoding(t, data)
    ensures r.Ok? ==> forall k :: r.value <= k < buf.Length ==> buf[k] == old(buf[k])
    ensures r.Err? ==> r.error == BufferTooShort && unchanged(buf)
  {
    EncodedLenIsLength(t, data);
    if buf.Length < EncodedLen(t, data) {
      return Err(BufferTooShort);
    }
    ghost var pending;
    var acc, accBits, offset;
    acc, accBits, offset, pending := WriteWords(t, buf, data);
    if accBits > 0 {
      RoomForLast(t, data, buf[..offset], pending);
      PadLast(t, buf, data, acc, accBits, offset, pending);
      offset := offset + 1;
    } else {
      assert pending == Empty;
      EncodingUnique(t, data, buf[..offset], 0);
    }
    return Ok(offset);
  }

  lemma RoomForLast(t: Code, data: seq<Byte>, written: seq<Byte>, pending: BitString)
    requires GoodSyms(t) && 0 < Length(pending) < 8
    requires EncodeBits(t, data) == Cat(BytesToBits(written), pending)
    ensures |written| < EncodedLen(t, data)
  {
    BitCountIsLength(t, data);
    BytesToBitsLength(written);
    CatLength(BytesToBits(written), pending);
  }

  /** Tells by masking the first 32 pending bits whether the code word of s is at their front. */
  method IsNext(t: Code, s: int, current: nat, accBits: nat, ghost pending: BitString) returns (next: bool)
    requires GoodSyms(t) && 0 <= s <= EOS
    requires Length(pending) == accBits && current == Value(Left32(pending))
    ensures next <==> Matches(t, s, pending)
  {
    var sym := t[s];
    if sym.bits <= accBits {
      MatchesCovers(t, s, pending);
      return current - LowBits(current, 32 - sym.bits) == sym.code;
    }
    return false;
  }

  /** Finds the code word at the front of the pending bits by masking their first 32. */
  method FindSymbol(t: Code, current: nat, accBits: nat, ghost pending: BitString) returns (found: Option<int>)
    requires GoodSyms(t) && Length(pending) == accBits && current == Value(Left32(pending))
    ensures found.Some? ==> 0 <= found.value <= EOS && Matches(t, found.value, pending)
    ensures found.None? ==> forall s :: 0 <= s <= EOS ==> !Matches(t, s, pending)
  {
    for s := 0 to |t|
      invariant forall u :: 0 <= u < s ==> !Matches(t, u, pending)
    {
      var next := IsNext(t, s, current, accBits, pending);
      if next {
        return Some(s);
      }
    }
    return None;
  }

  /** The pending bits left-justified in 32 bits. */
  function Current(acc: nat, accBits: nat): nat {
    if accBits >= 32 then LowBits(Shr(acc, accBits - 32), 32) else LowBits(Shl(acc, 32 - accBits), 32)
  }

  lemma CurrentIsLeft32(q: BitString)
    ensures Current(Value(q), Length(q)) == Value(Left32(q))
  {
    LowWhole(Left32(q), 32);
    if Length(q) >= 32 {
      CatFirstRest(q, 32);
      ShrValue(Left32(q), Rest(q, 32));
    } else {
      ShlValue(q, 32 - Length(q));
    }
  }

  lemma OrAppendsOctet(q: BitString, octet: Byte)
    requires Length(q) <= 56
    ensures Or(LowBits(Shl(Value(q), 8), 64), octet) == Value(Cat(q, ToBits(octet, 8)))
  {
    OctetValue(octet);
    ShlValue(q, 8);
    CatLength(q, Zeros(8));
    LowWhole(Cat(q, Zeros(8)), 64);
    OrIntoZeros(q, ToBits(octet, 8));
  }

  lemma NothingMatches(t: Code, q: BitString)
    requires GoodCode(t)
    requires Length(q) < 5 || forall s :: 0 <= s <= EOS ==> !Matches(t, s, q)
    ensures ParseBits(t, q) == Parsed([], q) && Length(q) <= 29
  {
    if Length(q) >= 30 {
      var s := MatchExists(t, q);
    }
  }

  /** Reads every code word the pending bits hold; an error is an EOS symbol among them. */
  method DrainSymbols(t: Code, acc0: nat, accBits0: nat, ghost pending0: BitString)
      returns (r: Result<seq<Byte>, HuffmanError>, acc: nat, accBits: nat, ghost pending: BitString)
    requires GoodCode(t)
    requires Length(pending0) == accBits0 && acc0 == Value(pending0)
    ensures r.Err? ==> r.error == EosSymbol && ParseBits(t, pending0) == SawEos
    ensures r.Ok? ==> Length(pending) == accBits <= 29 && acc == Value(pending)
    ensures r.Ok? ==> ParseBits(t, pending0) == Parsed(r.value, pending)
  {
    var result: seq<Byte> := [];
    acc, accBits, pending := acc0, accBits0, pending0;
    PrependNothing(ParseBits(t, pending));
    while accBits >= 5
      invariant Length(pending) == accBits && acc == Value(pending)
      invariant ParseBits(t, pending0) == ParseBits(t, pending).Prepend(result)
    {
      CurrentIsLeft32(pending);
      var found := FindSymbol(t, Current(acc, accBits), accBits, pending);
      if found.None? {
        break;
      }
      var symbol := found.value;
      ParseStep(t, symbol, pending);
      if symbol == EOS {
        return Err(EosSymbol), acc, accBits, pending;
      }
      ghost var rest := Rest(pending, t[symbol].bits);
      PrependTwice(result, [symbol], ParseBits(t, rest));
      CatFirstRest(pending, t[symbol].bits);
      LowValue(First(pending, t[symbol].bits), rest);
      result := result + [symbol];
      accBits := accBits - t[symbol].bits;
      acc := if accBits > 0 then LowBits(acc, accBits) else 0;
      pending := rest;
    }
    NothingMatches(t, pending);
    assert result + [] == result;
    return Ok(result), acc, accBits, pending;
  }

  /** Decodes a Huffman-encoded string literal. */
  method Decode(t: Code, data: seq<Byte>) returns (r: Result<seq<Byte>, HuffmanError>)
    requires GoodCode(t)
    ensures r == Decoding(t, data)
  {
    var result: seq<Byte> := [];
    var acc, accBits := 0, 0;
    ghost var pending := Empty;
    assert ParseBits(t, pending) == Parsed([], Empty);
    for i := 0 to |data|
      invariant Length(pending) == accBits <= 29 && acc == Value(pending)
      invariant ParseBits(t, BytesToBits(data[..i])) == Parsed(result, pending)
    {
      var byte := data[i];
      assert data[..i + 1] == data[..i] + [byte];
      NextOctet(t, data[..i], byte, result, pending);
      OrAppendsOctet(pending, byte);
      CatLength(pending, ToBits(byte, 8));
      acc := Or(LowBits(Shl(acc, 8), 64), byte);
      accBits := accBits + 8;
      // At most 29 bits were pending, so no more than 37 of the 64 are in use.
      assert accBits <= 37;
      pending := Cat(pending, ToBits(byte, 8));
      var symbols;
      symbols, acc, accBits, pending := DrainSymbols(t, acc, accBits, pending);
      if symbols.Err? {
        EosStays(t, data, i + 1);
        return Err(EosSymbol);
      }
      result := result + symbols.value;
    }
    assert data[..|data|] == data;
    PaddingIsOnes(pending);
    if accBits > 0 && accBits <= 7 {
      return if LowBits(acc, accBits) == Mask(accBits) then Ok(result) else Err(InvalidPadding);
    }
    if accBits > 7 {
      return Err(IncompleteData);
    }
    return Ok(result);
  }

  lemma NextOctet(t: Code, front: seq<Byte>, byte: Byte, result: seq<Byte>, pending: BitString)
    requires GoodCode(t) && ParseBits(t, BytesToBits(front)) == Parsed(result, pending)
    ensures ParseBits(t, BytesToBits(front + [byte])) == ParseBits(t, Cat(pending, ToBits(byte, 8))).Prepend(result)
  {
    BytesToBitsAppend(front, byte);
    ParseAppend(t, BytesToBits(front), ToBits(byte, 8));
  }

  lemma EosThenOctet(t: Code, front: seq<Byte>, byte: Byte)
    requires GoodCode(t) && ParseBits(t, BytesToBits(front)) == SawEos
    ensures ParseBits(t, BytesToBits(front + [byte])) == SawEos
  {
    BytesToBitsAppend(front, byte);
    ParseAppend(t, BytesToBits(front), ToBits(byte, 8));
  }

  /** An EOS symbol in a prefix is an EOS symbol in the whole. */
  lemma {:induction false} EosStays(t: Code, data: seq<Byte>, i: nat)
    requires GoodCode(t) && i <= |data|
    requires ParseBits(t, BytesToBits(data[..i])) == SawEos
    ensures ParseBits(t, BytesToBits(data)) == SawEos
    decreases |data| - i
  {
    if i < |data| {
      assert data[..i + 1] == data[..i] + [data[i]];
      EosThenOctet(t, data[..i], data[i]);
      EosStays(t, data, i + 1);
    } else {
      assert data[..i] == data;
    }
  }

  lemma PaddingIsOnes(q: BitString)
    ensures LowBits(Value(q), Length(q)) == Mask(Length(q)) <==> q == Ones(Length(q))
  {
    LowWhole(q, Length(q));
    if Value(q) == Value(Ones(Length(q))) {
      ValueInjective(q, Ones(Length(q)));
    }
  }
}
