/** Huffman coding of string literals (section 5.2 of RFC 7541), over any prefix code
    that fills the space of 32-bit words. */
module Huffman {
  import opened Base
  import opened Bits

  /** A code word: its length and its bits, left-justified in 32 bits. */
  datatype HuffmanSym = HuffmanSym(bits: int, code: int)

  /** One code word for every octet and, last, the word of EOS. */
  type Code = seq<HuffmanSym>

  const EOS := 256

  datatype HuffmanError = EosSymbol | InvalidPadding | IncompleteData | BufferTooShort

  /** The number of 32-bit words that start with a given code word of that length. */
  function Span(bits: int): (n: nat)
    requires 0 <= bits <= 32
    ensures n > 0
  {
    Pow2(32 - bits)
  }

  predicate GoodSym(sym: HuffmanSym) {
    && 5 <= sym.bits <= 30
    && 0 <= sym.code && sym.code + Span(sym.bits) <= TWO_32
    && LowBits(sym.code, 32 - sym.bits) == 0
  }

  /** x is one of the words that start with the code word. */
  predicate Covers(sym: HuffmanSym, x: int)
    requires GoodSym(sym)
  {
    sym.code <= x < sym.code + Span(sym.bits)
  }

  predicate GoodSyms(t: Code) {
    |t| == 257 && forall s :: 0 <= s <= EOS ==> GoodSym(t[s])
  }

  /** x starts with some code word. */
  ghost predicate Covered(t: Code, x: int)
    requires GoodSyms(t)
  {
    exists s :: 0 <= s <= EOS && Covers(t[s], x)
  }

  /** No word starts with both code words. */
  predicate Apart(a: HuffmanSym, b: HuffmanSym)
    requires GoodSym(a) && GoodSym(b)
  {
    a.code + Span(a.bits) <= b.code || b.code + Span(b.bits) <= a.code
  }

  ghost predicate Separate(t: Code)
    requires GoodSyms(t)
  {
    forall s, u :: 0 <= s < u <= EOS ==> Apart(t[s], t[u])
  }

  ghost predicate Complete(t: Code)
    requires GoodSyms(t)
  {
    forall x :: 0 <= x < TWO_32 ==> Covered(t, x)
  }

  /** Every 32-bit word starts with exactly one code word, and EOS is thirty ones. */
  ghost predicate GoodCode(t: Code) {
    GoodSyms(t) && Separate(t) && Complete(t) && t[EOS] == HuffmanSym(30, 0xffff_fffc)
  }

  /** The code word as a bit string. */
  function Word(sym: HuffmanSym): (w: BitString)
    requires GoodSym(sym)
    ensures Length(w) == sym.bits
  {
    First(ToBits(sym.code, 32), sym.bits)
  }

  /** A left-justified code word is its bits followed by zeros. */
  lemma CodeBits(sym: HuffmanSym)
    requires GoodSym(sym)
    ensures sym.code == Value(Cat(Word(sym), Zeros(32 - sym.bits)))
    ensures sym.code == Value(Word(sym)) * Span(sym.bits)
  {
    var all := ToBits(sym.code, 32);
    assert Value(all) == sym.code by {
      Pow2Large();
      ValueToBits(sym.code, 32);
    }
    CatFirstRest(all, sym.bits);
    var w, low := First(all, sym.bits), Rest(all, sym.bits);
    LowValue(w, low);
    ValueZeros(32 - sym.bits);
    ValueInjective(low, Zeros(32 - sym.bits));
    ValueCat(w, low);
  }

  /** A 32-bit word is covered exactly when the code word is a prefix of its bits. */
  lemma CoversIsPrefix(sym: HuffmanSym, word: BitString)
    requires GoodSym(sym) && Length(word) == 32
    ensures Covers(sym, Value(word)) <==> Word(sym) == First(word, sym.bits)
    ensures Value(word) - LowBits(Value(word), 32 - sym.bits) == sym.code <==> Word(sym) == First(word, sym.bits)
  {
    var high, low := First(word, sym.bits), Rest(word, sym.bits);
    CatFirstRest(word, sym.bits);
    ValueCat(high, low);
    ValueBound(low);
    LowValue(high, low);
    CodeBits(sym);
    SameBlock(Value(word), Value(high), Value(low), Value(Word(sym)), Span(sym.bits));
    if Value(Word(sym)) == Value(high) {
      ValueInjective(Word(sym), high);
    }
  }

  /** Extends or cuts a bit string to 32 bits. */
  function Left32(q: BitString): (word: BitString)
    ensures Length(word) == 32
  {
    if Length(q) >= 32 then First(q, 32)
    else
      CatLength(q, Zeros(32 - Length(q)));
      Cat(q, Zeros(32 - Length(q)))
  }

  /** The code word of s is a prefix of q. */
  predicate Matches(t: Code, s: int, q: BitString)
    requires 0 <= s < |t| && GoodSym(t[s])
  {
    t[s].bits <= Length(q) && First(q, t[s].bits) == Word(t[s])
  }

  lemma FirstOfLeft32(q: BitString, n: nat)
    requires n <= Length(q) && n <= 32
    ensures First(Left32(q), n) == First(q, n)
  {
    if Length(q) >= 32 {
      CatFirstRest(q, 32);
      FirstOfCat(First(q, 32), Rest(q, 32), n);
    } else {
      FirstOfCat(q, Zeros(32 - Length(q)), n);
    }
  }

  lemma MatchesCovers(t: Code, s: int, q: BitString)
    requires 0 <= s < |t| && GoodSym(t[s]) && t[s].bits <= Length(q)
    ensures Matches(t, s, q) <==> Covers(t[s], Value(Left32(q)))
    ensures Matches(t, s, q)
       <==> Value(Left32(q)) - LowBits(Value(Left32(q)), 32 - t[s].bits) == t[s].code
  {
    CoversIsPrefix(t[s], Left32(q));
    FirstOfLeft32(q, t[s].bits);
  }

  /** At most one code word is a prefix of a bit string. */
  lemma MatchUnique(t: Code, s: int, u: int, q: BitString)
    requires GoodCode(t) && 0 <= s <= EOS && 0 <= u <= EOS
    requires Matches(t, s, q) && Matches(t, u, q)
    ensures s == u
  {
    ApartIfDistinct(t, s, u);
    MatchesCovers(t, s, q);
    MatchesCovers(t, u, q);
  }

  lemma ApartIfDistinct(t: Code, s: int, u: int)
    requires GoodSyms(t) && Separate(t) && 0 <= s <= EOS && 0 <= u <= EOS
    ensures s != u ==> Apart(t[s], t[u])
  {
    assert s < u ==> Apart(t[s], t[u]);
    assert u < s ==> Apart(t[u], t[s]);
  }

  /** Some code word is a prefix of any bit string of thirty bits or more. */
  lemma MatchExists(t: Code, q: BitString) returns (s: int)
    requires GoodCode(t) && Length(q) >= 30
    ensures 0 <= s <= EOS && Matches(t, s, q)
  {
    var x := Value(Left32(q));
    ValueBound(Left32(q));
    assert Pow2(32) == TWO_32 by { Pow2Large(); }
    assert Covered(t, x);
    s :| 0 <= s <= EOS && Covers(t[s], x);
    MatchesCovers(t, s, q);
  }

  /** What reading code words off the front of a bit string yields. */
  datatype Parse = Parsed(symbols: seq<Byte>, rest: BitString) | SawEos {
    function Prepend(front: seq<Byte>): Parse {
      match this
      case Parsed(symbols, rest) => Parsed(front + symbols, rest)
      case SawEos => SawEos
    }
  }

  ghost function ParseBits(t: Code, q: BitString): Parse
    requires GoodCode(t)
    decreases Length(q)
  {
    if s :| 0 <= s <= EOS && Matches(t, s, q) then
      if s == EOS then SawEos else ParseBits(t, Rest(q, t[s].bits)).Prepend([s])
    else Parsed([], q)
  }

  lemma ParseStep(t: Code, s: int, q: BitString)
    requires GoodCode(t) && 0 <= s <= EOS && Matches(t, s, q)
    ensures s == EOS ==> ParseBits(t, q) == SawEos
    ensures s < EOS ==> ParseBits(t, q) == ParseBits(t, Rest(q, t[s].bits)).Prepend([s])
  {
    forall u | 0 <= u <= EOS && Matches(t, u, q) ensures u == s {
      MatchUnique(t, s, u, q);
    }
  }

  /** Reading may stop anywhere and go on when more bits have come. */
  lemma {:induction false} ParseAppend(t: Code, q: BitString, more: BitString)
    requires GoodCode(t)
    ensures ParseBits(t, Cat(q, more))
         == match ParseBits(t, q)
            case SawEos => SawEos
            case Parsed(symbols, rest) => ParseBits(t, Cat(rest, more)).Prepend(symbols)
    decreases Length(q)
  {
    if s :| 0 <= s <= EOS && Matches(t, s, q) {
      var tail := Rest(q, t[s].bits);
      FirstOfCat(q, more, t[s].bits);
      ParseStep(t, s, q);
      ParseStep(t, s, Cat(q, more));
      if s < EOS {
        ParseAppend(t, tail, more);
        match ParseBits(t, tail) {
          case SawEos =>
          case Parsed(symbols, rest) => PrependTwice([s], symbols, ParseBits(t, Cat(rest, more)));
        }
      }
    } else {
      PrependNothing(ParseBits(t, Cat(q, more)));
    }
  }

  lemma PrependTwice(a: seq<Byte>, b: seq<Byte>, p: Parse)
    ensures p.Prepend(b).Prepend(a) == p.Prepend(a + b)
  {
    if p.Parsed? {
      assert a + (b + p.symbols) == (a + b) + p.symbols;
    }
  }

  lemma PrependNothing(p: Parse)
    ensures p.Prepend([]) == p
  {
    if p.Parsed? {
      assert [] + p.symbols == p.symbols;
    }
  }

  /** The code words of a byte string, one after the other. */
  function EncodeBits(t: Code, data: seq<Byte>): BitString
    requires GoodSyms(t)
  {
    if data == [] then Empty else Cat(EncodeBits(t, data[..|data| - 1]), Word(t[data[|data| - 1]]))
  }

  /** The number of octets that n bits fill, the last one perhaps in part. */
  function Octets(n: nat): (octets: nat)
    ensures n <= 8 * octets < n + 8
  {
    (n + 7) / 8
  }

  /** How many one bits fill up the last octet. */
  function PadBits(n: nat): (p: nat)
    ensures p < 8
  {
    8 * Octets(n) - n
  }

  /** The code words of a byte string and the ones that complete its last octet. */
  function PaddedBits(t: Code, data: seq<Byte>): (bits: BitString)
    requires GoodSyms(t)
    ensures Length(bits) == 8 * Octets(Length(EncodeBits(t, data)))
  {
    var bits := EncodeBits(t, data);
    CatLength(bits, Ones(PadBits(Length(bits))));
    Cat(bits, Ones(PadBits(Length(bits))))
  }

  /** The Huffman encoding of a byte string. */
  function Encoding(t: Code, data: seq<Byte>): seq<Byte>
    requires GoodSyms(t)
  {
    Pack(PaddedBits(t, data), Octets(Length(EncodeBits(t, data))))
  }

  /** Whatever unpacks to the code words and fewer than eight ones is the encoding. */
  lemma EncodingUnique(t: Code, data: seq<Byte>, bytes: seq<Byte>, p: nat)
    requires GoodSyms(t) && p < 8
    requires BytesToBits(bytes) == Cat(EncodeBits(t, data), Ones(p))
    ensures bytes == Encoding(t, data)
  {
    BytesToBitsLength(bytes);
    CatLength(EncodeBits(t, data), Ones(p));
    assert Octets(Length(EncodeBits(t, data))) == |bytes|;
    PackBytesToBits(bytes);
  }

  /** What a byte string decodes to. */
  ghost function Decoding(t: Code, data: seq<Byte>): Result<seq<Byte>, HuffmanError>
    requires GoodCode(t)
  {
    match ParseBits(t, BytesToBits(data))
    case SawEos => Err(EosSymbol)
    case Parsed(symbols, rest) =>
      if Length(rest) > 7 then Err(IncompleteData)
      else if rest == Ones(Length(rest)) then Ok(symbols)
      else Err(InvalidPadding)
  }

  lemma ParseWord(t: Code, s: Byte, more: BitString)
    requires GoodCode(t)
    ensures ParseBits(t, Cat(Word(t[s]), more)) == ParseBits(t, more).Prepend([s])
  {
    SplitCat(Word(t[s]), more);
    ParseStep(t, s, Cat(Word(t[s]), more));
  }

  lemma {:induction false} ParseEncodeBits(t: Code, data: seq<Byte>, more: BitString)
    requires GoodCode(t)
    ensures ParseBits(t, Cat(EncodeBits(t, data), more)) == ParseBits(t, more).Prepend(data)
  {
    if data == [] {
      CatEmpty(more);
      PrependNothing(ParseBits(t, more));
    } else {
      var init, last := data[..|data| - 1], data[|data| - 1];
      ParseEncodeBits(t, init, Cat(Word(t[last]), more));
      ParseLast(t, EncodeBits(t, init), data, more);
    }
  }

  lemma ParseLast(t: Code, bits: BitString, data: seq<Byte>, more: BitString)
    requires GoodCode(t) && data != []
    requires var last := Word(t[data[|data| - 1]]);
             ParseBits(t, Cat(bits, Cat(last, more))) == ParseBits(t, Cat(last, more)).Prepend(data[..|data| - 1])
    ensures ParseBits(t, Cat(Cat(bits, Word(t[data[|data| - 1]])), more)) == ParseBits(t, more).Prepend(data)
  {
    var init, last := data[..|data| - 1], data[|data| - 1];
    CatAssoc(bits, Word(t[last]), more);
    ParseWord(t, last, more);
    PrependTwice(init, [last], ParseBits(t, more));
    assert init + [last] == data;
  }

  lemma EosIsOnes(t: Code)
    requires GoodCode(t)
    ensures Word(t[EOS]) == Ones(30)
  {
    var w := Word(t[EOS]);
    CodeBits(t[EOS]);
    assert Span(30) == 4;
    ValueOnes(30);
    Pow2Large();
    Pow2Add(30, 2);
    ValueInjective(w, Ones(30));
  }

  /** No code word is a run of ones shorter than EOS, so padding never reads as a symbol. */
  lemma ParsePadding(t: Code, n: nat)
    requires GoodCode(t) && n < 8
    ensures ParseBits(t, Ones(n)) == Parsed([], Ones(n))
  {
    if s :| 0 <= s <= EOS && Matches(t, s, Ones(n)) {
      EosIsOnes(t);
      RepeatJoin(true, n, 30 - n);
      FirstOfCat(Ones(n), Ones(30 - n), t[s].bits);
      MatchUnique(t, s, EOS, Ones(30));
    }
  }

  /** Every byte string survives encoding and decoding. */
  lemma DecodingEncoding(t: Code, data: seq<Byte>)
    requires GoodCode(t)
    ensures Decoding(t, Encoding(t, data)) == Ok(data)
  {
    var pad := PadBits(Length(EncodeBits(t, data)));
    BytesToBitsPack(PaddedBits(t, data), Octets(Length(EncodeBits(t, data))));
    ParseEncodeBits(t, data, Ones(pad));
    ParsePadding(t, pad);
    assert data + [] == data;
  }

  lemma {:induction false} ParseSound(t: Code, q: BitString)
    requires GoodCode(t)
    ensures ParseBits(t, q).Parsed? ==>
              q == Cat(EncodeBits(t, ParseBits(t, q).symbols), ParseBits(t, q).rest)
    decreases Length(q)
  {
    if s :| 0 <= s <= EOS && Matches(t, s, q) {
      ParseStep(t, s, q);
      var tail := Rest(q, t[s].bits);
      if s < EOS {
        ParseSound(t, tail);
        match ParseBits(t, tail) {
          case SawEos =>
          case Parsed(symbols, rest) =>
            EncodeBitsPrepend(t, s, symbols);
            CatFirstRest(q, t[s].bits);
            CatAssoc(Word(t[s]), EncodeBits(t, symbols), rest);
        }
      }
    } else {
      CatEmpty(q);
    }
  }

  lemma {:induction false} EncodeBitsPrepend(t: Code, s: Byte, data: seq<Byte>)
    requires GoodSyms(t)
    ensures EncodeBits(t, [s] + data) == Cat(Word(t[s]), EncodeBits(t, data))
  {
    if data == [] {
      assert [s] + data == [s];
      assert EncodeBits(t, [s]) == Cat(EncodeBits(t, []), Word(t[s]));
      CatEmpty(Word(t[s]));
    } else {
      var init, last := data[..|data| - 1], data[|data| - 1];
      EncodeBitsPrepend(t, s, init);
      assert ([s] + data)[..|data|] == [s] + init;
      CatAssoc(Word(t[s]), EncodeBits(t, init), Word(t[last]));
    }
  }

  /** Only encodings decode: an accepted byte string is the encoding of what it decodes to. */
  lemma EncodingDecoding(t: Code, data: seq<Byte>)
    requires GoodCode(t)
    requires Decoding(t, data).Ok?
    ensures Encoding(t, Decoding(t, data).value) == data
  {
    ParseSound(t, BytesToBits(data));
    var p := ParseBits(t, BytesToBits(data));
    EncodingUnique(t, p.symbols, data, Length(p.rest));
  }
}
