/** The representation of header fields in a header block (sections 5 and 6 of RFC 7541). */
module HpackFormat {
  import opened Base
  import opened Bits
  import opened HpackInteger
  import opened DynamicTable
  import Huffman

  const STATIC_TABLE_SIZE := 61

  /** The two tables every HPACK endpoint has from the start. */
  datatype Tables = Tables(statics: seq<HeaderField>, huffman: Huffman.Code) {
    ghost predicate Valid() {
      && |statics| == STATIC_TABLE_SIZE
      && (forall i :: 0 <= i < STATIC_TABLE_SIZE ==> !statics[i].sensitive)
      && Huffman.GoodCode(huffman)
    }
  }

  datatype HpackError =
    | BadInteger(cause: IntegerError)
    | BadHuffman(huffmanError: Huffman.HuffmanError)
    | IncompleteString
    | InvalidIndex
    | SizeUpdateMisplaced
    | SizeUpdateTooLarge
    | HeaderListTooLarge

  /** No byte string in memory is 2^63 octets long or longer. */
  predicate InMemory(data: seq<Byte>) {
    |data| < TWO_63
  }

  lemma Patterns()
    ensures IsPattern(0x80, 7) && IsPattern(0x00, 7) && IsPattern(0x40, 6)
    ensures IsPattern(0x20, 5) && IsPattern(0x00, 4) && IsPattern(0x10, 4)
  {
    assert LowBits(0x80, 7) == 0 && LowBits(0x40, 6) == 0 && LowBits(0x20, 5) == 0 && LowBits(0x10, 4) == 0;
    assert LowBits(0, 7) == 0 && LowBits(0, 4) == 0;
  }

  // ---- Strings ----

  /** A string literal: Huffman-coded when that is allowed and shorter. */
  ghost function EncodeString(hp: Tables, useHuffman: bool, data: seq<Byte>): (bytes: seq<Byte>)
    requires hp.Valid()
    ensures |bytes| >= 1
  {
    Patterns();
    var coded := Huffman.Encoding(hp.huffman, data);
    if useHuffman && |coded| < |data| then Encoding(|coded|, 7, 0x80) + coded
    else Encoding(|data|, 7, 0x00) + data
  }

  ghost function DecodeString(hp: Tables, data: seq<Byte>): (r: Result<(seq<Byte>, nat), HpackError>)
    requires hp.Valid()
    ensures r.Ok? ==> 1 <= r.value.1 <= |data|
  {
    if data == [] then Err(IncompleteString)
    else
      match Decoding(data, 7)
      case Err(e) => Err(BadInteger(e))
      case Ok((length, consumed)) =>
        DecodingConsumes(data, 7);
        if |data| < consumed + length then Err(IncompleteString)
        else
          var literal := data[consumed..consumed + length];
          if data[0] >= 0x80 then
            match Huffman.Decoding(hp.huffman, literal)
            case Err(e) => Err(BadHuffman(e))
            case Ok(text) => Ok((text, consumed + length))
          else Ok((literal, consumed + length))
  }

  lemma FirstOctetRange(value: nat, prefixBits: PrefixBits, pattern: Byte)
    requires IsPattern(pattern, prefixBits)
    ensures pattern <= Encoding(value, prefixBits, pattern)[0] < pattern + Pow2(prefixBits)
  {
  }

  /** A string literal is read back, whatever follows it. */
  lemma StringRoundTrip(hp: Tables, useHuffman: bool, data: seq<Byte>, rest: seq<Byte>)
    requires hp.Valid() && InMemory(data)
    ensures DecodeString(hp, EncodeString(hp, useHuffman, data) + rest)
         == Ok((data, |EncodeString(hp, useHuffman, data)|))
  {
    Patterns();
    var coded := Huffman.Encoding(hp.huffman, data);
    if useHuffman && |coded| < |data| {
      Huffman.DecodingEncoding(hp.huffman, data);
      LengthReads(Encoding(|coded|, 7, 0x80), 0x80, coded, rest);
      StringReads(hp, Encoding(|coded|, 7, 0x80), coded, rest, data);
    } else {
      LengthReads(Encoding(|data|, 7, 0x00), 0x00, data, rest);
      StringReads(hp, Encoding(|data|, 7, 0x00), data, rest, data);
    }
  }

  lemma StringReads(hp: Tables, head: seq<Byte>, literal: seq<Byte>, rest: seq<Byte>, text: seq<Byte>)
    requires hp.Valid() && head != []
    requires Decoding(head + literal + rest, 7) == Ok((|literal|, |head|))
    requires if head[0] >= 0x80 then Huffman.Decoding(hp.huffman, literal) == Ok(text) else text == literal
    ensures DecodeString(hp, head + literal + rest) == Ok((text, |head + literal|))
  {
    LiteralSlice(head, literal, rest);
    assert (head + literal + rest)[0] == head[0];
  }

  lemma LengthReads(head: seq<Byte>, pattern: Byte, literal: seq<Byte>, rest: seq<Byte>)
    requires pattern in {0x80, 0x00} && IsPattern(pattern, 7)
    requires |literal| < TWO_63 && head == Encoding(|literal|, 7, pattern)
    ensures var data := head + literal + rest;
            Decoding(data, 7) == Ok((|literal|, |head|)) && (head[0] >= 0x80 <==> pattern == 0x80)
  {
    LiteralSlice(head, literal, rest);
    RoundTrip(|literal|, 7, pattern, literal + rest);
    FirstOctetRange(|literal|, 7, pattern);
    Pow2Small();
  }

  lemma LiteralSlice(head: seq<Byte>, literal: seq<Byte>, rest: seq<Byte>)
    ensures head + literal + rest == head + (literal + rest)
    ensures (head + literal + rest)[|head|..|head| + |literal|] == literal
    ensures (head + literal + rest)[|head|..] == literal + rest
  {
  }

  // ---- Fields ----

  /** The field an index names: the static table first, then the dynamic table. */
  function FieldAt(hp: Tables, t: Table, index: nat): Option<HeaderField>
    requires |hp.statics| == STATIC_TABLE_SIZE
  {
    if 1 <= index <= STATIC_TABLE_SIZE then Some(hp.statics[index - 1])
    else if index > STATIC_TABLE_SIZE && index - STATIC_TABLE_SIZE - 1 < |t.entries| then
      Some(t.entries[index - STATIC_TABLE_SIZE - 1])
    else None
  }

  /** Searches both tables; a full match wins, then the static table. */
  function FindIndex(hp: Tables, t: Table, name: seq<Byte>, value: seq<Byte>): Option<(nat, bool)> {
    match Find(hp.statics, name, value)
    case Some((i, true)) => Some((i + 1, true))
    case Some((i, false)) =>
      (match Find(t.entries, name, value)
       case Some((j, true)) => Some((STATIC_TABLE_SIZE + 1 + j, true))
       case _ => Some((i + 1, false)))
    case None =>
      match Find(t.entries, name, value)
      case Some((j, exact)) => Some((STATIC_TABLE_SIZE + 1 + j, exact))
      case None => None
  }

  /** An index found names a field with that name, and with that value if it says so. */
  lemma FindIndexSound(hp: Tables, t: Table, name: seq<Byte>, value: seq<Byte>)
    requires hp.Valid() && t.Valid()
    ensures match FindIndex(hp, t, name, value)
            case None => true
            case Some((index, exact)) =>
              && 1 <= index < TWO_63
              && FieldAt(hp, t, index).Some?
              && FieldAt(hp, t, index).value.name == name
              && (exact ==> FieldAt(hp, t, index).value == HeaderField(name, value, false))
  {
    TotalSizeCount(t.entries);
  }

  /** The five representations of a field. */
  datatype Kind = Indexed | IncrementalIndexing | WithoutIndexing | NeverIndexed

  function Pattern(kind: Kind): (p: Byte)
    ensures IsPattern(p, PrefixOf(kind))
  {
    Patterns();
    match kind
    case Indexed => 0x80
    case IncrementalIndexing => 0x40
    case WithoutIndexing => 0x00
    case NeverIndexed => 0x10
  }

  function PrefixOf(kind: Kind): PrefixBits {
    match kind
    case Indexed => 7
    case IncrementalIndexing => 6
    case WithoutIndexing => 4
    case NeverIndexed => 4
  }

  /** A literal with an indexed name, or with a name of its own when the index is 0. */
  ghost function EncodeLiteral(hp: Tables, huff: bool, kind: Kind, nameIndex: nat, name: seq<Byte>, value: seq<Byte>)
      : (bytes: seq<Byte>)
    requires hp.Valid()
    ensures |bytes| >= 1
  {
    var head := Encoding(nameIndex, PrefixOf(kind), Pattern(kind));
    if nameIndex == 0 then head + EncodeString(hp, huff, name) + EncodeString(hp, huff, value)
    else head + EncodeString(hp, huff, value)
  }

  /** What the encoder writes for a field and the table it goes on with. */
  ghost function EncodeField(hp: Tables, huff: bool, t: Table, h: HeaderField, indexing: bool): (seq<Byte>, Table)
    requires hp.Valid()
  {
    var found := FindIndex(hp, t, h.name, h.value);
    var nameIndex := if found.Some? then found.value.0 else 0;
    if h.sensitive then (EncodeLiteral(hp, huff, NeverIndexed, nameIndex, h.name, h.value), t)
    else if found.Some? && found.value.1 then (Encoding(nameIndex, 7, Pattern(Indexed)), t)
    else if indexing then
      (EncodeLiteral(hp, huff, IncrementalIndexing, nameIndex, h.name, h.value), t.Insert(h.name, h.value))
    else (EncodeLiteral(hp, huff, WithoutIndexing, nameIndex, h.name, h.value), t)
  }

  /** What stands at the front of a header block: a field or, with None, a size update. */
  datatype Item = Item(field: Option<HeaderField>, table: Table, consumed: nat)

  ghost function DecodeLiteral(hp: Tables, t: Table, kind: Kind, data: seq<Byte>)
      : (r: Result<(HeaderField, nat), HpackError>)
    requires hp.Valid()
    ensures r.Ok? ==> 1 <= r.value.1 <= |data|
  {
    match Decoding(data, PrefixOf(kind))
    case Err(e) => Err(BadInteger(e))
    case Ok((nameIndex, consumed)) =>
      DecodingConsumes(data, PrefixOf(kind));
      var name := if nameIndex == 0 then DecodeString(hp, data[consumed..])
                  else match FieldAt(hp, t, nameIndex)
                       case None => Err(InvalidIndex)
                       case Some(h) => Ok((h.name, 0));
      match name
      case Err(e) => Err(e)
      case Ok((n, nameLen)) =>
        match DecodeString(hp, data[consumed + nameLen..])
        case Err(e) => Err(e)
        case Ok((v, valueLen)) => Ok((HeaderField(n, v, kind == NeverIndexed), consumed + nameLen + valueLen))
  }

  lemma DecodingConsumes(data: seq<Byte>, prefixBits: PrefixBits)
    ensures Decoding(data, prefixBits).Ok? ==> 1 <= Decoding(data, prefixBits).value.1 <= |data|
  {
    if data != [] {
      AccumulateConsumes(data, 1, 0, MaxPrefix(prefixBits));
    }
  }

  lemma {:induction false} AccumulateConsumes(buf: seq<Byte>, offset: nat, shift: nat, value: nat)
    requires offset <= |buf|
    ensures Accumulate(buf, offset, shift, value).Ok? ==> offset < Accumulate(buf, offset, shift, value).value.1 <= |buf|
    decreases |buf| - offset
  {
    if offset < |buf| && shift < 63 {
      AccumulateConsumes(buf, offset + 1, shift + 7, value + Shl(buf[offset] % 128, shift));
    }
  }

  /** Reads one representation, told apart by the first bits of its first octet. */
  ghost function DecodeItem(hp: Tables, t: Table, maxTableSize: nat, seenField: bool, data: seq<Byte>)
      : (r: Result<Item, HpackError>)
    requires hp.Valid() && data != []
    ensures r.Ok? ==> 1 <= r.value.consumed <= |data|
  {
    if data[0] >= 0x80 then
      match Decoding(data, 7)
      case Err(e) => Err(BadInteger(e))
      case Ok((index, consumed)) =>
        DecodingConsumes(data, 7);
        if index == 0 || FieldAt(hp, t, index).None? then Err(InvalidIndex)
        else Ok(Item(FieldAt(hp, t, index), t, consumed))
    else if data[0] >= 0x40 then
      match DecodeLiteral(hp, t, IncrementalIndexing, data)
      case Err(e) => Err(e)
      case Ok((h, consumed)) => Ok(Item(Some(h), t.Insert(h.name, h.value), consumed))
    else if data[0] >= 0x20 then
      if seenField then Err(SizeUpdateMisplaced)
      else
        match Decoding(data, 5)
        case Err(e) => Err(BadInteger(e))
        case Ok((size, consumed)) =>
          DecodingConsumes(data, 5);
          if size > maxTableSize then Err(SizeUpdateTooLarge) else Ok(Item(None, t.Resize(size), consumed))
    else
      match DecodeLiteral(hp, t, if data[0] >= 0x10 then NeverIndexed else WithoutIndexing, data)
      case Err(e) => Err(e)
      case Ok((h, consumed)) => Ok(Item(Some(h), t, consumed))
  }

  lemma IndexedNameRoundTrip(hp: Tables, huff: bool, t: Table, kind: Kind, nameIndex: nat, h: HeaderField, rest: seq<Byte>)
    requires hp.Valid() && InMemory(h.value) && 0 < nameIndex < TWO_63
    requires h.sensitive <==> kind == NeverIndexed
    requires FieldAt(hp, t, nameIndex).Some? && FieldAt(hp, t, nameIndex).value.name == h.name
    ensures var bytes := EncodeLiteral(hp, huff, kind, nameIndex, h.name, h.value);
            DecodeLiteral(hp, t, kind, bytes + rest) == Ok((h, |bytes|))
  {
    var head := Encoding(nameIndex, PrefixOf(kind), Pattern(kind));
    var value := EncodeString(hp, huff, h.value);
    RoundTrip(nameIndex, PrefixOf(kind), Pattern(kind), value + rest);
    StringRoundTrip(hp, huff, h.value, rest);
    IndexedNameReads(hp, t, kind, nameIndex, h, head, value, rest);
  }

  lemma IndexedNameReads(hp: Tables, t: Table, kind: Kind, nameIndex: nat, h: HeaderField,
                         head: seq<Byte>, value: seq<Byte>, rest: seq<Byte>)
    requires hp.Valid() && 0 < nameIndex
    requires h.sensitive <==> kind == NeverIndexed
    requires FieldAt(hp, t, nameIndex).Some? && FieldAt(hp, t, nameIndex).value.name == h.name
    requires Decoding(head + (value + rest), PrefixOf(kind)) == Ok((nameIndex, |head|))
    requires DecodeString(hp, value + rest) == Ok((h.value, |value|))
    ensures DecodeLiteral(hp, t, kind, head + value + rest) == Ok((h, |head + value|))
  {
    LiteralSlice(head, value, rest);
    var data := head + value + rest;
    assert data[|head| + 0..] == data[|head|..];
  }

  lemma NewNameRoundTrip(hp: Tables, huff: bool, t: Table, kind: Kind, h: HeaderField, rest: seq<Byte>)
    requires hp.Valid() && InMemory(h.name) && InMemory(h.value)
    requires h.sensitive <==> kind == NeverIndexed
    ensures var bytes := EncodeLiteral(hp, huff, kind, 0, h.name, h.value);
            DecodeLiteral(hp, t, kind, bytes + rest) == Ok((h, |bytes|))
  {
    var head := Encoding(0, PrefixOf(kind), Pattern(kind));
    var name, value := EncodeString(hp, huff, h.name), EncodeString(hp, huff, h.value);
    RoundTrip(0, PrefixOf(kind), Pattern(kind), name + (value + rest));
    StringRoundTrip(hp, huff, h.name, value + rest);
    StringRoundTrip(hp, huff, h.value, rest);
    NewNameReads(hp, t, kind, h, head, name, value, rest);
  }

  lemma NewNameReads(hp: Tables, t: Table, kind: Kind, h: HeaderField,
                     head: seq<Byte>, name: seq<Byte>, value: seq<Byte>, rest: seq<Byte>)
    requires hp.Valid()
    requires h.sensitive <==> kind == NeverIndexed
    requires Decoding(head + (name + (value + rest)), PrefixOf(kind)) == Ok((0, |head|))
    requires DecodeString(hp, name + (value + rest)) == Ok((h.name, |name|))
    requires DecodeString(hp, value + rest) == Ok((h.value, |value|))
    ensures DecodeLiteral(hp, t, kind, head + name + value + rest) == Ok((h, |head + name + value|))
  {
    ThreeParts(head, name, value, rest);
    NewNameSteps(hp, t, kind, h, head + name + value + rest, |head|, |name|, |value|);
  }

  lemma NewNameSteps(hp: Tables, t: Table, kind: Kind, h: HeaderField, data: seq<Byte>, a: nat, b: nat, c: nat)
    requires hp.Valid() && a + b <= |data|
    requires h.sensitive <==> kind == NeverIndexed
    requires Decoding(data, PrefixOf(kind)) == Ok((0, a))
    requires DecodeString(hp, data[a..]) == Ok((h.name, b))
    requires DecodeString(hp, data[a + b..]) == Ok((h.value, c))
    ensures DecodeLiteral(hp, t, kind, data) == Ok((h, a + b + c))
  {
  }

  lemma ThreeParts(head: seq<Byte>, name: seq<Byte>, value: seq<Byte>, rest: seq<Byte>)
    ensures head + name + value + rest == head + (name + (value + rest))
    ensures (head + name + value + rest)[|head|..] == name + (value + rest)
    ensures (head + name + value + rest)[|head| + |name|..] == value + rest
  {
  }

  lemma LiteralFirstOctet(hp: Tables, huff: bool, kind: Kind, nameIndex: nat, name: seq<Byte>, value: seq<Byte>)
    requires hp.Valid()
    ensures var first := EncodeLiteral(hp, huff, kind, nameIndex, name, value)[0];
            Pattern(kind) <= first < Pattern(kind) + Pow2(PrefixOf(kind))
  {
    FirstOctetRange(nameIndex, PrefixOf(kind), Pattern(kind));
  }

  /** A field is read back with its flag, and both sides go on with the same table. */
  lemma FieldRoundTrip(hp: Tables, huff: bool, t: Table, h: HeaderField, indexing: bool,
                       maxTableSize: nat, seenField: bool, rest: seq<Byte>)
    requires hp.Valid() && t.Valid() && InMemory(h.name) && InMemory(h.value)
    ensures var (bytes, t') := EncodeField(hp, huff, t, h, indexing);
            && bytes != [] && t'.Valid()
            && DecodeItem(hp, t, maxTableSize, seenField, bytes + rest) == Ok(Item(Some(h), t', |bytes|))
  {
    var found := FindIndex(hp, t, h.name, h.value);
    var nameIndex := if found.Some? then found.value.0 else 0;
    FindIndexSound(hp, t, h.name, h.value);
    t.InsertValid(h.name, h.value);
    Pow2Small();
    if !h.sensitive && found.Some? && found.value.1 {
      RoundTrip(nameIndex, 7, 0x80, rest);
      FirstOctetRange(nameIndex, 7, 0x80);
    } else {
      var kind := if h.sensitive then NeverIndexed else if indexing then IncrementalIndexing else WithoutIndexing;
      if nameIndex == 0 {
        NewNameRoundTrip(hp, huff, t, kind, h, rest);
      } else {
        IndexedNameRoundTrip(hp, huff, t, kind, nameIndex, h, rest);
      }
      LiteralFirstOctet(hp, huff, kind, nameIndex, h.name, h.value);
    }
  }

  /** A size update on the wire. */
  ghost function EncodeSizeUpdate(size: nat): (bytes: seq<Byte>)
    ensures |bytes| >= 1
  {
    Patterns();
    Encoding(size, 5, 0x20)
  }

  lemma SizeUpdateRoundTrip(hp: Tables, t: Table, size: nat, maxTableSize: nat, rest: seq<Byte>)
    requires hp.Valid() && size <= maxTableSize && size < TWO_63
    ensures DecodeItem(hp, t, maxTableSize, false, EncodeSizeUpdate(size) + rest)
         == Ok(Item(None, t.Resize(size), |EncodeSizeUpdate(size)|))
  {
    Patterns();
    Pow2Small();
    RoundTrip(size, 5, 0x20, rest);
    FirstOctetRange(size, 5, 0x20);
  }
}
