/** What the octets of a header block mean (sections 5 and 6 of RFC 7541), stated as a grammar
    over octets with no reader or writer, and that the two agree with it. */
module HpackOctets {
  import opened Base
  import opened Bits
  import opened HpackInteger
  import opened DynamicTable
  import opened HpackFormat
  import opened HpackBlock
  import Huffman

  // ---- Integers ----

  /** Seven bits from each octet, least significant first. */
  function Sevens(octets: seq<Byte>): nat {
    if octets == [] then 0 else octets[0] % 128 + 128 * Sevens(octets[1..])
  }

  /** All octets but the last say that more follow. */
  predicate Chained(octets: seq<Byte>) {
    octets != [] && octets[|octets| - 1] < 128 && forall i :: 0 <= i < |octets| - 1 ==> octets[i] >= 128
  }

  /** The octets that stand for a number whose prefix holds values below limit. */
  predicate Number(octets: seq<Byte>, limit: nat, value: nat)
    requires limit > 0
  {
    && octets != []
    && if octets[0] % limit < limit - 1 then |octets| == 1 && value == octets[0] % limit
       else Chained(octets[1..]) && |octets| <= 10 && value == limit - 1 + Sevens(octets[1..])
  }

  lemma {:induction false} LowBitsRest(v: nat, n: nat)
    ensures LowBits(v, n) == v % Pow2(n)
  {
    if n > 0 {
      LowBitsRest(v / 2, n - 1);
      HalfRest(v, Pow2(n - 1));
    }
  }

  lemma HalfRest(v: nat, p: nat)
    requires p > 0
    ensures v % (2 * p) == 2 * (v / 2 % p) + v % 2
  {
    var q, r := v / 2 / p, v / 2 % p;
    assert v / 2 == p * q + r;
    Regroup(q, p);
    RestIs(v, 2 * p, q, 2 * r + v % 2);
  }

  lemma Regroup(q: nat, p: nat)
    ensures 2 * (p * q) == q * (2 * p)
  {
  }

  lemma RestIs(v: nat, d: nat, q: nat, r: nat)
    requires v == q * d + r && r < d
    ensures v % d == r
  {
    var w := v / d;
    assert v == d * w + v % d;
    assert d * w == w * d;
    SameBlock(v, q, r, w, d);
  }

  /** Continuation octets are read if and only if they are chained and there are at most nine. */
  lemma {:induction false} AccumulateReads(buf: seq<Byte>, offset: nat, shift: nat, value: nat)
    requires offset <= |buf| && shift <= 63 && shift % 7 == 0
    ensures match Accumulate(buf, offset, shift, value)
            case Err(_) => forall k :: offset < k <= |buf| && 7 * (k - offset) <= 63 - shift ==> !Chained(buf[offset..k])
            case Ok((sum, k)) =>
              && offset < k <= |buf| && 7 * (k - offset) <= 63 - shift
              && Chained(buf[offset..k]) && sum == value + Shl(Sevens(buf[offset..k]), shift)
    decreases |buf| - offset
  {
    if offset < |buf| && shift < 63 {
      var low := buf[offset] % 128;
      var sum := value + Shl(low, shift);
      if buf[offset] < 128 {
        assert buf[offset..offset + 1] == [buf[offset]];
        assert Sevens([buf[offset]]) == low + 128 * Sevens([]);
      } else {
        AccumulateReads(buf, offset + 1, shift + 7, sum);
        match Accumulate(buf, offset + 1, shift + 7, sum) {
          case Err(_) =>
            forall k | offset < k <= |buf| && 7 * (k - offset) <= 63 - shift ensures !Chained(buf[offset..k]) {
              if k > offset + 1 {
                assert buf[offset..k][1..] == buf[offset + 1..k];
                ChainedRest(buf[offset..k]);
              } else {
                assert buf[offset..k][0] >= 128;
              }
            }
          case Ok((total, k)) =>
            var octets := buf[offset..k];
            assert octets[1..] == buf[offset + 1..k];
            ChainedRest(octets);
            var rest := Sevens(octets[1..]);
            ShlSeven(rest, shift);
            ShlSum(low, 128 * rest, shift);
        }
      }
    }
  }

  lemma ChainedRest(octets: seq<Byte>)
    requires |octets| >= 2 && octets[0] >= 128
    ensures Chained(octets) <==> Chained(octets[1..])
  {
    var rest := octets[1..];
    if Chained(rest) {
      forall i | 0 <= i < |octets| - 1 ensures octets[i] >= 128 {
        if i > 0 {
          assert rest[i - 1] == octets[i];
        }
      }
    }
    if Chained(octets) {
      forall i | 0 <= i < |rest| - 1 ensures rest[i] >= 128 {
        assert octets[i + 1] == rest[i];
      }
    }
  }

  /** What is read as a number is one. */
  lemma ReadIsNumber(data: seq<Byte>, n: PrefixBits)
    requires Decoding(data, n).Ok?
    ensures var (v, k) := Decoding(data, n).value;
            1 <= k <= |data| && Number(data[..k], Pow2(n), v)
  {
    hide Accumulate, Chained, Sevens;
    LowBitsRest(data[0], n);
    if LowBits(data[0], n) >= MaxPrefix(n) {
      AccumulateReads(data, 1, 0, MaxPrefix(n));
      var (v, k) := Decoding(data, n).value;
      assert data[..k][1..] == data[1..k];
    }
  }

  /** A number is read as what it stands for, whatever follows it. */
  lemma NumberIsRead(octets: seq<Byte>, rest: seq<Byte>, n: PrefixBits, value: nat)
    requires Number(octets, Pow2(n), value)
    ensures Decoding(octets + rest, n) == Ok((value, |octets|))
  {
    hide Accumulate;
    var data := octets + rest;
    LowBitsRest(octets[0], n);
    assert data[0] == octets[0];
    if LowBits(data[0], n) >= MaxPrefix(n) {
      AccumulateReads(data, 1, 0, MaxPrefix(n));
      assert data[1..|octets|] == octets[1..];
      match Accumulate(data, 1, 0, MaxPrefix(n)) {
        case Err(_) => assert false;
        case Ok((_, k)) => ChainedOnce(data[1..k], octets[1..], data[1..]);
      }
    }
  }

  /** Of two beginnings of one sequence only one is chained. */
  lemma ChainedOnce(a: seq<Byte>, b: seq<Byte>, data: seq<Byte>)
    requires Chained(a) && Chained(b) && a <= data && b <= data
    ensures a == b
  {
    if |a| < |b| {
      assert false;
    } else if |b| < |a| {
      assert false;
    }
  }

  // ---- Strings ----

  /** The octets of a string literal whose length takes the first k of them. */
  ghost predicate TextAt(hp: Tables, octets: seq<Byte>, k: nat, text: seq<Byte>)
    requires hp.Valid() && 0 < k <= |octets|
  {
    && Number(octets[..k], 128, |octets| - k)
    && octets[k..] == if octets[0] / 128 == 1 then Huffman.Encoding(hp.huffman, text) else text
  }

  /** The octets of a string literal: its length and then the string, Huffman-coded if and only if
      the first bit says so. */
  ghost predicate Text(hp: Tables, octets: seq<Byte>, text: seq<Byte>)
    requires hp.Valid()
  {
    exists k: nat :: 0 < k <= |octets| && TextAt(hp, octets, k, text)
  }

  lemma ReadIsText(hp: Tables, data: seq<Byte>)
    requires hp.Valid() && DecodeString(hp, data).Ok?
    ensures var (text, n) := DecodeString(hp, data).value;
            1 <= n <= |data| && Text(hp, data[..n], text)
  {
    hide Number, Decoding, Huffman.Decoding, Huffman.Encoding;
    Pow2Small();
    ReadIsNumber(data, 7);
    var (length, k) := Decoding(data, 7).value;
    var (text, n) := DecodeString(hp, data).value;
    var literal := data[k..k + length];
    if data[0] >= 128 {
      Huffman.EncodingDecoding(hp.huffman, literal);
    }
    var octets := data[..n];
    assert octets[..k] == data[..k] && octets[k..] == literal;
    assert TextAt(hp, octets, k, text);
  }

  lemma TextIsRead(hp: Tables, octets: seq<Byte>, text: seq<Byte>, rest: seq<Byte>)
    requires hp.Valid() && Text(hp, octets, text)
    ensures DecodeString(hp, octets + rest) == Ok((text, |octets|))
  {
    hide Number, Huffman.Decoding, Huffman.Encoding;
    var k: nat :| 0 < k <= |octets| && TextAt(hp, octets, k, text);
    Pow2Small();
    var data := octets + rest;
    assert octets[..k] + (octets[k..] + rest) == data;
    NumberIsRead(octets[..k], octets[k..] + rest, 7, |octets| - k);
    assert data[k..|octets|] == octets[k..];
    Huffman.DecodingEncoding(hp.huffman, text);
  }

  // ---- Fields ----

  /** The two tables laid end to end; indices count through them from 1. */
  function Both(hp: Tables, t: Table): seq<HeaderField> {
    hp.statics + t.entries
  }

  /** A name is that of the entry the index counts to or, for index 0, a string of its own. */
  ghost predicate Names(hp: Tables, t: Table, index: nat, octets: seq<Byte>, name: seq<Byte>)
    requires hp.Valid()
  {
    if index == 0 then Text(hp, octets, name)
    else octets == [] && index <= |Both(hp, t)| && Both(hp, t)[index - 1].name == name
  }

  ghost predicate LiteralAt(hp: Tables, t: Table, octets: seq<Byte>, limit: nat, k: nat, m: nat, index: nat,
                            name: seq<Byte>, value: seq<Byte>)
    requires hp.Valid() && limit > 0 && k <= m <= |octets|
  {
    && Number(octets[..k], limit, index) && Names(hp, t, index, octets[k..m], name) && Text(hp, octets[m..], value)
  }

  /** The octets of a literal: an index, a name if the index is 0, and a value. */
  ghost predicate Literal(hp: Tables, t: Table, octets: seq<Byte>, limit: nat, name: seq<Byte>, value: seq<Byte>)
    requires hp.Valid() && limit > 0
  {
    exists k: nat, m: nat, index: nat :: k <= m <= |octets| && LiteralAt(hp, t, octets, limit, k, m, index, name, value)
  }

  /** The octets of one representation, told apart by the bits in front: the field they stand for,
      or None for a size update, and the table after it. */
  ghost predicate Spells(hp: Tables, t: Table, maxTableSize: nat, seenField: bool, octets: seq<Byte>,
                         field: Option<HeaderField>, after: Table)
    requires hp.Valid() && octets != []
  {
    if octets[0] / 128 == 1 then
      && after == t
      && exists index: nat :: Number(octets, 128, index) && 1 <= index <= |Both(hp, t)| && field == Some(Both(hp, t)[index - 1])
    else if octets[0] / 64 == 1 then
      && field.Some? && !field.value.sensitive && after == t.Insert(field.value.name, field.value.value)
      && Literal(hp, t, octets, 64, field.value.name, field.value.value)
    else if octets[0] / 32 == 1 then
      && field.None? && !seenField
      && exists size: nat :: Number(octets, 32, size) && size <= maxTableSize && after == t.Resize(size)
    else
      && field.Some? && (field.value.sensitive <==> octets[0] / 16 == 1) && after == t
      && Literal(hp, t, octets, 16, field.value.name, field.value.value)
  }

  lemma FieldIsInBoth(hp: Tables, t: Table, index: nat)
    requires hp.Valid() && index > 0
    ensures FieldAt(hp, t, index) == if index <= |Both(hp, t)| then Some(Both(hp, t)[index - 1]) else None
  {
  }

  lemma ReadIsLiteral(hp: Tables, t: Table, kind: Kind, data: seq<Byte>)
    requires hp.Valid() && DecodeLiteral(hp, t, kind, data).Ok?
    ensures var (h, n) := DecodeLiteral(hp, t, kind, data).value;
            && 1 <= n <= |data| && (h.sensitive <==> kind.NeverIndexed?)
            && Literal(hp, t, data[..n], Pow2(PrefixOf(kind)), h.name, h.value)
  {
    hide Number, Text, DecodeString, FieldAt;
    var bits := PrefixOf(kind);
    ReadIsNumber(data, bits);
    var (index, k) := Decoding(data, bits).value;
    var (h, n) := DecodeLiteral(hp, t, kind, data).value;
    var m := k;
    if index == 0 {
      ReadIsText(hp, data[k..]);
      m := k + DecodeString(hp, data[k..]).value.1;
      assert data[..n][k..m] == data[k..][..m - k];
    } else {
      FieldIsInBoth(hp, t, index);
      assert data[..n][k..m] == [];
      assert data[k + 0..] == data[k..];
    }
    ReadIsText(hp, data[m..]);
    assert data[..n][m..] == data[m..][..n - m];
    assert data[..n][..k] == data[..k];
    assert LiteralAt(hp, t, data[..n], Pow2(bits), k, m, index, h.name, h.value);
  }

  lemma LiteralIsRead(hp: Tables, t: Table, kind: Kind, octets: seq<Byte>, name: seq<Byte>, value: seq<Byte>, rest: seq<Byte>)
    requires hp.Valid() && Literal(hp, t, octets, Pow2(PrefixOf(kind)), name, value)
    ensures DecodeLiteral(hp, t, kind, octets + rest) == Ok((HeaderField(name, value, kind.NeverIndexed?), |octets|))
  {
    hide Number, Text, DecodeString, FieldAt;
    var bits := PrefixOf(kind);
    var k: nat, m: nat, index: nat :| k <= m <= |octets| && LiteralAt(hp, t, octets, Pow2(bits), k, m, index, name, value);
    var data := octets + rest;
    assert octets[..k] + (octets[k..] + rest) == data;
    NumberIsRead(octets[..k], octets[k..] + rest, bits, index);
    assert data[m..] == octets[m..] + rest;
    TextIsRead(hp, octets[m..], value, rest);
    if index == 0 {
      assert data[k..] == octets[k..m] + (octets[m..] + rest);
      TextIsRead(hp, octets[k..m], name, octets[m..] + rest);
    } else {
      FieldIsInBoth(hp, t, index);
      assert k == m;
      assert data[k + 0..] == data[m..];
    }
  }

  // ---- One representation ----

  /** What the decoder reads is what the octets spell. */
  lemma ReadIsSpelled(hp: Tables, t: Table, maxTableSize: nat, seenField: bool, data: seq<Byte>)
    requires hp.Valid() && data != [] && DecodeItem(hp, t, maxTableSize, seenField, data).Ok?
    ensures var item := DecodeItem(hp, t, maxTableSize, seenField, data).value;
            && 1 <= item.consumed <= |data|
            && Spells(hp, t, maxTableSize, seenField, data[..item.consumed], item.field, item.table)
  {
    hide Number, Literal, FieldAt, DecodeLiteral;
    Pow2Small();
    var item := DecodeItem(hp, t, maxTableSize, seenField, data).value;
    var octets := data[..item.consumed];
    assert octets[0] == data[0];
    if data[0] >= 0x80 {
      ReadIsNumber(data, 7);
      FieldIsInBoth(hp, t, Decoding(data, 7).value.0);
    } else if data[0] >= 0x40 {
      ReadIsLiteral(hp, t, IncrementalIndexing, data);
    } else if data[0] >= 0x20 {
      ReadIsNumber(data, 5);
    } else {
      ReadIsLiteral(hp, t, if data[0] >= 0x10 then NeverIndexed else WithoutIndexing, data);
    }
  }

  /** And what octets spell is read, whatever follows them. */
  lemma SpelledIsRead(hp: Tables, t: Table, maxTableSize: nat, seenField: bool, octets: seq<Byte>,
                      field: Option<HeaderField>, after: Table, rest: seq<Byte>)
    requires hp.Valid() && octets != [] && Spells(hp, t, maxTableSize, seenField, octets, field, after)
    ensures DecodeItem(hp, t, maxTableSize, seenField, octets + rest) == Ok(Item(field, after, |octets|))
  {
    hide Number, Literal, FieldAt, DecodeLiteral;
    Pow2Small();
    assert (octets + rest)[0] == octets[0];
    if octets[0] / 128 == 1 {
      var index: nat :| Number(octets, 128, index) && 1 <= index <= |Both(hp, t)| && field == Some(Both(hp, t)[index - 1]);
      NumberIsRead(octets, rest, 7, index);
      FieldIsInBoth(hp, t, index);
    } else if octets[0] / 64 == 1 {
      LiteralIsRead(hp, t, IncrementalIndexing, octets, field.value.name, field.value.value, rest);
    } else if octets[0] / 32 == 1 {
      var size: nat :| Number(octets, 32, size) && size <= maxTableSize && after == t.Resize(size);
      NumberIsRead(octets, rest, 5, size);
    } else {
      LiteralIsRead(hp, t, if octets[0] / 16 == 1 then NeverIndexed else WithoutIndexing,
                    octets, field.value.name, field.value.value, rest);
    }
  }

  // ---- What the encoder chooses ----

  /** A string is Huffman-coded if and only if that is allowed and shorter. */
  lemma StringChoice(hp: Tables, useHuffman: bool, data: seq<Byte>)
    requires hp.Valid() && InMemory(data)
    ensures var octets := EncodeString(hp, useHuffman, data);
            && Text(hp, octets, data)
            && (octets[0] / 128 == 1 <==> useHuffman && |Huffman.Encoding(hp.huffman, data)| < |data|)
  {
    hide Text, DecodeString;
    var octets := EncodeString(hp, useHuffman, data);
    StringRoundTrip(hp, useHuffman, data, []);
    assert octets + [] == octets;
    ReadIsText(hp, octets);
    assert octets[..|octets|] == octets;
    Patterns();
    Pow2Small();
    FirstOctetRange(|Huffman.Encoding(hp.huffman, data)|, 7, 0x80);
    FirstOctetRange(|data|, 7, 0x00);
  }

  /** The search finds a field if and only if it is in one of the two tables, and else an entry of
      the same name if and only if there is one. */
  lemma FindIndexComplete(hp: Tables, t: Table, name: seq<Byte>, value: seq<Byte>)
    requires hp.Valid() && t.Valid()
    ensures var found := FindIndex(hp, t, name, value);
            && (found.Some? && found.value.1 <==> HeaderField(name, value, false) in Both(hp, t))
            && (found.Some? <==> exists i :: 0 <= i < |Both(hp, t)| && Both(hp, t)[i].name == name)
  {
    var found := FindIndex(hp, t, name, value);
    FindIndexSound(hp, t, name, value);
    if found.Some? {
      FieldIsInBoth(hp, t, found.value.0);
    }
    forall i | 0 <= i < |Both(hp, t)| && Both(hp, t)[i].name == name
      ensures found.Some? && (Both(hp, t)[i] == HeaderField(name, value, false) ==> found.value.1)
    {
      if i < STATIC_TABLE_SIZE {
        assert hp.statics[i] == Both(hp, t)[i];
      } else {
        assert t.entries[i - STATIC_TABLE_SIZE] == Both(hp, t)[i];
      }
    }
  }

  /** What the encoder writes spells the field; it is a literal never to be indexed if and only if
      the field is sensitive, an index if and only if it is not and stands in a table, and another
      literal otherwise, which names the field by index if and only if some entry has the name. */
  lemma FieldChoice(hp: Tables, huff: bool, t: Table, h: HeaderField, indexing: bool, maxTableSize: nat, seenField: bool)
    requires hp.Valid() && t.Valid() && InMemory(h.name) && InMemory(h.value)
    ensures var (octets, after) := EncodeField(hp, huff, t, h, indexing);
            var stands := HeaderField(h.name, h.value, false) in Both(hp, t);
            var named := exists i :: 0 <= i < |Both(hp, t)| && Both(hp, t)[i].name == h.name;
            && octets != [] && Spells(hp, t, maxTableSize, seenField, octets, Some(h), after)
            && (octets[0] / 16 == 1 <==> h.sensitive)
            && (octets[0] / 128 == 1 <==> !h.sensitive && stands)
            && (octets[0] / 64 == 1 <==> !h.sensitive && !stands && indexing)
            && (octets[0] / 16 == 0 <==> !h.sensitive && !stands && !indexing)
            && (octets[0] < 128 ==> (octets[0] % (if octets[0] / 64 == 1 then 64 else 16) == 0 <==> !named))
  {
    hide Number, Literal, Spells, DecodeItem, FindIndex, FieldAt;
    var (octets, after) := EncodeField(hp, huff, t, h, indexing);
    FieldRoundTrip(hp, huff, t, h, indexing, maxTableSize, seenField, []);
    assert octets + [] == octets;
    ReadIsSpelled(hp, t, maxTableSize, seenField, octets);
    assert octets[..|octets|] == octets;
    FindIndexComplete(hp, t, h.name, h.value);
    FindIndexSound(hp, t, h.name, h.value);
    var found := FindIndex(hp, t, h.name, h.value);
    var nameIndex := if found.Some? then found.value.0 else 0;
    Pow2Small();
    Patterns();
    if !h.sensitive && found.Some? && found.value.1 {
      FirstOctetRange(nameIndex, 7, 0x80);
    } else {
      var kind := if h.sensitive then NeverIndexed else if indexing then IncrementalIndexing else WithoutIndexing;
      LiteralFront(hp, huff, kind, nameIndex, h.name, h.value);
    }
  }

  /** The first octet of a literal is its pattern alone if and only if it brings its name. */
  lemma LiteralFront(hp: Tables, huff: bool, kind: Kind, nameIndex: nat, name: seq<Byte>, value: seq<Byte>)
    requires hp.Valid()
    ensures var first := EncodeLiteral(hp, huff, kind, nameIndex, name, value)[0];
            && Pattern(kind) <= first < Pattern(kind) + Pow2(PrefixOf(kind))
            && (first == Pattern(kind) <==> nameIndex == 0)
  {
    hide EncodeString;
    LiteralFirstOctet(hp, huff, kind, nameIndex, name, value);
    Pow2Small();
  }

  // ---- Header blocks ----

  /** One representation of a block: its octets, the field if it is one, and the table after it. */
  datatype Part = Part(octets: seq<Byte>, field: Option<HeaderField>, after: Table)

  function Joined(parts: seq<Part>): seq<Byte> {
    if parts == [] then [] else parts[0].octets + Joined(parts[1..])
  }

  function FieldsOf(parts: seq<Part>): Headers {
    if parts == [] then []
    else (if parts[0].field.Some? then [parts[0].field.value] else []) + FieldsOf(parts[1..])
  }

  function TableAfter(t: Table, parts: seq<Part>): Table {
    if parts == [] then t else parts[|parts| - 1].after
  }

  /** A block: representations one after the other, size updates before all fields. */
  ghost predicate Block(hp: Tables, t: Table, maxTableSize: nat, seenField: bool, parts: seq<Part>)
    requires hp.Valid()
    decreases |parts|
  {
    parts != [] ==>
      && parts[0].octets != []
      && Spells(hp, t, maxTableSize, seenField, parts[0].octets, parts[0].field, parts[0].after)
      && Block(hp, parts[0].after, maxTableSize, seenField || parts[0].field.Some?, parts[1..])
  }

  /** Every block is read, as what it spells, if and only if its list is within the limit. */
  lemma {:induction false} BlockIsRead(hp: Tables, t: Table, maxTableSize: nat, limit: Option<nat>, seenField: bool,
                                       size: nat, parts: seq<Part>)
    requires hp.Valid() && Block(hp, t, maxTableSize, seenField, parts) && size < TWO_64 && !Exceeds(size, limit)
    ensures var r := DecodeFields(hp, t, maxTableSize, limit, seenField, size, Joined(parts));
            if Exceeds(ListSize(size, FieldsOf(parts)), limit) then r.list == Err(HeaderListTooLarge)
            else r == Decoded(Ok(FieldsOf(parts)), TableAfter(t, parts))
    decreases |parts|
  {
    hide Spells, DecodeItem;
    if parts != [] {
      var p, rest := parts[0], parts[1..];
      SpelledIsRead(hp, t, maxTableSize, seenField, p.octets, p.field, p.after, Joined(rest));
      DecodeOne(hp, t, maxTableSize, limit, seenField, size, p.octets, Joined(rest), Item(p.field, p.after, |p.octets|));
      if p.field.Some? {
        var more := SaturatingAdd(size, p.field.value.Size());
        ListSizeGrows(more, FieldsOf(rest));
        assert FieldsOf(parts)[1..] == FieldsOf(rest);
        if !Exceeds(more, limit) {
          BlockIsRead(hp, p.after, maxTableSize, limit, true, more, rest);
        }
      } else {
        assert FieldsOf(parts) == FieldsOf(rest);
        BlockIsRead(hp, p.after, maxTableSize, limit, seenField, size, rest);
      }
    }
  }

  /** And whatever is read is a block that spells it. */
  lemma {:induction false} ReadIsBlock(hp: Tables, t: Table, maxTableSize: nat, limit: Option<nat>, seenField: bool,
                                       size: nat, data: seq<Byte>) returns (parts: seq<Part>)
    requires hp.Valid() && DecodeFields(hp, t, maxTableSize, limit, seenField, size, data).list.Ok?
    ensures var r := DecodeFields(hp, t, maxTableSize, limit, seenField, size, data);
            && Block(hp, t, maxTableSize, seenField, parts) && Joined(parts) == data
            && FieldsOf(parts) == r.list.value && TableAfter(t, parts) == r.table
    decreases |data|
  {
    hide Spells, DecodeItem;
    if data == [] {
      return [];
    }
    ReadIsSpelled(hp, t, maxTableSize, seenField, data);
    var item := DecodeItem(hp, t, maxTableSize, seenField, data).value;
    var rest := data[item.consumed..];
    var more := if item.field.Some? then SaturatingAdd(size, item.field.value.Size()) else size;
    var tail := ReadIsBlock(hp, item.table, maxTableSize, limit, seenField || item.field.Some?, more, rest);
    var p := Part(data[..item.consumed], item.field, item.table);
    parts := [p] + tail;
    assert parts[1..] == tail;
    assert data == p.octets + rest;
  }

  /** The octets of all names and values. */
  function OctetsOf(hs: Headers): nat {
    if hs == [] then 0 else |hs[0].name| + |hs[0].value| + OctetsOf(hs[1..])
  }

  /** The size of a list is that of its names and values and 32 for each field, as far as 64 bits go. */
  lemma {:induction false} ListSizeIsSum(size: nat, hs: Headers)
    requires size < TWO_64
    ensures var sum := size + OctetsOf(hs) + 32 * |hs|;
            ListSize(size, hs) == if sum < TWO_64 then sum else TWO_64 - 1
    decreases |hs|
  {
    if hs != [] {
      ListSizeIsSum(SaturatingAdd(size, hs[0].Size()), hs[1..]);
    }
  }
}
