/** The HPACK encoder and decoder objects, each with its own dynamic table (RFC 7541). */
module HpackCodec {
  import opened Base
  import opened DynamicTable
  import opened HpackFormat
  import opened HpackBlock
  import HpackInteger
  import Huffman
  import HuffmanCoder

  /** Appends an integer to a growing buffer by way of a 16-octet scratch array. */
  method AppendInteger(buf: seq<Byte>, value: HpackInteger.U64, prefixBits: HpackInteger.PrefixBits, pattern: Byte)
      returns (out: seq<Byte>)
    requires HpackInteger.IsPattern(pattern, prefixBits)
    ensures out == buf + HpackInteger.Encoding(value, prefixBits, pattern)
  {
    var temp := new Byte[16];
    HpackInteger.EncodingLength(value, prefixBits, pattern);
    var r := HpackInteger.Encode(temp, value, prefixBits, pattern);
    out := buf + temp[..r.value];
  }

  class Encoder {
    const tables: Tables
    const table: DynamicTable
    var useHuffman: bool

    ghost predicate Valid()
      reads this, table
    {
      tables.Valid() && table.Valid()
    }

    constructor (tables: Tables, maxTableSize: nat)
      requires tables.Valid() && maxTableSize < TWO_64
      ensures Valid() && fresh(table) && this.tables == tables && useHuffman
      ensures table.View() == Table([], maxTableSize)
    {
      this.tables := tables;
      this.table := new DynamicTable(maxTableSize);
      this.useHuffman := true;
    }

    method SetMaxTableSize(size: nat)
      requires Valid() && size < TWO_64
      modifies table
      ensures Valid() && table.View() == old(table.View().Resize(size))
    {
      table.SetMaxSize(size);
    }

    /** Searches both tables, the static one first unless only the dynamic one matches in full. */
    method LookUp(name: seq<Byte>, value: seq<Byte>) returns (r: Option<(nat, bool)>)
      requires Valid()
      ensures r == FindIndex(tables, table.View(), name, value)
    {
      var inStatic := FindInOnePass(tables.statics, name, value);
      match inStatic {
        case Some((i, true)) => return Some((i + 1, true));
        case Some((i, false)) =>
          var inDynamic := FindInOnePass(table.entries, name, value);
          match inDynamic {
            case Some((j, true)) => return Some((STATIC_TABLE_SIZE + 1 + j, true));
            case _ => return Some((i + 1, false));
          }
        case None =>
          var inDynamic := FindInOnePass(table.entries, name, value);
          match inDynamic {
            case Some((j, exact)) => return Some((STATIC_TABLE_SIZE + 1 + j, exact));
            case None => return None;
          }
      }
    }

    /** Huffman-codes a string when that makes it shorter. */
    method AppendString(buf: seq<Byte>, data: seq<Byte>) returns (out: seq<Byte>)
      requires Valid() && InMemory(data)
      ensures out == buf + EncodeString(tables, useHuffman, data)
    {
      Patterns();
      if useHuffman {
        HuffmanCoder.EncodedLenIsLength(tables.huffman, data);
        var coded := new Byte[HuffmanCoder.EncodedLen(tables.huffman, data)];
        var r := HuffmanCoder.Encode(tables.huffman, coded, data);
        if coded.Length < |data| {
          assert coded[..] == coded[..r.value];
          out := AppendInteger(buf, coded.Length, 7, 0x80);
          out := out + coded[..];
          return;
        }
      }
      out := AppendInteger(buf, |data|, 7, 0x00);
      out := out + data;
    }

    method AppendLiteral(buf: seq<Byte>, kind: Kind, nameIndex: nat, name: seq<Byte>, value: seq<Byte>)
        returns (out: seq<Byte>)
      requires Valid() && nameIndex < TWO_63 && InMemory(name) && InMemory(value)
      ensures out == buf + EncodeLiteral(tables, useHuffman, kind, nameIndex, name, value)
    {
      hide EncodeString, HpackInteger.Encoding;
      out := AppendInteger(buf, nameIndex, PrefixOf(kind), Pattern(kind));
      if nameIndex == 0 {
        out := AppendString(out, name);
      }
      out := AppendString(out, value);
    }

    /** Appends one field, indexing it or not. */
    method EncodeHeader(buf: seq<Byte>, name: seq<Byte>, value: seq<Byte>, indexing: bool) returns (out: seq<Byte>)
      requires Valid() && InMemory(name) && InMemory(value)
      modifies table
      ensures Valid()
      ensures var (bytes, t) := old(EncodeField(tables, useHuffman, table.View(), HeaderField(name, value, false), indexing));
              out == buf + bytes && table.View() == t
    {
      hide EncodeLiteral, FindIndex, HpackInteger.Encoding;
      FindIndexSound(tables, table.View(), name, value);
      var found := LookUp(name, value);
      if found.Some? && found.value.1 {
        out := AppendInteger(buf, found.value.0, 7, Pattern(Indexed));
        return;
      }
      var nameIndex := if found.Some? then found.value.0 else 0;
      if indexing {
        out := AppendLiteral(buf, IncrementalIndexing, nameIndex, name, value);
        table.Insert(name, value);
      } else {
        out := AppendLiteral(buf, WithoutIndexing, nameIndex, name, value);
      }
    }

    /** Appends one field that no one may index. */
    method EncodeHeaderSensitive(buf: seq<Byte>, name: seq<Byte>, value: seq<Byte>) returns (out: seq<Byte>)
      requires Valid() && InMemory(name) && InMemory(value)
      ensures out == buf + EncodeField(tables, useHuffman, table.View(), HeaderField(name, value, true), true).0
    {
      hide EncodeLiteral, FindIndex;
      FindIndexSound(tables, table.View(), name, value);
      var found := LookUp(name, value);
      out := AppendLiteral(buf, NeverIndexed, if found.Some? then found.value.0 else 0, name, value);
    }

    /** Appends a header list, in order. */
    method Encode(buf: seq<Byte>, headers: Headers) returns (out: seq<Byte>)
      requires Valid() && AllInMemory(headers)
      modifies table
      ensures Valid()
      ensures var (bytes, t) := old(EncodeFields(tables, useHuffman, table.View(), headers));
              out == buf + bytes && table.View() == t
    {
      hide EncodeField;
      out := buf;
      ghost var done: seq<Byte> := [];
      ghost var whole := EncodeFields(tables, useHuffman, table.View(), headers);
      assert headers[0..] == headers && buf + done == buf && done + whole.0 == whole.0;
      for i := 0 to |headers|
        invariant Valid() && out == buf + done
        invariant whole
               == (done + EncodeFields(tables, useHuffman, table.View(), headers[i..]).0,
                   EncodeFields(tables, useHuffman, table.View(), headers[i..]).1)
      {
        var h := headers[i];
        ghost var bytes := EncodeField(tables, useHuffman, table.View(), h, true).0;
        assert headers[i..][1..] == headers[i + 1..] && headers[i..][0] == h;
        if h.sensitive {
          assert h == HeaderField(h.name, h.value, true);
          SensitiveKeepsTable(tables, useHuffman, table.View(), h);
          out := EncodeHeaderSensitive(out, h.name, h.value);
        } else {
          assert h == HeaderField(h.name, h.value, false);
          out := EncodeHeader(out, h.name, h.value, true);
        }
        Regroup(done, bytes, EncodeFields(tables, useHuffman, table.View(), headers[i + 1..]).0);
        done := done + bytes;
      }
    }

    method EncodeSizeUpdate(buf: seq<Byte>, size: HpackInteger.U64) returns (out: seq<Byte>)
      ensures out == buf + HpackFormat.EncodeSizeUpdate(size)
    {
      Patterns();
      out := AppendInteger(buf, size, 5, 0x20);
    }
  }

  lemma SensitiveKeepsTable(hp: Tables, huff: bool, t: Table, h: HeaderField)
    requires hp.Valid() && h.sensitive
    ensures EncodeField(hp, huff, t, h, true).1 == t
  {
    hide EncodeLiteral, FindIndex;
  }

  lemma Regroup(a: seq<Byte>, b: seq<Byte>, c: seq<Byte>)
    ensures a + (b + c) == a + b + c
  {
  }

  class Decoder {
    const tables: Tables
    const table: DynamicTable
    var maxTableSize: nat
    var maxHeaderListSize: Option<nat>

    ghost predicate Valid()
      reads this, table
    {
      tables.Valid() && table.Valid() && maxTableSize < TWO_64
    }

    constructor (tables: Tables, maxTableSize: nat)
      requires tables.Valid() && maxTableSize < TWO_64
      ensures Valid() && fresh(table) && this.tables == tables && maxHeaderListSize == None
      ensures this.maxTableSize == maxTableSize && table.View() == Table([], maxTableSize)
    {
      this.tables := tables;
      this.table := new DynamicTable(maxTableSize);
      this.maxTableSize := maxTableSize;
      this.maxHeaderListSize := None;
    }

    method GetHeaderByIndex(index: nat) returns (r: Option<HeaderField>)
      requires Valid()
      ensures r == FieldAt(tables, table.View(), index)
    {
      if index <= STATIC_TABLE_SIZE {
        return if index == 0 then None else Some(tables.statics[index - 1]);
      }
      var k := index - STATIC_TABLE_SIZE - 1;
      return if k < |table.entries| then Some(table.entries[k]) else None;
    }

    method DecodeString(data: seq<Byte>) returns (r: Result<(seq<Byte>, nat), HpackError>)
      requires Valid()
      ensures r == HpackFormat.DecodeString(tables, data)
    {
      hide Huffman.Decoding, HpackInteger.Decoding;
      if data == [] {
        return Err(IncompleteString);
      }
      var length := HpackInteger.Decode(data, 7);
      match length {
        case Err(e) => return Err(BadInteger(e));
        case Ok((n, consumed)) =>
          if |data| < consumed + n {
            return Err(IncompleteString);
          }
          var literal := data[consumed..consumed + n];
          if data[0] < 0x80 {
            return Ok((literal, consumed + n));
          }
          var text := HuffmanCoder.Decode(tables.huffman, literal);
          match text {
            case Err(e) => return Err(BadHuffman(e));
            case Ok(s) => return Ok((s, consumed + n));
          }
      }
    }

    /** Reads a literal field of the given kind. */
    method DecodeLiteral(kind: Kind, data: seq<Byte>) returns (r: Result<(HeaderField, nat), HpackError>)
      requires Valid()
      ensures r == HpackFormat.DecodeLiteral(tables, table.View(), kind, data)
    {
      hide HpackFormat.DecodeString, HpackInteger.Decoding;
      var index := HpackInteger.Decode(data, PrefixOf(kind));
      if index.Err? {
        return Err(BadInteger(index.error));
      }
      var (nameIndex, consumed) := index.value;
      var name;
      if nameIndex == 0 {
        var s := DecodeString(data[consumed..]);
        if s.Err? {
          return Err(s.error);
        }
        name, consumed := s.value.0, consumed + s.value.1;
      } else {
        var h := GetHeaderByIndex(nameIndex);
        if h.None? {
          return Err(InvalidIndex);
        }
        name := h.value.name;
      }
      var v := DecodeString(data[consumed..]);
      if v.Err? {
        return Err(v.error);
      }
      return Ok((HeaderField(name, v.value.0, kind == NeverIndexed), consumed + v.value.1));
    }

    /** Reads one representation and changes the table as it says. */
    method DecodeNext(seenField: bool, data: seq<Byte>) returns (r: Result<(Option<HeaderField>, nat), HpackError>)
      requires Valid() && data != []
      modifies table
      ensures Valid()
      ensures match old(DecodeItem(tables, table.View(), maxTableSize, seenField, data))
              case Err(e) => r == Err(e) && table.View() == old(table.View())
              case Ok(item) => r == Ok((item.field, item.consumed)) && table.View() == item.table
    {
      hide HpackFormat.DecodeLiteral, HpackInteger.Decoding;
      if data[0] >= 0x80 {
        var index := HpackInteger.Decode(data, 7);
        if index.Err? {
          return Err(BadInteger(index.error));
        }
        if index.value.0 == 0 {
          return Err(InvalidIndex);
        }
        var h := GetHeaderByIndex(index.value.0);
        return if h.None? then Err(InvalidIndex) else Ok((h, index.value.1));
      } else if data[0] >= 0x40 {
        var h := DecodeLiteral(IncrementalIndexing, data);
        if h.Err? {
          return Err(h.error);
        }
        table.Insert(h.value.0.name, h.value.0.value);
        return Ok((Some(h.value.0), h.value.1));
      } else if data[0] >= 0x20 {
        if seenField {
          return Err(SizeUpdateMisplaced);
        }
        var size := HpackInteger.Decode(data, 5);
        if size.Err? {
          return Err(BadInteger(size.error));
        }
        if size.value.0 > maxTableSize {
          return Err(SizeUpdateTooLarge);
        }
        table.SetMaxSize(size.value.0);
        return Ok((None, size.value.1));
      } else {
        var h := DecodeLiteral(if data[0] >= 0x10 then NeverIndexed else WithoutIndexing, data);
        return if h.Err? then Err(h.error) else Ok((Some(h.value.0), h.value.1));
      }
    }

    /** Decodes a header block. */
    method Decode(data: seq<Byte>) returns (r: Result<Headers, HpackError>)
      requires Valid()
      modifies table
      ensures Valid()
      ensures Decoded(r, table.View())
           == old(DecodeFields(tables, table.View(), maxTableSize, maxHeaderListSize, false, 0, data))
    {
      hide DecodeItem;
      var headers: Headers := [];
      var offset: nat, seenField, size: nat := 0, false, 0;
      ghost var whole := DecodeFields(tables, table.View(), maxTableSize, maxHeaderListSize, false, 0, data);
      assert data[0..] == data;
      PrependNone(whole);
      while offset < |data|
        invariant Valid() && offset <= |data| && size < TWO_64
        invariant whole == PrependAll(headers,
                    DecodeFields(tables, table.View(), maxTableSize, maxHeaderListSize, seenField, size, data[offset..]))
        decreases |data| - offset
      {
        ghost var t, front, rest := table.View(), headers, data[offset..];
        var next := DecodeNext(seenField, data[offset..]);
        if next.Err? {
          return Err(next.error);
        }
        var (field, consumed) := next.value;
        offset := offset + consumed;
        assert rest[consumed..] == data[offset..];
        if field.Some? {
          seenField := true;
          size := SaturatingAdd(size, field.value.Size());
          if maxHeaderListSize.Some? && size > maxHeaderListSize.value {
            return Err(HeaderListTooLarge);
          }
          headers := headers + [field.value];
          PrependLast(front, field.value,
            DecodeFields(tables, table.View(), maxTableSize, maxHeaderListSize, true, size, data[offset..]));
        }
      }
      assert headers + [] == headers;
      return Ok(headers);
    }
  }

  function PrependAll(front: Headers, d: Decoded): Decoded {
    if d.list.Ok? then d.(list := Ok(front + d.list.value)) else d
  }

  lemma PrependNone(d: Decoded)
    ensures PrependAll([], d) == d
  {
    if d.list.Ok? {
      assert [] + d.list.value == d.list.value;
    }
  }

  lemma PrependLast(front: Headers, h: HeaderField, d: Decoded)
    ensures PrependAll(front + [h], d) == PrependAll(front, d.Prepend(h))
  {
    if d.list.Ok? {
      assert front + [h] + d.list.value == front + ([h] + d.list.value);
    }
  }
}
