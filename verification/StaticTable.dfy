/** The static table (appendix A of RFC 7541) and the tables every endpoint starts with. */
module StaticTable {
  import opened Base
  import opened DynamicTable
  import opened HpackFormat
  import HuffmanTable

  function Ascii(s: string): seq<Byte> {
    seq(|s|, i requires 0 <= i < |s| => s[i] as int % 128)
  }

  datatype StaticEntry = StaticEntry(name: seq<Byte>, value: seq<Byte>) {
    function ToHeaderField(): HeaderField {
      HeaderField(name, value, false)
    }
  }

  function Row(name: string, value: string): StaticEntry {
    StaticEntry(Ascii(name), Ascii(value))
  }

  /** Entry i is the one of index i + 1. */
  const STATIC_TABLE: seq<StaticEntry> := [
    Row(":authority", ""),
    Row(":method", "GET"),
    Row(":method", "POST"),
    Row(":path", "/"),
    Row(":path", "/index.html"),
    Row(":scheme", "http"),
    Row(":scheme", "https"),
    Row(":status", "200"),
    Row(":status", "204"),
    Row(":status", "206"),
    Row(":status", "304"),
    Row(":status", "400"),
    Row(":status", "404"),
    Row(":status", "500"),
    Row("accept-charset", ""),
    Row("accept-encoding", "gzip, deflate"),
    Row("accept-language", ""),
    Row("accept-ranges", ""),
    Row("accept", ""),
    Row("access-control-allow-origin", ""),
    Row("age", ""),
    Row("allow", ""),
    Row("authorization", ""),
    Row("cache-control", ""),
    Row("content-disposition", ""),
    Row("content-encoding", ""),
    Row("content-language", ""),
    Row("content-length", ""),
    Row("content-location", ""),
    Row("content-range", ""),
    Row("content-type", ""),
    Row("cookie", ""),
    Row("date", ""),
    Row("etag", ""),
    Row("expect", ""),
    Row("expires", ""),
    Row("from", ""),
    Row("host", ""),
    Row("if-match", ""),
    Row("if-modified-since", ""),
    Row("if-none-match", ""),
    Row("if-range", ""),
    Row("if-unmodified-since", ""),
    Row("last-modified", ""),
    Row("link", ""),
    Row("location", ""),
    Row("max-forwards", ""),
    Row("proxy-authenticate", ""),
    Row("proxy-authorization", ""),
    Row("range", ""),
    Row("referer", ""),
    Row("refresh", ""),
    Row("retry-after", ""),
    Row("server", ""),
    Row("set-cookie", ""),
    Row("strict-transport-security", ""),
    Row("transfer-encoding", ""),
    Row("user-agent", ""),
    Row("vary", ""),
    Row("via", ""),
    Row("www-authenticate", "")
  ]

  function Fields(entries: seq<StaticEntry>): (fields: seq<HeaderField>)
    ensures |fields| == |entries|
    ensures forall i :: 0 <= i < |fields| ==> !fields[i].sensitive
  {
    seq(|entries|, i requires 0 <= i < |entries| => entries[i].ToHeaderField())
  }

  const STANDARD_TABLES := Tables(Fields(STATIC_TABLE), HuffmanTable.HUFFMAN_TABLE)

  lemma StaticTableSize()
    ensures |STATIC_TABLE| == STATIC_TABLE_SIZE
  {
  }

  /** The theory of header blocks applies to the tables of the standard. */
  lemma StandardTablesValid()
    ensures STANDARD_TABLES.Valid()
  {
    StaticTableSize();
    HuffmanTable.TableIsGood();
  }
}
