/** The sending side of header compression on a connection: table size settings arrive between
    blocks and are announced at the start of the next one (section 4.2 of RFC 7541). */
module HpackSender {
  import opened Base
  import opened DynamicTable
  import opened HpackFormat
  import opened HpackBlock
  import opened HpackCodec

  class BlockSender {
    const encoder: Encoder
    var headerTableSize: nat
    var pendingUpdate: Option<Pending>

    ghost predicate Valid()
      reads this, encoder, encoder.table
    {
      && encoder.Valid() && headerTableSize < TWO_32
      && (pendingUpdate.Some? ==> pendingUpdate.value.low < TWO_32 && pendingUpdate.value.last < TWO_32)
    }

    /** Both ends of the direction, as the sender of it sees them. */
    ghost function With(receiver: Table): Link
      reads this, encoder, encoder.table
    {
      Link(encoder.table.View(), receiver, headerTableSize, pendingUpdate)
    }

    constructor (tables: Tables, headerTableSize: nat)
      requires tables.Valid() && headerTableSize < TWO_32
      ensures Valid() && fresh(encoder) && fresh(encoder.table) && encoder.tables == tables && encoder.useHuffman
      ensures With(Table([], headerTableSize)) == Link(Table([], headerTableSize), Table([], headerTableSize), headerTableSize, None)
    {
      this.encoder := new Encoder(tables, headerTableSize);
      this.headerTableSize := headerTableSize;
      this.pendingUpdate := None;
    }

    /** The peer's table size setting: the encoder follows it at once, the peer is told later. */
    method ApplyHeaderTableSize(size: nat)
      requires Valid() && size < TWO_32
      modifies this, encoder.table
      ensures Valid()
      ensures forall receiver :: With(receiver) == old(With(receiver).Set(size))
    {
      if size != headerTableSize {
        match pendingUpdate {
          case Some(p) => pendingUpdate := Some(Pending(if size < p.low then size else p.low, size));
          case None => pendingUpdate := Some(Pending(size, size));
        }
      }
      headerTableSize := size;
      encoder.SetMaxTableSize(size);
    }

    /** The next header block: the fields are encoded first, the pending updates go in front. */
    method WriteBlock(headers: Headers) returns (block: seq<Byte>)
      requires Valid() && AllInMemory(headers)
      modifies this`pendingUpdate, encoder.table
      ensures Valid() && pendingUpdate == None && headerTableSize == old(headerTableSize)
      ensures block == old(EncodeUpdates(pendingUpdate)
                           + EncodeFields(encoder.tables, encoder.useHuffman, encoder.table.View(), headers).0)
      ensures encoder.table.View() == old(EncodeFields(encoder.tables, encoder.useHuffman, encoder.table.View(), headers).1)
    {
      hide EncodeFields, HpackFormat.EncodeSizeUpdate;
      var fields := encoder.Encode([], headers);
      NothingInFront(EncodeFields(encoder.tables, encoder.useHuffman, old(encoder.table.View()), headers).0);
      block := [];
      match pendingUpdate {
        case None =>
        case Some(p) =>
          NothingInFront(HpackFormat.EncodeSizeUpdate(p.low));
          NothingInFront(HpackFormat.EncodeSizeUpdate(p.last));
          if p.low != p.last {
            block := encoder.EncodeSizeUpdate(block, p.low);
          }
          block := encoder.EncodeSizeUpdate(block, p.last);
      }
      block := block + fields;
      pendingUpdate := None;
    }
  }

  lemma NothingInFront(s: seq<Byte>)
    ensures [] + s == s
  {
  }
}
