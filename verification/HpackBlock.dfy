/** Whole header blocks and the two tables that follow them (sections 2.2, 4.2 and 6.3 of RFC 7541). */
module HpackBlock {
  import opened Base
  import opened DynamicTable
  import opened HpackFormat

  type Headers = seq<HeaderField>

  /** Every name and value is a byte string that memory can hold. */
  predicate AllInMemory(hs: Headers) {
    forall i :: 0 <= i < |hs| ==> InMemory(hs[i].name) && InMemory(hs[i].value)
  }

  function SaturatingAdd(a: nat, b: nat): nat {
    if a + b < TWO_64 then a + b else TWO_64 - 1
  }

  /** The running size of a header list (section 6.5.2 of RFC 9113). */
  function ListSize(size: nat, hs: Headers): nat
    decreases |hs|
  {
    if hs == [] then size else ListSize(SaturatingAdd(size, hs[0].Size()), hs[1..])
  }

  predicate Exceeds(size: nat, limit: Option<nat>) {
    limit.Some? && size > limit.value
  }

  /** The representations of a header list, and the table they leave. */
  ghost function EncodeFields(hp: Tables, huff: bool, t: Table, hs: Headers): (seq<Byte>, Table)
    requires hp.Valid()
    decreases |hs|
  {
    if hs == [] then ([], t)
    else
      var (bytes, t1) := EncodeField(hp, huff, t, hs[0], true);
      var (more, t2) := EncodeFields(hp, huff, t1, hs[1..]);
      (bytes + more, t2)
  }

  /** A decoded header list or an error, with the table as it was left. */
  datatype Decoded = Decoded(list: Result<Headers, HpackError>, table: Table) {
    function Prepend(h: HeaderField): Decoded {
      if list.Ok? then this.(list := Ok([h] + list.value)) else this
    }
  }

  ghost function DecodeFields(hp: Tables, t: Table, maxTableSize: nat, limit: Option<nat>, seenField: bool, size: nat,
                              data: seq<Byte>): Decoded
    requires hp.Valid()
    decreases |data|
  {
    if data == [] then Decoded(Ok([]), t)
    else
      match DecodeItem(hp, t, maxTableSize, seenField, data)
      case Err(e) => Decoded(Err(e), t)
      case Ok(Item(None, t', consumed)) =>
        DecodeFields(hp, t', maxTableSize, limit, seenField, size, data[consumed..])
      case Ok(Item(Some(h), t', consumed)) =>
        var size' := SaturatingAdd(size, h.Size());
        if Exceeds(size', limit) then Decoded(Err(HeaderListTooLarge), t')
        else DecodeFields(hp, t', maxTableSize, limit, true, size', data[consumed..]).Prepend(h)
  }

  lemma {:induction false} ListSizeGrows(size: nat, hs: Headers)
    requires size < TWO_64
    ensures size <= ListSize(size, hs)
    decreases |hs|
  {
    if hs != [] {
      ListSizeGrows(SaturatingAdd(size, hs[0].Size()), hs[1..]);
    }
  }

  lemma DecodeOne(hp: Tables, t: Table, maxTableSize: nat, limit: Option<nat>, seenField: bool, size: nat,
                  bytes: seq<Byte>, more: seq<Byte>, item: Item)
    requires hp.Valid() && bytes != []
    requires DecodeItem(hp, t, maxTableSize, seenField, bytes + more) == Ok(item) && item.consumed == |bytes|
    ensures DecodeFields(hp, t, maxTableSize, limit, seenField, size, bytes + more)
         == match item.field
            case None => DecodeFields(hp, item.table, maxTableSize, limit, seenField, size, more)
            case Some(h) =>
              if Exceeds(SaturatingAdd(size, h.Size()), limit) then Decoded(Err(HeaderListTooLarge), item.table)
              else DecodeFields(hp, item.table, maxTableSize, limit, true, SaturatingAdd(size, h.Size()), more).Prepend(h)
  {
    assert (bytes + more)[|bytes|..] == more;
  }

  /** Encoding keeps the table valid and its limit unchanged. */
  lemma {:induction false} EncodeFieldsValid(hp: Tables, huff: bool, t: Table, hs: Headers)
    requires hp.Valid() && t.Valid()
    ensures var t' := EncodeFields(hp, huff, t, hs).1; t'.Valid() && t'.maxSize == t.maxSize
    decreases |hs|
  {
    hide EncodeLiteral, FindIndex;
    if hs != [] {
      t.InsertValid(hs[0].name, hs[0].value);
      EncodeFieldsValid(hp, huff, EncodeField(hp, huff, t, hs[0], true).1, hs[1..]);
    }
  }

  /** A block is read back whole and both tables agree, unless the list is over the limit. */
  lemma {:induction false} FieldsRoundTrip(hp: Tables, huff: bool, t: Table, hs: Headers, maxTableSize: nat,
                                           limit: Option<nat>, seenField: bool, size: nat)
    requires hp.Valid() && t.Valid() && AllInMemory(hs) && size < TWO_64 && !Exceeds(size, limit)
    ensures var (bytes, t') := EncodeFields(hp, huff, t, hs);
            var decoded := DecodeFields(hp, t, maxTableSize, limit, seenField, size, bytes);
            if Exceeds(ListSize(size, hs), limit) then decoded.list == Err(HeaderListTooLarge)
            else decoded == Decoded(Ok(hs), t')
    decreases |hs|
  {
    hide EncodeField, DecodeItem;
    if hs != [] {
      var h, rest := hs[0], hs[1..];
      var t1 := EncodeField(hp, huff, t, h, true).1;
      var (more, t2) := EncodeFields(hp, huff, t1, rest);
      FirstRoundTrip(hp, huff, t, h, maxTableSize, limit, seenField, size, more);
      var size' := SaturatingAdd(size, h.Size());
      ListSizeGrows(size', rest);
      if !Exceeds(size', limit) {
        FieldsRoundTrip(hp, huff, t1, rest, maxTableSize, limit, true, size');
        assert [h] + rest == hs;
      }
    }
  }

  lemma FirstRoundTrip(hp: Tables, huff: bool, t: Table, h: HeaderField, maxTableSize: nat,
                       limit: Option<nat>, seenField: bool, size: nat, more: seq<Byte>)
    requires hp.Valid() && t.Valid() && InMemory(h.name) && InMemory(h.value)
    ensures var (bytes, t1) := EncodeField(hp, huff, t, h, true);
            var size' := SaturatingAdd(size, h.Size());
            && t1.Valid() && t1.maxSize == t.maxSize
            && DecodeFields(hp, t, maxTableSize, limit, seenField, size, bytes + more)
            == if Exceeds(size', limit) then Decoded(Err(HeaderListTooLarge), t1)
               else DecodeFields(hp, t1, maxTableSize, limit, true, size', more).Prepend(h)
  {
    var (bytes, t1) := EncodeField(hp, huff, t, h, true);
    FieldRoundTrip(hp, huff, t, h, true, maxTableSize, seenField, more);
    DecodeOne(hp, t, maxTableSize, limit, seenField, size, bytes, more, Item(Some(h), t1, |bytes|));
  }

  // ---- Size updates ----

  /** The smallest and the last of the table sizes set since the last block. */
  datatype Pending = Pending(low: nat, last: nat)

  function Note(pending: Option<Pending>, size: nat): Option<Pending> {
    match pending
    case None => Some(Pending(size, size))
    case Some(p) => Some(Pending(if size < p.low then size else p.low, size))
  }

  /** The size updates that open a block. */
  ghost function EncodeUpdates(pending: Option<Pending>): seq<Byte> {
    match pending
    case None => []
    case Some(p) =>
      if p.low != p.last then EncodeSizeUpdate(p.low) + EncodeSizeUpdate(p.last) else EncodeSizeUpdate(p.last)
  }

  /** What the pending updates do to a table. */
  function ApplyPending(t: Table, pending: Option<Pending>): Table {
    match pending
    case None => t
    case Some(p) => t.Resize(p.low).Resize(p.last)
  }

  lemma ReadUpdate(hp: Tables, t: Table, size: nat, maxTableSize: nat, limit: Option<nat>, more: seq<Byte>)
    requires hp.Valid() && size <= maxTableSize && size < TWO_63
    ensures DecodeFields(hp, t, maxTableSize, limit, false, 0, EncodeSizeUpdate(size) + more)
         == DecodeFields(hp, t.Resize(size), maxTableSize, limit, false, 0, more)
  {
    SizeUpdateRoundTrip(hp, t, size, maxTableSize, more);
    DecodeOne(hp, t, maxTableSize, limit, false, 0, EncodeSizeUpdate(size), more,
              Item(None, t.Resize(size), |EncodeSizeUpdate(size)|));
  }

  lemma ResizeSame(t: Table, size: nat)
    ensures t.Resize(size).Resize(size) == t.Resize(size)
  {
    EvictTwice(t.entries, size, size);
  }

  /** Reading the updates brings the table to where the sender's went. */
  lemma ReadUpdates(hp: Tables, t: Table, pending: Option<Pending>, maxTableSize: nat, limit: Option<nat>, more: seq<Byte>)
    requires hp.Valid()
    requires pending.Some? ==> pending.value.low <= pending.value.last <= maxTableSize && pending.value.last < TWO_63
    ensures DecodeFields(hp, t, maxTableSize, limit, false, 0, EncodeUpdates(pending) + more)
         == DecodeFields(hp, ApplyPending(t, pending), maxTableSize, limit, false, 0, more)
  {
    if pending.None? {
      assert [] + more == more;
    } else {
      var p := pending.value;
      if p.low == p.last {
        ReadUpdate(hp, t, p.last, maxTableSize, limit, more);
        ResizeSame(t, p.last);
      } else {
        var a, b := EncodeSizeUpdate(p.low), EncodeSizeUpdate(p.last);
        assert a + b + more == a + (b + more);
        ReadUpdate(hp, t, p.low, maxTableSize, limit, b + more);
        ReadUpdate(hp, t.Resize(p.low), p.last, maxTableSize, limit, more);
      }
    }
  }

  // ---- Whole runs ----

  /** What happens on one direction of a connection: the receiver's table size setting
      arrives at the sender, or the sender emits a header list. */
  datatype Event = Setting(size: nat) | Block(headers: Headers)

  /** Both ends of one direction, between blocks. */
  datatype Link = Link(sender: Table, receiver: Table, setting: nat, pending: Option<Pending>) {

    /** The sender is ahead of the receiver by the pending updates and nothing else. */
    ghost predicate InSync(maxTableSize: nat) {
      && sender.Valid() && receiver.Valid()
      && sender == ApplyPending(receiver, pending)
      && sender.maxSize == setting <= maxTableSize
      && (pending.Some? ==> pending.value.low <= pending.value.last == setting)
    }

    function Set(size: nat): Link {
      Link(sender.Resize(size), receiver, size, if size != setting then Note(pending, size) else pending)
    }

    /** The bytes of the next block. */
    ghost function Bytes(hp: Tables, huff: bool, hs: Headers): seq<Byte>
      requires hp.Valid()
    {
      EncodeUpdates(pending) + EncodeFields(hp, huff, sender, hs).0
    }
  }

  /** The header lists that come out of a run, and the tables that are left. */
  ghost function Run(hp: Tables, huff: bool, maxTableSize: nat, limit: Option<nat>, link: Link, events: seq<Event>)
      : Result<(seq<Headers>, Link), HpackError>
    requires hp.Valid()
    decreases |events|
  {
    if events == [] then Ok(([], link))
    else
      match events[0]
      case Setting(size) => Run(hp, huff, maxTableSize, limit, link.Set(size), events[1..])
      case Block(hs) =>
        var decoded := DecodeFields(hp, link.receiver, maxTableSize, limit, false, 0, link.Bytes(hp, huff, hs));
        match decoded.list
        case Err(e) => Err(e)
        case Ok(list) =>
          var next := Link(EncodeFields(hp, huff, link.sender, hs).1, decoded.table, link.setting, None);
          match Run(hp, huff, maxTableSize, limit, next, events[1..])
          case Err(e) => Err(e)
          case Ok((lists, end)) => Ok(([list] + lists, end))
  }

  /** The header lists handed to the sender, in order. */
  function Sent(events: seq<Event>): seq<Headers>
    decreases |events|
  {
    if events == [] then []
    else if events[0].Setting? then Sent(events[1..])
    else [events[0].headers] + Sent(events[1..])
  }

  predicate Allowed(events: seq<Event>, maxTableSize: nat) {
    forall i :: 0 <= i < |events| ==>
      match events[i]
      case Setting(size) => size <= maxTableSize
      case Block(hs) => AllInMemory(hs)
  }

  predicate AllFit(lists: seq<Headers>, limit: Option<nat>) {
    forall i :: 0 <= i < |lists| ==> !Exceeds(ListSize(0, lists[i]), limit)
  }

  /** A change of the setting leaves the sender ahead by the pending updates. */
  lemma SetKeepsSync(link: Link, size: nat, maxTableSize: nat)
    requires link.InSync(maxTableSize) && size <= maxTableSize < TWO_63
    ensures link.Set(size).InSync(maxTableSize)
  {
    link.sender.ResizeValid(size);
    if size == link.setting {
      assert link.sender.Resize(size) == link.sender;
    } else {
      match link.pending {
        case None => ResizeSame(link.receiver, size);
        case Some(p) =>
          link.receiver.ResizeCollapses(p.low, p.last, size);
      }
    }
  }

  /** One block: the receiver gets the list and the tables are equal again. */
  lemma BlockKeepsSync(hp: Tables, huff: bool, link: Link, hs: Headers, maxTableSize: nat, limit: Option<nat>)
    requires hp.Valid() && link.InSync(maxTableSize) && maxTableSize < TWO_63 && AllInMemory(hs)
    ensures var decoded := DecodeFields(hp, link.receiver, maxTableSize, limit, false, 0, link.Bytes(hp, huff, hs));
            var sender := EncodeFields(hp, huff, link.sender, hs).1;
            if Exceeds(ListSize(0, hs), limit) then decoded.list == Err(HeaderListTooLarge)
            else
              && decoded == Decoded(Ok(hs), sender)
              && Link(sender, decoded.table, link.setting, None).InSync(maxTableSize)
  {
    var (bytes, _) := EncodeFields(hp, huff, link.sender, hs);
    ReadUpdates(hp, link.receiver, link.pending, maxTableSize, limit, bytes);
    EncodeFieldsValid(hp, huff, link.sender, hs);
    FieldsRoundTrip(hp, huff, link.sender, hs, maxTableSize, limit, false, 0);
  }

  /** Over any run the receiver gets exactly the lists that were sent, and the two tables
      stay in step, unless some list is over the receiver's limit. */
  lemma {:induction false} Lockstep(hp: Tables, huff: bool, maxTableSize: nat, limit: Option<nat>, link: Link,
                                    events: seq<Event>)
    requires hp.Valid() && link.InSync(maxTableSize) && maxTableSize < TWO_63 && Allowed(events, maxTableSize)
    ensures var run := Run(hp, huff, maxTableSize, limit, link, events);
            if AllFit(Sent(events), limit) then
              run.Ok? && run.value.0 == Sent(events) && run.value.1.InSync(maxTableSize)
            else run == Err(HeaderListTooLarge)
    decreases |events|
  {
    if events != [] {
      assert Allowed(events[1..], maxTableSize);
      match events[0] {
        case Setting(size) =>
          SetKeepsSync(link, size, maxTableSize);
          Lockstep(hp, huff, maxTableSize, limit, link.Set(size), events[1..]);
        case Block(hs) =>
          BlockKeepsSync(hp, huff, link, hs, maxTableSize, limit);
          AllFitFirst(hs, Sent(events[1..]), limit);
          if !Exceeds(ListSize(0, hs), limit) {
            var sender := EncodeFields(hp, huff, link.sender, hs).1;
            Lockstep(hp, huff, maxTableSize, limit, Link(sender, sender, link.setting, None), events[1..]);
          }
      }
    }
  }

  lemma AllFitFirst(hs: Headers, lists: seq<Headers>, limit: Option<nat>)
    ensures AllFit([hs] + lists, limit) <==> !Exceeds(ListSize(0, hs), limit) && AllFit(lists, limit)
  {
    assert ([hs] + lists)[0] == hs;
    assert forall i :: 0 <= i < |lists| ==> ([hs] + lists)[i + 1] == lists[i];
  }
}
