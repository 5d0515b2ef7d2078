/** What the octets of a frame mean (sections 4.1 and 6 of RFC 9113), stated bit by bit with no
    reader or writer, and that decoder and encoder agree with it. */
module FrameOctets {
  import opened Base
  import opened BigEndian
  import opened Streaming
  import opened FrameFormat
  import opened FrameCodec

  // ---- Numbers and flags ----

  /** A stream identifier, or any 31-bit number: the first bit does not count. */
  function Number31(a: Byte, b: Byte, c: Byte, d: Byte): nat {
    Word(a % 128, b, c, d)
  }

  function LengthOf(octets: seq<Byte>): nat
    requires |octets| >= 9
  {
    Word(0, octets[0], octets[1], octets[2])
  }

  function StreamOf(octets: seq<Byte>): nat
    requires |octets| >= 9
  {
    Number31(octets[5], octets[6], octets[7], octets[8])
  }

  predicate EndStreamBit(octets: seq<Byte>)
    requires |octets| >= 9
  {
    octets[4] % 2 == 1
  }

  predicate EndHeadersBit(octets: seq<Byte>)
    requires |octets| >= 9
  {
    octets[4] % 8 >= 4
  }

  predicate PaddedBit(octets: seq<Byte>)
    requires |octets| >= 9
  {
    octets[4] % 16 >= 8
  }

  predicate PriorityBit(octets: seq<Byte>)
    requires |octets| >= 9
  {
    octets[4] % 64 >= 32
  }

  // ---- Payloads ----

  /** The payload is the content, or a pad length, the content and as many octets of padding. */
  predicate Carries(payload: seq<Byte>, content: seq<Byte>, pad: Option<Byte>) {
    match pad
    case None => payload == content
    case Some(n) => |payload| == 1 + |content| + n && payload[0] == n && payload[1..1 + |content|] == content
  }

  /** Five octets: whether the dependency is exclusive, the stream depended on, and the weight. */
  predicate Prioritises(octets: seq<Byte>, p: Priority) {
    && |octets| == 5
    && p == Priority(octets[0] >= 128, Number31(octets[0], octets[1], octets[2], octets[3]), octets[4])
  }

  /** Identifier and value of a setting that may be sent (section 6.5.2 of RFC 9113, section 3 of
      RFC 8441, section 2.1 of RFC 9218, and WebTransport over HTTP/2). */
  predicate Stands(s: Setting, id: nat, n: nat) {
    match s
    case HeaderTableSize(v) => id == 1 && n == v
    case EnablePush(on) => id == 2 && n < 2 && on == (n == 1)
    case MaxConcurrentStreams(v) => id == 3 && n == v
    case InitialWindowSize(v) => id == 4 && n == v < 0x8000_0000
    case MaxFrameSize(v) => id == 5 && n == v && 16384 <= v < 0x100_0000
    case MaxHeaderListSize(v) => id == 6 && n == v
    case EnableConnectProtocol(on) => id == 8 && n < 2 && on == (n == 1)
    case NoRfc7540Priorities(on) => id == 9 && n < 2 && on == (n == 1)
    case WtInitialMaxData(v) => id == 0x2b61 && n == v
    case WtInitialMaxStreamDataUni(v) => id == 0x2b62 && n == v
    case WtInitialMaxStreamDataBidiLocal(v) => id == 0x2b63 && n == v
    case WtInitialMaxStreamsUni(v) => id == 0x2b64 && n == v
    case WtInitialMaxStreamsBidi(v) => id == 0x2b65 && n == v
    case WtInitialMaxStreamDataBidiRemote(v) => id == 0x2b66 && n == v
    case WtEnabled(on) => id == 0x2b67 && n < 2 && on == (n == 1)
    case UnknownSetting(i, v) => id == i && n == v && id !in {1, 2, 3, 4, 5, 6, 8, 9} && !(0x2b61 <= id <= 0x2b67)
  }

  /** One setting in six octets. */
  predicate StandsAt(payload: seq<Byte>, k: nat, s: Setting)
    requires k + 6 <= |payload|
  {
    Stands(s, Word(0, 0, payload[k], payload[k + 1]),
           Word(payload[k + 2], payload[k + 3], payload[k + 4], payload[k + 5]))
  }

  predicate Lists(payload: seq<Byte>, settings: seq<Setting>) {
    |payload| == 6 * |settings| && forall i :: 0 <= i < |settings| ==> StandsAt(payload, 6 * i, settings[i])
  }

  /** The frame that the octets of one mean: its type is in the fourth octet, its flags in the fifth,
      its stream in the four that follow, and then comes the payload. */
  ghost predicate Means(octets: seq<Byte>, f: Frame)
    requires |octets| >= 9
  {
    var id, payload := StreamOf(octets), octets[9..];
    match f
    case Data(i, data, endStream, pad) =>
      && octets[3] == 0 && i == id > 0 && endStream == EndStreamBit(octets) && pad.Some? == PaddedBit(octets)
      && Carries(payload, data, pad)
    case Headers(i, fragment, endStream, endHeaders, pad, priority) =>
      && octets[3] == 1 && i == id > 0 && endStream == EndStreamBit(octets) && endHeaders == EndHeadersBit(octets)
      && pad.Some? == PaddedBit(octets) && priority.Some? == PriorityBit(octets)
      && (match priority
          case None => Carries(payload, fragment, pad)
          case Some(p) => exists five :: Prioritises(five, p) && Carries(payload, five + fragment, pad))
    case PriorityFrame(i, p) => octets[3] == 2 && i == id > 0 && Prioritises(payload, p)
    case RstStream(i, code) =>
      && octets[3] == 3 && i == id > 0 && |payload| == 4
      && code == Word(payload[0], payload[1], payload[2], payload[3])
    case Settings(ack, settings) =>
      && octets[3] == 4 && id == 0 && ack == EndStreamBit(octets) && (ack ==> settings == []) && Lists(payload, settings)
    case PushPromise(i) => octets[3] == 5 && i == id > 0
    case Ping(ack, bytes) => octets[3] == 6 && id == 0 && ack == EndStreamBit(octets) && |payload| == 8 && bytes == payload
    case Goaway(lastId, code, debug) =>
      && octets[3] == 7 && id == 0 && |payload| >= 8 && debug == payload[8..]
      && lastId == Number31(payload[0], payload[1], payload[2], payload[3])
      && code == Word(payload[4], payload[5], payload[6], payload[7])
    case WindowUpdate(i, increment) =>
      && octets[3] == 8 && i == id && |payload| == 4
      && increment == Number31(payload[0], payload[1], payload[2], payload[3]) > 0
    case Continuation(i, fragment, endHeaders) =>
      octets[3] == 9 && i == id > 0 && endHeaders == EndHeadersBit(octets) && fragment == payload
    case PriorityUpdate(i, value) =>
      && octets[3] == 16 && id == 0 && |payload| >= 4 && value == payload[4..]
      && i == Number31(payload[0], payload[1], payload[2], payload[3]) > 0
    case Unknown(kind, flags, i, bytes) =>
      octets[3] == kind && kind > 9 && kind != 16 && flags == octets[4] && i == id && bytes == payload
  }

  // ---- Numbers ----

  lemma FirstBit(a: Byte, b: Byte, c: Byte, d: Byte)
    ensures Number31(a, b, c, d) == Word(a, b, c, d) - if a >= 128 then TWO_31 else 0
    ensures Number31(a, b, c, d) < TWO_31
  {
    var high: nat := a;
    assert high % 128 == high - if high >= 128 then 128 else 0;
  }

  lemma IdIs(b: seq<Byte>)
    requires |b| == 4
    ensures ReadId(b) == Number31(b[0], b[1], b[2], b[3])
  {
    hide FromBytes, Word, Number31;
    WordIs(b);
    FirstBit(b[0], b[1], b[2], b[3]);
  }

  lemma HeaderIs(octets: seq<Byte>)
    requires |octets| >= 9
    ensures ReadHeader(octets) == Header(LengthOf(octets), octets[3], octets[4], StreamOf(octets))
  {
    hide FromBytes, ReadId;
    WordIs(octets[..3]);
    IdIs(octets[5..9]);
  }

  lemma FlagsAre(octets: seq<Byte>)
    requires |octets| >= 9
    ensures IsSet(octets[4], END_STREAM) == EndStreamBit(octets)
    ensures IsSet(octets[4], END_HEADERS) == EndHeadersBit(octets)
    ensures IsSet(octets[4], PADDED) == PaddedBit(octets)
    ensures IsSet(octets[4], PRIORITY) == PriorityBit(octets)
  {
    var flags: nat := octets[4];
    BitIs(flags / 8, flags % 8, 4);
    BitIs(flags / 16, flags % 16, 8);
    BitIs(flags / 64, flags % 64, 32);
  }

  lemma BitIs(high: nat, low: nat, flag: nat)
    requires flag in {4, 8, 32} && low < 2 * flag
    ensures (2 * flag * high + low) / flag % 2 == 1 <==> low >= flag
  {
    var bit := if low >= flag then 1 else 0;
    if flag == 4 {
      assert (8 * high + low) / 4 == 2 * high + bit;
    } else if flag == 8 {
      assert (16 * high + low) / 8 == 2 * high + bit;
    } else {
      assert (64 * high + low) / 32 == 2 * high + bit;
    }
  }

  // ---- What is read ----

  /** A padded payload carries its content in one way only. */
  lemma UnpadIs(payload: seq<Byte>, padded: bool)
    ensures Unpad(payload, padded).Ok? ==>
              Carries(payload, Unpad(payload, padded).value.0, Unpad(payload, padded).value.1)
              && Unpad(payload, padded).value.1.Some? == padded
    ensures forall content, pad: Option<Byte> :: pad.Some? == padded && Carries(payload, content, pad) ==>
              Unpad(payload, padded) == Ok((content, pad))
  {
  }

  lemma PriorityIs(five: seq<Byte>)
    requires |five| == 5
    ensures forall p :: Prioritises(five, p) <==> p == ReadPriority(five)
  {
    hide FromBytes, ReadId;
    IdIs(five[..4]);
  }

  lemma SettingIs(id: nat, n: nat)
    ensures forall s :: Stands(s, id, n) <==> FromWire(id, n) == Ok(s)
  {
  }

  lemma {:induction false} SettingsAre(payload: seq<Byte>, settings: seq<Setting>)
    requires |payload| % 6 == 0
    ensures Lists(payload, settings) <==> ReadSettings(payload) == Ok(settings)
    decreases |payload|
  {
    hide FromBytes, FromWire, Stands;
    if payload == [] {
      return;
    }
    var rest := payload[6..];
    WordIs(payload[..2]);
    WordIs(payload[2..6]);
    SettingIs(FromBytes(payload[..2]), FromBytes(payload[2..6]));
    if settings != [] {
      SettingsAre(rest, settings[1..]);
      ListsShift(payload, settings);
      assert [settings[0]] + settings[1..] == settings;
    }
  }

  lemma ListsShift(payload: seq<Byte>, settings: seq<Setting>)
    requires |payload| >= 6 && settings != []
    ensures Lists(payload, settings) <==> StandsAt(payload, 0, settings[0]) && Lists(payload[6..], settings[1..])
  {
    hide Stands;
    var rest, more := payload[6..], settings[1..];
    if |payload| == 6 * |settings| {
      forall i | 0 <= i < |more| ensures StandsAt(rest, 6 * i, more[i]) <==> StandsAt(payload, 6 * (i + 1), settings[i + 1]) {
      }
      if StandsAt(payload, 0, settings[0]) && Lists(rest, more) {
        forall i | 0 <= i < |settings| ensures StandsAt(payload, 6 * i, settings[i]) {
          if i > 0 {
            assert StandsAt(rest, 6 * (i - 1), more[i - 1]);
          }
        }
      }
    }
  }

  lemma HeadersMean(octets: seq<Byte>, f: Frame)
    requires |octets| >= 9 && octets[3] == 1
    ensures ReadHeaders(ReadHeader(octets), octets[9..]) == Ok(f) <==> f.Headers? && Means(octets, f)
  {
    hide FromBytes, ReadId, IsSet, Unpad, ReadHeader, ReadPriority, Carries, Prioritises;
    var payload := octets[9..];
    HeaderIs(octets);
    FlagsAre(octets);
    UnpadIs(payload, PaddedBit(octets));
    if ReadHeaders(ReadHeader(octets), payload) == Ok(f) && PriorityBit(octets) {
      var content := Unpad(payload, PaddedBit(octets)).value.0;
      PriorityIs(content[..5]);
      assert content == content[..5] + f.fragment;
      assert Prioritises(content[..5], f.priority.value);
    }
    if f.Headers? && Means(octets, f) && f.priority.Some? {
      var five :| Prioritises(five, f.priority.value) && Carries(payload, five + f.fragment, f.pad);
      FiveInFront(five, f.fragment, f.priority.value);
      PriorityIs(five);
    }
  }

  lemma FiveInFront(five: seq<Byte>, fragment: seq<Byte>, p: Priority)
    requires Prioritises(five, p)
    ensures |five| == 5 && (five + fragment)[..5] == five && (five + fragment)[5..] == fragment
  {
  }

  lemma DataMeans(octets: seq<Byte>, f: Frame)
    requires |octets| >= 9 && octets[3] == 0
    ensures ReadData(ReadHeader(octets), octets[9..]) == Ok(f) <==> f.Data? && Means(octets, f)
  {
    hide FromBytes, ReadId, IsSet, Unpad, ReadHeader, Carries;
    HeaderIs(octets);
    FlagsAre(octets);
    UnpadIs(octets[9..], PaddedBit(octets));
  }

  lemma SettingsMean(octets: seq<Byte>, f: Frame)
    requires |octets| >= 9 && octets[3] == 4
    ensures ReadSettingsFrame(ReadHeader(octets), octets[9..]) == Ok(f) <==> f.Settings? && Means(octets, f)
  {
    hide FromBytes, ReadId, IsSet, ReadHeader, ReadSettings, Lists;
    var payload := octets[9..];
    HeaderIs(octets);
    FlagsAre(octets);
    if f.Settings? {
      ListsWhole(payload, f.settings);
      if |payload| % 6 == 0 {
        SettingsAre(payload, f.settings);
      }
    }
  }

  lemma ListsWhole(payload: seq<Byte>, settings: seq<Setting>)
    ensures Lists(payload, settings) ==> |payload| % 6 == 0 && (settings == [] <==> payload == [])
    ensures Lists([], [])
  {
    hide StandsAt;
  }

  /** The payload of every other kind. */
  lemma OtherMeans(octets: seq<Byte>, f: Frame)
    requires |octets| >= 9 && octets[3] !in {0, 1, 4}
    ensures ReadFrame(ReadHeader(octets), octets[9..]) == Ok(f)
       <==> !f.Data? && !f.Headers? && !f.Settings? && Means(octets, f)
  {
    hide FromBytes, ReadId, IsSet, ReadHeader, ReadPriority;
    var payload := octets[9..];
    HeaderIs(octets);
    FlagsAre(octets);
    if |payload| >= 4 {
      WordIs(payload[..4]);
      IdIs(payload[..4]);
      assert |payload| == 4 ==> payload == payload[..4];
    }
    if |payload| == 5 {
      PriorityIs(payload);
    }
    if |payload| >= 8 {
      WordIs(payload[4..8]);
    }
  }

  /** The octets of a frame are read as the frame that they mean, and as none if they mean none. */
  lemma ReadIsMeant(octets: seq<Byte>, f: Frame)
    requires |octets| >= 9
    ensures ReadFrame(ReadHeader(octets), octets[9..]) == Ok(f) <==> Means(octets, f)
  {
    hide ReadHeader, Means;
    HeaderIs(octets);
    KindIs(octets, f);
    if octets[3] == 0 {
      DataMeans(octets, f);
    } else if octets[3] == 1 {
      HeadersMean(octets, f);
    } else if octets[3] == 4 {
      SettingsMean(octets, f);
    } else {
      OtherMeans(octets, f);
    }
  }

  lemma KindIs(octets: seq<Byte>, f: Frame)
    requires |octets| >= 9
    ensures Means(octets, f) ==> (octets[3] == 0 <==> f.Data?) && (octets[3] == 1 <==> f.Headers?) && (octets[3] == 4 <==> f.Settings?)
  {
  }

  /** The octets of a whole frame, by the length in front. */
  predicate IsWhole(octets: seq<Byte>) {
    |octets| >= 9 && |octets| == 9 + LengthOf(octets)
  }

  /** What stands at the front of a stream of octets is a frame if and only if it is whole, no longer
      than is accepted, and means that frame. */
  lemma NextIsMeant(maxFrame: nat, octets: seq<Byte>, rest: seq<Byte>, f: Frame)
    requires IsWhole(octets)
    ensures var next := Next(maxFrame, octets + rest);
            && (LengthOf(octets) > maxFrame ==> next == Broken(OfConnection(FrameSizeError)))
            && (LengthOf(octets) <= maxFrame ==> next.Complete? && next.rest == rest && next.item.header.id == StreamOf(octets))
            && (LengthOf(octets) <= maxFrame ==> (next.item.frame == Ok(f) <==> Means(octets, f)))
  {
    hide Means, ReadFrame, ReadHeader;
    var bytes := octets + rest;
    HeaderIs(octets);
    HeaderAppend(octets, rest);
    ReadIsMeant(octets, f);
    assert bytes[9..|octets|] == octets[9..];
    assert bytes[|octets|..] == rest;
  }

  /** Fewer octets than the length in front says are not read yet. */
  lemma NextIsIncomplete(maxFrame: nat, bytes: seq<Byte>)
    ensures Next(maxFrame, bytes).Incomplete? <==>
            |bytes| < 9 || (LengthOf(bytes) <= maxFrame && |bytes| < 9 + LengthOf(bytes))
  {
    hide ReadFrame, ReadHeader;
    if |bytes| >= 9 {
      HeaderIs(bytes);
    }
  }

  /** A HEADERS frame with priority fields is read as its fragment alone, and the fields as what they
      are: whatever the exclusive bit, the dependency, the weight, the fragment, the padding and
      what follows the frame. */
  lemma PriorityIsStripped(maxFrame: nat, octets: seq<Byte>, exclusive: bool, dependency: nat, five: seq<Byte>,
                           fragment: seq<Byte>, filler: seq<Byte>, rest: seq<Byte>)
    requires IsWhole(octets) && LengthOf(octets) <= maxFrame
    requires octets[3] == 1 && StreamOf(octets) > 0 && PriorityBit(octets)
    requires |five| == 5 && dependency < TWO_31
    requires Word(five[0], five[1], five[2], five[3]) == dependency + if exclusive then TWO_31 else 0
    requires if PaddedBit(octets) then |filler| < 256 && octets[9..] == [|filler| as Byte] + (five + fragment) + filler
             else octets[9..] == five + fragment
    ensures var next := Next(maxFrame, octets + rest);
            && next.Complete? && next.rest == rest
            && next.item.frame == Ok(Headers(StreamOf(octets), fragment, EndStreamBit(octets), EndHeadersBit(octets),
                                             if PaddedBit(octets) then Some(|filler| as Byte) else None,
                                             Some(Priority(exclusive, dependency, five[4]))))
  {
    hide Next, Means, Prioritises, Carries, Word, StreamOf, EndStreamBit, EndHeadersBit, PaddedBit, PriorityBit;
    var p := Priority(exclusive, dependency, five[4]);
    var pad := if PaddedBit(octets) then Some(|filler| as Byte) else None;
    var f := Headers(StreamOf(octets), fragment, EndStreamBit(octets), EndHeadersBit(octets), pad, Some(p));
    FivePrioritise(five, exclusive, dependency);
    ContentIsCarried(octets[9..], five + fragment, filler, pad);
    PriorityMeans(octets, five, fragment, pad, p, f);
    NextIsMeant(maxFrame, octets, rest, f);
  }

  lemma FivePrioritise(five: seq<Byte>, exclusive: bool, dependency: nat)
    requires |five| == 5 && dependency < TWO_31
    requires Word(five[0], five[1], five[2], five[3]) == dependency + if exclusive then TWO_31 else 0
    ensures Prioritises(five, Priority(exclusive, dependency, five[4]))
  {
    FirstBit(five[0], five[1], five[2], five[3]);
  }

  lemma ContentIsCarried(payload: seq<Byte>, content: seq<Byte>, filler: seq<Byte>, pad: Option<Byte>)
    requires match pad
             case None => payload == content
             case Some(n) => n == |filler| && payload == [n] + content + filler
    ensures Carries(payload, content, pad)
  {
    if pad.Some? {
      assert payload[1..1 + |content|] == content;
    }
  }

  lemma PriorityMeans(octets: seq<Byte>, five: seq<Byte>, fragment: seq<Byte>, pad: Option<Byte>, p: Priority, f: Frame)
    requires |octets| >= 9 && octets[3] == 1 && StreamOf(octets) > 0 && PriorityBit(octets) && pad.Some? == PaddedBit(octets)
    requires Prioritises(five, p) && Carries(octets[9..], five + fragment, pad)
    requires f == Headers(StreamOf(octets), fragment, EndStreamBit(octets), EndHeadersBit(octets), pad, Some(p))
    ensures Means(octets, f)
  {
    hide Prioritises, Carries, StreamOf, EndStreamBit, EndHeadersBit, PaddedBit, PriorityBit;
  }

  // ---- What is not a frame ----

  /** The length of a payload that is wrong for the kind of its frame. */
  predicate WrongSize(octets: seq<Byte>)
    requires |octets| >= 9
  {
    var id, n := StreamOf(octets), |octets| - 9;
    var overhead := if PaddedBit(octets) && n > 0 then 1 + octets[9] as nat else 0;
    match octets[3]
    case 0 => id > 0 && PaddedBit(octets) && n == 0
    case 1 => id > 0 && ((PaddedBit(octets) && n == 0) || (PriorityBit(octets) && overhead <= n < overhead + 5))
    case 2 => id > 0 && n != 5
    case 3 => id > 0 && n != 4
    case 4 => id == 0 && if EndStreamBit(octets) then n != 0 else n % 6 != 0
    case 6 => id == 0 && n != 8
    case 7 => id == 0 && n < 8
    case 8 => n != 4
    case 16 => id == 0 && n < 4
    case _ => false
  }

  /** Octets that mean no frame are an error of the connection, but for a PRIORITY frame of the wrong
      size and a WINDOW_UPDATE frame of nothing on a stream; it is one of size exactly if the size
      is wrong, and one of flow control only in settings. */
  predicate IsFault(octets: seq<Byte>, e: FrameError)
    requires |octets| >= 9
  {
    && (e.OfStream? <==> StreamOf(octets) > 0 && (octets[3] == 2 || (octets[3] == 8 && |octets| == 13)))
    && (e.code == FrameSizeError <==> WrongSize(octets))
    && (e.code == FlowControlError ==> octets[3] == 4)
  }

  lemma FaultIs(octets: seq<Byte>)
    requires |octets| >= 9 && ReadFrame(ReadHeader(octets), octets[9..]).Err?
    ensures IsFault(octets, ReadFrame(ReadHeader(octets), octets[9..]).error)
  {
    hide FromBytes, ReadId, ReadHeader, ReadPriority, ReadSettings, WrongSize, ReadData, ReadHeaders,
         ReadSettingsFrame, IsSet, Number31, EndStreamBit, EndHeadersBit, PriorityBit, PaddedBit, IsFault;
    HeaderIs(octets);
    if octets[3] <= 1 {
      PaddedFault(octets);
    } else if octets[3] == 4 {
      SettingsFault(octets);
    } else {
      OtherFault(octets);
    }
  }

  lemma PaddedFault(octets: seq<Byte>)
    requires |octets| >= 9 && octets[3] <= 1
    ensures octets[3] == 0 && ReadData(ReadHeader(octets), octets[9..]).Err? ==>
              IsFault(octets, ReadData(ReadHeader(octets), octets[9..]).error)
    ensures octets[3] == 1 && ReadHeaders(ReadHeader(octets), octets[9..]).Err? ==>
              IsFault(octets, ReadHeaders(ReadHeader(octets), octets[9..]).error)
  {
    hide FromBytes, ReadId, ReadHeader, ReadPriority, IsSet, Number31, EndStreamBit, EndHeadersBit, PriorityBit, PaddedBit;
    HeaderIs(octets);
    FlagsAre(octets);
  }

  lemma SettingsFault(octets: seq<Byte>)
    requires |octets| >= 9 && octets[3] == 4 && ReadSettingsFrame(ReadHeader(octets), octets[9..]).Err?
    ensures IsFault(octets, ReadSettingsFrame(ReadHeader(octets), octets[9..]).error)
  {
    hide FromBytes, ReadId, ReadHeader, ReadSettings, IsSet, Number31, EndStreamBit, EndHeadersBit, PriorityBit, PaddedBit;
    HeaderIs(octets);
    FlagsAre(octets);
    if (|octets| - 9) % 6 == 0 {
      ValuesFault(octets[9..]);
    }
  }

  lemma OtherFault(octets: seq<Byte>)
    requires |octets| >= 9 && octets[3] !in {0, 1, 4} && ReadFrame(ReadHeader(octets), octets[9..]).Err?
    ensures IsFault(octets, ReadFrame(ReadHeader(octets), octets[9..]).error)
  {
    hide FromBytes, ReadId, ReadHeader, ReadPriority, IsSet, Number31, EndStreamBit, EndHeadersBit, PriorityBit, PaddedBit;
    HeaderIs(octets);
  }

  /** A value that a setting may have. */
  predicate InRange(id: nat, n: nat) {
    && (id in {2, 8, 9, 0x2b67} ==> n < 2)
    && (id == 4 ==> n < 0x8000_0000)
    && (id == 5 ==> 16384 <= n < 0x100_0000)
  }

  predicate InRangeAt(payload: seq<Byte>, k: nat)
    requires k + 6 <= |payload|
  {
    InRange(Word(0, 0, payload[k], payload[k + 1]),
            Word(payload[k + 2], payload[k + 3], payload[k + 4], payload[k + 5]))
  }

  lemma WireFault(id: nat, n: nat)
    ensures FromWire(id, n).Ok? <==> InRange(id, n)
    ensures FromWire(id, n).Err? ==>
              FromWire(id, n).error == OfConnection(if id == 4 then FlowControlError else ProtocolError)
  {
  }

  lemma {:induction false} ValuesFault(payload: seq<Byte>)
    requires |payload| % 6 == 0
    ensures ReadSettings(payload).Err? ==>
              ReadSettings(payload).error.OfConnection? && ReadSettings(payload).error.code != FrameSizeError
    decreases |payload|
  {
    hide FromBytes, FromWire, InRange;
    if payload != [] {
      WireFault(FromBytes(payload[..2]), FromBytes(payload[2..6]));
      ValuesFault(payload[6..]);
    }
  }

  /** The error of settings that cannot be taken is that of the first of them. */
  lemma {:induction false} FirstFault(payload: seq<Byte>, k: nat)
    requires |payload| % 6 == 0 && 6 * k + 6 <= |payload| && !InRangeAt(payload, 6 * k)
    requires forall i :: 0 <= i < k ==> InRangeAt(payload, 6 * i)
    ensures ReadSettings(payload)
         == Err(OfConnection(if Word(0, 0, payload[6 * k], payload[6 * k + 1]) == 4 then FlowControlError else ProtocolError))
    decreases k
  {
    hide InRangeAt, ReadSettings, Word;
    assert |payload[6..]| == |payload| - 6;
    ReadStep(payload);
    if k > 0 {
      assert InRangeAt(payload, 6 * 0);
      var rest := payload[6..];
      forall i | 0 <= i < k - 1 ensures InRangeAt(rest, 6 * i) {
        assert InRangeAt(payload, 6 * (i + 1));
        RangeShifts(payload, 6 * i);
      }
      RangeShifts(payload, 6 * (k - 1));
      FirstFault(rest, k - 1);
    }
  }

  lemma ReadStep(payload: seq<Byte>)
    requires |payload| >= 6 && |payload| % 6 == 0 && |payload[6..]| % 6 == 0
    ensures !InRangeAt(payload, 0) ==>
              ReadSettings(payload)
              == Err(OfConnection(if Word(0, 0, payload[0], payload[1]) == 4 then FlowControlError else ProtocolError))
    ensures InRangeAt(payload, 0) && ReadSettings(payload[6..]).Err? ==> ReadSettings(payload) == ReadSettings(payload[6..])
  {
    hide FromBytes, FromWire, InRange;
    WordIs(payload[..2]);
    WordIs(payload[2..6]);
    WireFault(FromBytes(payload[..2]), FromBytes(payload[2..6]));
  }

  lemma RangeShifts(payload: seq<Byte>, k: nat)
    requires k + 12 <= |payload|
    ensures InRangeAt(payload[6..], k) == InRangeAt(payload, k + 6)
  {
    hide InRange;
  }

  // ---- What is written ----

  /** What the encoder writes is whole and means the frame; the reserved bit is clear, and padding
      is zero. */
  lemma WrittenIsMeant(f: Frame)
    requires Sendable(f) && |PayloadOf(f)| < 0x100_0000
    ensures var octets := Encoding(f);
            && IsWhole(octets) && Means(octets, f) && octets[5] < 128
            && ((f.Data? || f.Headers?) && f.pad.Some? ==>
                  forall i :: |octets| - f.pad.value <= i < |octets| ==> octets[i] == 0)
  {
    hide PayloadOf, Means, ReadFrame, ReadHeader, HeaderBytes, FromBytes, ToBytes;
    var octets, h := Encoding(f), HeaderOf(f);
    IdFits(f);
    HeaderRoundTrip(h, PayloadOf(f));
    HeaderIs(octets);
    PayloadRoundTrip(f);
    assert octets[9..] == PayloadOf(f);
    ReadIsMeant(octets, f);
    ReservedIsClear(h);
    assert octets[5] == HeaderBytes(h)[5];
    if (f.Data? || f.Headers?) && f.pad.Some? {
      PaddingIsZero(f);
    }
  }

  lemma ReservedIsClear(h: Header)
    requires h.length < 0x100_0000 && h.id < TWO_31
    ensures HeaderBytes(h)[5] < 128
  {
    hide ToBytes, FromBytes;
    var id := ToBytes(h.id, 4);
    Bounds();
    FromToBytes(h.id, 4);
    WordIs(id);
    assert HeaderBytes(h)[5] == id[0];
  }

  lemma PaddingIsZero(f: Frame)
    requires (f.Data? || f.Headers?) && f.pad.Some?
    ensures var octets := Encoding(f);
            |octets| >= 9 && forall i :: |octets| - f.pad.value <= i < |octets| ==> octets[i] == 0
  {
    hide HeaderBytes;
    var n: nat := f.pad.value;
    var octets := Encoding(f);
    assert octets[|octets| - n..] == Zeros(n);
    forall i | |octets| - n <= i < |octets| ensures octets[i] == 0 {
      assert octets[i] == octets[|octets| - n..][i - (|octets| - n)];
    }
  }
}
