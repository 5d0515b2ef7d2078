/** Frames on the wire (sections 4.1 and 6 of RFC 9113 and section 7.1 of RFC 9218). */
module FrameFormat {
  import opened Base
  import opened BigEndian

  const FRAME_HEADER_SIZE := 9

  const TWO_31 := 0x8000_0000

  datatype ErrorCode = ProtocolError | FrameSizeError | FlowControlError

  /** An error of the connection, or of the one stream the frame was for. */
  datatype FrameError = OfConnection(code: ErrorCode) | OfStream(code: ErrorCode)

  datatype Setting =
    | HeaderTableSize(n: nat)
    | EnablePush(on: bool)
    | MaxConcurrentStreams(n: nat)
    | InitialWindowSize(n: nat)
    | MaxFrameSize(n: nat)
    | MaxHeaderListSize(n: nat)
    | EnableConnectProtocol(on: bool)
    | NoRfc7540Priorities(on: bool)
    | WtInitialMaxData(n: nat)
    | WtInitialMaxStreamDataUni(n: nat)
    | WtInitialMaxStreamDataBidiLocal(n: nat)
    | WtInitialMaxStreamsUni(n: nat)
    | WtInitialMaxStreamsBidi(n: nat)
    | WtInitialMaxStreamDataBidiRemote(n: nat)
    | WtEnabled(on: bool)
    | UnknownSetting(id: nat, n: nat)

  datatype Priority = Priority(exclusive: bool, dependency: nat, weight: Byte)

  datatype Frame =
    | Data(id: nat, data: seq<Byte>, endStream: bool, pad: Option<Byte>)
    | Headers(id: nat, fragment: seq<Byte>, endStream: bool, endHeaders: bool, pad: Option<Byte>, priority: Option<Priority>)
    | PriorityFrame(id: nat, priority0: Priority)
    | RstStream(id: nat, code: nat)
    | Settings(ack: bool, settings: seq<Setting>)
    | PushPromise(id: nat)
    | Ping(ack: bool, opaque8: seq<Byte>)
    | Goaway(lastId: nat, code: nat, debug: seq<Byte>)
    | WindowUpdate(id: nat, increment: nat)
    | Continuation(id: nat, fragment: seq<Byte>, endHeaders: bool)
    | PriorityUpdate(id: nat, value: seq<Byte>)
    | Unknown(kind: Byte, flags: Byte, id: nat, payload: seq<Byte>)

  // ---- Settings ----

  function FlagValue(on: bool): nat {
    if on then 1 else 0
  }

  function AsWire(s: Setting): (nat, nat) {
    match s
    case HeaderTableSize(n) => (0x01, n)
    case EnablePush(on) => (0x02, FlagValue(on))
    case MaxConcurrentStreams(n) => (0x03, n)
    case InitialWindowSize(n) => (0x04, n)
    case MaxFrameSize(n) => (0x05, n)
    case MaxHeaderListSize(n) => (0x06, n)
    case EnableConnectProtocol(on) => (0x08, FlagValue(on))
    case NoRfc7540Priorities(on) => (0x09, FlagValue(on))
    case WtInitialMaxData(n) => (0x2b61, n)
    case WtInitialMaxStreamDataUni(n) => (0x2b62, n)
    case WtInitialMaxStreamDataBidiLocal(n) => (0x2b63, n)
    case WtInitialMaxStreamsUni(n) => (0x2b64, n)
    case WtInitialMaxStreamsBidi(n) => (0x2b65, n)
    case WtInitialMaxStreamDataBidiRemote(n) => (0x2b66, n)
    case WtEnabled(on) => (0x2b67, FlagValue(on))
    case UnknownSetting(id, n) => (id, n)
  }

  function ReadFlag(n: nat): Result<bool, FrameError> {
    if n > 1 then Err(OfConnection(ProtocolError)) else Ok(n == 1)
  }

  function FromWire(id: nat, n: nat): Result<Setting, FrameError> {
    if id == 0x01 then Ok(HeaderTableSize(n))
    else if id == 0x02 then (match ReadFlag(n) case Err(e) => Err(e) case Ok(on) => Ok(EnablePush(on)))
    else if id == 0x03 then Ok(MaxConcurrentStreams(n))
    else if id == 0x04 then if n >= TWO_31 then Err(OfConnection(FlowControlError)) else Ok(InitialWindowSize(n))
    else if id == 0x05 then
      if 16384 <= n <= 16777215 then Ok(MaxFrameSize(n)) else Err(OfConnection(ProtocolError))
    else if id == 0x06 then Ok(MaxHeaderListSize(n))
    else if id == 0x08 then (match ReadFlag(n) case Err(e) => Err(e) case Ok(on) => Ok(EnableConnectProtocol(on)))
    else if id == 0x09 then (match ReadFlag(n) case Err(e) => Err(e) case Ok(on) => Ok(NoRfc7540Priorities(on)))
    else if id == 0x2b61 then Ok(WtInitialMaxData(n))
    else if id == 0x2b62 then Ok(WtInitialMaxStreamDataUni(n))
    else if id == 0x2b63 then Ok(WtInitialMaxStreamDataBidiLocal(n))
    else if id == 0x2b64 then Ok(WtInitialMaxStreamsUni(n))
    else if id == 0x2b65 then Ok(WtInitialMaxStreamsBidi(n))
    else if id == 0x2b66 then Ok(WtInitialMaxStreamDataBidiRemote(n))
    else if id == 0x2b67 then (match ReadFlag(n) case Err(e) => Err(e) case Ok(on) => Ok(WtEnabled(on)))
    else Ok(UnknownSetting(id, n))
  }

  /** A setting that reads back as itself: its value is in range and, if its identifier is not
      known, it really is not. */
  predicate Canonical(s: Setting) {
    && AsWire(s).0 < 0x1_0000 && AsWire(s).1 < TWO_32
    && match s
       case InitialWindowSize(n) => n < TWO_31
       case MaxFrameSize(n) => 16384 <= n <= 16777215
       case UnknownSetting(id, _) => !(1 <= id <= 6 || id == 8 || id == 9 || 0x2b61 <= id <= 0x2b67)
       case _ => true
  }

  /** Settings and their wire form correspond one to one. */
  lemma SettingRoundTrip(s: Setting)
    requires AsWire(s).0 < 0x1_0000 && AsWire(s).1 < TWO_32
    ensures FromWire(AsWire(s).0, AsWire(s).1) == Ok(s) <==> Canonical(s)
  {
  }

  lemma WireRoundTrip(id: nat, n: nat)
    requires id < 0x1_0000 && n < TWO_32 && FromWire(id, n).Ok?
    ensures AsWire(FromWire(id, n).value) == (id, n) && Canonical(FromWire(id, n).value)
  {
  }

  function SettingBytes(s: Setting): (bytes: seq<Byte>)
    ensures |bytes| == 6
  {
    ToBytes(AsWire(s).0, 2) + ToBytes(AsWire(s).1, 4)
  }

  function AllSettingBytes(settings: seq<Setting>): (bytes: seq<Byte>)
    ensures |bytes| == 6 * |settings|
  {
    if settings == [] then [] else SettingBytes(settings[0]) + AllSettingBytes(settings[1..])
  }

  function ReadSettings(payload: seq<Byte>): Result<seq<Setting>, FrameError>
    requires |payload| % 6 == 0
    decreases |payload|
  {
    if payload == [] then Ok([])
    else
      match FromWire(FromBytes(payload[..2]), FromBytes(payload[2..6]))
      case Err(e) => Err(e)
      case Ok(s) =>
        match ReadSettings(payload[6..])
        case Err(e) => Err(e)
        case Ok(more) => Ok([s] + more)
  }

  lemma OneSetting(s: Setting, more: seq<Byte>)
    requires Canonical(s)
    ensures var all := SettingBytes(s) + more;
            all[6..] == more && FromWire(FromBytes(all[..2]), FromBytes(all[2..6])) == Ok(s)
  {
    hide Canonical, FromWire, AsWire;
    var all := SettingBytes(s) + more;
    CanonicalFits(s);
    assert all[..2] == ToBytes(AsWire(s).0, 2) && all[2..6] == ToBytes(AsWire(s).1, 4);
    FromToBytes(AsWire(s).0, 2);
    FromToBytes(AsWire(s).1, 4);
  }

  lemma CanonicalFits(s: Setting)
    requires Canonical(s)
    ensures AsWire(s).0 < Bound(2) && AsWire(s).1 < Bound(4)
    ensures FromWire(AsWire(s).0, AsWire(s).1) == Ok(s)
  {
    Bounds();
    SettingRoundTrip(s);
  }

  lemma {:induction false} SettingsRoundTrip(settings: seq<Setting>)
    requires forall i :: 0 <= i < |settings| ==> Canonical(settings[i])
    ensures ReadSettings(AllSettingBytes(settings)) == Ok(settings)
  {
    hide Canonical, FromWire, SettingBytes;
    if settings != [] {
      OneSetting(settings[0], AllSettingBytes(settings[1..]));
      SettingsRoundTrip(settings[1..]);
      assert [settings[0]] + settings[1..] == settings;
    }
  }

  // ---- Frame headers ----

  datatype Header = Header(length: nat, kind: Byte, flags: Byte, id: nat)

  function HeaderBytes(h: Header): (bytes: seq<Byte>)
    ensures |bytes| == FRAME_HEADER_SIZE
  {
    ToBytes(h.length, 3) + [h.kind, h.flags] + ToBytes(h.id % TWO_31, 4)
  }

  /** The reserved bit in front of a stream identifier is ignored. */
  function ReadId(bytes: seq<Byte>): (id: nat)
    ensures id < TWO_31
  {
    FromBytes(bytes) % TWO_31
  }

  function ReadHeader(bytes: seq<Byte>): Header
    requires |bytes| >= FRAME_HEADER_SIZE
  {
    Header(FromBytes(bytes[..3]), bytes[3], bytes[4], ReadId(bytes[5..9]))
  }

  lemma HeaderRoundTrip(h: Header, rest: seq<Byte>)
    requires h.length < 0x100_0000 && h.id < TWO_31
    ensures ReadHeader(HeaderBytes(h) + rest) == h
  {
    hide ToBytes, FromBytes, ReadId;
    Bounds();
    FromToBytes(h.length, 3);
    FourBytes(h.id);
    HeaderParts(ToBytes(h.length, 3), h.kind, h.flags, ToBytes(h.id, 4), rest);
  }

  lemma HeaderParts(length: seq<Byte>, kind: Byte, flags: Byte, id: seq<Byte>, rest: seq<Byte>)
    requires |length| == 3 && |id| == 4
    ensures var all := length + [kind, flags] + id + rest;
            all[..3] == length && all[3] == kind && all[4] == flags && all[5..9] == id
  {
  }

  lemma FourBytes(n: nat)
    requires n < TWO_32
    ensures FromBytes(ToBytes(n, 4)) == n
    ensures n < TWO_31 ==> ReadId(ToBytes(n, 4)) == n
  {
    Bounds();
    FromToBytes(n, 4);
  }

  // ---- Payloads ----

  const END_STREAM := 0x01
  const ACK := 0x01
  const END_HEADERS := 0x04
  const PADDED := 0x08
  const PRIORITY := 0x20

  predicate IsSet(flags: Byte, flag: nat)
    requires flag > 0
  {
    (flags / flag) % 2 == 1
  }

  function Flag(on: bool, flag: nat): (f: nat)
    ensures f <= flag
  {
    if on then flag else 0
  }

  function Zeros(n: nat): (z: seq<Byte>)
    ensures |z| == n
  {
    seq(n, _ => 0 as Byte)
  }

  /** Content behind a pad length and in front of as much padding. */
  function Padded(content: seq<Byte>, pad: Option<Byte>): seq<Byte> {
    match pad
    case None => content
    case Some(n) => [n] + content + Zeros(n)
  }

  /** The content of a payload and its pad length. */
  function Unpad(payload: seq<Byte>, padded: bool): (r: Result<(seq<Byte>, Option<Byte>), FrameError>)
    ensures r.Ok? && !padded ==> r.value.0 == payload
  {
    if !padded then Ok((payload, None))
    else if payload == [] then Err(OfConnection(FrameSizeError))
    else
      var n: nat := payload[0];
      if |payload| < 1 + n then Err(OfConnection(ProtocolError))
      else Ok((payload[1..|payload| - n], Some(payload[0])))
  }

  lemma UnpadPadded(content: seq<Byte>, pad: Option<Byte>)
    ensures Unpad(Padded(content, pad), pad.Some?) == Ok((content, pad))
  {
    if pad.Some? {
      var all := Padded(content, pad);
      assert all[1..|all| - pad.value] == content;
    }
  }

  function KindOf(f: Frame): Byte {
    match f
    case Data(_, _, _, _) => 0x00
    case Headers(_, _, _, _, _, _) => 0x01
    case PriorityFrame(_, _) => 0x02
    case RstStream(_, _) => 0x03
    case Settings(_, _) => 0x04
    case PushPromise(_) => 0x05
    case Ping(_, _) => 0x06
    case Goaway(_, _, _) => 0x07
    case WindowUpdate(_, _) => 0x08
    case Continuation(_, _, _) => 0x09
    case PriorityUpdate(_, _) => 0x10
    case Unknown(kind, _, _, _) => kind
  }

  function FlagsOf(f: Frame): Byte {
    match f
    case Data(_, _, endStream, pad) => Flag(endStream, END_STREAM) + Flag(pad.Some?, PADDED)
    case Headers(_, _, endStream, endHeaders, pad, _) =>
      Flag(endStream, END_STREAM) + Flag(endHeaders, END_HEADERS) + Flag(pad.Some?, PADDED)
    case Settings(ack, _) => Flag(ack, ACK)
    case Ping(ack, _) => Flag(ack, ACK)
    case Continuation(_, _, endHeaders) => Flag(endHeaders, END_HEADERS)
    case Unknown(_, flags, _, _) => flags
    case _ => 0
  }

  function IdOf(f: Frame): nat {
    match f
    case Settings(_, _) => 0
    case Ping(_, _) => 0
    case Goaway(_, _, _) => 0
    case PriorityUpdate(_, _) => 0
    case _ => f.id
  }

  function PayloadOf(f: Frame): seq<Byte> {
    match f
    case Data(_, data, _, pad) => Padded(data, pad)
    case Headers(_, fragment, _, _, pad, _) => Padded(fragment, pad)
    case PriorityFrame(_, _) => []
    case RstStream(_, code) => ToBytes(code, 4)
    case Settings(ack, settings) => if ack then [] else AllSettingBytes(settings)
    case PushPromise(_) => []
    case Ping(_, bytes) => bytes
    case Goaway(lastId, code, debug) => ToBytes(lastId % TWO_31, 4) + ToBytes(code, 4) + debug
    case WindowUpdate(_, increment) => ToBytes(increment % TWO_31, 4)
    case Continuation(_, fragment, _) => fragment
    case PriorityUpdate(id, value) => ToBytes(id % TWO_31, 4) + value
    case Unknown(_, _, _, payload) => payload
  }

  /** A frame on the wire. */
  function Encoding(f: Frame): seq<Byte> {
    HeaderBytes(Header(|PayloadOf(f)|, KindOf(f), FlagsOf(f), IdOf(f))) + PayloadOf(f)
  }

  // ---- Reading a payload ----

  function ReadPriority(bytes: seq<Byte>): Priority
    requires |bytes| == 5
  {
    Priority(bytes[0] >= 0x80, ReadId(bytes[..4]), bytes[4])
  }

  function ReadData(h: Header, payload: seq<Byte>): Result<Frame, FrameError> {
    if h.id == 0 then Err(OfConnection(ProtocolError))
    else
      match Unpad(payload, IsSet(h.flags, PADDED))
      case Err(e) => Err(e)
      case Ok((data, pad)) => Ok(Data(h.id, data, IsSet(h.flags, END_STREAM), pad))
  }

  function ReadHeaders(h: Header, payload: seq<Byte>): Result<Frame, FrameError> {
    if h.id == 0 then Err(OfConnection(ProtocolError))
    else
      match Unpad(payload, IsSet(h.flags, PADDED))
      case Err(e) => Err(e)
      case Ok((content, pad)) =>
        if !IsSet(h.flags, PRIORITY) then
          Ok(Headers(h.id, content, IsSet(h.flags, END_STREAM), IsSet(h.flags, END_HEADERS), pad, None))
        else if |content| < 5 then Err(OfConnection(FrameSizeError))
        else Ok(Headers(h.id, content[5..], IsSet(h.flags, END_STREAM), IsSet(h.flags, END_HEADERS), pad,
                        Some(ReadPriority(content[..5]))))
  }

  function ReadSettingsFrame(h: Header, payload: seq<Byte>): Result<Frame, FrameError> {
    if h.id != 0 then Err(OfConnection(ProtocolError))
    else if IsSet(h.flags, ACK) then
      if payload != [] then Err(OfConnection(FrameSizeError)) else Ok(Settings(true, []))
    else if |payload| % 6 != 0 then Err(OfConnection(FrameSizeError))
    else
      match ReadSettings(payload)
      case Err(e) => Err(e)
      case Ok(settings) => Ok(Settings(false, settings))
  }

  function ReadGoaway(h: Header, payload: seq<Byte>): Result<Frame, FrameError> {
    if h.id != 0 then Err(OfConnection(ProtocolError))
    else if |payload| < 8 then Err(OfConnection(FrameSizeError))
    else Ok(Goaway(ReadId(payload[..4]), FromBytes(payload[4..8]), payload[8..]))
  }

  function ReadWindowUpdate(h: Header, payload: seq<Byte>): Result<Frame, FrameError> {
    if |payload| != 4 then Err(OfConnection(FrameSizeError))
    else if ReadId(payload) == 0 then
      Err(if h.id == 0 then OfConnection(ProtocolError) else OfStream(ProtocolError))
    else Ok(WindowUpdate(h.id, ReadId(payload)))
  }

  function ReadPriorityUpdate(h: Header, payload: seq<Byte>): Result<Frame, FrameError> {
    if h.id != 0 then Err(OfConnection(ProtocolError))
    else if |payload| < 4 then Err(OfConnection(FrameSizeError))
    else if ReadId(payload[..4]) == 0 then Err(OfConnection(ProtocolError))
    else Ok(PriorityUpdate(ReadId(payload[..4]), payload[4..]))
  }

  function ReadFrame(h: Header, payload: seq<Byte>): Result<Frame, FrameError> {
    if h.kind == 0x00 then ReadData(h, payload)
    else if h.kind == 0x01 then ReadHeaders(h, payload)
    else if h.kind == 0x02 then
      if h.id == 0 then Err(OfConnection(ProtocolError))
      else if |payload| != 5 then Err(OfStream(FrameSizeError))
      else Ok(PriorityFrame(h.id, ReadPriority(payload)))
    else if h.kind == 0x03 then
      if h.id == 0 then Err(OfConnection(ProtocolError))
      else if |payload| != 4 then Err(OfConnection(FrameSizeError))
      else Ok(RstStream(h.id, FromBytes(payload)))
    else if h.kind == 0x04 then ReadSettingsFrame(h, payload)
    else if h.kind == 0x05 then
      if h.id == 0 then Err(OfConnection(ProtocolError)) else Ok(PushPromise(h.id))
    else if h.kind == 0x06 then
      if h.id != 0 then Err(OfConnection(ProtocolError))
      else if |payload| != 8 then Err(OfConnection(FrameSizeError))
      else Ok(Ping(IsSet(h.flags, ACK), payload))
    else if h.kind == 0x07 then ReadGoaway(h, payload)
    else if h.kind == 0x08 then ReadWindowUpdate(h, payload)
    else if h.kind == 0x09 then
      if h.id == 0 then Err(OfConnection(ProtocolError))
      else Ok(Continuation(h.id, payload, IsSet(h.flags, END_HEADERS)))
    else if h.kind == 0x10 then ReadPriorityUpdate(h, payload)
    else Ok(Unknown(h.kind, h.flags, h.id, payload))
  }

  // ---- Round trip ----

  /** A frame that can be sent: it is of a kind that is sent, carries no priority fields, and
      its fields are in range. */
  predicate Sendable(f: Frame) {
    && (match f
        case Data(id, _, _, _) => 0 < id < TWO_31
        case Headers(id, _, _, _, _, priority) => 0 < id < TWO_31 && priority.None?
        case PriorityFrame(_, _) => false
        case RstStream(id, code) => 0 < id < TWO_31 && code < TWO_32
        case Settings(ack, settings) =>
          (ack ==> settings == []) && forall i :: 0 <= i < |settings| ==> Canonical(settings[i])
        case PushPromise(_) => false
        case Ping(_, bytes) => |bytes| == 8
        case Goaway(lastId, code, _) => lastId < TWO_31 && code < TWO_32
        case WindowUpdate(id, increment) => id < TWO_31 && 0 < increment < TWO_31
        case Continuation(id, _, _) => 0 < id < TWO_31
        case PriorityUpdate(id, _) => 0 < id < TWO_31
        case Unknown(kind, _, id, _) => kind > 9 && kind != 0x10 && id < TWO_31)
  }

  /** The header a frame is sent with. */
  function HeaderOf(f: Frame): Header {
    Header(|PayloadOf(f)|, KindOf(f), FlagsOf(f), IdOf(f))
  }

  lemma DataRoundTrip(f: Frame)
    requires Sendable(f) && f.Data?
    ensures ReadData(HeaderOf(f), PayloadOf(f)) == Ok(f)
  {
    hide Padded, Unpad;
    UnpadPadded(f.data, f.pad);
  }

  lemma HeadersRoundTrip(f: Frame)
    requires Sendable(f) && f.Headers?
    ensures ReadHeaders(HeaderOf(f), PayloadOf(f)) == Ok(f)
  {
    hide Padded, Unpad, ReadPriority;
    UnpadPadded(f.fragment, f.pad);
  }

  /** The payload of a frame that can be sent reads back as the frame. */
  lemma PayloadRoundTrip(f: Frame)
    requires Sendable(f)
    ensures ReadFrame(HeaderOf(f), PayloadOf(f)) == Ok(f)
  {
    hide Padded, Unpad, AllSettingBytes, ReadSettings, Canonical, FromBytes, ToBytes, ReadId;
    hide ReadData, ReadHeaders, ReadPriority;
    match f {
      case Data(_, _, _, _) => DataRoundTrip(f);
      case Headers(_, _, _, _, _, _) => HeadersRoundTrip(f);
      case RstStream(_, code) => FourBytes(code);
      case Settings(ack, settings) => SettingsRoundTrip(settings);
      case Goaway(lastId, code, debug) => GoawayRoundTrip(f);
      case WindowUpdate(_, increment) => FourBytes(increment);
      case PriorityUpdate(id, value) => PriorityUpdateRoundTrip(f);
      case _ =>
    }
  }

  lemma GoawayRoundTrip(f: Frame)
    requires Sendable(f) && f.Goaway?
    ensures ReadGoaway(HeaderOf(f), PayloadOf(f)) == Ok(f)
  {
    hide FromBytes, ToBytes, ReadId;
    var a, b := ToBytes(f.lastId, 4), ToBytes(f.code, 4);
    FourBytes(f.lastId);
    FourBytes(f.code);
    var payload := a + b + f.debug;
    assert payload[..4] == a && payload[4..8] == b && payload[8..] == f.debug;
  }

  lemma PriorityUpdateRoundTrip(f: Frame)
    requires Sendable(f) && f.PriorityUpdate?
    ensures ReadPriorityUpdate(HeaderOf(f), PayloadOf(f)) == Ok(f)
  {
    hide FromBytes, ToBytes, ReadId;
    FourBytes(f.id);
    var payload := ToBytes(f.id, 4) + f.value;
    assert payload[..4] == ToBytes(f.id, 4) && payload[4..] == f.value;
  }
}
