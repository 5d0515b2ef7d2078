/** Frames, events and settings of an HTTP/2 connection (RFC 9113). */
module H2Types {
  import opened Base

  /** The largest flow-control window. */
  const MAX_WINDOW := 0x7fff_ffff

  const DEFAULT_WINDOW := 65535

  const STREAM_ID_MAX := 0x7fff_ffff

  const CLOSED_STREAMS_MAX_SIZE := 10000

  datatype Role = Client | Server

  datatype ErrorCode =
    | ProtocolError | FlowControlError | StreamClosedError | RefusedStream | OtherCode(code: nat)

  datatype H2Error = ConnectionFailed(code: ErrorCode) | StreamFailed(code: ErrorCode)

  datatype Method = Connect | Head | OtherMethod

  datatype ContentLength = Absent | Length(n: nat) | Malformed

  /** A header list, by what the connection asks of it. Whether a list is a valid request,
      response or trailer section is left open: every combination of answers is covered. */
  datatype Headers = Headers(
    hasPseudo: bool, validRequest: bool, validResponse: bool, validTrailers: bool,
    requestMethod: Option<Method>, hasProtocol: bool, isWebTransport: bool,
    informational: bool, success: bool, noContentStatus: bool,
    contentLength: ContentLength, listSize: nat)

  /** What is written to the peer. A header block stands for its HEADERS and CONTINUATION frames. */
  datatype Frame =
    | Data(id: nat, data: seq<Byte>, endStream: bool)
    | HeaderBlock(id: nat, headers: Headers, endStream: bool)
    | RstStream(id: nat, code: ErrorCode)
    | WindowUpdate(id: nat, increment: nat)
    | SettingsAck
    | Goaway(code: ErrorCode)

  datatype Event =
    | HeadersReceived(id: nat, headers: Headers, endStream: bool)
    | DataReceived(id: nat, data: seq<Byte>, endStream: bool)
    | TrailersReceived(id: nat, headers: Headers)
    | StreamClosed(id: nat)
    | StreamReset(id: nat, code: ErrorCode, consumed: nat)
    | DataDiscarded(id: nat, consumed: nat)
    | WindowUpdateReceived(id: nat, increment: nat)
    | SettingsReceived
    | GoawayReceived(code: ErrorCode)

  /** Data the application handed over for a stream and the connection took. */
  datatype Accepted = Accepted(id: nat, data: seq<Byte>)

  datatype StreamState = Idle | Open | HalfClosedLocal | HalfClosedRemote | Closed {
    predicate CanSend() {
      Open? || HalfClosedRemote?
    }

    /** Sending HEADERS, with or without the end of the stream. */
    function SendHeaders(endStream: bool): Option<StreamState> {
      match this
      case Idle => Some(if endStream then HalfClosedLocal else Open)
      case Open => Some(if endStream then HalfClosedLocal else Open)
      case HalfClosedRemote => Some(if endStream then Closed else HalfClosedRemote)
      case _ => None
    }

    function ReceiveHeaders(endStream: bool): Option<StreamState> {
      match this
      case Idle => Some(if endStream then HalfClosedRemote else Open)
      case Open => Some(if endStream then HalfClosedRemote else Open)
      case HalfClosedLocal => Some(if endStream then Closed else HalfClosedLocal)
      case _ => None
    }

    /** The end of the stream has gone out with the last DATA frame. */
    function CompleteSend(): Option<StreamState> {
      match this
      case Open => Some(HalfClosedLocal)
      case HalfClosedRemote => Some(Closed)
      case _ => None
    }

    function ReceiveData(endStream: bool): Option<StreamState> {
      match this
      case Open => Some(if endStream then HalfClosedRemote else Open)
      case HalfClosedLocal => Some(if endStream then Closed else HalfClosedLocal)
      case _ => None
    }
  }

  /** The settings a peer advertises, as far as they matter here. */
  datatype Settings = Settings(
    initialWindow: nat, maxFrame: nat, maxConcurrent: Option<nat>, maxHeaderList: Option<nat>,
    enableConnect: bool, wtEnabled: bool) {
    predicate Valid() {
      initialWindow <= MAX_WINDOW && 16384 <= maxFrame <= 16777215
    }
  }
}
