/** Stream identifiers, capsules and settings of a WebTransport session over HTTP/2
    (draft-ietf-webtrans-http2-16; sections 2.1 and 16 of RFC 9000). */
module WtTypes {
  import opened Base

  /** The largest variable-length integer. */
  const MAX_VALUE := 0x3fff_ffff_ffff_ffff

  /** The largest stream count limit. */
  const MAX_STREAMS_LIMIT := 0x1000_0000_0000_0000

  const MAX_APPLICATION_ERROR_CODE := 0xffff_ffff

  const MAX_CLOSE_REASON_LEN := 1024

  /** A stream identifier taken apart: who opened the stream, whether both sides send on it,
      and how many streams of the same type came before. */
  datatype StreamId = StreamId(client: bool, bidi: bool, index: nat) {

    /** The number on the wire. */
    function Wire(): nat {
      4 * index + (if bidi then 0 else 2) + (if client then 0 else 1)
    }

    function Next(): StreamId {
      this.(index := index + 1)
    }
  }

  function FromWire(n: nat): (id: StreamId)
    ensures id.Wire() == n
  {
    StreamId(n % 2 == 0, n / 2 % 2 == 0, n / 4)
  }

  /** Identifiers and numbers below 2^62 correspond one to one. */
  lemma WireIsInjective(a: StreamId, b: StreamId)
    requires a.Wire() == b.Wire()
    ensures a == b
  {
    assert a.Wire() / 4 == a.index && b.Wire() / 4 == b.index;
  }

  /** The bit tests and the arithmetic on numbers are what the fields say: the initiator and
      direction bits, the successor, the order within a type, and the stream-limit test. */
  lemma WireArithmetic(id: StreamId, other: StreamId, maxStreams: nat)
    requires other.client == id.client && other.bidi == id.bidi
    ensures id.client <==> id.Wire() % 2 == 0
    ensures id.bidi <==> id.Wire() / 2 % 2 == 0
    ensures id.Next().Wire() == id.Wire() + 4
    ensures id.Wire() <= other.Wire() <==> id.index <= other.index
    ensures id.Wire() < maxStreams * 4 + id.Wire() % 4 <==> id.index < maxStreams
    ensures id.index < MAX_STREAMS_LIMIT <==> id.Wire() <= MAX_VALUE
  {
    assert id.Wire() / 4 == id.index;
  }

  datatype Capsule =
    | Datagram(data: seq<Byte>)
    | WtStream(id: StreamId, data: seq<Byte>, fin: bool)
    | WtResetStream(id: StreamId, code: nat, reliableSize: nat)
    | WtStopSending(id: StreamId, code: nat)
    | WtMaxData(maximum: nat)
    | WtMaxStreamData(id: StreamId, maximum: nat)
    | WtMaxStreams(maximum: nat, bidi: bool)
    | WtDataBlocked(maximum: nat)
    | WtStreamDataBlocked(id: StreamId, maximum: nat)
    | WtStreamsBlocked(maximum: nat, bidi: bool)
    | WtCloseSession(closeCode: nat, reason: seq<Byte>)
    | WtDrainSession
    | Padding(length: nat)
    | Unknown(kind: nat, data: seq<Byte>)

  datatype WtError = SessionStateError | InvalidStreamId | StreamStateError | FlowControlError

  datatype WtEvent =
    | StreamOpened(id: StreamId)
    | StreamData(id: StreamId, data: seq<Byte>, fin: bool)
    | StreamReset(id: StreamId, code: nat)
    | StopSending(id: StreamId, code: nat)
    | DatagramReceived(data: seq<Byte>)
    | SessionDraining
    | SessionClosed(closeCode: nat, reason: seq<Byte>)

  /** The credit an endpoint advertises when the session starts. */
  datatype Config = Config(maxData: nat, bidiLocal: nat, bidiRemote: nat, uni: nat,
                           streamsBidi: nat, streamsUni: nat) {
    predicate Valid() {
      && maxData <= MAX_VALUE && bidiLocal <= MAX_VALUE && bidiRemote <= MAX_VALUE && uni <= MAX_VALUE
      && streamsBidi <= MAX_STREAMS_LIMIT && streamsUni <= MAX_STREAMS_LIMIT
    }

    /** How much its owner, playing the given role, lets the other side send on a new stream. */
    function StreamCredit(client: bool, id: StreamId): nat {
      if !id.bidi then uni else if id.client == client then bidiLocal else bidiRemote
    }

    function Streams(bidi: bool): nat {
      if bidi then streamsBidi else streamsUni
    }
  }
}
