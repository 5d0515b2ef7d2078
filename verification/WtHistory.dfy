/** What a sequence of capsules amounts to, and which sequences a peer accepts. */
module WtHistory {
  import opened WtTypes

  function Max(a: nat, b: nat): nat {
    if a <= b then b else a
  }

  // ---- The contribution of one capsule ----

  function BytesOn(c: Capsule, id: StreamId): nat {
    if c.WtStream? && c.id == id then |c.data| else 0
  }

  predicate Ends(c: Capsule, id: StreamId) {
    (c.WtStream? && c.id == id && c.fin) || (c.WtResetStream? && c.id == id)
  }

  predicate Stops(c: Capsule, id: StreamId) {
    c.WtStopSending? && c.id == id
  }

  function CreditOn(c: Capsule, id: StreamId): nat {
    if c.WtMaxStreamData? && c.id == id then c.maximum else 0
  }

  predicate Names(c: Capsule, id: StreamId) {
    match c
    case WtStream(i, _, _) => i == id
    case WtResetStream(i, _, _) => i == id
    case WtStopSending(i, _) => i == id
    case WtMaxStreamData(i, _) => i == id
    case _ => false
  }

  /** One more than the index of the stream of the given type that the capsule opens at a
      receiver that did not have it. A reset opens nothing. */
  function Opening(c: Capsule, client: bool, bidi: bool): nat {
    match c
    case WtStream(i, _, _) => if i.client == client && i.bidi == bidi then i.index + 1 else 0
    case WtStopSending(i, _) => if i.client == client && i.bidi == bidi then i.index + 1 else 0
    case WtMaxStreamData(i, _) => if i.client == client && i.bidi == bidi then i.index + 1 else 0
    case _ => 0
  }

  function Bytes(c: Capsule): nat {
    if c.WtStream? then |c.data| else 0
  }

  function SessionCredit(c: Capsule): nat {
    if c.WtMaxData? then c.maximum else 0
  }

  function StreamsCredit(c: Capsule, bidi: bool): nat {
    if c.WtMaxStreams? && c.bidi == bidi then c.maximum else 0
  }

  // ---- Whole histories ----

  /** The octets carried on a stream. */
  function Sent(h: seq<Capsule>, id: StreamId): nat {
    if h == [] then 0 else Sent(h[..|h| - 1], id) + BytesOn(h[|h| - 1], id)
  }

  /** Whether the sending part of a stream was finished or reset. */
  predicate Ended(h: seq<Capsule>, id: StreamId) {
    h != [] && (Ended(h[..|h| - 1], id) || Ends(h[|h| - 1], id))
  }

  predicate Stopped(h: seq<Capsule>, id: StreamId) {
    h != [] && (Stopped(h[..|h| - 1], id) || Stops(h[|h| - 1], id))
  }

  /** The credit granted on a stream beyond the initial one. */
  function Granted(h: seq<Capsule>, id: StreamId): nat {
    if h == [] then 0 else Max(Granted(h[..|h| - 1], id), CreditOn(h[|h| - 1], id))
  }

  predicate Named(h: seq<Capsule>, id: StreamId) {
    h != [] && (Named(h[..|h| - 1], id) || Names(h[|h| - 1], id))
  }

  /** How many streams of a type the history opens. */
  function Opened(h: seq<Capsule>, client: bool, bidi: bool): nat {
    if h == [] then 0 else Max(Opened(h[..|h| - 1], client, bidi), Opening(h[|h| - 1], client, bidi))
  }

  /** The octets carried on all streams together. */
  function Total(h: seq<Capsule>): nat {
    if h == [] then 0 else Total(h[..|h| - 1]) + Bytes(h[|h| - 1])
  }

  function DataGranted(h: seq<Capsule>): nat {
    if h == [] then 0 else Max(DataGranted(h[..|h| - 1]), SessionCredit(h[|h| - 1]))
  }

  function StreamsGranted(h: seq<Capsule>, bidi: bool): nat {
    if h == [] then 0 else Max(StreamsGranted(h[..|h| - 1], bidi), StreamsCredit(h[|h| - 1], bidi))
  }

  lemma Snoc(h: seq<Capsule>, c: Capsule)
    ensures (h + [c])[..|h + [c]| - 1] == h && (h + [c])[|h + [c]| - 1] == c && h + [c] != []
  {
  }

  /** One more capsule, as one stream sees it. */
  lemma ExtendStream(h: seq<Capsule>, c: Capsule, id: StreamId)
    ensures Sent(h + [c], id) == Sent(h, id) + BytesOn(c, id)
    ensures Ended(h + [c], id) <==> Ended(h, id) || Ends(c, id)
    ensures Stopped(h + [c], id) <==> Stopped(h, id) || Stops(c, id)
    ensures Granted(h + [c], id) == Max(Granted(h, id), CreditOn(c, id))
    ensures Named(h + [c], id) <==> Named(h, id) || Names(c, id)
  {
    Snoc(h, c);
  }

  /** One more capsule, as the session sees it. */
  lemma ExtendFlow(h: seq<Capsule>, c: Capsule, client: bool, bidi: bool)
    ensures Total(h + [c]) == Total(h) + Bytes(c)
    ensures DataGranted(h + [c]) == Max(DataGranted(h), SessionCredit(c))
    ensures StreamsGranted(h + [c], bidi) == Max(StreamsGranted(h, bidi), StreamsCredit(c, bidi))
    ensures Opened(h + [c], client, bidi) == Max(Opened(h, client, bidi), Opening(c, client, bidi))
  {
    Snoc(h, c);
  }

  lemma {:induction false} UnnamedIsFresh(h: seq<Capsule>, id: StreamId)
    ensures !Named(h, id) ==> Sent(h, id) == 0 && !Ended(h, id) && !Stopped(h, id) && Granted(h, id) == 0
  {
    if h != [] {
      UnnamedIsFresh(h[..|h| - 1], id);
    }
  }

  /** Histories only grow. */
  lemma {:induction false} StreamMonotone(p: seq<Capsule>, h: seq<Capsule>, id: StreamId)
    requires p <= h
    ensures Sent(p, id) <= Sent(h, id) && Granted(p, id) <= Granted(h, id)
    ensures Named(p, id) ==> Named(h, id)
  {
    if |p| < |h| {
      StreamMonotone(p, h[..|h| - 1], id);
    } else {
      assert p == h;
    }
  }

  lemma {:induction false} FlowMonotone(p: seq<Capsule>, h: seq<Capsule>, client: bool, bidi: bool)
    requires p <= h
    ensures Total(p) <= Total(h) && DataGranted(p) <= DataGranted(h)
    ensures StreamsGranted(p, bidi) <= StreamsGranted(h, bidi)
    ensures Opened(p, client, bidi) <= Opened(h, client, bidi)
  {
    if |p| < |h| {
      FlowMonotone(p, h[..|h| - 1], client, bidi);
    } else {
      assert p == h;
    }
  }

  lemma {:induction false} NamedIn(h: seq<Capsule>, k: nat, id: StreamId)
    requires k < |h| && Names(h[k], id)
    ensures Named(h, id)
  {
    if k < |h| - 1 {
      NamedIn(h[..|h| - 1], k, id);
    }
  }

  // ---- Legal scripts ----

  /** Whether an endpoint of the given role and settings may emit c after h: it carries data
      and resets only where it has an open sending part, with the exact Reliable Size and
      no idle capsule; it stops and grants credit only where it receives, each limit above
      the last; and it resets one of its own streams only once it has opened it to the peer. */
  predicate LegalNext(client: bool, config: Config, h: seq<Capsule>, c: Capsule) {
    match c
    case WtStream(id, data, fin) =>
      && (id.bidi || id.client == client)
      && !Ended(h, id)
      && (data != [] || fin || Sent(h, id) == 0)
    case WtResetStream(id, code, reliableSize) =>
      && (id.bidi || id.client == client)
      && !Ended(h, id)
      && code <= MAX_APPLICATION_ERROR_CODE
      && reliableSize == Sent(h, id)
      && (id.client == client ==> id.index < Opened(h, id.client, id.bidi))
    case WtStopSending(id, code) =>
      && (id.bidi || id.client != client)
      && code <= MAX_APPLICATION_ERROR_CODE
      && !Stopped(h, id)
    case WtMaxStreamData(id, maximum) =>
      && (id.bidi || id.client != client)
      && !Stopped(h, id)
      && Max(config.StreamCredit(client, id), Granted(h, id)) < maximum <= MAX_VALUE
    case WtMaxData(maximum) => Max(config.maxData, DataGranted(h)) < maximum <= MAX_VALUE
    case WtMaxStreams(maximum, bidi) =>
      Max(config.Streams(bidi), StreamsGranted(h, bidi)) < maximum <= MAX_STREAMS_LIMIT
    case WtDataBlocked(_) => false
    case WtStreamDataBlocked(_, _) => false
    case WtStreamsBlocked(_, _) => false
    case Padding(_) => false
    case Unknown(_, _) => false
    case _ => true
  }

  predicate LegalScript(client: bool, config: Config, h: seq<Capsule>) {
    h != [] ==>
      LegalScript(client, config, h[..|h| - 1]) && LegalNext(client, config, h[..|h| - 1], h[|h| - 1])
  }

  /** Every capsule of a legal script is legal where it stands. */
  lemma {:induction false} LegalAt(client: bool, config: Config, h: seq<Capsule>, k: nat)
    requires LegalScript(client, config, h) && k < |h|
    ensures LegalNext(client, config, h[..k], h[k])
  {
    if k < |h| - 1 {
      LegalAt(client, config, h[..|h| - 1], k);
      assert h[..|h| - 1][..k] == h[..k];
    }
  }

  lemma ExtendLegal(client: bool, config: Config, h: seq<Capsule>, c: Capsule)
    requires LegalScript(client, config, h) && LegalNext(client, config, h, c)
    ensures LegalScript(client, config, h + [c])
  {
    Snoc(h, c);
  }
}
