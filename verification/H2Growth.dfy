/** What a run of a connection never takes back: events, identifiers seen, and streams gone. */
module H2Growth {
  import opened Base
  import opened H2Types
  import opened H2History
  import opened H2Connection
  import opened H2Invariant
  import opened H2Sending
  import opened H2Receiving
  import opened H2Runs

  /** No event about the stream was added. */
  predicate Silent(before: seq<Event>, after: seq<Event>, id: nat) {
    forall k :: |before| <= k < |after| ==> !IsAbout(after[k], id)
  }

  predicate AddsOnly(before: seq<Event>, after: seq<Event>, id: nat) {
    before <= after && forall k :: |before| <= k < |after| ==> EventOf(after[k], id)
  }

  /** What the peer granted a stream, and what is left of what was granted to the peer on it; a
      stream starts with nothing granted and the initial window. */
  function CreditsOf(c: Conn, id: nat): (int, int) {
    if id in c.streams then (c.streams[id].granted, c.streams[id].recvWindow) else (0, c.local.initialWindow)
  }

  /** No credit was granted by either side, no data accepted, no padding left unreported, nothing
      set anew, and nobody said goodbye. */
  predicate SameBooks(c: Conn, d: Conn, id: nat) {
    && d.padding == c.padding && d.refilled == c.refilled && d.granted == c.granted && d.sends == c.sends
    && d.phase == c.phase && d.remote == c.remote
    && (id in d.streams ==> CreditsOf(d, id) == CreditsOf(c, id))
  }

  /** The peer has come as far as the identifier, and no block is about to open its stream. */
  predicate Reached(c: Conn, id: nat) {
    id <= c.lastRecv && !UnderWay(c, id)
  }

  predicate Gone(c: Conn, id: nat) {
    id !in c.streams && Reached(c, id)
  }

  /** One stream is acted upon; one that is gone stays gone. */
  predicate Touches(c: Conn, d: Conn, id: nat) {
    && d.role == c.role && d.local == c.local && c.lastRecv <= d.lastRecv
    && d.streams - {id} == c.streams - {id}
    && AddsOnly(c.log, d.log, id)
    && (d.open == c.open || d.open.None?)
    && (Gone(c, id) ==> id !in d.streams && Silent(c.log, d.log, id))
  }

  /** The same for a given stream, whatever was acted upon. */
  predicate Grows(c: Conn, d: Conn, id: nat) {
    && d.role == c.role && d.local == c.local && c.lastRecv <= d.lastRecv && c.log <= d.log
    && (Reached(c, id) ==> Reached(d, id))
    && (Gone(c, id) ==> Gone(d, id) && Silent(c.log, d.log, id))
  }

  lemma TouchesGrows(c: Conn, d: Conn, touched: nat, id: nat)
    requires Touches(c, d, touched)
    ensures Grows(c, d, id)
  {
    if id != touched && Gone(c, id) {
      assert id in d.streams ==> id in d.streams - {touched};
      assert id !in c.streams - {touched};
      forall k | |c.log| <= k < |d.log| ensures !IsAbout(d.log[k], id) {
        assert EventOf(d.log[k], touched);
      }
    }
  }

  lemma GrowsTwice(c: Conn, d: Conn, e: Conn, id: nat)
    requires Grows(c, d, id) && Grows(d, e, id)
    ensures Grows(c, e, id)
  {
    forall k | Gone(c, id) && |c.log| <= k < |e.log| ensures !IsAbout(e.log[k], id) {
      if k < |d.log| {
        assert e.log[k] == d.log[k];
      }
    }
  }

  /** The books of one stream are those of every stream if no other was acted upon. */
  lemma BooksOfOthers(b: Conn, d: Conn, touched: nat, id: nat)
    requires SameBooks(b, d, touched) && d.streams - {touched} == b.streams - {touched} && d.local == b.local
    ensures SameBooks(b, d, id)
    ensures id in d.streams && id != touched ==> id in b.streams
  {
    if id != touched && id in d.streams {
      assert id in d.streams - {touched};
      assert (d.streams - {touched})[id] == d.streams[id];
      assert (b.streams - {touched})[id] == b.streams[id];
    }
  }

  // ---- Flushing ----

  /** Only what is queued and sent has changed. */
  predicate SameRecord(s: Stream, t: Stream) {
    t == s.(state := t.state, sendWindow := t.sendWindow, buffer := t.buffer, pendingEnd := t.pendingEnd)
  }

  /** The application is told nothing and nothing is dropped. */
  ghost predicate Quiet(c: Conn, d: Conn, id: nat) {
    && d == c.(streams := d.streams, sendWindow := d.sendWindow, wire := d.wire)
    && d.streams - {id} == c.streams - {id} && (id in d.streams <==> id in c.streams)
    && (id in c.streams ==> SameRecord(c.streams[id], d.streams[id]))
  }

  lemma {:induction false} FlushIsQuiet(c: Conn, id: nat)
    requires Flush(c, id).Ok?
    ensures Quiet(c, Flush(c, id).value, id)
    decreases if id in c.streams then |c.streams[id].buffer| else 0
  {
    hide SendSlice, SendEmptyEnd, Quiet;
    if id !in c.streams || c.streams[id].buffer == [] {
      EndIsQuiet(c, id);
    } else {
      var n := SliceSize(c, c.streams[id]);
      if n == 0 {
        NothingIsQuiet(c, id);
      } else {
        SliceIsQuiet(c, id, n);
        SliceShrinks(c, id, n);
        if n < |c.streams[id].buffer| {
          FlushIsQuiet(SendSlice(c, id, n).value, id);
          QuietTwice(c, SendSlice(c, id, n).value, Flush(c, id).value, id);
        }
      }
    }
  }

  lemma NothingIsQuiet(c: Conn, id: nat)
    ensures Quiet(c, c, id)
  {
  }

  lemma EndIsQuiet(c: Conn, id: nat)
    requires SendEmptyEnd(c, id).Ok?
    ensures Quiet(c, SendEmptyEnd(c, id).value, id)
  {
  }

  lemma SliceIsQuiet(c: Conn, id: nat, n: nat)
    requires id in c.streams && n <= |c.streams[id].buffer| && SendSlice(c, id, n).Ok?
    ensures Quiet(c, SendSlice(c, id, n).value, id)
  {
  }

  lemma QuietTwice(c: Conn, d: Conn, e: Conn, id: nat)
    requires Quiet(c, d, id) && Quiet(d, e, id)
    ensures Quiet(c, e, id)
  {
  }

  lemma FlushAndCloseTouches(c: Conn, id: nat)
    requires FlushAndClose(c, id).Ok?
    ensures Touches(c, FlushAndClose(c, id).value, id) && SameBooks(c, FlushAndClose(c, id).value, id)
    ensures id in FlushAndClose(c, id).value.streams ==> id in c.streams
  {
    hide Flush, Remember;
    FlushIsQuiet(c, id);
    var d := FlushAndClose(c, id).value;
    assert d.streams - {id} == c.streams - {id};
  }

  lemma {:induction false} FlushAllGrows(c: Conn, order: seq<nat>, id: nat)
    requires FlushAll(c, order).Ok?
    ensures Grows(c, FlushAll(c, order).value, id) && SameBooks(c, FlushAll(c, order).value, id)
    ensures id in FlushAll(c, order).value.streams ==> id in c.streams
    decreases |order|
  {
    hide FlushAndClose, Grows, Touches;
    if order == [] {
      GrowsNot(c, id);
    } else {
      FlushAndCloseTouches(c, order[0]);
      var d := FlushAndClose(c, order[0]).value;
      TouchesGrows(c, d, order[0], id);
      SeenGrows(c, d, order[0]);
      BooksOfOthers(c, d, order[0], id);
      FlushAllGrows(d, order[1..], id);
      GrowsTwice(c, d, FlushAll(d, order[1..]).value, id);
    }
  }

  lemma GrowsNot(c: Conn, id: nat)
    ensures Grows(c, c, id)
  {
  }

  lemma SeenGrows(c: Conn, d: Conn, id: nat)
    requires Touches(c, d, id)
    ensures c.lastRecv <= d.lastRecv && d.streams - {id} == c.streams - {id} && d.local == c.local
  {
  }

  // ---- Operations on one stream ----

  lemma SendDataTouches(c: Conn, id: nat, data: seq<Byte>, endStream: bool)
    requires SendData(c, id, data, endStream).Ok?
    ensures Touches(c, SendData(c, id, data, endStream).value, id)
    ensures SameBooks(c.(sends := c.sends + [Accepted(id, data)]), SendData(c, id, data, endStream).value, id)
  {
    hide FlushAndClose;
    var d := QueueData(c, id, data, endStream).value;
    FlushAndCloseTouches(d, id);
    assert d.streams - {id} == c.streams - {id};
  }

  lemma SendHeadersTouches(c: Conn, id: nat, h: Headers, endStream: bool)
    ensures SendResponse(c, id, h, endStream).Ok? ==>
              var d := SendResponse(c, id, h, endStream).value; Touches(c, d, id) && SameBooks(c, d, id)
    ensures SendTrailers(c, id, h).Ok? ==>
              var d := SendTrailers(c, id, h).value; Touches(c, d, id) && SameBooks(c, d, id)
  {
    hide Remember;
    if SendResponse(c, id, h, endStream).Ok? {
      assert SendResponse(c, id, h, endStream).value.streams - {id} == c.streams - {id};
    }
    if SendTrailers(c, id, h).Ok? {
      assert SendTrailers(c, id, h).value.streams - {id} == c.streams - {id};
    }
  }

  lemma ResetTouches(c: Conn, id: nat, code: ErrorCode, consumed: nat)
    ensures Touches(c, Reset(c, id, code, consumed), id) && SameBooks(c, Reset(c, id, code, consumed), id)
    ensures id !in Reset(c, id, code, consumed).streams
  {
    hide Remember;
    assert Reset(c, id, code, consumed).streams - {id} == c.streams - {id};
  }

  // ---- Receiving ----

  /** Nothing but the one stream and its events has changed. */
  predicate Within(c: Conn, d: Conn, id: nat) {
    && d.role == c.role && d.local == c.local && d.lastRecv == c.lastRecv && d.open == c.open && SameBooks(c, d, id)
    && d.streams - {id} == c.streams - {id} && AddsOnly(c.log, d.log, id)
  }

  /** However a step ends for the stream, nothing else is touched. */
  lemma EndingsStay(c: Conn, id: nat)
    ensures forall x, code, consumed :: Within(c, x, id) ==> Within(c, Reset(x, id, code, consumed), id)
    ensures forall x: Conn, e, endStream :: Within(c, x, id) && id in x.streams && EventOf(e, id) ==>
              Within(c, EndIfClosed(x.Queue(e), id, endStream), id)
  {
    forall x: Conn, code, consumed | Within(c, x, id) ensures Within(c, Reset(x, id, code, consumed), id) {
      ResetStays(c, x, id, code, consumed);
    }
    forall x: Conn, e, endStream | Within(c, x, id) && id in x.streams && EventOf(e, id)
      ensures Within(c, EndIfClosed(x.Queue(e), id, endStream), id)
    {
      EndStays(c, x, id, e, endStream);
    }
  }

  lemma ResetStays(c: Conn, x: Conn, id: nat, code: ErrorCode, consumed: nat)
    requires Within(c, x, id)
    ensures Within(c, Reset(x, id, code, consumed), id)
  {
    hide Remember;
    assert Reset(x, id, code, consumed).streams - {id} == x.streams - {id};
  }

  lemma EndStays(c: Conn, x: Conn, id: nat, e: Event, endStream: bool)
    requires Within(c, x, id) && id in x.streams && EventOf(e, id)
    ensures Within(c, EndIfClosed(x.Queue(e), id, endStream), id)
  {
    hide Remember;
    assert EndIfClosed(x.Queue(e), id, endStream).streams - {id} == x.streams - {id};
  }

  /** The record shows the credit that the stream had. */
  predicate SameCredits(c: Conn, id: nat, s: Stream) {
    (s.granted, s.recvWindow) == CreditsOf(c, id)
  }

  /** A record that is replaced, and a block that is refused then. */
  lemma RecordsStay(c: Conn, x: Conn, id: nat, s: Stream)
    requires Within(c, x, id) && SameCredits(c, id, s)
    ensures Within(c, x.Put(id, s), id) && Within(c, RejectBlock(x.Put(id, s), id), id)
  {
    hide Reset, AddsOnly;
    assert x.Put(id, s).streams - {id} == x.streams - {id};
    ResetStays(c, x.Put(id, s), id, ProtocolError, 0);
  }

  /** A record that is created if need be, and a block that is refused then. */
  lemma EnsureStays(c: Conn, id: nat)
    ensures Within(c, c, id) && Within(c, Ensure(c, id), id) && Within(c, RejectBlock(c, id), id)
    ensures id in Ensure(c, id).streams && SameCredits(c, id, Ensure(c, id).streams[id])
  {
    hide Reset;
    assert Ensure(c, id).streams - {id} == c.streams - {id};
    ResetStays(c, Ensure(c, id), id, ProtocolError, 0);
  }

  lemma TrailersStay(c: Conn, id: nat, h: Headers)
    ensures Within(c, ProcessTrailers(Ensure(c, id), id, h), id)
  {
    hide Within, Reset, EndIfClosed, Ensure;
    var d := Ensure(c, id);
    EnsureStays(c, id);
    EndingsStay(c, id);
    if d.streams[id].state.ReceiveHeaders(true).Some? {
      RecordsStay(c, d, id, d.streams[id].(state := d.streams[id].state.ReceiveHeaders(true).value));
    }
  }

  lemma TakeRequestStays(c: Conn, x: Conn, id: nat, s: Stream, h: Headers, endStream: bool)
    requires Within(c, x, id) && SameCredits(c, id, s)
    ensures Within(c, TakeRequest(x, id, s, h, endStream), id)
  {
    hide Within, Reset, RejectBlock, EndIfClosed;
    RecordsStay(c, x, id, s);
    EndingsStay(c, id);
    if s.state.ReceiveHeaders(endStream).Some? {
      RecordsStay(c, x, id, s.(state := s.state.ReceiveHeaders(endStream).value, expected := Declared(h),
                               initialHeaders := true));
    }
  }

  lemma TakeResponseStays(c: Conn, x: Conn, id: nat, s: Stream, h: Headers, endStream: bool)
    requires Within(c, x, id) && SameCredits(c, id, s)
    ensures Within(c, TakeResponse(x, id, s, h, endStream), id)
  {
    hide Within, Reset, RejectBlock, EndIfClosed;
    RecordsStay(c, x, id, s);
    EndingsStay(c, id);
    if s.state.ReceiveHeaders(endStream).Some? {
      RecordsStay(c, x, id, s.(state := s.state.ReceiveHeaders(endStream).value, expected := Declared(h),
                               initialHeaders := !h.informational));
    }
  }

  lemma ProcessStays(c: Conn, id: nat, h: Headers, endStream: bool)
    ensures Within(c, ProcessHeaders(c, id, h, endStream), id)
  {
    hide Within, RejectBlock, TakeRequest, TakeResponse, ProcessTrailers;
    EnsureStays(c, id);
    var d := Ensure(c, id);
    TrailersStay(c, id, h);
    if !h.hasPseudo {
    } else if c.role.Server? {
      forall s: Stream | SameCredits(c, id, s)
        ensures Within(c, TakeRequest(d, id, s, h, endStream), id)
      {
        TakeRequestStays(c, d, id, s, h, endStream);
      }
    } else {
      forall s: Stream | SameCredits(c, id, s)
        ensures Within(c, TakeResponse(d, id, s, h, endStream), id)
      {
        TakeResponseStays(c, d, id, s, h, endStream);
      }
    }
  }

  lemma OnHeadersTouches(c: Conn, id: nat, h: Headers, endStream: bool)
    requires OnHeaders(c, id, h, endStream).Ok?
    ensures var d := OnHeaders(c, id, h, endStream).value; Touches(c, d, id) && SameBooks(c, d, id)
  {
    hide Remember, OpenCount, ProcessHeaders, Reset, Ensure, AddsOnly, Silent;
    FinishStays(Begin(c, id), id, h, endStream);
    NothingAdded(c, id);
  }

  lemma FinishStays(c: Conn, id: nat, h: Headers, endStream: bool)
    ensures Within(c, Finish(c, id, h, endStream), id)
  {
    hide Within, ProcessHeaders, Reset, Ensure;
    ProcessStays(c, id, h, endStream);
    FlagsStay(c, id);
    var d, e := c.(refused := false), c.(tunnelled := false);
    EnsureOnceMore(c, d, id);
    ResetStays(c, Ensure(d, id), id, RefusedStream, 0);
    ResetStays(c, e, id, ProtocolError, 0);
  }

  lemma EnsureOnceMore(c: Conn, d: Conn, id: nat)
    requires d == c.(refused := false)
    ensures Within(c, Ensure(d, id), id)
  {
    EnsureStays(c, id);
    assert Ensure(d, id).streams == Ensure(c, id).streams;
  }

  lemma FlagsStay(c: Conn, id: nat)
    ensures Within(c, c.(refused := false), id) && Within(c, c.(tunnelled := false), id)
  {
  }

  /** The first frame of a block opens nothing yet. */
  lemma OnFirstFrameGrows(c: Conn, first: nat, endStream: bool, id: nat)
    requires OnFirstFrame(c, first, endStream).Ok?
    ensures var d := OnFirstFrame(c, first, endStream).value; Grows(c, d, id) && SameBooks(c, d, id)
  {
    hide OpenCount;
  }

  lemma OnLastFrameTouches(c: Conn, h: Headers)
    requires Remembers(c) && OnLastFrame(c, h).Ok?
    ensures c.open.Some?
    ensures var d := OnLastFrame(c, h).value; Touches(c, d, c.open.value.id) && SameBooks(c, d, c.open.value.id)
  {
    hide Remember, ProcessHeaders, Reset, Ensure, AddsOnly, Silent;
    var b := c.open.value;
    FinishStays(c.(open := None), b.id, h, b.endStream);
    NothingAdded(c, b.id);
  }

  lemma NothingAdded(c: Conn, id: nat)
    ensures AddsOnly(c.log, c.log, id) && Silent(c.log, c.log, id)
  {
  }

  /** What padding adds to a DATA frame: the padding and the octet of its length. */
  function Overhead(pad: Option<nat>): nat {
    if pad.Some? then 1 + pad.value else 0
  }

  /** Credit of a stream that exists, used up by the peer. */
  ghost function Consumed(c: Conn, id: nat, size: nat): Conn {
    if id in c.streams then c.Put(id, c.streams[id].(recvWindow := c.streams[id].recvWindow - size)) else c
  }

  lemma OnDataTouches(c: Conn, id: nat, data: seq<Byte>, pad: Option<nat>, endStream: bool)
    requires OnData(c, id, data, pad, endStream).Ok?
    ensures var d := OnData(c, id, data, pad, endStream).value;
            && Touches(c, d, id)
            && ((id in c.streams ==> !c.streams[id].state.Closed?) ==>
                  SameBooks(Consumed(c, id, |data| + Overhead(pad)).(padding := d.padding), d, id))
  {
    hide AcceptData;
    var size := |data| + Overhead(pad);
    var d := Charge(c, size);
    if id in c.streams {
      AcceptTouches(d, id, data, size, endStream);
    }
  }

  lemma AcceptTouches(c: Conn, id: nat, data: seq<Byte>, size: nat, endStream: bool)
    requires id in c.streams && |data| <= size
    ensures var d := AcceptData(c, id, data, size, endStream);
            Touches(c, d, id) && SameBooks(Consumed(c, id, size).(padding := d.padding), d, id)
  {
    hide Reset, EndIfClosed;
    forall code ensures
        var d := Reset(c, id, code, size);
        Touches(c, d, id) && SameBooks(c, d, id) && id !in d.streams
    {
      ResetTouches(c, id, code, size);
    }
    if c.streams[id].state.ReceiveData(endStream).Some? {
      DeliveryTouches(c, id, data, size, endStream);
    }
  }

  lemma DeliveryTouches(c: Conn, id: nat, data: seq<Byte>, size: nat, endStream: bool)
    requires id in c.streams && |data| <= size && c.streams[id].state.ReceiveData(endStream).Some?
    ensures var d := EndIfClosed(Deliver(c, id, data, size, endStream), id, endStream);
            Touches(c, d, id) && SameBooks(Consumed(c, id, size).(padding := d.padding), d, id)
  {
    hide Remember;
    var d := Deliver(c, id, data, size, endStream);
    assert d.streams - {id} == c.streams - {id};
    assert EndIfClosed(d, id, endStream).streams - {id} == d.streams - {id};
  }

  // ---- Every input ----

  /** Credit from the peer, for the connection or for a stream that exists. */
  ghost function Credited(c: Conn, id: nat, increment: nat): Conn {
    if id == 0 then Grant(c, increment)
    else if id in c.streams then c.Put(id, c.streams[id].(granted := c.streams[id].granted + increment))
    else c
  }

  lemma OnStreamWindowTouches(c: Conn, id: nat, increment: nat, order: seq<nat>)
    requires id != 0 && OnWindowUpdate(c, id, increment, order).Ok?
    ensures var d := OnWindowUpdate(c, id, increment, order).value;
            && Touches(c, d, id)
            && ((id in c.streams ==> !c.streams[id].state.Closed?) ==> SameBooks(Credited(c, id, increment), d, id))
  {
    hide Reset, FlushAndClose;
    ResetTouches(c, id, FlowControlError, 0);
    if id in c.streams {
      var s := c.streams[id];
      var d := c.Put(id, s.(sendWindow := s.sendWindow + increment, granted := s.granted + increment));
      assert d.streams - {id} == c.streams - {id};
      if FlushAndClose(d, id).Ok? {
        FlushAndCloseTouches(d, id);
      }
    }
  }

  lemma OnConnWindowGrows(c: Conn, increment: nat, order: seq<nat>, id: nat)
    requires OnWindowUpdate(c, 0, increment, order).Ok?
    ensures var d := OnWindowUpdate(c, 0, increment, order).value;
            Grows(c, d, id) && SameBooks(Credited(c, 0, increment), d, id)
  {
    hide FlushAll;
    FlushAllGrows(Grant(c, increment), order, id);
  }

  /** Settings taken over; the first ones make the connection active. */
  ghost function Settled(c: Conn, settings: Settings): Conn {
    c.(remote := settings, phase := if c.phase.Preface? then Active else c.phase)
  }

  lemma OnSettingsGrows(c: Conn, settings: Settings, order: seq<nat>, id: nat)
    requires OnSettings(c, settings, order).Ok?
    ensures var d := OnSettings(c, settings, order).value; Grows(c, d, id) && SameBooks(Settled(c, settings), d, id)
  {
    hide FlushAll;
    var d := Reconfigure(c, settings).value.Emit(SettingsAck);
    assert d.streams.Keys == c.streams.Keys;
    FlushAllGrows(d, order, id);
  }

  /** A client opens streams at its own counter, above every identifier seen from the peer. */
  lemma StartGrows(c: Conn, h: Headers, endStream: bool, id: nat)
    requires StartStream(c, h, endStream).Ok? && (c.role.Client? ==> c.lastRecv < c.nextId)
    ensures var d := StartStream(c, h, endStream).value;
            Grows(c, d, id) && (c.nextId !in c.streams ==> SameBooks(c, d, id))
  {
  }

  lemma OnResetTouches(c: Conn, id: nat, code: ErrorCode)
    requires OnRstStream(c, id, code).Ok?
    ensures var d := OnRstStream(c, id, code).value; Touches(c, d, id) && SameBooks(c, d, id)
  {
    hide Remember;
    assert OnRstStream(c, id, code).value.streams - {id} == c.streams - {id};
  }

  lemma ApplyGrows(c: Conn, i: Input, id: nat)
    requires Inv(c) && Allowed(c, i) && Apply(c, i).Ok?
    ensures Grows(c, Apply(c, i).value, id)
  {
    hide Core, Calm, WithinLimit, StartStream, SendData, SendResponse, SendTrailers, Reset, OnData, OnHeaders,
         OnRstStream, OnWindowUpdate, OnSettings, OnFirstFrame, OnLastFrame, Touches, Grows, SameBooks, IsOrder,
         Remembers, UnderWay;
    assert c.role.Client? ==> c.lastRecv < c.nextId by { CounterIsAbove(c); }
    match i {
      case DoStart(h, endStream) => StartGrows(c, h, endStream, id);
      case DoSend(x, data, endStream) => SendDataTouches(c, x, data, endStream);
      case DoRespond(x, h, endStream) => SendHeadersTouches(c, x, h, endStream);
      case DoTrailers(x, h) => SendHeadersTouches(c, x, h, true);
      case DoReset(x, code) => ResetTouches(c, x, code, 0);
      case GetData(x, data, pad, endStream) => OnDataTouches(c, x, data, pad, endStream);
      case GetHeaders(x, h, endStream) => OnHeadersTouches(c, x, h, endStream);
      case GetReset(x, code) => OnResetTouches(c, x, code);
      case GetWindowUpdate(x, increment, order) =>
        if x == 0 {
          OnConnWindowGrows(c, increment, order, id);
        } else {
          OnStreamWindowTouches(c, x, increment, order);
        }
      case GetSettings(settings, order) => OnSettingsGrows(c, settings, order, id);
      case GetUnknown(x) => ResetTouches(c, x, ProtocolError, 0);
      case GetFirst(x, endStream) => OnFirstFrameGrows(c, x, endStream, id);
      case GetLast(h) =>
        OnLastFrameTouches(c, h);
        TouchesGrows(c, Apply(c, i).value, c.open.value.id, id);
      case GetBroken(x, code) => ResetTouches(c, x, code, 0);
      case _ => NothingSaid(c, i, id);
    }
    SameState(c, id);
    if !i.DoStart? && !i.DoWindowUpdate? && !i.DoGoaway? && !i.GetSettings? && !i.GetGoaway? && !i.GetFirst?
       && !i.GetLast? && !(i.GetWindowUpdate? && i.id == 0) && Apply(c, i).value != c {
      TouchesGrows(c, Apply(c, i).value, i.id, id);
    }
  }

  lemma SameState(c: Conn, id: nat)
    ensures Grows(c, c, id)
  {
  }

  /** Credit and shutdown concern no stream's events. */
  lemma NothingSaid(c: Conn, i: Input, id: nat)
    requires (i.DoWindowUpdate? || i.DoGoaway? || i.GetGoaway?) && Apply(c, i).Ok?
    ensures var d := Apply(c, i).value; Grows(c, d, id)
  {
  }

  // ---- Whole runs ----

  lemma {:induction false} RunGrows(c: Conn, inputs: seq<Input>, id: nat)
    requires Inv(c) && AllAllowed(c, inputs)
    ensures Grows(c, End(c, inputs), id)
    decreases |inputs|
  {
    hide Inv, Apply, Allowed, Silent, Gone, Reached;
    if inputs == [] {
      GrowsNot(c, id);
    } else {
      GrowsNot(c, id);
      ApplyKeeps(c, inputs[0]);
      var d := After(c, inputs[0]);
      if Apply(c, inputs[0]).Ok? {
        ApplyGrows(c, inputs[0], id);
      }
      RunGrows(d, inputs[1..], id);
      GrowsTwice(c, d, End(d, inputs[1..]), id);
    }
  }

  /** Over every run the events queued are only added to, and the largest identifier seen from
      the peer never falls. */
  lemma HistoryGrows(c: Conn, inputs: seq<Input>)
    requires Inv(c) && AllAllowed(c, inputs)
    ensures c.log <= End(c, inputs).log && c.lastRecv <= End(c, inputs).lastRecv
    ensures End(c, inputs).role == c.role && End(c, inputs).local == c.local
  {
    hide Inv, AllAllowed, Silent;
    RunGrows(c, inputs, 0);
  }

  /** A stream that is gone and whose identifier the peer has reached is never opened again, and
      no event about it ever follows, whatever has been forgotten since. */
  lemma NeverReopened(c: Conn, inputs: seq<Input>, id: nat)
    requires Inv(c) && AllAllowed(c, inputs) && Gone(c, id)
    ensures var d := End(c, inputs);
            && id !in d.streams
            && (forall k :: |c.log| <= k < |d.log| ==> !IsAbout(d.log[k], id))
            && TraceOf(d.log, id) == TraceOf(c.log, id)
  {
    hide Inv, AllAllowed;
    RunGrows(c, inputs, id);
    SilenceKeeps(c.log, End(c, inputs).log, id);
  }

  lemma {:induction false} SilenceKeeps(before: seq<Event>, after: seq<Event>, id: nat)
    requires before <= after && Silent(before, after, id)
    ensures TraceOf(after, id) == TraceOf(before, id)
  {
    if |before| < |after| {
      SilenceKeeps(before, after[..|after| - 1], id);
      assert !IsAbout(after[|after| - 1], id);
    } else {
      assert before == after;
    }
  }

  lemma {:induction false} RunsJoin(c: Conn, first: seq<Input>, second: seq<Input>)
    ensures End(c, first + second) == End(End(c, first), second)
    ensures AllAllowed(c, first + second) <==> AllAllowed(c, first) && AllAllowed(End(c, first), second)
    decreases |first|
  {
    hide Apply, Allowed;
    if first == [] {
      assert [] + second == second;
    } else {
      assert (first + second)[1..] == first[1..] + second;
      RunsJoin(After(c, first[0]), first[1..], second);
    }
  }

  /** On a server, a stream that existed and was dropped never comes back. */
  lemma DroppedForGood(c: Conn, before: seq<Input>, after: seq<Input>, id: nat)
    requires Inv(c) && c.role.Server? && AllAllowed(c, before + after)
    requires id in c.streams && id !in End(c, before).streams
    ensures id !in End(c, before + after).streams
  {
    hide Inv, AllAllowed, End;
    RunsJoin(c, before, after);
    StreamsWereSeen(c, id);
    RunGrows(c, before, id);
    RunKeeps(c, before);
    NeverReopened(End(c, before), after, id);
  }

  lemma StreamsWereSeen(c: Conn, id: nat)
    requires Inv(c) && c.role.Server? && id in c.streams
    ensures Reached(c, id)
  {
    hide FactsOf;
    assert StreamOk(c, id);
  }

  // ---- Removal ----

  /** How many terminal events a stream has had. */
  function Terminals(log: seq<Event>, id: nat): nat {
    if log == [] then 0
    else Terminals(log[..|log| - 1], id)
         + if IsAbout(log[|log| - 1], id) && IsTerminal(log[|log| - 1]) then 1 else 0
  }

  lemma {:induction false} TerminalsOf(log: seq<Event>, id: nat)
    requires !TraceOf(log, id).Wrong?
    ensures Terminals(log, id) == if TraceOf(log, id).Over? then 1 else 0
  {
    if log != [] {
      TerminalsOf(log[..|log| - 1], id);
    }
  }

  /** What has begun is not forgotten. */
  lemma {:induction false} BegunStays(before: seq<Event>, after: seq<Event>, id: nat)
    requires before <= after && !TraceOf(before, id).Before?
    ensures !TraceOf(after, id).Before?
  {
    if |before| < |after| {
      BegunStays(before, after[..|after| - 1], id);
    } else {
      assert before == after;
    }
  }

  /** On a server a stream that was dropped was reported by exactly one terminal event, and a
      stream that exists by none. */
  lemma RemovalIsReported(c: Conn, inputs: seq<Input>, id: nat)
    requires Inv(c) && c.role.Server? && AllAllowed(c, inputs) && id in c.streams
    ensures Terminals(c.log, id) == 0
    ensures Terminals(End(c, inputs).log, id) == if id in End(c, inputs).streams then 0 else 1
  {
    hide Inv, AllAllowed, End, TraceOf, Terminals;
    RunKeeps(c, inputs);
    HistoryGrows(c, inputs);
    ServerTraces(c, id);
    ServerTraces(End(c, inputs), id);
    TerminalsOf(c.log, id);
    TerminalsOf(End(c, inputs).log, id);
    BegunStays(c.log, End(c, inputs).log, id);
  }

  /** In every reachable state a server has no more streams than it advertised. */
  lemma StreamsAreLimited(c: Conn, inputs: seq<Input>)
    requires Inv(c) && c.role.Server? && AllAllowed(c, inputs)
    ensures c.local.maxConcurrent.Some? ==> |End(c, inputs).streams| <= c.local.maxConcurrent.value
  {
    hide Core, Calm, AllAllowed, End;
    RunKeeps(c, inputs);
    HistoryGrows(c, inputs);
  }
}
