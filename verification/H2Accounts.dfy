/** What the calls and frames of a run add up to: the data accepted, and the credit that either
    side was granted, in terms of the inputs alone. */
module H2Accounts {
  import opened Base
  import opened H2Types
  import opened H2History
  import opened H2Connection
  import opened H2Invariant
  import opened H2Receiving
  import opened H2Runs
  import opened H2Growth

  // ---- One input ----

  /** Credit for the peer, of the connection or of a stream that exists. */
  ghost function Refilled(c: Conn, id: nat, increment: nat): Conn {
    if id == 0 then c.(refilled := c.refilled + increment)
    else if id in c.streams then c.Put(id, c.streams[id].(recvWindow := c.streams[id].recvWindow + increment))
    else c
  }

  /** The one entry that an input makes in the books. */
  ghost function Booked(c: Conn, i: Input): Conn {
    match i
    case DoSend(id, data, _) => c.(sends := c.sends + [Accepted(id, data)])
    case DoWindowUpdate(id, increment) => Refilled(c, id, increment)
    case GetData(id, data, pad, _) => Consumed(c, id, |data| + Overhead(pad))
    case GetWindowUpdate(id, increment, _) => Credited(c, id, increment)
    case GetSettings(settings, _) => Settled(c, settings)
    case DoGoaway(_) => c.(phase := GoawaySent)
    case GetGoaway(_) => c.(phase := GoawayGot)
    case _ => c
  }

  /** Every input that is accepted makes that entry and no other, for the connection and for any
      stream that exists afterwards; padding is left unreported by DATA alone. */
  lemma ApplyBooks(c: Conn, i: Input, id: nat)
    requires Inv(c) && Allowed(c, i) && Apply(c, i).Ok?
    ensures var d := Apply(c, i).value;
            && SameBooks(Booked(c, i).(padding := d.padding), d, id)
            && (!i.GetData? ==> d.padding == c.padding)
  {
    hide Core, Calm, WithinLimit, StartStream, SendData, SendResponse, SendTrailers, Reset, OnData, OnHeaders,
         OnRstStream, OnWindowUpdate, OnSettings, OnFirstFrame, OnLastFrame, Touches, Grows, SameBooks, IsOrder,
         Remembers, UnderWay, SendWindowUpdate, Refilled, Consumed, Credited, Settled;
    var d := Apply(c, i).value;
    match i {
      case DoStart(h, endStream) =>
        StartBooks(c, h, endStream, id);
      case DoSend(x, data, endStream) =>
        SendDataTouches(c, x, data, endStream);
        Elsewhere(c, Booked(c, i), d, x, id);
      case DoRespond(x, h, endStream) =>
        SendHeadersTouches(c, x, h, endStream);
        Elsewhere(c, c, d, x, id);
      case DoTrailers(x, h) =>
        SendHeadersTouches(c, x, h, true);
        Elsewhere(c, c, d, x, id);
      case DoReset(x, code) => ResetBooks(c, x, code, id);
      case DoWindowUpdate(x, increment) => RefillBooks(c, x, increment, id);
      case GetData(x, data, pad, endStream) =>
        NoneIsClosed(c, x);
        OnDataTouches(c, x, data, pad, endStream);
        ConsumedElsewhere(c, x, |data| + Overhead(pad), d);
        Elsewhere(c, Booked(c, i).(padding := d.padding), d, x, id);
      case GetHeaders(x, h, endStream) =>
        OnHeadersTouches(c, x, h, endStream);
        Elsewhere(c, c, d, x, id);
      case GetReset(x, code) =>
        OnResetTouches(c, x, code);
        Elsewhere(c, c, d, x, id);
      case GetWindowUpdate(x, increment, order) =>
        NoneIsClosed(c, x);
        if x == 0 {
          OnConnWindowGrows(c, increment, order, id);
        } else {
          OnStreamWindowTouches(c, x, increment, order);
          CreditedElsewhere(c, x, increment);
          Elsewhere(c, Booked(c, i), d, x, id);
        }
      case GetSettings(settings, order) => OnSettingsGrows(c, settings, order, id);
      case GetUnknown(x) => ResetBooks(c, x, ProtocolError, id);
      case GetFirst(x, endStream) => OnFirstFrameGrows(c, x, endStream, id);
      case GetLast(h) =>
        OnLastFrameTouches(c, h);
        Elsewhere(c, c, d, c.open.value.id, id);
      case GetBroken(x, code) => ResetBooks(c, x, code, id);
      case _ => NothingBooked(c, i, id);
    }
    NoChange(c, i, id);
    SamePadding(Booked(c, i), d, id);
  }

  lemma StartBooks(c: Conn, h: Headers, endStream: bool, id: nat)
    requires Inv(c) && StartStream(c, h, endStream).Ok?
    ensures SameBooks(c, StartStream(c, h, endStream).value, id)
  {
    hide FactsOf, OpenCount, Grows;
    assert StreamOk(c, c.nextId);
    CounterIsAbove(c);
    StartGrows(c, h, endStream, id);
  }

  lemma NoneIsClosed(c: Conn, id: nat)
    requires Inv(c)
    ensures id in c.streams ==> !c.streams[id].state.Closed?
  {
    hide Core, WithinLimit;
    assert id in c.streams ==> CalmStream(c, c.streams[id]);
  }

  /** What is true of the books of the one stream acted upon is true of any. */
  lemma Elsewhere(c: Conn, b: Conn, d: Conn, touched: nat, id: nat)
    requires Touches(c, d, touched) && SameBooks(b, d, touched)
    requires b.streams - {touched} == c.streams - {touched} && b.local == c.local
    ensures SameBooks(b, d, id)
  {
    BooksOfOthers(b, d, touched, id);
  }

  lemma ConsumedElsewhere(c: Conn, id: nat, size: nat, d: Conn)
    ensures var b := Consumed(c, id, size).(padding := d.padding);
            b.streams - {id} == c.streams - {id} && b.local == c.local
  {
    assert Consumed(c, id, size).streams - {id} == c.streams - {id};
  }

  lemma CreditedElsewhere(c: Conn, id: nat, increment: nat)
    ensures var b := Credited(c, id, increment); b.streams - {id} == c.streams - {id} && b.local == c.local
  {
    assert Credited(c, id, increment).streams - {id} == c.streams - {id};
  }

  lemma ResetBooks(c: Conn, touched: nat, code: ErrorCode, id: nat)
    ensures SameBooks(c, Reset(c, touched, code, 0), id)
  {
    hide Touches, Reset, SameBooks;
    ResetTouches(c, touched, code, 0);
    Elsewhere(c, c, Reset(c, touched, code, 0), touched, id);
  }

  lemma RefillBooks(c: Conn, x: nat, increment: nat, id: nat)
    requires SendWindowUpdate(c, x, increment).Ok?
    ensures SameBooks(Refilled(c, x, increment), SendWindowUpdate(c, x, increment).value, id)
  {
  }

  lemma NothingBooked(c: Conn, i: Input, id: nat)
    requires (i.DoGoaway? || i.GetGoaway?) && Apply(c, i).Ok?
    ensures SameBooks(Booked(c, i), Apply(c, i).value, id)
  {
  }

  lemma NoChange(c: Conn, i: Input, id: nat)
    ensures SameBooks(c, c, id) && Booked(c, i).padding == c.padding
  {
  }

  lemma SamePadding(b: Conn, d: Conn, id: nat)
    requires SameBooks(b.(padding := d.padding), d, id) || SameBooks(b, d, id)
    ensures SameBooks(b.(padding := d.padding), d, id)
    ensures SameBooks(b, d, id) ==> d.padding == b.padding
  {
  }

  // ---- Whole runs ----

  /** The data handed over for a stream in the calls of a run that succeed, in order. */
  ghost function HandedOver(c: Conn, inputs: seq<Input>, id: nat): seq<Byte>
    decreases |inputs|
  {
    if inputs == [] then []
    else (if inputs[0].DoSend? && inputs[0].id == id && Apply(c, inputs[0]).Ok? then inputs[0].data else [])
         + HandedOver(After(c, inputs[0]), inputs[1..], id)
  }

  /** The credit that the peer grants in the run, to the connection (0) or to a stream. */
  ghost function Granted(c: Conn, inputs: seq<Input>, id: nat): nat
    decreases |inputs|
  {
    if inputs == [] then 0
    else (if inputs[0].GetWindowUpdate? && inputs[0].id == id && Apply(c, inputs[0]).Ok? then inputs[0].increment else 0)
         + Granted(After(c, inputs[0]), inputs[1..], id)
  }

  /** The credit that the application gives back in the run, of the connection (0) or of a stream. */
  ghost function GivenBack(c: Conn, inputs: seq<Input>, id: nat): nat
    decreases |inputs|
  {
    if inputs == [] then 0
    else (if inputs[0].DoWindowUpdate? && inputs[0].id == id && Apply(c, inputs[0]).Ok? then inputs[0].increment else 0)
         + GivenBack(After(c, inputs[0]), inputs[1..], id)
  }

  /** The credit of a stream that the DATA frames of the run use up. */
  ghost function UsedUp(c: Conn, inputs: seq<Input>, id: nat): nat
    decreases |inputs|
  {
    if inputs == [] then 0
    else (if inputs[0].GetData? && inputs[0].id == id && Apply(c, inputs[0]).Ok? then
            |inputs[0].data| + Overhead(inputs[0].pad)
          else 0)
         + UsedUp(After(c, inputs[0]), inputs[1..], id)
  }

  /** The stream exists in every state of the run. */
  ghost predicate Lives(c: Conn, inputs: seq<Input>, id: nat)
    decreases |inputs|
  {
    id in c.streams && (inputs != [] ==> Lives(After(c, inputs[0]), inputs[1..], id))
  }

  /** Over every run, what was accepted for sending is what was before, followed by the data of
      the calls that succeeded. */
  lemma {:induction false} AcceptedAddsUp(c: Conn, inputs: seq<Input>, id: nat)
    requires Inv(c) && AllAllowed(c, inputs)
    ensures DataAccepted(End(c, inputs).sends, id) == DataAccepted(c.sends, id) + HandedOver(c, inputs, id)
    decreases |inputs|
  {
    hide Inv, Apply, Allowed, DataAccepted;
    if inputs != [] {
      var i := inputs[0];
      ApplyKeeps(c, i);
      StepAccepts(c, i, id);
      AcceptedAddsUp(After(c, i), inputs[1..], id);
    }
  }

  lemma StepAccepts(c: Conn, i: Input, id: nat)
    requires Inv(c) && Allowed(c, i)
    ensures DataAccepted(After(c, i).sends, id)
         == DataAccepted(c.sends, id) + if i.DoSend? && i.id == id && Apply(c, i).Ok? then i.data else []
  {
    hide Inv, Apply, Allowed, DataAccepted;
    if Apply(c, i).Ok? {
      ApplyBooks(c, i, id);
      if i.DoSend? {
        ExtendSends(c.sends, Accepted(i.id, i.data), id);
      }
    }
  }

  /** Over every run the credit granted by either side to the other is that of the frames and
      calls that granted it. */
  lemma {:induction false} ConnectionAddsUp(c: Conn, inputs: seq<Input>)
    requires Inv(c) && AllAllowed(c, inputs)
    ensures End(c, inputs).granted == c.granted + Granted(c, inputs, 0)
    ensures End(c, inputs).refilled == c.refilled + GivenBack(c, inputs, 0)
    decreases |inputs|
  {
    hide Inv, Apply, Allowed, After;
    if inputs != [] {
      AfterKeeps(c, inputs[0]);
      StepMoves(c, inputs[0]);
      ConnectionAddsUp(After(c, inputs[0]), inputs[1..]);
    }
  }

  lemma AfterKeeps(c: Conn, i: Input)
    requires Inv(c) && Allowed(c, i)
    ensures Inv(After(c, i))
  {
    hide Inv, Apply, Allowed;
    ApplyKeeps(c, i);
  }

  lemma StepMoves(c: Conn, i: Input)
    requires Inv(c) && Allowed(c, i)
    ensures After(c, i).granted == c.granted + if i.GetWindowUpdate? && i.id == 0 && Apply(c, i).Ok? then i.increment else 0
    ensures After(c, i).refilled == c.refilled + if i.DoWindowUpdate? && i.id == 0 && Apply(c, i).Ok? then i.increment else 0
  {
    hide Inv, Apply, Allowed;
    if Apply(c, i).Ok? {
      ApplyBooks(c, i, 0);
    }
  }

  lemma StepMovesStream(c: Conn, i: Input, id: nat)
    requires Inv(c) && Allowed(c, i) && id in c.streams && id in After(c, i).streams && id != 0
    ensures After(c, i).streams[id].granted
         == c.streams[id].granted + if i.GetWindowUpdate? && i.id == id && Apply(c, i).Ok? then i.increment else 0
    ensures After(c, i).streams[id].recvWindow
         == c.streams[id].recvWindow
            + (if i.DoWindowUpdate? && i.id == id && Apply(c, i).Ok? then i.increment else 0)
            - (if i.GetData? && i.id == id && Apply(c, i).Ok? then |i.data| + Overhead(i.pad) else 0)
  {
    hide Inv, Apply, Allowed;
    if Apply(c, i).Ok? {
      ApplyBooks(c, i, id);
    }
  }

  /** The same for a stream while it exists. */
  lemma {:induction false} StreamAddsUp(c: Conn, inputs: seq<Input>, id: nat)
    requires Inv(c) && AllAllowed(c, inputs) && Lives(c, inputs, id) && id != 0
    ensures id in End(c, inputs).streams
    ensures End(c, inputs).streams[id].granted == c.streams[id].granted + Granted(c, inputs, id)
    ensures End(c, inputs).streams[id].recvWindow
         == c.streams[id].recvWindow + GivenBack(c, inputs, id) - UsedUp(c, inputs, id)
    decreases |inputs|
  {
    hide Inv, Apply, Allowed, After;
    if inputs != [] {
      AfterKeeps(c, inputs[0]);
      StepMovesStream(c, inputs[0], id);
      StreamAddsUp(After(c, inputs[0]), inputs[1..], id);
    }
  }

  /** A stream starts with the initial windows and nothing granted. */
  lemma StartsFresh(c: Conn, i: Input, id: nat)
    requires Inv(c) && Allowed(c, i) && id !in c.streams && id in After(c, i).streams
    ensures var s := After(c, i).streams[id]; s.granted == 0 && s.recvWindow == c.local.initialWindow
  {
    hide Inv, Apply, Allowed;
    ApplyBooks(c, i, id);
  }

  /** On a server a stream that exists at both ends of a run exists all along. */
  lemma {:induction false} LivesThrough(c: Conn, inputs: seq<Input>, id: nat)
    requires Inv(c) && c.role.Server? && AllAllowed(c, inputs) && id in c.streams && id in End(c, inputs).streams
    ensures Lives(c, inputs, id)
    decreases |inputs|
  {
    hide Inv, Apply, Allowed;
    if inputs != [] {
      var d := After(c, inputs[0]);
      ApplyKeeps(c, inputs[0]);
      StreamsWereSeen(c, id);
      if Apply(c, inputs[0]).Ok? {
        ApplyGrows(c, inputs[0], id);
      }
      if id !in d.streams {
        NeverReopened(d, inputs[1..], id);
      }
      LivesThrough(d, inputs[1..], id);
    }
  }

  // ---- What that means ----

  /** Nothing is lost, added or reordered: over every run of a new connection, what went out on a
      stream, followed by what is queued, is the data of the calls that succeeded, in order; for
      a stream that was reset and is gone, what went out is the beginning of it. */
  lemma NothingIsLost(role: Role, local: Settings, remote: Settings, inputs: seq<Input>, id: nat)
    requires local.Valid() && remote.Valid() && AllAllowed(NewConn(role, local, remote), inputs)
    ensures var c := NewConn(role, local, remote);
            var d := End(c, inputs);
            && DataOut(d.wire, id) <= HandedOver(c, inputs, id)
            && (!WasReset(d.log, id) || id in d.streams ==>
                  DataOut(d.wire, id) + QueueOf(d, id) == HandedOver(c, inputs, id))
            && (EndOut(d.wire, id) ==> DataOut(d.wire, id) == HandedOver(c, inputs, id))
  {
    hide Core, Calm, AllAllowed, End, HandedOver, DataOut, WasReset, EndOut;
    var c := NewConn(role, local, remote);
    NewConnOk(role, local, remote);
    RunKeeps(c, inputs);
    AcceptedAddsUp(c, inputs, id);
    Conservation(End(c, inputs), id);
    if EndOut(End(c, inputs).wire, id) {
      EndIsLast(End(c, inputs), id);
    }
  }

  /** The send window of the connection moves by what the peer granted in the run, less what went
      out in it. */
  lemma SendWindowMoves(c: Conn, inputs: seq<Input>)
    requires Inv(c) && AllAllowed(c, inputs)
    ensures var d := End(c, inputs);
            && d.sendWindow - c.sendWindow == Granted(c, inputs, 0) - (TotalOut(d.wire) - TotalOut(c.wire))
            && 0 <= d.sendWindow <= MAX_WINDOW
  {
    hide StreamOk, Calm, AllAllowed, End, Granted, TotalOut, Reported;
    RunKeeps(c, inputs);
    ConnectionAddsUp(c, inputs);
  }

  /** The windows of a stream move by what was granted on it in the run, less what went out or
      came in on it, and the send window by the change of the initial window. */
  lemma StreamWindowsMove(c: Conn, inputs: seq<Input>, id: nat)
    requires Inv(c) && AllAllowed(c, inputs) && Lives(c, inputs, id) && id != 0
    ensures id in c.streams && id in End(c, inputs).streams
    ensures var d := End(c, inputs);
            && d.streams[id].sendWindow - c.streams[id].sendWindow
               == d.remote.initialWindow - c.remote.initialWindow + Granted(c, inputs, id)
                  - (|DataOut(d.wire, id)| - |DataOut(c.wire, id)|)
            && d.streams[id].recvWindow - c.streams[id].recvWindow
               == GivenBack(c, inputs, id) - UsedUp(c, inputs, id)
  {
    hide Core, Calm, AllAllowed, End, Granted, GivenBack, UsedUp, DataOut, TotalOut;
    LivesAtBothEnds(c, inputs, id);
    RunKeeps(c, inputs);
    StreamAddsUp(c, inputs, id);
    WindowBounds(c, id);
    WindowBounds(End(c, inputs), id);
  }

  lemma LivesAtBothEnds(c: Conn, inputs: seq<Input>, id: nat)
    requires Lives(c, inputs, id)
    ensures id in c.streams
  {
  }
}
