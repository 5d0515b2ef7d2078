/** Whole runs of a connection, and what their invariant means to a reader. */
module H2Runs {
  import opened Base
  import opened H2Types
  import opened H2History
  import opened H2Connection
  import opened H2Invariant
  import opened H2Sending
  import opened H2Receiving

  /** What the application or the peer does next. The order is the one in which streams with
      something queued are served. */
  datatype Input =
    | DoStart(headers: Headers, endStream: bool)
    | DoSend(id: nat, data: seq<Byte>, endStream: bool)
    | DoRespond(id: nat, headers: Headers, endStream: bool)
    | DoTrailers(id: nat, headers: Headers)
    | DoReset(id: nat, code: ErrorCode)
    | DoWindowUpdate(id: nat, increment: nat)
    | DoGoaway(code: ErrorCode)
    | GetData(id: nat, data: seq<Byte>, pad: Option<nat>, endStream: bool)
    | GetHeaders(id: nat, headers: Headers, endStream: bool)
    | GetReset(id: nat, code: ErrorCode)
    | GetWindowUpdate(id: nat, increment: nat, order: seq<nat>)
    | GetSettings(settings: Settings, order: seq<nat>)
    | GetGoaway(code: ErrorCode)
    | GetUnknown(id: nat)
    | GetFirst(id: nat, endStream: bool)
    | GetLast(headers: Headers)
    | GetBroken(id: nat, code: ErrorCode)

  /** Only the rest of a header block may follow its first frame, and frames that are found
      broken before anyone looks. */
  predicate Interrupts(i: Input) {
    || i.GetData? || i.GetHeaders? || i.GetReset? || i.GetWindowUpdate? || i.GetSettings? || i.GetGoaway?
    || i.GetUnknown? || i.GetFirst?
  }

  ghost function Apply(c: Conn, i: Input): Outcome {
    if c.open.Some? && Interrupts(i) then Err(ConnectionFailed(ProtocolError)) else Perform(c, i)
  }

  ghost function Perform(c: Conn, i: Input): Outcome {
    match i
    case DoStart(h, endStream) => StartStream(c, h, endStream)
    case DoSend(id, data, endStream) => SendData(c, id, data, endStream)
    case DoRespond(id, h, endStream) => SendResponse(c, id, h, endStream)
    case DoTrailers(id, h) => SendTrailers(c, id, h)
    case DoReset(id, code) => ResetStream(c, id, code)
    case DoWindowUpdate(id, increment) => SendWindowUpdate(c, id, increment)
    case DoGoaway(code) => SendGoaway(c, code)
    case GetData(id, data, pad, endStream) => OnData(c, id, data, pad, endStream)
    case GetHeaders(id, h, endStream) => OnHeaders(c, id, h, endStream)
    case GetReset(id, code) => OnRstStream(c, id, code)
    case GetWindowUpdate(id, increment, order) => OnWindowUpdate(c, id, increment, order)
    case GetSettings(settings, order) => OnSettings(c, settings, order)
    case GetGoaway(code) => OnGoaway(c, code)
    case GetUnknown(id) => OnUnknown(c, id)
    case GetFirst(id, endStream) => OnFirstFrame(c, id, endStream)
    case GetLast(h) => OnLastFrame(c, h)
    case GetBroken(id, code) => OnBroken(c, id, code)
  }

  /** What a decoded frame guarantees; what a client relies on; and what must not fall between
      the frames of a header block: a reset of the stream that it opens, and the end of so many
      other streams that its own is forgotten. */
  ghost predicate Allowed(c: Conn, i: Input) {
    match i
    case DoReset(id, _) => !UnderWay(c, id)
    case GetBroken(id, _) => !UnderWay(c, id)
    case GetHeaders(id, _, _) => Solicited(c, id)
    case GetFirst(id, _) => Solicited(c, id)
    case GetLast(_) => Remembers(c)
    case GetWindowUpdate(id, _, order) => id == 0 ==> IsOrder(c, order)
    case GetSettings(settings, order) => settings.Valid() && IsOrder(c, order)
    case _ => true
  }

  lemma ApplyKeeps(c: Conn, i: Input)
    requires Inv(c) && Allowed(c, i)
    ensures Apply(c, i).Ok? ==> Inv(Apply(c, i).value)
  {
    hide Inv, StartStream, SendData, SendResponse, SendTrailers, ResetStream, SendWindowUpdate, SendGoaway, OnData,
         OnHeaders, OnRstStream, OnWindowUpdate, OnSettings, OnGoaway, OnUnknown, IsOrder, Solicited,
         OnFirstFrame, OnLastFrame, OnBroken, UnderWay, Remembers;
    if Apply(c, i).Err? {
      return;
    }
    match i {
      case DoStart(h, endStream) => StartStreamKeeps(c, h, endStream);
      case DoSend(id, data, endStream) => SendDataKeeps(c, id, data, endStream);
      case DoRespond(id, h, endStream) => SendResponseKeeps(c, id, h, endStream);
      case DoTrailers(id, h) => SendTrailersKeeps(c, id, h);
      case DoReset(id, code) => ResetStreamKeeps(c, id, code);
      case DoWindowUpdate(id, increment) => SendWindowUpdateKeeps(c, id, increment);
      case DoGoaway(code) => SendGoawayKeeps(c, code);
      case GetData(id, data, pad, endStream) => OnDataKeeps(c, id, data, pad, endStream);
      case GetHeaders(id, h, endStream) => OnHeadersKeeps(c, id, h, endStream);
      case GetReset(id, code) => OnRstStreamKeeps(c, id, code);
      case GetWindowUpdate(id, increment, order) =>
        if id == 0 {
          OnConnWindowKeeps(c, increment, order);
        } else {
          OnStreamWindowKeeps(c, id, increment, order);
        }
      case GetSettings(settings, order) => OnSettingsKeeps(c, settings, order);
      case GetGoaway(code) => OnGoawayKeeps(c, code);
      case GetUnknown(id) => OnUnknownKeeps(c, id);
      case GetFirst(id, endStream) => OnFirstFrameKeeps(c, id, endStream);
      case GetLast(h) => OnLastFrameKeeps(c, h);
      case GetBroken(id, code) => OnBrokenKeeps(c, id, code);
    }
  }

  /** After a call that fails the connection goes on as it was. A frame that fails ends the
      run in the state before it. */
  ghost function After(c: Conn, i: Input): Conn {
    if Apply(c, i).Ok? then Apply(c, i).value else c
  }

  ghost function End(c: Conn, inputs: seq<Input>): Conn
    decreases |inputs|
  {
    if inputs == [] then c else End(After(c, inputs[0]), inputs[1..])
  }

  ghost predicate AllAllowed(c: Conn, inputs: seq<Input>)
    decreases |inputs|
  {
    inputs != [] ==> Allowed(c, inputs[0]) && AllAllowed(After(c, inputs[0]), inputs[1..])
  }

  /** The invariant holds in every state that a run can reach. */
  lemma {:induction false} RunKeeps(c: Conn, inputs: seq<Input>)
    requires Inv(c) && AllAllowed(c, inputs)
    ensures Inv(End(c, inputs))
    decreases |inputs|
  {
    hide Inv, Apply, Allowed;
    if inputs != [] {
      ApplyKeeps(c, inputs[0]);
      RunKeeps(After(c, inputs[0]), inputs[1..]);
    }
  }

  // ---- Sending ----

  function QueueOf(c: Conn, id: nat): seq<Byte> {
    if id in c.streams then c.streams[id].buffer else []
  }

  /** Conservation: what went out, followed by what is queued, is all that was accepted, unless
      the stream was reset; and then what went out is the beginning of it. */
  lemma Conservation(c: Conn, id: nat)
    requires Inv(c)
    ensures DataOut(c.wire, id) <= DataAccepted(c.sends, id)
    ensures !WasReset(c.log, id) || id in c.streams ==> DataOut(c.wire, id) + QueueOf(c, id) == DataAccepted(c.sends, id)
  {
    hide DataOut, DataAccepted, WasReset, EndOut, ResetOut, TraceOf, BodyLength, DeclaredLength;
    assert StreamOk(c, id);
  }

  /** The end of a stream goes out only after the last octet accepted. */
  lemma EndIsLast(c: Conn, id: nat)
    requires Inv(c) && EndOut(c.wire, id)
    ensures DataOut(c.wire, id) == DataAccepted(c.sends, id) && QueueOf(c, id) == []
  {
    hide DataOut, DataAccepted, WasReset, EndOut, ResetOut, TraceOf, BodyLength, DeclaredLength;
    assert StreamOk(c, id);
    if id in c.streams {
      assert !c.streams[id].state.CanSend();
    }
  }

  /** Nothing of a stream's message follows its end or its reset on the wire. */
  lemma {:induction false} NothingFollowsTheEnd(wire: seq<Frame>, i: nat, j: nat)
    requires Orderly(wire) && i < j < |wire| && (wire[j].Data? || wire[j].HeaderBlock?)
    ensures !EndsIn(wire[i], wire[j].id) && !ResetsIn(wire[i], wire[j].id)
  {
    var last := |wire| - 1;
    if j < last {
      NothingFollowsTheEnd(wire[..last], i, j);
    } else {
      EndIsSeen(wire[..last], i, wire[j].id);
    }
  }

  /** So it is over every run that resets no stream whose first header block is under way. */
  lemma EndOfStreamIsFinal(c: Conn, inputs: seq<Input>, i: nat, j: nat)
    requires Inv(c) && AllAllowed(c, inputs)
    requires var wire := End(c, inputs).wire; i < j < |wire| && (wire[j].Data? || wire[j].HeaderBlock?)
    ensures var wire := End(c, inputs).wire; !EndsIn(wire[i], wire[j].id) && !ResetsIn(wire[i], wire[j].id)
  {
    hide AllAllowed, End, StreamOk, CreditOk;
    RunKeeps(c, inputs);
    NothingFollowsTheEnd(End(c, inputs).wire, i, j);
  }

  lemma {:induction false} EndIsSeen(wire: seq<Frame>, i: nat, id: nat)
    requires i < |wire|
    ensures EndsIn(wire[i], id) ==> EndOut(wire, id)
    ensures ResetsIn(wire[i], id) ==> ResetOut(wire, id)
  {
    if i < |wire| - 1 {
      EndIsSeen(wire[..|wire| - 1], i, id);
    }
  }

  /** No stall: data waits only while a window is closed, and an end only behind data. */
  lemma NoStall(c: Conn, id: nat)
    requires Inv(c) && id in c.streams
    ensures c.streams[id].buffer != [] ==> c.sendWindow <= 0 || c.streams[id].sendWindow <= 0
    ensures c.streams[id].pendingEnd ==> c.streams[id].buffer != []
    ensures c.streams[id].state in {Open, HalfClosedLocal, HalfClosedRemote}
    ensures HasQueued(c.streams[id]) ==> c.streams[id].state.CanSend()
  {
    hide FactsOf;
    assert StreamOk(c, id) && CalmStream(c, c.streams[id]);
  }

  /** The signed window of a stream is the current initial window plus what the peer granted
      minus what went out, and never leaves the range of a 31-bit window. */
  lemma WindowBounds(c: Conn, id: nat)
    requires Inv(c) && id in c.streams
    ensures var s := c.streams[id];
            && s.sendWindow == c.remote.initialWindow + s.granted - |DataOut(c.wire, id)|
            && -MAX_WINDOW <= s.sendWindow <= MAX_WINDOW
            && 0 <= s.recvWindow <= MAX_WINDOW
    ensures c.sendWindow == DEFAULT_WINDOW + c.granted - TotalOut(c.wire) && 0 <= c.sendWindow <= MAX_WINDOW
  {
    hide DataOut, DataAccepted, WasReset, EndOut, ResetOut, TraceOf, BodyLength, DeclaredLength;
    assert StreamOk(c, id);
  }

  // ---- Events of a server ----

  predicate IsAbout(e: Event, id: nat) {
    match e
    case HeadersReceived(i, _, _) => i == id
    case DataReceived(i, _, _) => i == id
    case TrailersReceived(i, _) => i == id
    case StreamClosed(i) => i == id
    case StreamReset(i, _, _) => i == id
    case _ => false
  }

  predicate IsTerminal(e: Event) {
    e.StreamClosed? || e.StreamReset?
  }

  predicate EndsMessage(e: Event) {
    (e.HeadersReceived? && e.endStream) || (e.DataReceived? && e.endStream) || e.TrailersReceived?
  }

  /** What an event on a stream leaves for the ones after it. */
  lemma {:induction false} EventIsSeen(log: seq<Event>, i: nat, id: nat)
    requires i < |log| && IsAbout(log[i], id) && !TraceOf(log, id).Wrong?
    ensures !TraceOf(log, id).Before?
    ensures IsTerminal(log[i]) ==> TraceOf(log, id).Over?
    ensures EndsMessage(log[i]) ==> TraceOf(log, id).Over? || TraceOf(log, id) == Message(true)
  {
    if i < |log| - 1 {
      EventIsSeen(log[..|log| - 1], i, id);
    }
  }

  /** Of two events on a stream, the first is not terminal, the second is not a header section,
      and what follows the end of the message is terminal. */
  lemma {:induction false} TraceOrder(log: seq<Event>, id: nat, i: nat, j: nat)
    requires i < j < |log| && IsAbout(log[i], id) && IsAbout(log[j], id) && !TraceOf(log, id).Wrong?
    ensures !IsTerminal(log[i]) && !log[j].HeadersReceived?
    ensures EndsMessage(log[i]) ==> IsTerminal(log[j])
    ensures log[j].DataReceived? || log[j].TrailersReceived? ==> log[i].HeadersReceived? || log[i].DataReceived?
  {
    var last := |log| - 1;
    if j < last {
      TraceOrder(log[..last], id, i, j);
    } else {
      EventIsSeen(log[..last], i, id);
    }
  }

  /** Nothing but a header section or a reset comes first. */
  lemma {:induction false} TraceStart(log: seq<Event>, id: nat, i: nat)
    requires i < |log| && IsAbout(log[i], id) && !TraceOf(log, id).Wrong?
    requires forall k :: 0 <= k < i ==> !IsAbout(log[k], id)
    ensures log[i].HeadersReceived? || log[i].StreamReset?
  {
    var last := |log| - 1;
    if i < last {
      TraceStart(log[..last], id, i);
    } else {
      NothingSeen(log[..last], id);
    }
  }

  lemma {:induction false} NothingSeen(log: seq<Event>, id: nat)
    requires forall k :: 0 <= k < |log| ==> !IsAbout(log[k], id)
    ensures TraceOf(log, id).Before?
  {
    if log != [] {
      NothingSeen(log[..|log| - 1], id);
    }
  }

  /** On a server every stream's events follow that order in every reachable state, a stream
      that exists is not over, and one beyond those seen has had no event. */
  lemma ServerTraces(c: Conn, id: nat)
    requires Inv(c) && c.role.Server?
    ensures !TraceOf(c.log, id).Wrong?
    ensures id in c.streams ==> TraceOf(c.log, id) == Message(c.streams[id].state.HalfClosedRemote?)
    ensures id !in c.streams ==> TraceOf(c.log, id).Before? || TraceOf(c.log, id).Over?
    ensures id > c.lastRecv ==> id !in c.streams && TraceOf(c.log, id).Before?
  {
    hide DataOut, DataAccepted, WasReset, EndOut, ResetOut, TraceOf, BodyLength, DeclaredLength;
    assert StreamOk(c, id);
    assert id in c.streams ==> CalmStream(c, c.streams[id]);
  }

  /** On a server, in every reachable state, of two events on a stream the first is not
      terminal, the second is no header section, and only a terminal event follows the end. */
  lemma ServerEventOrder(c: Conn, id: nat, i: nat, j: nat)
    requires Inv(c) && c.role.Server? && i < j < |c.log| && IsAbout(c.log[i], id) && IsAbout(c.log[j], id)
    ensures !IsTerminal(c.log[i]) && !c.log[j].HeadersReceived?
    ensures EndsMessage(c.log[i]) ==> IsTerminal(c.log[j])
    ensures c.log[j].DataReceived? || c.log[j].TrailersReceived? ==> c.log[i].HeadersReceived? || c.log[i].DataReceived?
  {
    ServerTraces(c, id);
    TraceOrder(c.log, id, i, j);
  }

  /** Every event respects the declared length of its stream's body. */
  lemma {:induction false} BodyFits(log: seq<Event>, i: nat)
    requires BodiesFit(log) && i < |log|
    ensures FitsDeclared(log[..i], log[i])
  {
    if i < |log| - 1 {
      BodyFits(log[..|log| - 1], i);
      assert log[..|log| - 1][..i] == log[..i];
    }
  }

  /** On a server, in every reachable state, data delivered never exceeded the declared length
      and ended a message only at that length. */
  lemma DeliveredBodiesFit(c: Conn, i: nat)
    requires Inv(c) && c.role.Server? && i < |c.log|
    ensures FitsDeclared(c.log[..i], c.log[i])
  {
    BodyFits(c.log, i);
  }

  /** The body counter of a stream is the length of what was delivered. */
  lemma BodyCounts(c: Conn, id: nat)
    requires Inv(c) && c.role.Server? && id in c.streams
    ensures c.streams[id].received == BodyLength(c.log, id)
    ensures c.streams[id].expected == DeclaredLength(c.log, id)
    ensures c.streams[id].expected.Some? ==> BodyLength(c.log, id) <= c.streams[id].expected.value
  {
    hide DataOut, DataAccepted, WasReset, EndOut, ResetOut, TraceOf, BodyLength, DeclaredLength;
    assert StreamOk(c, id);
  }
}
