/** Connection receive credit over whole runs: what is charged, what is reported, what is given back. */
module H2Credit {
  import opened Base
  import opened H2Types
  import opened H2History
  import opened H2Connection
  import opened H2Invariant
  import opened H2Receiving
  import opened H2Runs
  import opened H2Growth
  import opened H2Accounts

  /** The guards under which a DATA frame that the connection takes is handed to the application. */
  predicate Delivers(c: Conn, id: nat, data: seq<Byte>, pad: Option<nat>, endStream: bool) {
    && id in c.streams
    && var s := c.streams[id];
    && s.state.ReceiveData(endStream).Some?
    && |data| + Overhead(pad) <= s.recvWindow
    && (if s.noContent then data == []
        else s.expected.Some? ==>
               && s.received + |data| <= s.expected.value
               && (endStream ==> s.received + |data| == s.expected.value))
  }

  // ---- One frame ----

  /** Every octet of a DATA frame is charged; the events it causes report all of them, but for
      the padding if and only if the frame is delivered. */
  lemma DataIsReported(c: Conn, id: nat, data: seq<Byte>, pad: Option<nat>, endStream: bool)
    requires OnData(c, id, data, pad, endStream).Ok?
    ensures var d := OnData(c, id, data, pad, endStream).value;
            var unreported := if Delivers(c, id, data, pad, endStream) then Overhead(pad) else 0;
            && d.recvWindow == c.recvWindow - |data| - Overhead(pad)
            && Reported(d.log) == Reported(c.log) + |data| + Overhead(pad) - unreported
            && d.padding == c.padding + unreported
            && (Delivers(c, id, data, pad, endStream) <==>
                  |d.log| > |c.log| && d.log[|c.log|] == DataReceived(id, data, endStream))
  {
    hide AcceptData, Reported, Delivers, OnData;
    var size := |data| + Overhead(pad);
    OnDataIs(c, id, data, pad, endStream);
    ChargeIsIrrelevant(c, size, id, data, pad, endStream);
    if id in c.streams && !c.streams[id].state.Closed? {
      AcceptReports(Charge(c, size), id, data, pad, endStream);
    } else if size > 0 {
      ExtendLog(c.log, DataDiscarded(id, size), id);
    }
  }

  lemma OnDataIs(c: Conn, id: nat, data: seq<Byte>, pad: Option<nat>, endStream: bool)
    requires OnData(c, id, data, pad, endStream).Ok?
    ensures var size := |data| + Overhead(pad);
            var d := Charge(c, size);
            var r := if id in c.streams && !c.streams[id].state.Closed? then AcceptData(d, id, data, size, endStream)
                     else if size > 0 then d.Queue(DataDiscarded(id, size)) else d;
            OnData(c, id, data, pad, endStream).value == r
  {
    hide AcceptData;
  }

  lemma ChargeIsIrrelevant(c: Conn, size: nat, id: nat, data: seq<Byte>, pad: Option<nat>, endStream: bool)
    ensures Delivers(Charge(c, size), id, data, pad, endStream) <==> Delivers(c, id, data, pad, endStream)
    ensures Delivers(c, id, data, pad, endStream) ==> id in c.streams && !c.streams[id].state.Closed?
  {
  }

  lemma AcceptReports(c: Conn, id: nat, data: seq<Byte>, pad: Option<nat>, endStream: bool)
    requires id in c.streams
    ensures var size := |data| + Overhead(pad);
            var d := AcceptData(c, id, data, size, endStream);
            var unreported := if Delivers(c, id, data, pad, endStream) then Overhead(pad) else 0;
            && d.recvWindow == c.recvWindow
            && Reported(d.log) == Reported(c.log) + size - unreported
            && d.padding == c.padding + unreported
            && (Delivers(c, id, data, pad, endStream) <==>
                  |d.log| > |c.log| && d.log[|c.log|] == DataReceived(id, data, endStream))
  {
    hide Reported, Reset, EndIfClosed;
    var size := |data| + Overhead(pad);
    forall code ensures
        var d := Reset(c, id, code, size);
        && d.log == c.log + [StreamReset(id, code, size)] && Reported(d.log) == Reported(c.log) + size
        && d.padding == c.padding && d.recvWindow == c.recvWindow
    {
      ResetReports(c, id, code, size);
    }
    if c.streams[id].state.ReceiveData(endStream).Some? {
      DeliveryReports(c, id, data, size, endStream);
    }
  }

  lemma ResetReports(c: Conn, id: nat, code: ErrorCode, consumed: nat)
    requires id in c.streams
    ensures var d := Reset(c, id, code, consumed);
            && d.log == c.log + [StreamReset(id, code, consumed)] && Reported(d.log) == Reported(c.log) + consumed
            && d.padding == c.padding && d.recvWindow == c.recvWindow
  {
    hide Reported, Remember;
    ExtendLog(c.log, StreamReset(id, code, consumed), id);
  }

  lemma DeliveryReports(c: Conn, id: nat, data: seq<Byte>, size: nat, endStream: bool)
    requires id in c.streams && |data| <= size && c.streams[id].state.ReceiveData(endStream).Some?
    ensures var d := EndIfClosed(Deliver(c, id, data, size, endStream), id, endStream);
            && |d.log| > |c.log| && d.log[|c.log|] == DataReceived(id, data, endStream)
            && Reported(d.log) == Reported(c.log) + |data|
            && d.padding == c.padding + size - |data| && d.recvWindow == c.recvWindow
  {
    hide Reported, Remember;
    var log := c.log + [DataReceived(id, data, endStream)];
    ExtendLog(c.log, DataReceived(id, data, endStream), id);
    ExtendLog(log, StreamClosed(id), id);
  }

  /** A padded frame that reaches an open stream is delivered, and its padding is reported by no event. */
  lemma PaddingIsNotReported(c: Conn, id: nat, data: seq<Byte>, pad: nat)
    requires Inv(c) && id in c.streams && c.streams[id].state.Open?
    requires 1 + |data| + pad <= c.recvWindow && 1 + |data| + pad <= c.streams[id].recvWindow
    requires c.streams[id].expected.None? && !c.streams[id].noContent
    ensures OnData(c, id, data, Some(pad), false).Ok?
    ensures var d := OnData(c, id, data, Some(pad), false).value;
            && d.log == c.log + [DataReceived(id, data, false)]
            && d.recvWindow == c.recvWindow - |data| - 1 - pad
            && Reported(d.log) == Reported(c.log) + |data|
  {
    hide Inv, Reported, Reset;
    DataIsReported(c, id, data, Some(pad), false);
  }

  // ---- Whole runs ----

  ghost predicate DeliversPadded(c: Conn, i: Input) {
    i.GetData? && i.pad.Some? && Apply(c, i).Ok? && Delivers(c, i.id, i.data, i.pad, i.endStream)
  }

  /** No DATA frame that the run delivers is padded. */
  ghost predicate NeverDeliversPadded(c: Conn, inputs: seq<Input>)
    decreases |inputs|
  {
    inputs != [] ==> !DeliversPadded(c, inputs[0]) && NeverDeliversPadded(After(c, inputs[0]), inputs[1..])
  }

  /** The padding that the run delivers. */
  ghost function PaddingDelivered(c: Conn, inputs: seq<Input>): nat
    decreases |inputs|
  {
    if inputs == [] then 0
    else (if DeliversPadded(c, inputs[0]) then Overhead(inputs[0].pad) else 0)
         + PaddingDelivered(After(c, inputs[0]), inputs[1..])
  }

  lemma {:induction false} PaddingAddsUp(c: Conn, inputs: seq<Input>)
    requires Inv(c) && AllAllowed(c, inputs)
    ensures End(c, inputs).padding == c.padding + PaddingDelivered(c, inputs)
    decreases |inputs|
  {
    hide Inv, Apply, Allowed, DeliversPadded;
    if inputs != [] {
      ApplyKeeps(c, inputs[0]);
      StepAddsUp(c, inputs[0]);
      PaddingAddsUp(After(c, inputs[0]), inputs[1..]);
    }
  }

  lemma StepAddsUp(c: Conn, i: Input)
    requires Inv(c) && Allowed(c, i)
    ensures After(c, i).padding == c.padding + if DeliversPadded(c, i) then Overhead(i.pad) else 0
  {
    hide Inv, OnData, Delivers, Reported, SameBooks, Booked;
    if Apply(c, i).Ok? {
      ApplyBooks(c, i, 0);
      if i.GetData? {
        DataIsReported(c, i.id, i.data, i.pad, i.endStream);
      }
    }
  }

  lemma {:induction false} NoPaddingIsNone(c: Conn, inputs: seq<Input>)
    ensures PaddingDelivered(c, inputs) == 0 <==> NeverDeliversPadded(c, inputs)
    decreases |inputs|
  {
    hide Apply;
    if inputs != [] {
      NoPaddingIsNone(After(c, inputs[0]), inputs[1..]);
    }
  }

  /** Over every run of a new connection the receive window is the initial one, plus what was
      given back, less what the events reported, less the padding of the DATA delivered. */
  lemma CreditConserved(role: Role, local: Settings, remote: Settings, inputs: seq<Input>)
    requires local.Valid() && remote.Valid() && AllAllowed(NewConn(role, local, remote), inputs)
    ensures var c := NewConn(role, local, remote);
            && End(c, inputs).recvWindow
               == DEFAULT_WINDOW + GivenBack(c, inputs, 0) - Reported(End(c, inputs).log) - PaddingDelivered(c, inputs)
            && 0 <= End(c, inputs).recvWindow <= MAX_WINDOW
  {
    hide StreamOk, Calm, AllAllowed, End, Reported, GivenBack, PaddingDelivered;
    var c := NewConn(role, local, remote);
    NewConnOk(role, local, remote);
    RunKeeps(c, inputs);
    PaddingAddsUp(c, inputs);
    ConnectionAddsUp(c, inputs);
  }

  /** Giving back exactly what was reported restores the window if and only if no DATA frame that
      was delivered had padding. */
  lemma RefillRestores(role: Role, local: Settings, remote: Settings, inputs: seq<Input>)
    requires local.Valid() && remote.Valid() && AllAllowed(NewConn(role, local, remote), inputs)
    requires GivenBack(NewConn(role, local, remote), inputs, 0)
          == Reported(End(NewConn(role, local, remote), inputs).log)
    ensures End(NewConn(role, local, remote), inputs).recvWindow == DEFAULT_WINDOW
       <==> NeverDeliversPadded(NewConn(role, local, remote), inputs)
  {
    hide AllAllowed, End, Reported, GivenBack, PaddingDelivered, NeverDeliversPadded;
    CreditConserved(role, local, remote, inputs);
    NoPaddingIsNone(NewConn(role, local, remote), inputs);
  }

  /** An application that gives back no more than was reported, on top of a first extension,
      is never refused and never raises the window above the extended one. */
  lemma RefillsFit(role: Role, local: Settings, remote: Settings, inputs: seq<Input>, extension: nat, increment: nat)
    requires local.Valid() && remote.Valid() && AllAllowed(NewConn(role, local, remote), inputs)
    requires DEFAULT_WINDOW + extension <= MAX_WINDOW && increment > 0
    requires GivenBack(NewConn(role, local, remote), inputs, 0) + increment
          <= Reported(End(NewConn(role, local, remote), inputs).log) + extension
    ensures var d := End(NewConn(role, local, remote), inputs);
            && SendWindowUpdate(d, 0, increment).Ok?
            && SendWindowUpdate(d, 0, increment).value.recvWindow <= DEFAULT_WINDOW + extension
  {
    hide AllAllowed, End, Reported, GivenBack, PaddingDelivered;
    CreditConserved(role, local, remote, inputs);
  }

  /** A whole run: a request, then padding and nothing else; the window shrinks, and no event
      says so. */
  lemma PaddingDrains(local: Settings, remote: Settings, h: Headers, pad: nat)
    requires local.Valid() && remote.Valid() && local.maxConcurrent.None? && 1 + pad <= local.initialWindow
    requires pad < 256 && h.hasPseudo && h.validRequest && !h.hasProtocol && h.contentLength.Absent?
    ensures var c := NewConn(Server, local, remote);
            var inputs := [GetHeaders(1, h, false), GetData(1, [], Some(pad), false)];
            && AllAllowed(c, inputs) && GivenBack(c, inputs, 0) == 0
            && Reported(End(c, inputs).log) == 0
            && End(c, inputs).recvWindow == DEFAULT_WINDOW - 1 - pad
  {
    hide Reported, Apply, AllAllowed, End, GivenBack;
    var c := NewConn(Server, local, remote);
    var first, second := GetHeaders(1, h, false), GetData(1, [], Some(pad), false);
    RunOfTwo(c, first, second);
    Applied(c, 1, h, After(c, first), pad);
    RequestArrives(local, remote, h);
    NewConnOk(Server, local, remote);
    ApplyKeeps(c, first);
    PaddingIsNotReported(After(c, first), 1, [], pad);
    ExtendLog([], HeadersReceived(1, h, false), 1);
    assert [] + [HeadersReceived(1, h, false)] == [HeadersReceived(1, h, false)];
  }

  lemma RunOfTwo(c: Conn, first: Input, second: Input)
    requires !first.DoWindowUpdate? && !second.DoWindowUpdate?
    ensures End(c, [first, second]) == After(After(c, first), second)
    ensures AllAllowed(c, [first, second]) <==> Allowed(c, first) && Allowed(After(c, first), second)
    ensures GivenBack(c, [first, second], 0) == 0
  {
    hide Apply, Allowed, After;
    var d := After(c, first);
    var rest := [second];
    assert [first, second][1..] == rest;
    RunOfOne(d, second);
  }

  lemma RunOfOne(c: Conn, i: Input)
    requires !i.DoWindowUpdate?
    ensures End(c, [i]) == After(c, i) && GivenBack(c, [i], 0) == 0
    ensures AllAllowed(c, [i]) <==> Allowed(c, i)
  {
    hide Apply, Allowed, After;
    var one := [i];
    assert one[0] == i && one[1..] == [];
    assert GivenBack(c, one, 0) == GivenBack(After(c, i), [], 0);
  }

  /** What the two frames of that run are to the connection. */
  lemma Applied(c: Conn, id: nat, h: Headers, d: Conn, pad: nat)
    requires c.open.None?
    ensures Apply(c, GetHeaders(id, h, false)) == OnHeaders(c, id, h, false)
    ensures d.open.None? ==> Apply(d, GetData(id, [], Some(pad), false)) == OnData(d, id, [], Some(pad), false)
  {
    hide OnHeaders, OnData;
  }

  lemma RequestArrives(local: Settings, remote: Settings, h: Headers)
    requires local.maxConcurrent.None?
    requires h.hasPseudo && h.validRequest && !h.hasProtocol && h.contentLength.Absent?
    ensures OnHeaders(NewConn(Server, local, remote), 1, h, false).Ok?
    ensures var d := OnHeaders(NewConn(Server, local, remote), 1, h, false).value;
            && 1 in d.streams && d.streams[1].state.Open? && d.streams[1].expected.None? && !d.streams[1].noContent
            && d.recvWindow == DEFAULT_WINDOW && d.streams[1].recvWindow == local.initialWindow
            && d.log == [HeadersReceived(1, h, false)] && d.open.None?
  {
    hide Reset, OpenCount;
  }
}
