/** Settings and shutdown over whole runs: which settings are in force, and when new streams are
    no longer opened. */
module H2Goaway {
  import opened Base
  import opened H2Types
  import opened H2History
  import opened H2Connection
  import opened H2Invariant
  import opened H2Receiving
  import opened H2Runs
  import opened H2Growth
  import opened H2Accounts
  import opened H2Effects
  import opened H2Answers

  /** The last settings that the peer sent in the run. */
  ghost function LastSettings(c: Conn, inputs: seq<Input>): Option<Settings>
    decreases |inputs|
  {
    if inputs == [] then None
    else
      var later := LastSettings(After(c, inputs[0]), inputs[1..]);
      if later.Some? then later
      else if inputs[0].GetSettings? && Apply(c, inputs[0]).Ok? then Some(inputs[0].settings) else None
  }

  /** Which side's GOAWAY was the last of the run, if there was any. */
  datatype Side = Own | Peer

  ghost function LastGoaway(c: Conn, inputs: seq<Input>): Option<Side>
    decreases |inputs|
  {
    if inputs == [] then None
    else
      var later := LastGoaway(After(c, inputs[0]), inputs[1..]);
      if later.Some? then later
      else if inputs[0].DoGoaway? && Apply(c, inputs[0]).Ok? then Some(Own)
      else if inputs[0].GetGoaway? && Apply(c, inputs[0]).Ok? then Some(Peer) else None
  }

  /** The settings in force are the last that came, and the phase tells whose GOAWAY was the last. */
  lemma {:induction false} RunSettles(c: Conn, inputs: seq<Input>)
    requires Inv(c) && AllAllowed(c, inputs)
    ensures End(c, inputs).remote == match LastSettings(c, inputs) case Some(s) => s case None => c.remote
    ensures match LastGoaway(c, inputs)
            case Some(Own) => End(c, inputs).phase == GoawaySent
            case Some(Peer) => End(c, inputs).phase == GoawayGot
            case None => End(c, inputs).phase == c.phase || (c.phase.Preface? && End(c, inputs).phase.Active?)
    decreases |inputs|
  {
    hide Inv, Apply, Allowed, After;
    if inputs != [] {
      AfterKeeps(c, inputs[0]);
      StepSettles(c, inputs[0]);
      RunSettles(After(c, inputs[0]), inputs[1..]);
    }
  }

  lemma StepSettles(c: Conn, i: Input)
    requires Inv(c) && Allowed(c, i)
    ensures After(c, i).remote == if i.GetSettings? && Apply(c, i).Ok? then i.settings else c.remote
    ensures var d := After(c, i);
            if i.DoGoaway? && Apply(c, i).Ok? then d.phase.GoawaySent?
            else if i.GetGoaway? && Apply(c, i).Ok? then d.phase.GoawayGot?
            else d.phase == c.phase || (c.phase.Preface? && d.phase.Active?)
  {
    hide Inv, Apply, Allowed;
    if Apply(c, i).Ok? {
      ApplyBooks(c, i, 0);
    }
  }

  /** After any run of a new server, an identifier that the peer has not come to yet opens no stream
      if and only if the last GOAWAY of the run was the server's own. */
  lemma RefusedAfterOwn(local: Settings, remote: Settings, inputs: seq<Input>, id: nat, h: Headers, endStream: bool)
    requires local.Valid() && remote.Valid() && AllAllowed(NewConn(Server, local, remote), inputs)
    requires var d := End(NewConn(Server, local, remote), inputs); id % 2 == 1 && id > d.lastRecv
    ensures var c := NewConn(Server, local, remote);
            OnHeaders(End(c, inputs), id, h, endStream).Err? <==> LastGoaway(c, inputs) == Some(Own)
  {
    hide StreamOk, CreditOk, Calm, AllAllowed, End, LastGoaway, LastSettings, OnHeaders;
    var c := NewConn(Server, local, remote);
    NewConnOk(Server, local, remote);
    RunKeeps(c, inputs);
    RunSettles(c, inputs);
    HistoryGrows(c, inputs);
    var d := End(c, inputs);
    assert id !in d.streams && id !in d.closed by { UnseenIsUnknown(d, id); }
    OnHeadersFails(d, id, h, endStream);
  }

  /** After any run of a new client, a request that nothing else speaks against is refused if and
      only if the last GOAWAY of the run was the peer's. */
  lemma RefusedAfterPeers(local: Settings, remote: Settings, inputs: seq<Input>, h: Headers, endStream: bool)
    requires local.Valid() && remote.Valid() && AllAllowed(NewConn(Client, local, remote), inputs)
    requires StartStream(End(NewConn(Client, local, remote), inputs).(phase := Active), h, endStream).Ok?
    ensures var c := NewConn(Client, local, remote);
            StartStream(End(c, inputs), h, endStream).Err? <==> LastGoaway(c, inputs) == Some(Peer)
  {
    hide StreamOk, CreditOk, Calm, AllAllowed, End, LastGoaway, LastSettings, StartStream, Know;
    var c := NewConn(Client, local, remote);
    NewConnOk(Client, local, remote);
    RunKeeps(c, inputs);
    RunSettles(c, inputs);
    var d := End(c, inputs);
    PhaseKeeps(d, Active);
    StartStreamDoes(d, h, endStream);
    StartStreamDoes(d.(phase := Active), h, endStream);
  }

  lemma UnseenIsUnknown(c: Conn, id: nat)
    requires Inv(c) && c.role.Server? && id > c.lastRecv
    ensures id !in c.streams && id !in c.closed
  {
    hide FactsOf;
    assert StreamOk(c, id);
  }

  /** So a GOAWAY of the peer undoes the server's own: a stream that was refused after that one is
      opened after both. */
  lemma PeerUndoesOwn(c: Conn, own: ErrorCode, peer: ErrorCode, id: nat, h: Headers, endStream: bool)
    requires Inv(c) && c.open.None? && c.role.Server? && id % 2 == 1 && id > c.lastRecv
    requires Acceptable(c, h, endStream) && c.local.maxConcurrent.None?
    ensures var d := After(c, DoGoaway(own));
            && OnHeaders(d, id, h, endStream).Err?
            && OnHeaders(After(d, GetGoaway(peer)), id, h, endStream).Ok?
            && id in OnHeaders(After(d, GetGoaway(peer)), id, h, endStream).value.streams
  {
    hide Inv, OnHeaders, Acceptable, Takes, Opened;
    UnseenIsUnknown(c, id);
    var d := After(c, DoGoaway(own));
    var e := After(d, GetGoaway(peer));
    ApplyKeeps(c, DoGoaway(own));
    ApplyKeeps(d, GetGoaway(peer));
    OnHeadersFails(d, id, h, endStream);
    OnHeadersFails(e, id, h, endStream);
    SameRequest(c, e, h, endStream);
    NewRequestDoes(e, id, h, endStream);
  }

  lemma SameRequest(c: Conn, d: Conn, h: Headers, endStream: bool)
    requires d.local == c.local
    ensures Acceptable(d, h, endStream) == Acceptable(c, h, endStream)
  {
  }

  /** On a client a request that could be sent before any GOAWAY is refused after one of the peer,
      and sent after one of the client's own that follows it. */
  lemma OwnUndoesPeer(c: Conn, peer: ErrorCode, own: ErrorCode, h: Headers, endStream: bool)
    requires Inv(c) && c.open.None? && StartStream(c, h, endStream).Ok?
    ensures var d := After(c, GetGoaway(peer));
            && StartStream(d, h, endStream).Err?
            && StartStream(After(d, DoGoaway(own)), h, endStream).Ok?
  {
    hide Inv, StartStream, Know;
    var d := After(c, GetGoaway(peer));
    var e := After(d, DoGoaway(own));
    ApplyKeeps(c, GetGoaway(peer));
    ApplyKeeps(d, DoGoaway(own));
    StartStreamDoes(c, h, endStream);
    StartStreamDoes(d, h, endStream);
    StartStreamDoes(e, h, endStream);
  }
}
