/** The session object: fields that its methods change in place, each method doing what the
    function of the same name says of the state as a value. */
module WtObject {
  import opened Base
  import opened WtTypes
  import opened Bounded
  import S = WtSession

  class WtSession {
    const client: bool
    const config: Config
    const peer: Config
    var phase: S.Phase
    var streams: map<StreamId, S.Stream>
    const closedSendMax: BoundedMap<StreamId>
    const stopReceived: BoundedSet<StreamId>
    var flow: S.Flow
    var nextBidi: nat
    var nextUni: nat
    var output: seq<Capsule>
    var events: seq<WtEvent>
    ghost var emitted: seq<Capsule>
    ghost var processed: seq<Capsule>
    ghost var log: seq<WtEvent>
    ghost var read: nat

    /** What waits to be written is the end of what was emitted, and what waits to be read is
        the end of what was queued. */
    ghost predicate Valid()
      reads this, closedSendMax, stopReceived
    {
      && closedSendMax.maxSize == S.STREAM_ID_RECORD_MAX_SIZE && closedSendMax.rank == S.WIRE
      && stopReceived.maxSize == S.STREAM_ID_RECORD_MAX_SIZE && stopReceived.rank == S.WIRE
      && |output| <= |emitted| && output == emitted[|emitted| - |output|..]
      && read <= |log| && events == log[read..]
    }

    ghost function View(): S.Session
      reads this, closedSendMax, stopReceived
    {
      S.Session(client, config, peer, phase, streams, closedSendMax.inner, stopReceived.inner, flow,
                nextBidi, nextUni, emitted, processed, log, read)
    }

    constructor (client: bool, config: Config, peer: Config)
      ensures Valid() && View() == S.NewSession(client, config, peer)
      ensures fresh(closedSendMax) && fresh(stopReceived) && output == []
    {
      this.client, this.config, this.peer := client, config, peer;
      phase, streams := S.Initial, map[];
      closedSendMax := new BoundedMap(S.WIRE, S.STREAM_ID_RECORD_MAX_SIZE);
      stopReceived := new BoundedSet(S.WIRE, S.STREAM_ID_RECORD_MAX_SIZE);
      flow := S.Flow(peer.maxData, 0, config.maxData, 0, config.streamsBidi, peer.streamsBidi,
                     config.streamsUni, peer.streamsUni, 0, 0);
      nextBidi, nextUni := 0, 0;
      output, events := [], [];
      emitted, processed, log, read := [], [], [], 0;
    }

    // ---- Small steps ----

    method Emit(c: Capsule)
      requires Valid()
      modifies this`output, this`emitted
      ensures Valid() && View() == old(View()).Emit(c) && output == old(output) + [c]
    {
      output := output + [c];
      emitted := emitted + [c];
    }

    method Queue(e: WtEvent)
      requires Valid()
      modifies this`events, this`log
      ensures Valid() && View() == old(View()).Queue(e)
    {
      events := events + [e];
      log := log + [e];
    }

    method RemoveIfClosed(id: StreamId)
      requires Valid()
      modifies this`streams, closedSendMax
      ensures Valid() && View() == old(View().RemoveIfClosed(id))
    {
      hide MapInsert, IsRank;
      if id in streams {
        var stream := streams[id];
        if (HasSendPart(id) && stream.sendState.CanSend()) || (HasRecvPart(id) && !stream.recvState.Terminal()) {
          return;
        }
        streams := streams - {id};
        S.WireIsRank();
        closedSendMax.Insert(id, stream.sendMax);
      }
    }

    predicate IsLocal(id: StreamId) {
      id.client == client
    }

    predicate HasSendPart(id: StreamId) {
      id.bidi || IsLocal(id)
    }

    predicate HasRecvPart(id: StreamId) {
      id.bidi || !IsLocal(id)
    }

    predicate IsUncreatedLocal(id: StreamId)
      reads this
    {
      IsLocal(id) && id.index >= if id.bidi then nextBidi else nextUni
    }

    predicate IsOpen()
      reads this
    {
      phase.Active? || phase.Draining?
    }

    // ---- The application ----

    method PollOutput() returns (r: Option<seq<Capsule>>)
      requires Valid()
      modifies this`output
      ensures Valid() && View() == old(View()) && output == []
      ensures r == if old(output) == [] then None else Some(old(output))
    {
      r := if output == [] then None else Some(output);
      output := [];
    }

    method MarkDataRead(id: StreamId)
      requires Valid()
      modifies this`streams
      ensures Valid() && View() == old(S.MarkDataRead(View(), id))
    {
      if id in streams && streams[id].recvState.DataArrived? {
        streams := streams[id := streams[id].(recvState := S.DataRead)];
      }
    }

    method PollEvent() returns (r: Option<WtEvent>)
      requires Valid()
      modifies this, closedSendMax
      ensures Valid() && View() == old(S.PollEvent(View())) && output == old(output)
      ensures r == if old(events) == [] then None else Some(old(events[0]))
    {
      hide S.MarkDataRead, MapInsert, IsRank;
      if events == [] {
        return None;
      }
      var e := events[0];
      events := events[1..];
      read := read + 1;
      if e.StreamData? && e.fin {
        MarkDataRead(e.id);
        RemoveIfClosed(e.id);
      }
      return Some(e);
    }

    method Initiate() returns (error: Option<WtError>)
      requires Valid()
      modifies this`phase
      ensures Valid() && S.Outcome(View(), error) == old(S.Initiate(View()))
    {
      if !phase.Initial? {
        return Some(SessionStateError);
      }
      phase := S.Active;
      return None;
    }

    method OpenStream(bidi: bool) returns (error: Option<WtError>, id: StreamId)
      requires Valid()
      modifies this
      ensures Valid() && S.Outcome(View(), error) == old(S.OpenStream(View(), bidi)) && output == old(output)
      ensures error.None? ==> id == old(S.NextId(View(), bidi))
    {
      id := StreamId(client, bidi, if bidi then nextBidi else nextUni);
      if !IsOpen() {
        return Some(SessionStateError), id;
      }
      if flow.Opened(bidi) >= flow.RemoteMax(bidi) {
        return Some(FlowControlError), id;
      }
      if bidi {
        nextBidi := nextBidi + 1;
      } else {
        nextUni := nextUni + 1;
      }
      streams := streams[id := S.NewStream(peer.StreamCredit(!client, id), config.StreamCredit(client, id))];
      flow := flow.CountOpened(bidi);
      return None, id;
    }

    /** Charges both windows and emits the data. */
    method Transmit(id: StreamId, data: seq<Byte>, fin: bool)
      requires Valid() && id in streams
      modifies this
      ensures Valid() && View() == old(S.AfterSend(View(), id, data, fin))
    {
      var stream := streams[id];
      streams := streams[id := stream.(sendOffset := stream.sendOffset + |data|,
                                       sendState := if fin then S.DataRecvd else S.Send)];
      flow := flow.(sendOffset := flow.sendOffset + |data|);
      Emit(WtStream(id, data, fin));
    }

    method SendStreamData(id: StreamId, data: seq<Byte>, fin: bool) returns (error: Option<WtError>)
      requires Valid()
      modifies this, closedSendMax
      ensures Valid() && S.Outcome(View(), error) == old(S.SendStreamData(View(), id, data, fin))
      ensures error.Some? ==> View() == old(View()) && output == old(output)
    {
      hide S.AfterSend;
      if !IsOpen() {
        return Some(SessionStateError);
      }
      if id !in streams {
        return Some(InvalidStreamId);
      }
      var stream := streams[id];
      if !stream.sendState.CanSend() || !HasSendPart(id) {
        return Some(StreamStateError);
      }
      if |data| > S.Available(flow.sendMax, flow.sendOffset) || stream.sendOffset + |data| > stream.sendMax {
        return Some(FlowControlError);
      }
      Transmit(id, data, fin);
      if fin {
        RemoveIfClosed(id);
      }
      return None;
    }

    method ResetStream(id: StreamId, code: nat) returns (error: Option<WtError>)
      requires Valid()
      modifies this, closedSendMax
      ensures Valid() && S.Outcome(View(), error) == old(S.ResetStream(View(), id, code))
    {
      if code > MAX_APPLICATION_ERROR_CODE {
        return Some(FlowControlError);
      }
      if id !in streams {
        return Some(InvalidStreamId);
      }
      var stream := streams[id];
      if !stream.sendState.CanSend() || !HasSendPart(id) {
        return Some(StreamStateError);
      }
      Emit(WtResetStream(id, code, stream.sendOffset));
      streams := streams[id := stream.(sendState := S.ResetRecvd)];
      RemoveIfClosed(id);
      return None;
    }

    method StopSending(id: StreamId, code: nat) returns (error: Option<WtError>)
      requires Valid()
      modifies this
      ensures Valid() && S.Outcome(View(), error) == old(S.StopSendingStream(View(), id, code))
    {
      if code > MAX_APPLICATION_ERROR_CODE {
        return Some(FlowControlError);
      }
      if id !in streams {
        return Some(InvalidStreamId);
      }
      var stream := streams[id];
      if !HasRecvPart(id) || stream.stopSent || stream.recvState.ResetRead? {
        return Some(StreamStateError);
      }
      Emit(WtStopSending(id, code));
      streams := streams[id := stream.(stopSent := true)];
      return None;
    }

    method SendDatagram(data: seq<Byte>) returns (error: Option<WtError>)
      requires Valid()
      modifies this
      ensures Valid() && S.Outcome(View(), error) == old(S.SendDatagram(View(), data))
    {
      if !IsOpen() {
        return Some(SessionStateError);
      }
      Emit(Datagram(data));
      return None;
    }

    /** Backs up to the start of a character. */
    method FindCut(text: seq<Byte>, n: nat) returns (end: nat)
      requires n < |text|
      ensures end == S.CutPoint(text, n)
    {
      end := n;
      while end > 0 && text[end] / 64 == 2
        invariant end <= n && S.CutPoint(text, end) == S.CutPoint(text, n)
      {
        end := end - 1;
      }
    }

    method Close(code: nat, reason: seq<Byte>) returns (error: Option<WtError>)
      requires Valid()
      modifies this
      ensures Valid() && S.Outcome(View(), error) == old(S.Close(View(), code, reason))
    {
      if phase.Closed? {
        return Some(SessionStateError);
      }
      var short := reason;
      if |reason| > MAX_CLOSE_REASON_LEN {
        var end := FindCut(reason, MAX_CLOSE_REASON_LEN);
        short := reason[..end];
      }
      Emit(WtCloseSession(code, short));
      phase := S.Closed;
      return None;
    }

    method Drain() returns (error: Option<WtError>)
      requires Valid()
      modifies this
      ensures Valid() && S.Outcome(View(), error) == old(S.Drain(View()))
    {
      if !phase.Active? {
        return Some(SessionStateError);
      }
      Emit(WtDrainSession);
      phase := S.Draining;
      return None;
    }

    method SendMaxData(maximum: nat) returns (error: Option<WtError>)
      requires Valid()
      modifies this
      ensures Valid() && S.Outcome(View(), error) == old(S.SendMaxData(View(), maximum))
    {
      if maximum > MAX_VALUE || maximum <= flow.recvMax {
        return Some(FlowControlError);
      }
      flow := flow.(recvMax := maximum);
      Emit(WtMaxData(maximum));
      return None;
    }

    method SendMaxStreamData(id: StreamId, maximum: nat) returns (error: Option<WtError>)
      requires Valid()
      modifies this
      ensures Valid() && S.Outcome(View(), error) == old(S.SendMaxStreamData(View(), id, maximum))
    {
      if maximum > MAX_VALUE {
        return Some(FlowControlError);
      }
      if id !in streams {
        return Some(InvalidStreamId);
      }
      var stream := streams[id];
      if !HasRecvPart(id) || stream.stopSent || !stream.recvState.Recv? {
        return Some(StreamStateError);
      }
      if maximum <= stream.recvMax {
        return Some(FlowControlError);
      }
      streams := streams[id := stream.(recvMax := maximum)];
      Emit(WtMaxStreamData(id, maximum));
      return None;
    }

    method SendMaxStreams(maximum: nat, bidi: bool) returns (error: Option<WtError>)
      requires Valid()
      modifies this
      ensures Valid() && S.Outcome(View(), error) == old(S.SendMaxStreams(View(), maximum, bidi))
    {
      if !IsOpen() {
        return Some(SessionStateError);
      }
      if maximum > MAX_STREAMS_LIMIT || maximum <= flow.LocalMax(bidi) {
        return Some(FlowControlError);
      }
      flow := flow.SetLocalMax(bidi, maximum);
      Emit(WtMaxStreams(maximum, bidi));
      return None;
    }

    method GrowRecvWindow(increment: nat) returns (error: Option<WtError>)
      requires Valid()
      modifies this
      ensures Valid() && S.Outcome(View(), error) == old(S.GrowRecvWindow(View(), increment))
    {
      if flow.recvMax + increment >= TWO_64 {
        return Some(FlowControlError);
      }
      error := SendMaxData(flow.recvMax + increment);
    }

    method GrowStreamRecvWindow(id: StreamId, increment: nat) returns (error: Option<WtError>)
      requires Valid()
      modifies this
      ensures Valid() && S.Outcome(View(), error) == old(S.GrowStreamRecvWindow(View(), id, increment))
    {
      if id !in streams {
        return Some(InvalidStreamId);
      }
      if streams[id].recvMax + increment >= TWO_64 {
        return Some(FlowControlError);
      }
      error := SendMaxStreamData(id, streams[id].recvMax + increment);
    }

    method GrowMaxStreams(increment: nat, bidi: bool) returns (error: Option<WtError>)
      requires Valid()
      modifies this
      ensures Valid() && S.Outcome(View(), error) == old(S.GrowMaxStreams(View(), increment, bidi))
    {
      if flow.LocalMax(bidi) + increment >= TWO_64 {
        return Some(FlowControlError);
      }
      error := SendMaxStreams(flow.LocalMax(bidi) + increment, bidi);
    }

    // ---- The peer ----

    method CreatePeerStream(id: StreamId)
      requires Valid()
      modifies this`streams, this`events, this`log
      ensures Valid() && View() == old(S.CreatePeerStream(View(), id))
    {
      streams := streams[id := S.NewStream(peer.StreamCredit(!client, id), config.StreamCredit(client, id))];
      Queue(StreamOpened(id));
    }

    /** Creates every stream of the type up to the given one that never existed, or none. */
    method CreatePeerStreamsUpTo(id: StreamId) returns (error: Option<WtError>)
      requires Valid()
      modifies this`streams, this`events, this`log
      ensures Valid() && S.Outcome(View(), error) == old(S.CreatePeerStreamsUpTo(View(), id))
    {
      hide S.CreatePeerStream, IsRank;
      if id.index >= flow.LocalMax(id.bidi) {
        return Some(FlowControlError);
      }
      var each := id.(index := 0);
      while each.index <= id.index
        invariant Valid() && each == id.(index := each.index) && each.index <= id.index + 1
        invariant S.CreateFrom(View(), id, each.index) == old(S.CreateFrom(View(), id, 0))
        decreases id.index + 1 - each.index
      {
        if each !in streams && each !in closedSendMax.inner {
          CreatePeerStream(each);
        }
        each := each.Next();
      }
      return None;
    }

    method CreateImplicitPeerBidi(id: StreamId) returns (error: Option<WtError>)
      requires Valid()
      modifies this`streams, this`events, this`log
      ensures Valid() && S.Outcome(View(), error) == old(S.CreateImplicitPeerBidi(View(), id))
    {
      hide S.CreateFrom, S.CreatePeerStreamsUpTo;
      if !IsLocal(id) && id.bidi && id !in streams && id !in closedSendMax.inner {
        error := CreatePeerStreamsUpTo(id);
      } else {
        error := None;
      }
    }

    method HandleStreamData(id: StreamId, data: seq<Byte>, fin: bool) returns (error: Option<WtError>)
      requires Valid()
      modifies this, closedSendMax
      ensures Valid() && S.Outcome(View(), error) == old(S.HandleStreamData(View(), id, data, fin))
    {
      hide S.CreatePeerStreamsUpTo, S.ReceiveData;
      if id in closedSendMax.inner {
        return Some(StreamStateError);
      }
      if id in streams {
        if (data == [] && !fin && streams[id].hasReceivedData) || (!id.bidi && IsLocal(id)) {
          return Some(StreamStateError);
        }
      } else {
        if IsLocal(id) {
          return Some(StreamStateError);
        }
        error := CreatePeerStreamsUpTo(id);
        if error.Some? {
          return;
        }
      }
      error := ReceiveData(id, data, fin);
    }

    method ReceiveData(id: StreamId, data: seq<Byte>, fin: bool) returns (error: Option<WtError>)
      requires Valid() && id in streams
      modifies this
      ensures Valid() && S.Outcome(View(), error) == old(S.ReceiveData(View(), id, data, fin))
    {
      var stream := streams[id];
      if !stream.recvState.Recv? {
        return Some(StreamStateError);
      }
      if stream.recvOffset + |data| > stream.recvMax {
        return Some(FlowControlError);
      }
      streams := streams[id := S.Received(stream, data, fin)];
      if flow.recvOffset + |data| > flow.recvMax {
        return Some(FlowControlError);
      }
      flow := flow.(recvOffset := flow.recvOffset + |data|);
      Queue(StreamData(id, data, fin));
      return None;
    }

    method HandleResetStream(id: StreamId, code: nat, reliableSize: nat) returns (error: Option<WtError>)
      requires Valid()
      modifies this, closedSendMax
      ensures Valid() && S.Outcome(View(), error) == old(S.HandleResetStream(View(), id, code, reliableSize))
    {
      if id !in streams {
        return Some(StreamStateError);
      }
      var stream := streams[id];
      if !stream.recvState.Recv? || !HasRecvPart(id) || reliableSize != stream.recvOffset {
        return Some(StreamStateError);
      }
      streams := streams[id := stream.(recvState := S.ResetRead)];
      Queue(StreamReset(id, code));
      RemoveIfClosed(id);
      return None;
    }

    predicate StopWasReceived(id: StreamId)
      reads this, stopReceived
    {
      id in stopReceived.inner || (id in streams && streams[id].stopReceived)
    }

    method NoteStop(id: StreamId)
      requires Valid()
      modifies this`streams, stopReceived
      ensures Valid() && View() == old(S.NoteStop(View(), id))
    {
      hide SetInsert, IsRank;
      if id in streams {
        streams := streams[id := streams[id].(stopReceived := true)];
      }
      S.WireIsRank();
      stopReceived.Insert(id);
    }

    method HandleStopSending(id: StreamId, code: nat) returns (error: Option<WtError>)
      requires Valid()
      modifies this, closedSendMax, stopReceived
      ensures Valid() && S.Outcome(View(), error) == old(S.HandleStopSending(View(), id, code))
    {
      hide S.CreateImplicitPeerBidi, S.ResetStream, S.NoteStop;
      if (!IsLocal(id) && !id.bidi) || IsUncreatedLocal(id) || StopWasReceived(id) {
        return Some(StreamStateError);
      }
      error := CreateImplicitPeerBidi(id);
      if error.Some? {
        return;
      }
      var shouldReset := id in streams && streams[id].sendState.CanSend();
      NoteStop(id);
      if shouldReset {
        var _ := ResetStream(id, code);
      }
      Queue(WtEvent.StopSending(id, code));
      return None;
    }

    method HandleMaxStreamData(id: StreamId, maximum: nat) returns (error: Option<WtError>)
      requires Valid()
      modifies this`streams, this`events, this`log, closedSendMax
      ensures Valid() && S.Outcome(View(), error) == old(S.HandleMaxStreamData(View(), id, maximum))
    {
      hide S.CreateImplicitPeerBidi, MapInsert, IsRank;
      if (!IsLocal(id) && !id.bidi) || IsUncreatedLocal(id) || StopWasReceived(id) {
        return Some(StreamStateError);
      }
      if !IsLocal(id) && id.bidi && id !in streams && id !in closedSendMax.inner
         && maximum <= peer.StreamCredit(!client, id) {
        return Some(FlowControlError);
      }
      if id !in streams && id in closedSendMax.inner {
        if maximum <= closedSendMax.inner[id] {
          return Some(FlowControlError);
        }
        S.WireIsRank();
        closedSendMax.Insert(id, maximum);
        return None;
      }
      error := CreateImplicitPeerBidi(id);
      if error.Some? || id !in streams {
        return;
      }
      var stream := streams[id];
      if maximum > MAX_VALUE || maximum <= stream.sendMax {
        return Some(FlowControlError);
      }
      streams := streams[id := stream.(sendMax := maximum)];
      return None;
    }

    /** Capsules that are about the session or only advisory. */
    method HandleControl(c: Capsule) returns (error: Option<WtError>)
      requires Valid()
      requires !c.WtStream? && !c.WtResetStream? && !c.WtStopSending? && !c.WtMaxStreamData?
      modifies this
      ensures Valid() && S.Outcome(View(), error) == old(S.Dispatch(View(), c))
    {
      error := None;
      match c {
        case Datagram(data) => Queue(DatagramReceived(data));
        case WtMaxData(maximum) =>
          if maximum > MAX_VALUE || maximum <= flow.sendMax {
            return Some(FlowControlError);
          }
          flow := flow.(sendMax := maximum);
        case WtMaxStreams(maximum, bidi) =>
          if maximum > MAX_STREAMS_LIMIT || maximum <= flow.RemoteMax(bidi) {
            return Some(FlowControlError);
          }
          flow := flow.SetRemoteMax(bidi, maximum);
        case WtStreamDataBlocked(id, _) =>
          if id !in streams || !streams[id].recvState.Recv? || !HasRecvPart(id) {
            return Some(StreamStateError);
          }
        case WtStreamsBlocked(maximum, _) =>
          if maximum > MAX_STREAMS_LIMIT {
            return Some(FlowControlError);
          }
        case WtCloseSession(code, reason) =>
          phase := S.Closed;
          Queue(SessionClosed(code, reason));
        case WtDrainSession =>
          if phase.Active? {
            phase := S.Draining;
            Queue(SessionDraining);
          }
        case _ =>
      }
    }

    /** Processes one capsule from the peer. */
    method HandleCapsule(c: Capsule) returns (error: Option<WtError>)
      requires Valid()
      modifies this, closedSendMax, stopReceived
      ensures Valid() && S.Outcome(View(), error) == old(S.HandleCapsule(View(), c))
    {
      hide S.HandleStreamData, S.HandleResetStream, S.HandleStopSending, S.HandleMaxStreamData;
      if phase.Closed? {
        return None;
      }
      processed := processed + [c];
      match c {
        case WtStream(id, data, fin) => error := HandleStreamData(id, data, fin);
        case WtResetStream(id, code, size) => error := HandleResetStream(id, code, size);
        case WtStopSending(id, code) => error := HandleStopSending(id, code);
        case WtMaxStreamData(id, maximum) => error := HandleMaxStreamData(id, maximum);
        case _ => error := HandleControl(c);
      }
    }
  }
}
