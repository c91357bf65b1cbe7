/**
 The first steps of runs that show what can happen: a mailbox of one packet, a writer busy with the first packet,
 a second one queued, and a request with a deadline parked for room.
 */
module ConnectionScenarios {
  import opened Wrappers
  import opened Packets
  import opened ConnectionModel
  import opened ConnectionRuns

  const ONE_SLOT := Config(1, 1, 0, 0, PlainPackets)

  lemma FirstSend() returns (t: State)
    ensures Reachable(t)
    ensures WriterAt(t, InWrite) && t.writer == Some(0) && |t.calls| == 1 && t.cfg == ONE_SLOT
    ensures t.sendQueue == [] && t.queuedBytes == 0 && t.writerActive && !t.closed && t.pending == map[]
    ensures t.roomWaiters == [] && t.inFlightWaiters == [] && t.requestId == 0 && t.scopeActive && t.writeBuf != []
  {
    var s, e := Init(ONE_SLOT), StartSend(0, [], NoCompression);
    assert s == Run(s, []);
    ReachableStep(s, e);
    t := Step(s, e);
    var p := MakePacket(OneWay, 1, 0, [], NoCompression);
    var a := s.(oneWayId := 1).(calls := s.calls + [NewCall(Sender(p), Running, false)]);
    var q := Queue(a, 0);
    assert q.sendQueue == [p];
    assert t == WakeRoom(Take(SetPc(q.(writerActive := true, writer := Some(0)), 0, InFlush), 0));
  }

  lemma SecondSend(s: State) returns (t: State)
    requires Reachable(s) && s.cfg == ONE_SLOT && s.writerActive && !s.closed && s.sendQueue == [] && s.queuedBytes == 0
    ensures Reachable(t) && |t.calls| == |s.calls| + 1 && t.calls[..|s.calls|] == s.calls
    ensures |t.sendQueue| == 1
    ensures t == s.(oneWayId := t.oneWayId, calls := t.calls, sendQueue := t.sendQueue, accepted := t.accepted)
  {
    var e := StartSend(0, [], NoCompression);
    ReachableStep(s, e);
    t := Step(s, e);
  }

  lemma RequestParks(s: State) returns (t: State)
    requires Reachable(s) && s.cfg == ONE_SLOT && !s.closed && |s.sendQueue| == 1
    requires s.pending == map[] && s.requestId == 0 && s.roomWaiters == []
    ensures Reachable(t) && |t.calls| == |s.calls| + 1 && t.calls[..|s.calls|] == s.calls
    ensures t.roomWaiters == [|s.calls|]
    ensures var k := t.calls[|s.calls|]; k.kind.Requester? && k.pc == RoomParked && k.armed && k.settled.None? && !k.queued
    ensures t.pending == map[1 := |s.calls|] && t.calls[|s.calls|].kind.packet.messageId == 1 && t.calls[|s.calls|].roomCont
    ensures t == s.(requestId := 1, calls := t.calls, pending := t.pending, roomWaiters := t.roomWaiters)
  {
    var e := StartRequest(0, [], NoCompression, true);
    ReachableStep(s, e);
    t := Step(s, e);
  }

  lemma WriterFlushes(s: State) returns (t: State)
    requires Reachable(s) && WriterAt(s, InWrite)
    ensures Reachable(t) && WriterAt(t, InFlush) && t.writer == s.writer
    ensures t == s.(socket := t.socket, writeBuf := [], calls := s.calls[s.writer.value := s.calls[s.writer.value].(pc := InFlush)])
  {
    var a := Step(s, WriteSome(|s.writeBuf|));
    ReachableStep(s, WriteSome(|s.writeBuf|));
    assert a.writeBuf == [];
    ReachableStep(a, WriteReturns);
    t := Step(a, WriteReturns);
  }

  lemma WriterWakes(s: State, c: nat) returns (t: State)
    requires Reachable(s) && WriterAt(s, InFlush) && !s.closed && s.sendQueue != [] && s.roomWaiters == [c]
    requires c < |s.calls| && s.calls[c].pc == RoomParked
    ensures Reachable(t) && |t.calls| == |s.calls| && t.calls[c] == s.calls[c].(pc := RoomWoken)
  {
    ReachableStep(s, FlushReturns);
    t := Step(s, FlushReturns);
    assert t == WakeRoom(Take(s, s.writer.value));
  }
}
