/**
 Who is let through when an in-flight slot is given back: the request that has waited longest.
 */
module ConnectionWakeUps {
  import opened Bytes
  import opened Wrappers
  import opened Packets
  import opened Lists
  import opened ConnectionModel
  import opened ConnectionInvariants
  import opened ConnectionRuns
  import opened ConnectionScenarios
  import opened ConnectionRequests

  /** The event is one that takes the registered request `id` out of the registry of an open connection. */
  ghost predicate Frees(s: State, e: Event, id: u32) {
    && id in s.pending && Enabled(s, e)
    && match e
       case InboundResponse(p) => p.messageId == id
       case Deadline(c) => c == s.pending[id]
       case RunCancelled(c) => c == s.pending[id]
       case WriterCancelled => s.writer.value == s.pending[id]
       case _ => false
  }

  /** From `s` to `t` the slot list has lost its head, which is no longer parked for a slot. */
  ghost predicate HeadWoken(s: State, t: State) {
    if s.inFlightWaiters == [] then t.inFlightWaiters == []
    else
      var h := s.inFlightWaiters[0];
      && t.inFlightWaiters == s.inFlightWaiters[1..]
      && h < |s.calls| <= |t.calls|
      && !t.calls[h].slotCont
      && (s.calls[h].pc.SlotParked? ==> t.calls[h].pc.SlotWoken?)
  }

  lemma WakesHead(s: State)
    requires Core(s)
    ensures HeadWoken(s, WakeInFlight(s)) && WakeInFlight(s).pending == s.pending
  {
    if s.inFlightWaiters != [] {
      assert s.inFlightWaiters[0] in s.inFlightWaiters;
      Of(s, s.inFlightWaiters[0]);
    }
  }

  /** A change of the call `c`, which waits for no slot, leaves the list and its head as they are. */
  lemma HeadWokenLater(s: State, t: State, u: State, c: nat)
    requires Core(s) && c < |s.calls| == |t.calls| && t.calls == s.calls[c := t.calls[c]]
    requires s.calls[c].pc != SlotParked && t.inFlightWaiters == s.inFlightWaiters
    requires HeadWoken(t, u)
    ensures HeadWoken(s, u)
  {
  }

  lemma RegisteredWaitsForNoSlot(s: State, id: u32)
    requires Core(s) && id in s.pending
    ensures s.pending[id] < |s.calls| && s.pending[id] !in s.inFlightWaiters && s.calls[s.pending[id]].pc != SlotParked
    ensures IsRequest(s.calls[s.pending[id]], id) && s.calls[s.pending[id]].settled.None?
  {
    assert EntryOk(s, id);
    Of(s, s.pending[id]);
  }

  lemma FinishPassesOn(s: State, c: nat, id: u32, r: Result)
    requires Inv(s) && id in s.pending && s.pending[id] == c && Free(s, c) && Honest(s.calls[c], r)
    ensures HeadWoken(s, Finish(s, c, r)) && Finish(s, c, r).pending == s.pending - {id}
  {
    Removed(s.inFlightWaiters, c);
    RegisteredWaitsForNoSlot(s, id);
    LeaveStep(s, c, r);
    var t := Leave(s, c, r);
    OnlyCallInv(s, t, c);
    WakesHead(t);
    HeadWokenLater(s, t, WakeInFlight(t), c);
  }

  lemma RespondPassesOn(s: State, p: Packet)
    requires Inv(s) && p.messageId in s.pending && p.kind == Response
    ensures HeadWoken(s, Respond(s, p)) && Respond(s, p).pending == s.pending - {p.messageId}
  {
    var id := p.messageId;
    RegisteredWaitsForNoSlot(s, id);
    RespondedStep(s, id, p);
    var c, t := s.pending[id], Completed(s, p);
    OnlyCallInv(s, t, c);
    WakesHead(t);
    HeadWokenLater(s, t, WakeInFlight(t), c);
  }

  lemma ExpirePassesOn(s: State, c: nat, id: u32)
    requires Inv(s) && id in s.pending && s.pending[id] == c && c < |s.calls|
    requires s.calls[c].armed && s.calls[c].kind.Requester? && !ResumesTwice(s.calls[c])
    ensures HeadWoken(s, Expire(s, c)) && Expire(s, c).pending == s.pending - {id}
  {
    RegisteredWaitsForNoSlot(s, id);
    ExpiredInv(s, c);
    var t := Expired(s, c);
    WakesHead(t);
    HeadWokenLater(s, t, WakeInFlight(t), c);
  }

  /** The hand-over leaves the slot list and every call but the writer's alone. */
  lemma HandOffLeavesSlots(s: State, c: nat)
    requires Core(s) && AtSocket(s, c)
    ensures var t := HandOff(s, c);
            && t.inFlightWaiters == s.inFlightWaiters && t.pending == s.pending && |s.calls| <= |t.calls|
            && forall d | 0 <= d < |s.calls| && d != c :: t.calls[d] == s.calls[d]
  {
  }

  lemma HandOffPassesOn(s: State, c: nat, id: u32)
    requires Inv(s) && AtSocket(s, c) && id in s.pending && s.pending[id] == c
    ensures var t := Finish(HandOff(s, c), c, Threw(Cancelled)); HeadWoken(s, t) && t.pending == s.pending - {id}
  {
    RegisteredWaitsForNoSlot(s, id);
    HandOffInv(s, c);
    HandOffLeavesSlots(s, c);
    var t := HandOff(s, c);
    FinishPassesOn(t, c, id, Threw(Cancelled));
    if s.inFlightWaiters != [] {
      var h := s.inFlightWaiters[0];
      assert h in s.inFlightWaiters;
      assert h < |s.calls| && h != c;
      SameHead(s, t, Finish(t, c, Threw(Cancelled)));
    }
  }

  /** What was woken from `t` on was woken from `s` on, if the list and its head are the same. */
  lemma SameHead(s: State, t: State, u: State)
    requires t.inFlightWaiters == s.inFlightWaiters != [] && HeadWoken(t, u)
    requires var h := s.inFlightWaiters[0]; h < |s.calls| <= |t.calls| && t.calls[h] == s.calls[h]
    ensures HeadWoken(s, u)
  {
  }

  // ---- what leaves the registry alone ----

  /** A settled request is not registered. */
  ghost predicate Off(s: State, c: nat) {
    c < |s.calls|
    && (s.calls[c].kind.Requester? && s.calls[c].settled.Some? ==> s.calls[c].kind.packet.messageId !in s.pending)
  }

  lemma OffIfSettled(s: State, c: nat)
    requires Core(s) && c < |s.calls|
    ensures Off(s, c)
  {
    if s.calls[c].kind.Requester? {
      OnlyOwnId(s, c);
      var id := s.calls[c].kind.packet.messageId;
      assert id in s.pending ==> EntryOk(s, id);
    }
  }

  lemma WakesOnly(s: State)
    ensures WakeInFlight(s).pending == s.pending && WakeInFlight(s).closed == s.closed
  {
  }

  lemma FinishUnregistered(s: State, c: nat, r: Result)
    requires c < |s.calls| && (s.calls[c].kind.Requester? ==> s.calls[c].kind.packet.messageId !in s.pending)
    ensures Finish(s, c, r).pending == s.pending
  {
    if s.calls[c].kind.Requester? { assert s.pending - {s.calls[c].kind.packet.messageId} == s.pending; }
  }

  lemma AfterEnqueueRegistry(s: State, c: nat)
    requires Off(s, c)
    ensures AfterEnqueue(s, c).pending == s.pending && (s.calls[c].kind.Requester? ==> Await(s, c).pending == s.pending)
  {
    if !s.calls[c].kind.Requester? {
      FinishUnregistered(s, c, Sent);
    } else if s.calls[c].settled.Some? {
      FinishUnregistered(s, c, ResultOf(s.calls[c].settled.value));
    }
  }

  lemma DrainLoopRegistry(s: State, c: nat)
    requires Off(s, c)
    ensures DrainLoop(s, c).pending == s.pending
  {
    if s.closed || s.sendQueue == [] {
      AfterEnqueueRegistry(SetPc(s.(writerActive := false, writer := None), c, Running), c);
    }
  }

  lemma BeginDrainRegistry(s: State, c: nat)
    requires Off(s, c)
    ensures BeginDrain(s, c).pending == s.pending
  {
    if s.writeBuf == [] { DrainLoopRegistry(SetPc(s.(writerActive := true, writer := Some(c)), c, InFlush), c); }
  }

  lemma PutRegistry(s: State, c: nat)
    requires Off(s, c) && !s.calls[c].kind.Successor?
    ensures Put(s, c).pending == s.pending
  {
    var q := Queue(s, c);
    if s.writerActive { AfterEnqueueRegistry(q, c); } else { BeginDrainRegistry(q, c); }
  }

  lemma RoomLoopRegistry(s: State, c: nat)
    requires Off(s, c) && !s.calls[c].kind.Successor? && !s.closed && (s.calls[c].settled.Some? ==> s.calls[c].kind.Requester?)
    ensures RoomLoop(s, c).pending == s.pending
  {
    if s.calls[c].settled.Some? {
      AfterEnqueueRegistry(s, c);
    } else if RoomFor(s, PacketBytes(s.calls[c].kind.packet)) {
      PutRegistry(s, c);
    }
  }

  /** Nobody but the coroutine itself can lose its entry. */
  ghost predicate OthersStay(s: State, t: State, c: nat)
    requires c < |s.calls|
  {
    forall id | id in s.pending && !IsRequest(s.calls[c], id) :: id in t.pending
  }

  lemma FinishRegistry(s: State, c: nat, r: Result)
    requires c < |s.calls|
    ensures OthersStay(s, Finish(s, c, r), c)
  {
    if s.calls[c].kind.Requester? { WakesOnly(Leave(s, c, r)); }
  }

  lemma EnqueueRegistry(s: State, c: nat)
    requires Off(s, c) && !s.calls[c].kind.Successor? && !s.closed && (s.calls[c].settled.Some? ==> s.calls[c].kind.Requester?)
    ensures OthersStay(s, Enqueue(s, c), c)
  {
    if SizeRefused(s.cfg, s.calls[c].kind.packet) {
      FinishRegistry(s, c, Threw(TooLarge));
    } else if RoomFor(s, PacketBytes(s.calls[c].kind.packet)) {
      PutRegistry(s, c);
    } else {
      RoomLoopRegistry(s, c);
    }
  }

  lemma RegisteringRegistry(s: State, c: nat)
    requires Off(s, c) && s.calls[c].kind.Requester? && s.calls[c].settled.None? && !s.closed
    ensures OthersStay(s, Enqueue(SetPc(s.(pending := s.pending[s.calls[c].kind.packet.messageId := c]), c, Running), c), c)
  {
    var t := SetPc(s.(pending := s.pending[s.calls[c].kind.packet.messageId := c]), c, Running);
    EnqueueRegistry(t, c);
    forall id | id in s.pending && !IsRequest(s.calls[c], id) ensures id in Enqueue(t, c).pending {
      assert id in t.pending && !IsRequest(t.calls[c], id);
    }
  }

  lemma SlotLoopRegistry(s: State, c: nat)
    requires Off(s, c) && s.calls[c].kind.Requester? && !s.closed
    ensures OthersStay(s, SlotLoop(s, c), c)
  {
    if s.calls[c].settled.Some? {
      AfterEnqueueRegistry(s, c);
      return;
    }
    if |s.pending| < s.cfg.maxInFlightRequests { RegisteringRegistry(s, c); }
  }

  // ---- which steps free a slot ----

  lemma SendFreesNothing(s: State, p: Packet, id: u32)
    requires !s.closed && id in s.pending
    ensures id in BeginSend(s, p).pending
  {
    EnqueueRegistry(s.(calls := s.calls + [NewCall(Sender(p), Running, false)]), |s.calls|);
  }

  lemma RequestFreesNothing(s: State, p: Packet, deadline: bool, id: u32)
    requires !s.closed && id in s.pending && p.messageId != id
    ensures id in BeginRequest(s, p, deadline).pending
  {
    var t := s.(requestId := p.messageId, calls := s.calls + [NewCall(Requester(p), Starting, deadline)]);
    SlotLoopRegistry(t, |s.calls|);
    assert !IsRequest(t.calls[|s.calls|], id);
  }

  lemma StartRequestFreesNothing(s: State, e: Event, id: u32)
    requires Core(s) && !s.closed && Enabled(s, e) && e.StartRequest? && id in s.pending
    ensures id in Step(s, e).pending
  {
    assert EntryOk(s, id);
    Of(s, s.pending[id]);
    RequestFreesNothing(s, MakePacket(Request, s.requestId + 1, e.bizType, e.data, e.compression), e.deadline, id);
  }

  lemma StartSendFreesNothing(s: State, e: Event, id: u32)
    requires !s.closed && Enabled(s, e) && (e.StartSend? || e.StartResponse?) && id in s.pending
    ensures id in Step(s, e).pending
  {
    if e.StartSend? {
      var n := NextOneWayId(s.oneWayId);
      SendFreesNothing(s.(oneWayId := n), MakePacket(OneWay, n, e.bizType, e.data, e.compression), id);
      return;
    }
    SendFreesNothing(s, MakePacket(Response, e.id, e.bizType, e.data, e.compression), id);
  }

  lemma WakingFreesNothing(s: State, c: nat, id: u32)
    requires Inv(s) && !s.closed && Enabled(s, RunWoken(c)) && id in s.pending
    ensures id in StepWoken(s, c).pending
  {
    var call := s.calls[c];
    Of(s, c);
    OffIfSettled(s, c);
    if call.pc == SlotWoken {
      OnlyOwnId(s, c);
      assert EntryOk(s, id);
      assert !IsRequest(call, id);
      SlotLoopRegistry(SetPc(s, c, Starting), c);
      return;
    }
    if call.pc == RoomWoken {
      RoomLoopRegistry(SetCall(s, c, call.(pc := Running, roomCont := false)), c);
      return;
    }
    if call.pc == RoomRefused {
      assert EntryOk(s, id);
      OthersKeepTheirs(s, c, id, Threw(Closed));
      return;
    }
    FinishUnregistered(s, c, ResultOf(call.settled.value));
  }

  /** The end of a coroutine leaves the entry of every other. */
  lemma OthersKeepTheirs(s: State, c: nat, id: u32, r: Result)
    requires Core(s) && c < |s.calls| && id in s.pending && s.pending[id] != c
    ensures id in Finish(s, c, r).pending
  {
    if s.calls[c].kind.Requester? { OnlyOwnId(s, c); }
    FinishRegistry(s, c, r);
  }

  lemma WriterFreesNothing(s: State, e: Event, id: u32)
    requires Inv(s) && Enabled(s, e) && (e.FlushReturns? || e.SuccessorStarts?) && id in s.pending
    ensures id in Step(s, e).pending
  {
    var c := s.writer.value;
    OffIfSettled(s, c);
    if e.FlushReturns? { DrainLoopRegistry(s, c); } else { BeginDrainRegistry(s, c); }
  }

  lemma CancelledWriterFrees(s: State, c: nat, id: u32)
    requires Inv(s) && AtSocket(s, c) && id in s.pending && s.pending[id] != c
    ensures id in Finish(HandOff(s, c), c, Threw(Cancelled)).pending
  {
    HandOffInv(s, c);
    HandOffLeavesSlots(s, c);
    OthersKeepTheirs(HandOff(s, c), c, id, Threw(Cancelled));
  }

  lemma DeadlineFrees(s: State, c: nat, id: u32)
    requires Core(s) && Enabled(s, Deadline(c)) && id in s.pending && s.pending[id] != c
    ensures id in Expire(s, c).pending
  {
    OnlyOwnId(s, c);
    ExpireIs(s, c);
  }

  /** The steps that neither close the connection nor end, answer or expire the request leave it registered. */
  lemma OthersFreeNothing(s: State, e: Event, id: u32)
    requires Inv(s) && !s.closed && Enabled(s, e) && id in s.pending && !Frees(s, e, id) && !e.Close? && !e.WriterFails?
    ensures id in Step(s, e).pending
  {
    if e.StartSend? || e.StartResponse? {
      StartSendFreesNothing(s, e, id);
      return;
    }
    if e.StartRequest? {
      StartRequestFreesNothing(s, e, id);
      return;
    }
    if e.InboundResponse? {
      ResponseFrees(s, e.p, id);
      return;
    }
    if e.RunWoken? {
      WakingFreesNothing(s, e.c, id);
      return;
    }
    if e.RunCancelled? {
      OthersKeepTheirs(s, e.c, id, Threw(Cancelled));
      return;
    }
    if e.FlushReturns? || e.SuccessorStarts? {
      WriterFreesNothing(s, e, id);
      return;
    }
    if e.WriterCancelled? {
      CancelledWriterFrees(s, s.writer.value, id);
      return;
    }
    if e.Deadline? {
      DeadlineFrees(s, e.c, id);
      return;
    }
    OtherEventsFreeNothing(s, e, id);
  }

  lemma ResponseFrees(s: State, p: Packet, id: u32)
    requires id in s.pending && p.messageId != id
    ensures id in Respond(s, p).pending
  {
    if p.messageId in s.pending { WakesOnly(Completed(s, p)); }
  }

  lemma OtherEventsFreeNothing(s: State, e: Event, id: u32)
    requires Enabled(s, e) && id in s.pending
    requires e.Cancel? || e.WriteSome? || e.WriteReturns? || e.ScopeCancelled?
    ensures id in Step(s, e).pending
  {
  }

  lemma FinishLeavesClosed(s: State, c: nat, r: Result)
    requires c < |s.calls|
    ensures Finish(s, c, r).closed == s.closed
  {
    if s.calls[c].kind.Requester? { WakesOnly(Leave(s, c, r)); }
  }

  lemma FailingCloses(s: State, e: Event)
    requires Enabled(s, e) && (e.Close? || e.WriterFails?)
    ensures Step(s, e).closed
  {
    if e.WriterFails? {
      var c := s.writer.value;
      FinishLeavesClosed(SetPc(Shutdown(s).(writer := None, writerActive := false), c, Running), c,
                         Threw(if s.calls[c].pc == InWrite then Closed else WriteFailed));
    }
  }

  /** Of all the steps that leave the connection open, only four kinds take a request out of the registry. */
  lemma OnlyTheseFree(s: State, e: Event, id: u32)
    requires Inv(s) && Enabled(s, e) && id in s.pending && id !in Step(s, e).pending && !Step(s, e).closed
    ensures Frees(s, e, id)
  {
    if !Frees(s, e, id) {
      if e.Close? || e.WriterFails? { FailingCloses(s, e); } else { OthersFreeNothing(s, e, id); }
    }
  }

  // ---- the result ----

  /** A deadline that resumes twice frees its slot and lets nobody through. */
  lemma ExpireTwiceLosesSlot(s: State, c: nat, id: u32)
    requires Inv(s) && id in s.pending && s.pending[id] == c && c < |s.calls|
    requires s.calls[c].armed && s.calls[c].kind.Requester? && ResumesTwice(s.calls[c])
    ensures var t := Expire(s, c); t.pending == s.pending - {id} && t.inFlightWaiters == s.inFlightWaiters
  {
    RegisteredWaitsForNoSlot(s, id);
    ExpireIs(s, c);
  }

  /**
   Whenever a request leaves the registry of a connection that stays open, its slot goes to the request that has
   waited longest: it alone leaves the list, and runs again if it was parked. The one exception is the deadline of a
   request already woken for room: the slot is free, and nobody is let through.
   */
  lemma FreedSlotIsPassedOn(s: State, e: Event, id: u32)
    requires Reachable(s) && Enabled(s, e) && id in s.pending && id !in Step(s, e).pending && !Step(s, e).closed
    ensures Step(s, e).pending == s.pending - {id}
    ensures s.inFlightWaiters != [] ==> (HeadWoken(s, Step(s, e)) <==> !(e.Deadline? && s.calls[e.c].pc.RoomWoken?))
    ensures e.Deadline? && s.calls[e.c].pc.RoomWoken? ==> Step(s, e).inFlightWaiters == s.inFlightWaiters
    ensures s.inFlightWaiters == [] ==> Step(s, e).inFlightWaiters == []
  {
    ReachableInv(s);
    OnlyTheseFree(s, e, id);
    if e.Deadline? {
      DeadlinePassesOnIff(s, e.c, id);
    } else {
      OthersPassOn(s, e, id);
    }
  }

  lemma OthersPassOn(s: State, e: Event, id: u32)
    requires Inv(s) && Frees(s, e, id) && !e.Deadline?
    ensures Step(s, e).pending == s.pending - {id} && HeadWoken(s, Step(s, e))
  {
    if e.InboundResponse? {
      RespondPassesOn(s, e.p);
      return;
    }
    if e.RunCancelled? {
      FinishPassesOn(s, e.c, id, Threw(Cancelled));
      return;
    }
    HandOffPassesOn(s, s.writer.value, id);
  }

  lemma DeadlinePassesOnIff(s: State, c: nat, id: u32)
    requires Inv(s) && Enabled(s, Deadline(c)) && id in s.pending && s.pending[id] == c
    ensures var t := Expire(s, c);
            && t.pending == s.pending - {id}
            && if s.calls[c].pc.RoomWoken? then t.inFlightWaiters == s.inFlightWaiters else HeadWoken(s, t)
  {
    RegisteredWaitsForNoSlot(s, id);
    ResumesTwiceIff(s, c);
    if s.calls[c].pc.RoomWoken? { ExpireTwiceLosesSlot(s, c, id); } else { ExpirePassesOn(s, c, id); }
  }

  // ---- the exception happens ----

  /** A second request finds the only slot taken. */
  lemma RequestWaitsForSlot(s: State) returns (t: State)
    requires Reachable(s) && !s.closed && s.requestId != 0xFFFF_FFFF && |s.pending| >= s.cfg.maxInFlightRequests
    ensures Reachable(t) && |t.calls| == |s.calls| + 1 && t.calls[..|s.calls|] == s.calls
    ensures t.calls[|s.calls|].pc == SlotParked
    ensures t == s.(requestId := s.requestId + 1, calls := t.calls, inFlightWaiters := s.inFlightWaiters + [|s.calls|])
  {
    var e := StartRequest(0, [], NoCompression, false);
    ReachableStep(s, e);
    t := Step(s, e);
  }

  /** A run to the point where the writer has flushed, one request waits for room and another for the only slot. */
  lemma BothWait() returns (s: State)
    ensures Reachable(s) && WriterAt(s, InFlush) && s.writer == Some(0) && !s.closed && s.sendQueue != [] && s.roomWaiters == [2]
    ensures CallAt(s, 2, RoomParked) && CallAt(s, 3, SlotParked) && s.inFlightWaiters == [3] && s.cfg.maxInFlightRequests == 1
    ensures var k := s.calls[2]; k.armed && k.kind.Requester? && k.settled.None? && k.roomCont
    ensures s.pending == map[s.calls[2].kind.packet.messageId := 2]
  {
    var s1 := FirstSend();
    var s2 := SecondSend(s1);
    assert s2.calls[0] == s1.calls[0];
    var s3 := RequestParks(s2);
    assert s3.calls[0] == s2.calls[0];
    var s4 := RequestWaitsForSlot(s3);
    assert s4.calls[0] == s3.calls[0] && s4.calls[2] == s3.calls[2];
    s := WriterFlushes(s4);
  }

  /** In some runs a request stays parked for a slot although one has just become free and nobody else was let through. */
  lemma SlotIsLost()
    ensures exists s, c: nat, h: nat ::
              && Reachable(s) && Enabled(s, Deadline(c)) && CallAt(s, h, SlotParked)
              && var t := Step(s, Deadline(c));
                 !t.closed && |t.pending| < t.cfg.maxInFlightRequests && CallAt(t, h, SlotParked) && t.inFlightWaiters == [h]
  {
    var s := BothWait();
    ReachableStep(s, FlushReturns);
    FlushWakes(s, 2, 3);
    DeadlineLoses(Step(s, FlushReturns), 2, 3);
  }

  lemma FlushWakes(s: State, c: nat, h: nat)
    requires WriterAt(s, InFlush) && !s.closed && s.sendQueue != [] && s.roomWaiters == [c] && s.writer != Some(c) && s.writer != Some(h)
    requires CallAt(s, c, RoomParked) && CallAt(s, h, SlotParked)
    ensures var t := Step(s, FlushReturns);
            && |t.calls| == |s.calls| && t.calls[c] == s.calls[c].(pc := RoomWoken) && t.calls[h] == s.calls[h]
            && t.pending == s.pending && t.inFlightWaiters == s.inFlightWaiters && t.closed == s.closed && t.cfg == s.cfg
  {
    assert Step(s, FlushReturns) == WakeRoom(Take(s, s.writer.value));
  }

  lemma DeadlineLoses(s: State, c: nat, h: nat)
    requires !s.closed && CallAt(s, c, RoomWoken) && CallAt(s, h, SlotParked) && s.inFlightWaiters == [h]
    requires s.calls[c].armed && s.calls[c].kind.Requester? && s.calls[c].settled.None? && s.calls[c].roomCont
    requires s.pending == map[s.calls[c].kind.packet.messageId := c] && s.cfg.maxInFlightRequests == 1
    ensures var t := Step(s, Deadline(c));
            !t.closed && |t.pending| < t.cfg.maxInFlightRequests && CallAt(t, h, SlotParked) && t.inFlightWaiters == [h]
  {
    ExpireIs(s, c);
    assert s.pending - {s.calls[c].kind.packet.messageId} == map[];
  }
}
