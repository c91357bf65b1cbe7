/**
 What a step may do to a call, to the packets accepted and to the socket: outcomes are written once, ends
 are final, a settled request queues nothing, and nothing accepted or written is taken back.
 */
module ConnectionHistory {
  import opened Wrappers
  import opened Packets
  import opened ConnectionModel

  /** From `a` to `b` a call keeps its outcome once it has one; an answer can only be `answer`. */
  ghost predicate CallKeeps(a: Call, b: Call, answer: Option<Packet>) {
    && b.kind == a.kind
    && (a.settled.Some? ==> b.settled == a.settled)
    && (a.settled.None? && b.settled.Some? && b.settled.value.Answered? ==> answer == Some(b.settled.value.response))
    && (a.queued ==> b.queued)
    && (a.settled.Some? && b.queued ==> a.queued)
    && (a.pc.Done? ==> b.pc == a.pc && b.queued == a.queued)
    && (b.armed ==> a.armed) && (a.armed && !b.armed ==> b.pc.Done? || b.settled.Some?)
  }

  ghost predicate Keeps(s: State, t: State, answer: Option<Packet>) {
    && |s.calls| <= |t.calls|
    && (forall c | 0 <= c < |s.calls| :: CallKeeps(s.calls[c], t.calls[c], answer))
    && (forall c | |s.calls| <= c < |t.calls| :: t.calls[c].settled.Some? ==> t.calls[c].settled.value.Failed?)
    && t.cfg == s.cfg
    && s.accepted <= t.accepted
    && (s.closed ==> t.closed && t.accepted == s.accepted)
    && s.requestId <= t.requestId
    && t.oneWayId == s.oneWayId && t.socket == s.socket && t.stranded == s.stranded
  }

  lemma KeepsTransitive(s: State, t: State, u: State, answer: Option<Packet>)
    requires Keeps(s, t, answer) && Keeps(t, u, None)
    ensures Keeps(s, u, answer)
  {
    forall c | 0 <= c < |s.calls| ensures CallKeeps(s.calls[c], u.calls[c], answer) {
      assert CallKeeps(s.calls[c], t.calls[c], answer) && CallKeeps(t.calls[c], u.calls[c], None);
    }
    forall c | |s.calls| <= c < |u.calls| ensures u.calls[c].settled.Some? ==> u.calls[c].settled.value.Failed? {
      if c < |t.calls| { assert CallKeeps(t.calls[c], u.calls[c], None); }
    }
  }

  /** Any change of one call that keeps it, whatever it does to the lists and the queue. */
  lemma OneCallKeeps(s: State, t: State, c: nat, answer: Option<Packet>)
    requires c < |s.calls| == |t.calls| && t.calls == s.calls[c := t.calls[c]] && CallKeeps(s.calls[c], t.calls[c], answer)
    requires t.cfg == s.cfg && s.accepted <= t.accepted && t.socket == s.socket && t.closed == s.closed && t.requestId == s.requestId
    requires t.oneWayId == s.oneWayId && t.stranded == s.stranded && (s.closed ==> t.accepted == s.accepted)
    ensures Keeps(s, t, answer)
  {
  }

  lemma WakeRoomKeeps(s: State)
    ensures Keeps(s, WakeRoom(s), None)
  {
    if s.roomWaiters != [] && s.roomWaiters[0] < |s.calls| { OneCallKeeps(s, WakeRoom(s), s.roomWaiters[0], None); }
  }

  lemma WakeInFlightKeeps(s: State)
    ensures Keeps(s, WakeInFlight(s), None)
  {
    if s.inFlightWaiters != [] && s.inFlightWaiters[0] < |s.calls| {
      OneCallKeeps(s, WakeInFlight(s), s.inFlightWaiters[0], None);
    }
  }

  /** A call that has not ended. */
  predicate Live(s: State, c: nat) {
    c < |s.calls| && !s.calls[c].pc.Done?
  }

  lemma SetPcKeeps(s: State, c: nat, pc: Pc)
    requires Live(s, c)
    ensures Keeps(s, SetPc(s, c, pc), None)
  {
    OneCallKeeps(s, SetPc(s, c, pc), c, None);
  }

  lemma FinishKeeps(s: State, c: nat, r: Result)
    requires Live(s, c)
    ensures Keeps(s, Finish(s, c, r), None)
  {
    if s.calls[c].kind.Requester? {
      var t := Leave(s, c, r);
      OneCallKeeps(s, t, c, None);
      WakeInFlightKeeps(t);
      KeepsTransitive(s, t, WakeInFlight(t), None);
    } else {
      SetPcKeeps(s, c, Done(r));
    }
  }

  lemma AwaitKeeps(s: State, c: nat)
    requires Live(s, c)
    ensures Keeps(s, Await(s, c), None)
  {
    if s.calls[c].settled.Some? {
      FinishKeeps(s, c, ResultOf(s.calls[c].settled.value));
    } else {
      OneCallKeeps(s, Await(s, c), c, None);
    }
  }

  lemma AfterEnqueueKeeps(s: State, c: nat)
    requires Live(s, c)
    ensures Keeps(s, AfterEnqueue(s, c), None)
  {
    if s.calls[c].kind.Requester? { AwaitKeeps(s, c); } else { FinishKeeps(s, c, Sent); }
  }

  lemma DrainLoopKeeps(s: State, c: nat)
    requires Live(s, c)
    ensures Keeps(s, DrainLoop(s, c), None)
  {
    if !s.closed && s.sendQueue != [] {
      var t := Take(s, c);
      OneCallKeeps(s, t, c, None);
      WakeRoomKeeps(t);
      KeepsTransitive(s, t, WakeRoom(t), None);
      return;
    }
    var t := SetPc(s.(writerActive := false, writer := None), c, Running);
    OneCallKeeps(s, t, c, None);
    AfterEnqueueKeeps(t, c);
    KeepsTransitive(s, t, AfterEnqueue(t, c), None);
  }

  lemma BeginDrainKeeps(s: State, c: nat)
    requires Live(s, c)
    ensures Keeps(s, BeginDrain(s, c), None)
  {
    var s1 := s.(writerActive := true, writer := Some(c));
    if s.writeBuf != [] {
      OneCallKeeps(s, SetPc(s1, c, InWrite), c, None);
      return;
    }
    var t := SetPc(s1, c, InFlush);
    OneCallKeeps(s, t, c, None);
    DrainLoopKeeps(t, c);
    KeepsTransitive(s, t, DrainLoop(t, c), None);
  }

  /** Only an unsettled call on an open connection queues its packet. */
  lemma PutKeeps(s: State, c: nat)
    requires Live(s, c) && !s.calls[c].kind.Successor? && s.calls[c].settled.None? && !s.closed
    ensures Keeps(s, Put(s, c), None)
  {
    var q := Queue(s, c);
    OneCallKeeps(s, q, c, None);
    if s.writerActive {
      AfterEnqueueKeeps(q, c);
      KeepsTransitive(s, q, AfterEnqueue(q, c), None);
      return;
    }
    BeginDrainKeeps(q, c);
    KeepsTransitive(s, q, BeginDrain(q, c), None);
  }

  lemma RoomLoopKeeps(s: State, c: nat)
    requires Live(s, c) && !s.calls[c].kind.Successor?
    ensures Keeps(s, RoomLoop(s, c), None)
  {
    var call := s.calls[c];
    if call.settled.Some? {
      AwaitKeeps(s, c);
      return;
    }
    if s.closed {
      FinishKeeps(s, c, Threw(Closed));
      return;
    }
    if RoomFor(s, PacketBytes(call.kind.packet)) {
      PutKeeps(s, c);
      return;
    }
    OneCallKeeps(s, RoomLoop(s, c), c, None);
  }

  lemma EnqueueKeeps(s: State, c: nat)
    requires Live(s, c) && !s.calls[c].kind.Successor? && s.calls[c].settled.None?
    ensures Keeps(s, Enqueue(s, c), None)
  {
    var p := s.calls[c].kind.packet;
    if SizeRefused(s.cfg, p) {
      FinishKeeps(s, c, Threw(TooLarge));
      return;
    }
    if !s.closed && RoomFor(s, PacketBytes(p)) {
      PutKeeps(s, c);
      return;
    }
    RoomLoopKeeps(s, c);
  }

  lemma SlotLoopKeeps(s: State, c: nat)
    requires Live(s, c) && s.calls[c].kind.Requester?
    ensures Keeps(s, SlotLoop(s, c), None)
  {
    var call := s.calls[c];
    if call.settled.Some? {
      AwaitKeeps(s, c);
      return;
    }
    if s.closed {
      FinishKeeps(s, c, Threw(Closed));
      return;
    }
    if |s.pending| >= s.cfg.maxInFlightRequests {
      OneCallKeeps(s, SlotLoop(s, c), c, None);
      return;
    }
    RegisterKeeps(s, c);
  }

  lemma RegisterKeeps(s: State, c: nat)
    requires Live(s, c) && s.calls[c].kind.Requester? && s.calls[c].settled.None?
    ensures Keeps(s, Enqueue(SetPc(s.(pending := s.pending[s.calls[c].kind.packet.messageId := c]), c, Running), c), None)
  {
    var t := SetPc(s.(pending := s.pending[s.calls[c].kind.packet.messageId := c]), c, Running);
    OneCallKeeps(s, t, c, None);
    EnqueueKeeps(t, c);
    KeepsTransitive(s, t, Enqueue(t, c), None);
  }

  lemma ExpiredKeeps(s: State, c: nat)
    requires Live(s, c) && s.calls[c].kind.Requester?
    ensures Keeps(s, Expired(s, c), None)
  {
    OneCallKeeps(s, Expired(s, c), c, None);
  }

  lemma ExpireKeeps(s: State, c: nat)
    requires Live(s, c) && s.calls[c].kind.Requester?
    ensures Keeps(s, Expire(s, c), None)
  {
    if s.calls[c].settled.Some? {
      OneCallKeeps(s, SetCall(s, c, s.calls[c].(armed := false)), c, None);
      return;
    }
    var t := Expired(s, c);
    ExpiredKeeps(s, c);
    if ResumesTwice(s.calls[c]) {
      return;
    }
    WakeInFlightKeeps(t);
    KeepsTransitive(s, t, WakeInFlight(t), None);
  }

  lemma RespondKeeps(s: State, p: Packet)
    ensures Keeps(s, Respond(s, p), Some(p))
  {
    if p.messageId in s.pending {
      var c, t := s.pending[p.messageId], Completed(s, p);
      if c < |s.calls| { OneCallKeeps(s, t, c, Some(p)); }
      WakeInFlightKeeps(t);
      KeepsTransitive(s, t, WakeInFlight(t), Some(p));
    }
  }

  lemma ShutdownKeeps(s: State)
    ensures Keeps(s, Shutdown(s), None)
  {
    if !s.closed {
      var t := Shutdown(s);
      forall c | 0 <= c < |s.calls| ensures CallKeeps(s.calls[c], t.calls[c], None) {
        assert t.calls[c] == CloseCall(s, c);
      }
    }
  }

  /** The packet an event brings, if it is a Response. */
  function AnswerOf(e: Event): Option<Packet> {
    if e.InboundResponse? then Some(e.p) else None
  }

  lemma NewCallKeeps(s: State, t: State, call: Call)
    requires t.calls == s.calls + [call] && call.settled.None?
    requires t.cfg == s.cfg && t.accepted == s.accepted && t.socket == s.socket && t.closed == s.closed && s.requestId <= t.requestId
    requires t.oneWayId == s.oneWayId && t.stranded == s.stranded
    ensures Keeps(s, t, None)
  {
  }

  lemma BeginSendKeeps(s: State, p: Packet)
    ensures Keeps(s, BeginSend(s, p), None)
  {
    var t := s.(calls := s.calls + [NewCall(Sender(p), Running, false)]);
    NewCallKeeps(s, t, NewCall(Sender(p), Running, false));
    EnqueueKeeps(t, |s.calls|);
    KeepsTransitive(s, t, BeginSend(s, p), None);
  }

  lemma BeginRequestKeeps(s: State, p: Packet, deadline: bool)
    requires s.requestId <= p.messageId
    ensures Keeps(s, BeginRequest(s, p, deadline), None)
  {
    var k := NewCall(Requester(p), Starting, deadline);
    var t := s.(requestId := p.messageId, calls := s.calls + [k]);
    NewCallKeeps(s, t, k);
    SlotLoopKeeps(t, |s.calls|);
    KeepsTransitive(s, t, BeginRequest(s, p, deadline), None);
  }

  lemma SlotWokenKeeps(s: State, c: nat)
    requires Live(s, c) && s.calls[c].kind.Requester?
    ensures Keeps(s, SlotLoop(SetPc(s, c, Starting), c), None)
  {
    var t := SetPc(s, c, Starting);
    SetPcKeeps(s, c, Starting);
    SlotLoopKeeps(t, c);
    KeepsTransitive(s, t, SlotLoop(t, c), None);
  }

  lemma RoomWokenKeeps(s: State, c: nat)
    requires Live(s, c) && !s.calls[c].kind.Successor?
    ensures Keeps(s, RoomLoop(SetCall(s, c, s.calls[c].(pc := Running, roomCont := false)), c), None)
  {
    var t := SetCall(s, c, s.calls[c].(pc := Running, roomCont := false));
    OneCallKeeps(s, t, c, None);
    RoomLoopKeeps(t, c);
    KeepsTransitive(s, t, RoomLoop(t, c), None);
  }

  lemma WokenKeeps(s: State, c: nat)
    requires Enabled(s, RunWoken(c))
    ensures Keeps(s, StepWoken(s, c), None)
  {
    var call := s.calls[c];
    if call.pc == SlotWoken {
      if call.kind.Requester? { SlotWokenKeeps(s, c); }
      return;
    }
    if call.pc == RoomWoken {
      if !call.kind.Successor? { RoomWokenKeeps(s, c); }
      return;
    }
    if call.pc == RoomRefused {
      FinishKeeps(s, c, Threw(Closed));
      return;
    }
    if call.settled.Some? { FinishKeeps(s, c, ResultOf(call.settled.value)); }
  }

  lemma HandOffKeeps(s: State, c: nat)
    requires Live(s, c)
    ensures Keeps(s.(stranded := HandOff(s, c).stranded), HandOff(s, c), None) && Live(HandOff(s, c), c)
  {
  }

  lemma WriterCancelledKeeps(s: State, c: nat)
    requires Live(s, c)
    ensures var t := Finish(HandOff(s, c), c, Threw(Cancelled));
            Keeps(s.(stranded := HandOff(s, c).stranded), t, None) && t.stranded == HandOff(s, c).stranded
  {
    var t := HandOff(s, c);
    HandOffKeeps(s, c);
    FinishKeeps(t, c, Threw(Cancelled));
    KeepsTransitive(s.(stranded := t.stranded), t, Finish(t, c, Threw(Cancelled)), None);
  }

  lemma WriterFailsKeeps(s: State, c: nat, error: CallError)
    requires c < |s.calls| && (s.calls[c].pc.InWrite? || s.calls[c].pc.InFlush?)
    ensures Keeps(s, Finish(SetPc(Shutdown(s).(writer := None, writerActive := false), c, Running), c, Threw(error)), None)
  {
    var t := Shutdown(s);
    var u := SetPc(t.(writer := None, writerActive := false), c, Running);
    ShutdownKeeps(s);
    CloseLeavesWriter(s, c);
    OneCallKeeps(t, u, c, None);
    KeepsTransitive(s, t, u, None);
    FinishKeeps(u, c, Threw(error));
    KeepsTransitive(s, u, Finish(u, c, Threw(error)), None);
  }

  lemma CloseLeavesWriter(s: State, c: nat)
    requires c < |s.calls| && (s.calls[c].pc.InWrite? || s.calls[c].pc.InFlush?)
    ensures |Shutdown(s).calls| == |s.calls| && Shutdown(s).calls[c].pc == s.calls[c].pc
  {
    if !s.closed { assert Shutdown(s).calls[c] == CloseCall(s, c); }
  }

  lemma StartSendKeeps(s: State, e: Event)
    requires Enabled(s, e) && e.StartSend?
    ensures Keeps(s.(oneWayId := NextOneWayId(s.oneWayId)), Step(s, e), None)
  {
    var id := NextOneWayId(s.oneWayId);
    BeginSendKeeps(s.(oneWayId := id), MakePacket(OneWay, id, e.bizType, e.data, e.compression));
  }

  lemma CancelKeeps(s: State, c: nat)
    requires Enabled(s, Cancel(c))
    ensures Keeps(s, StepCancel(s, c), None)
  {
    OneCallKeeps(s, StepCancel(s, c), c, None);
  }

  lemma ScopeCancelledKeeps(s: State)
    requires Enabled(s, ScopeCancelled)
    ensures var t := Step(s, ScopeCancelled);
            Keeps(s.(stranded := t.stranded), t, None) && t.stranded == (s.stranded || WriterAt(s, Launched))
  {
  }

  /** The steps after which nobody will write again. */
  ghost predicate Strands(s: State, e: Event) {
    || (e.ScopeCancelled? && WriterAt(s, Launched))
    || (e.WriterCancelled? && !s.scopeActive && !s.closed && Unsent(s))
  }

  lemma WriterKeeps(s: State, e: Event)
    requires Enabled(s, e) && (e.WriteReturns? || e.FlushReturns? || e.WriterFails? || e.SuccessorStarts?)
    ensures Keeps(s, Step(s, e), None)
  {
    var c := s.writer.value;
    if e.WriteReturns? {
      SetPcKeeps(s, c, InFlush);
      return;
    }
    if e.FlushReturns? {
      DrainLoopKeeps(s, c);
      return;
    }
    if e.SuccessorStarts? {
      BeginDrainKeeps(s, c);
      return;
    }
    WriterFailsKeeps(s, c, if s.calls[c].pc == InWrite then Closed else WriteFailed);
  }

  /** The steps that leave the one-way counter, the socket and the fate of the writer alone. */
  lemma OrdinaryKeeps(s: State, e: Event)
    requires Enabled(s, e) && !e.StartSend? && !e.WriteSome? && !e.WriterCancelled? && !e.ScopeCancelled?
    requires e.Deadline? ==> Live(s, e.c)
    ensures Keeps(s, Step(s, e), AnswerOf(e))
  {
    if e.WriteReturns? || e.FlushReturns? || e.WriterFails? || e.SuccessorStarts? {
      WriterKeeps(s, e);
      return;
    }
    match e
    case StartResponse(id, biz, data, z) => BeginSendKeeps(s, MakePacket(Response, id, biz, data, z));
    case StartRequest(biz, data, z, deadline) => BeginRequestKeeps(s, MakePacket(Request, s.requestId + 1, biz, data, z), deadline);
    case RunWoken(c) => WokenKeeps(s, c);
    case RunCancelled(c) => FinishKeeps(s, c, Threw(Cancelled));
    case Cancel(c) => CancelKeeps(s, c);
    case Deadline(c) => ExpireKeeps(s, c);
    case InboundResponse(p) => RespondKeeps(s, p);
    case Close => ShutdownKeeps(s);
  }

  /**
   Every step keeps what has happened; only an inbound Response can answer a request, and with itself; only the
   socket taking bytes puts bytes on it.
   */
  lemma StepKeeps(s: State, e: Event)
    requires Enabled(s, e)
    requires e.Deadline? ==> Live(s, e.c)
    ensures var t := Step(s, e); Keeps(s.(oneWayId := t.oneWayId, socket := t.socket, stranded := t.stranded), t, AnswerOf(e))
    ensures Step(s, e).oneWayId == if e.StartSend? then NextOneWayId(s.oneWayId) else s.oneWayId
    ensures Step(s, e).socket == if e.WriteSome? then s.socket + s.writeBuf[..e.k] else s.socket
    ensures Step(s, e).stranded == (s.stranded || Strands(s, e))
  {
    if e.StartSend? {
      StartSendKeeps(s, e);
      return;
    }
    if e.WriteSome? {
      return;
    }
    if e.WriterCancelled? {
      WriterCancelledKeeps(s, s.writer.value);
      return;
    }
    if e.ScopeCancelled? {
      ScopeCancelledKeeps(s);
      return;
    }
    OrdinaryKeeps(s, e);
  }
}
