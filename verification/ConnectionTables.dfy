/**
 What each step makes of the coroutine it runs, as a table over the state before it, and that it does no more to any
 other coroutine than resume it. The tables name results, limits and counters outright; nothing in them refers to the
 functions that carry the step out.
 */
module ConnectionTables {
  import opened Wrappers
  import opened Packets
  import opened ConnectionModel
  import opened ConnectionInvariants
  import opened ConnectionHistory

  // ---- the tables ----

  /** What a request settled with `o` ends with. */
  ghost function EndOf(o: Outcome): Result {
    match o
    case Answered(p) => Returned(p.payload)
    case Failed(TimedOut) => Threw(Timeout)
    case Failed(ConnectionClosed) => Threw(Closed)
  }

  /** Where a coroutine is once it has nothing left to write: a request has its outcome or waits for it. */
  ghost function AfterSending(k: Call): Pc {
    if !k.kind.Requester? then Done(Sent)
    else if k.settled.Some? then Done(EndOf(k.settled.value))
    else AwaitParked
  }

  /** There is a free slot in the queue and room for `n` more bytes; an empty queue always takes one packet. */
  ghost predicate HasRoom(s: State, n: nat) {
    |s.sendQueue| < s.cfg.mailboxCapacity && (s.queuedBytes == 0 || s.queuedBytes + n <= s.cfg.maxOutboundBytes)
  }

  ghost predicate Oversized(s: State, n: nat) {
    n > s.cfg.maxPayloadLength || n > s.cfg.maxOutboundBytes
  }

  /** Nothing was accepted, and `c` has queued nothing. */
  ghost predicate Unqueued(s: State, t: State, c: nat) {
    t.accepted == s.accepted && c < |t.calls| && !t.calls[c].queued
  }

  /** From `s` to `t` the coroutine `c` tried to queue its packet: it is refused, accepted, or last in line for room. */
  ghost predicate Entered(s: State, t: State, c: nat, kind: Kind)
    requires !kind.Successor?
  {
    if s.closed then CallAt(t, c, Done(Threw(Closed))) && Unqueued(s, t, c)
    else if HasRoom(s, |kind.packet.payload|) then
      && t.accepted == s.accepted + [kind.packet]
      && CallAt(t, c, if !s.writerActive then InWrite else if kind.Sender? then Done(Sent) else AwaitParked) && t.calls[c].queued
    else CallAt(t, c, RoomParked) && Unqueued(s, t, c) && t.roomWaiters == s.roomWaiters + [c]
  }

  /** The same with the size checked first. */
  ghost predicate Offered(s: State, t: State, c: nat, kind: Kind)
    requires !kind.Successor?
  {
    if Oversized(s, |kind.packet.payload|) then CallAt(t, c, Done(Threw(TooLarge))) && Unqueued(s, t, c)
    else Entered(s, t, c, kind)
  }

  /** A request asked for a slot: it is last in line for one, or it tried to queue its packet. */
  ghost predicate AskedForSlot(s: State, t: State, c: nat, kind: Kind)
    requires kind.Requester?
  {
    if s.closed then CallAt(t, c, Done(Threw(Closed))) && Unqueued(s, t, c)
    else if |s.pending| >= s.cfg.maxInFlightRequests then
      CallAt(t, c, SlotParked) && Unqueued(s, t, c) && t.inFlightWaiters == s.inFlightWaiters + [c]
    else Offered(s, t, c, kind)
  }

  // ---- the segments ----

  /** Nothing is accepted and the coroutine is at `pc`. */
  ghost predicate Comes(s: State, t: State, c: nat, pc: Pc) {
    CallAt(t, c, pc) && t.accepted == s.accepted && c < |s.calls| && t.calls[c].queued == s.calls[c].queued
  }

  lemma WakeLeavesEnds(s: State, c: nat, r: Result)
    requires CallAt(s, c, Done(r))
    ensures Comes(s, WakeInFlight(s), c, Done(r))
  {
  }

  lemma FinishTable(s: State, c: nat, r: Result)
    requires c < |s.calls|
    ensures Comes(s, Finish(s, c, r), c, Done(r))
  {
    if !s.calls[c].kind.Requester? {
      return;
    }
    LeaveTable(s, c, r);
    WakeLeavesEnds(Leave(s, c, r), c, r);
  }

  lemma LeaveTable(s: State, c: nat, r: Result)
    requires c < |s.calls| && s.calls[c].kind.Requester?
    ensures Comes(s, Leave(s, c, r), c, Done(r))
  {
  }

  lemma AwaitTable(s: State, c: nat)
    requires c < |s.calls| && s.calls[c].kind.Requester?
    ensures Comes(s, Await(s, c), c, AfterSending(s.calls[c]))
  {
    if s.calls[c].settled.Some? { FinishTable(s, c, EndOf(s.calls[c].settled.value)); }
  }

  lemma AfterEnqueueTable(s: State, c: nat)
    requires c < |s.calls|
    ensures Comes(s, AfterEnqueue(s, c), c, AfterSending(s.calls[c]))
  {
    if s.calls[c].kind.Requester? { AwaitTable(s, c); } else { FinishTable(s, c, Sent); }
  }

  lemma DrainTable(s: State, c: nat)
    requires c < |s.calls|
    ensures Comes(s, DrainLoop(s, c), c, if !s.closed && s.sendQueue != [] then InWrite else AfterSending(s.calls[c]))
  {
    if s.closed || s.sendQueue == [] {
      AfterEnqueueTable(SetPc(s.(writerActive := false, writer := None), c, Running), c);
    }
  }

  lemma BeginDrainTable(s: State, c: nat)
    requires c < |s.calls|
    ensures Comes(s, BeginDrain(s, c), c,
                  if s.writeBuf != [] || (!s.closed && s.sendQueue != []) then InWrite else AfterSending(s.calls[c]))
  {
    if s.writeBuf == [] { DrainTable(SetPc(s.(writerActive := true, writer := Some(c)), c, InFlush), c); }
  }

  lemma PutTable(s: State, c: nat)
    requires c < |s.calls| && !s.calls[c].kind.Successor? && s.calls[c].settled.None? && !s.closed
    ensures var t, kind := Put(s, c), s.calls[c].kind;
            && t.accepted == s.accepted + [kind.packet]
            && CallAt(t, c, if !s.writerActive then InWrite else if kind.Sender? then Done(Sent) else AwaitParked)
            && t.calls[c].queued
  {
    var q := Queue(s, c);
    if s.writerActive { AfterEnqueueTable(q, c); } else { BeginDrainTable(q, c); }
  }

  lemma RoomTable(s: State, c: nat)
    requires c < |s.calls| && !s.calls[c].kind.Successor? && s.calls[c].settled.None? && !s.calls[c].queued
    ensures Entered(s, RoomLoop(s, c), c, s.calls[c].kind)
  {
    if s.closed {
      FinishTable(s, c, Threw(Closed));
      return;
    }
    if HasRoom(s, |s.calls[c].kind.packet.payload|) { PutTable(s, c); }
  }

  lemma EnqueueTable(s: State, c: nat)
    requires c < |s.calls| && !s.calls[c].kind.Successor? && s.calls[c].settled.None? && !s.calls[c].queued
    ensures Offered(s, Enqueue(s, c), c, s.calls[c].kind)
  {
    var n := |s.calls[c].kind.packet.payload|;
    if Oversized(s, n) {
      FinishTable(s, c, Threw(TooLarge));
      return;
    }
    if !s.closed && HasRoom(s, n) { PutTable(s, c); } else { RoomTable(s, c); }
  }

  lemma SlotTable(s: State, c: nat)
    requires c < |s.calls| && s.calls[c].kind.Requester? && s.calls[c].settled.None? && !s.calls[c].queued
    ensures AskedForSlot(s, SlotLoop(s, c), c, s.calls[c].kind)
  {
    if s.closed {
      FinishTable(s, c, Threw(Closed));
      return;
    }
    if |s.pending| < s.cfg.maxInFlightRequests {
      EnqueueTable(SetPc(s.(pending := s.pending[s.calls[c].kind.packet.messageId := c]), c, Running), c);
    }
  }

  // ---- the steps ----

  lemma BeginSendTable(s: State, p: Packet)
    ensures Offered(s, BeginSend(s, p), |s.calls|, Sender(p))
  {
    EnqueueTable(s.(calls := s.calls + [NewCall(Sender(p), Running, false)]), |s.calls|);
  }

  lemma BeginRequestTable(s: State, p: Packet, deadline: bool)
    ensures AskedForSlot(s, BeginRequest(s, p, deadline), |s.calls|, Requester(p))
  {
    SlotTable(s.(requestId := p.messageId, calls := s.calls + [NewCall(Requester(p), Starting, deadline)]), |s.calls|);
  }

  lemma NewKind(s: State, t: State, k: Call)
    requires Keeps(s.(calls := s.calls + [k]), t, None)
    ensures |s.calls| < |t.calls| && CallKeeps(k, t.calls[|s.calls|], None)
  {
    assert CallKeeps((s.calls + [k])[|s.calls|], t.calls[|s.calls|], None);
  }

  lemma SenderKind(s: State, p: Packet)
    ensures var t := BeginSend(s, p); |s.calls| < |t.calls| && t.calls[|s.calls|].kind == Sender(p)
  {
    var k := NewCall(Sender(p), Running, false);
    EnqueueKeeps(s.(calls := s.calls + [k]), |s.calls|);
    NewKind(s, BeginSend(s, p), k);
  }

  lemma RequesterKind(s: State, p: Packet, deadline: bool)
    ensures var t := BeginRequest(s, p, deadline);
            && |s.calls| < |t.calls| && t.calls[|s.calls|].kind == Requester(p)
            && CallKeeps(NewCall(Requester(p), Starting, deadline), t.calls[|s.calls|], None)
  {
    var k := NewCall(Requester(p), Starting, deadline);
    SlotLoopKeeps(s.(requestId := p.messageId, calls := s.calls + [k]), |s.calls|);
    NewKind(s.(requestId := p.messageId), BeginRequest(s, p, deadline), k);
  }

  /** The packet a call is started with. */
  ghost function PacketOf(s: State, e: Event): Packet
    requires e.StartSend? || e.StartResponse? || (e.StartRequest? && s.requestId < 0xFFFF_FFFF)
  {
    match e
    case StartSend(biz, data, z) => Packet(OneWay, NextOneWayId(s.oneWayId), biz, data, [], z, 0)
    case StartResponse(id, biz, data, z) => Packet(Response, id, biz, data, [], z, 0)
    case StartRequest(biz, data, z, _) => Packet(Request, s.requestId + 1, biz, data, [], z, 0)
  }

  /**
   A send, one-way or the response of a handler, is refused exactly when its payload is over one of the two limits,
   else accepted at once exactly when the connection is open and has room for it.
   */
  lemma SendTable(s: State, e: Event)
    requires Enabled(s, e) && (e.StartSend? || e.StartResponse?)
    ensures Offered(s, Step(s, e), |s.calls|, Sender(PacketOf(s, e)))
  {
    if e.StartSend? {
      var id := NextOneWayId(s.oneWayId);
      BeginSendTable(s.(oneWayId := id), MakePacket(OneWay, id, e.bizType, e.data, e.compression));
      return;
    }
    BeginSendTable(s, MakePacket(Response, e.id, e.bizType, e.data, e.compression));
  }

  /** A request waits for a slot exactly when as many as are allowed are in flight. */
  lemma RequestTable(s: State, e: Event)
    requires Enabled(s, e) && e.StartRequest?
    ensures AskedForSlot(s, Step(s, e), |s.calls|, Requester(PacketOf(s, e)))
  {
    RequestIsBegun(s, e);
    BeginRequestTable(s, PacketOf(s, e), e.deadline);
  }

  lemma RequestIsBegun(s: State, e: Event)
    requires Enabled(s, e) && e.StartRequest?
    ensures Step(s, e) == BeginRequest(s, PacketOf(s, e), e.deadline)
  {
  }

  lemma StartedKind(s: State, e: Event)
    requires Enabled(s, e) && (e.StartSend? || e.StartResponse? || e.StartRequest?)
    ensures var t, p := Step(s, e), PacketOf(s, e);
            |s.calls| < |t.calls| && t.calls[|s.calls|].kind == if e.StartRequest? then Requester(p) else Sender(p)
  {
    if e.StartRequest? {
      RequesterKind(s, MakePacket(Request, s.requestId + 1, e.bizType, e.data, e.compression), e.deadline);
      return;
    }
    if e.StartSend? {
      var id := NextOneWayId(s.oneWayId);
      SenderKind(s.(oneWayId := id), MakePacket(OneWay, id, e.bizType, e.data, e.compression));
      return;
    }
    SenderKind(s, MakePacket(Response, e.id, e.bizType, e.data, e.compression));
  }

  /** What a resumed coroutine does when its turn comes. */
  ghost predicate Woken(s: State, t: State, c: nat)
    requires c < |s.calls|
  {
    var k := s.calls[c];
    if k.pc.RoomRefused? then Comes(s, t, c, Done(Threw(Closed)))
    else if k.settled.Some? then Comes(s, t, c, Done(EndOf(k.settled.value)))
    else if k.pc.RoomWoken? && !k.kind.Successor? then Entered(s, t, c, k.kind)
    else k.pc.SlotWoken? && k.kind.Requester? && AskedForSlot(s, t, c, k.kind)
  }

  lemma SlotWokenTable(s: State, c: nat)
    requires CallAt(s, c, SlotWoken) && s.calls[c].kind.Requester? && !s.calls[c].queued
    ensures Woken(s, StepWoken(s, c), c)
  {
    var t := SetPc(s, c, Starting);
    if s.calls[c].settled.Some? { AwaitTable(t, c); } else { SlotTable(t, c); }
  }

  lemma RoomWokenTable(s: State, c: nat)
    requires CallAt(s, c, RoomWoken) && !s.calls[c].kind.Successor? && !s.calls[c].queued
    requires s.calls[c].settled.Some? ==> s.calls[c].kind.Requester?
    ensures Woken(s, StepWoken(s, c), c)
  {
    var t := SetCall(s, c, s.calls[c].(pc := Running, roomCont := false));
    if s.calls[c].settled.Some? { AwaitTable(t, c); } else { RoomTable(t, c); }
  }

  lemma WokenTable(s: State, c: nat)
    requires Core(s) && Enabled(s, RunWoken(c))
    ensures Woken(s, StepWoken(s, c), c)
  {
    Of(s, c);
    if s.calls[c].pc.SlotWoken? {
      SlotWokenTable(s, c);
      return;
    }
    if s.calls[c].pc.RoomWoken? {
      RoomWokenTable(s, c);
      return;
    }
    FinishTable(s, c, if s.calls[c].pc.RoomRefused? then Threw(Closed) else EndOf(s.calls[c].settled.value));
  }

  /** What becomes of the writer at its next step. */
  ghost predicate WriterGoes(s: State, e: Event, t: State)
    requires s.writer.Some? && s.writer.value < |s.calls|
  {
    var c := s.writer.value;
    match e
    case FlushReturns => Comes(s, t, c, if !s.closed && s.sendQueue != [] then InWrite else AfterSending(s.calls[c]))
    case SuccessorStarts =>
      Comes(s, t, c, if s.writeBuf != [] || (!s.closed && s.sendQueue != []) then InWrite else AfterSending(s.calls[c]))
    case WriteReturns => Comes(s, t, c, InFlush)
    case WriterCancelled => Comes(s, t, c, Done(Threw(Cancelled)))
    case WriterFails => Comes(s, t, c, Done(Threw(if s.calls[c].pc.InWrite? then Closed else WriteFailed))) && t.closed
    case _ => false
  }

  lemma WriterTable(s: State, e: Event)
    requires Enabled(s, e)
    requires e.FlushReturns? || e.SuccessorStarts? || e.WriteReturns? || e.WriterCancelled? || e.WriterFails?
    ensures WriterGoes(s, e, Step(s, e))
  {
    var c := s.writer.value;
    match e
    case FlushReturns => DrainTable(s, c);
    case SuccessorStarts => BeginDrainTable(s, c);
    case WriteReturns =>
    case WriterCancelled => FinishTable(HandOff(s, c), c, Threw(Cancelled));
    case WriterFails => WriterFailsTable(s, c, if s.calls[c].pc.InWrite? then Closed else WriteFailed);
  }

  lemma WriterFailsTable(s: State, c: nat, error: CallError)
    requires c < |s.calls|
    ensures var t := Finish(SetPc(Shutdown(s).(writer := None, writerActive := false), c, Running), c, Threw(error));
            Comes(s, t, c, Done(Threw(error))) && t.closed
  {
    var u := SetPc(Shutdown(s).(writer := None, writerActive := false), c, Running);
    ClosedAround(s, c);
    FinishTable(u, c, Threw(error));
    FinishKeeps(u, c, Threw(error));
  }

  /** Close leaves what a coroutine has queued, and accepts nothing. */
  lemma ClosedAround(s: State, c: nat)
    requires c < |s.calls|
    ensures var u := SetPc(Shutdown(s).(writer := None, writerActive := false), c, Running);
            Comes(s, u, c, Running) && u.closed
  {
    ShutdownKeeps(s);
    if !s.closed { assert Shutdown(s).calls[c] == CloseCall(s, c); }
  }

  /** What a cancelled coroutine waits for its turn as. */
  ghost function CancelledAs(pc: Pc): Pc {
    match pc
    case SlotParked => SlotCancelled
    case RoomParked => RoomCancelled
    case _ => AwaitCancelled
  }

  /** What a step makes of the coroutine it runs. */
  ghost predicate TableSays(s: State, e: Event, t: State)
    requires Enabled(s, e)
  {
    match e
    case StartSend(_, _, _) => Offered(s, t, |s.calls|, Sender(PacketOf(s, e)))
    case StartResponse(_, _, _, _) => Offered(s, t, |s.calls|, Sender(PacketOf(s, e)))
    case StartRequest(_, _, _, _) => AskedForSlot(s, t, |s.calls|, Requester(PacketOf(s, e)))
    case RunWoken(c) => Woken(s, t, c)
    case RunCancelled(c) => Comes(s, t, c, Done(Threw(Cancelled)))
    case Cancel(c) => Comes(s, t, c, CancelledAs(s.calls[c].pc))
    case WriteSome(_) => Comes(s, t, s.writer.value, InWrite)
    case ScopeCancelled =>
      if WriterAt(s, Launched) then Comes(s, t, s.writer.value, Done(Threw(Cancelled))) else t.calls == s.calls
    case Deadline(_) => true
    case InboundResponse(_) => true
    case Close => true
    case _ => WriterGoes(s, e, t)
  }

  lemma StepTable(s: State, e: Event)
    requires Core(s) && Enabled(s, e)
    ensures TableSays(s, e, Step(s, e))
  {
    if e.StartSend? || e.StartResponse? {
      SendTable(s, e);
      return;
    }
    if e.StartRequest? {
      RequestTable(s, e);
      return;
    }
    if e.FlushReturns? || e.SuccessorStarts? || e.WriteReturns? || e.WriterCancelled? || e.WriterFails? {
      WriterTable(s, e);
      return;
    }
    if e.RunWoken? {
      WokenTable(s, e.c);
      return;
    }
    if e.RunCancelled? { FinishTable(s, e.c, Threw(Cancelled)); }
  }
}
