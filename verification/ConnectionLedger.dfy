/**
 Whose packets the connection accepts: every call's at most once, and the packet of every call that got past
 `enqueue` exactly once. With the byte stream of `ConnectionRuns` this follows a packet from the call to the socket.
 */
module ConnectionLedger {
  import opened Wrappers
  import opened Packets
  import opened ConnectionModel
  import opened ConnectionInvariants
  import opened ConnectionRuns

  ghost function QueuedBy(call: Call): multiset<Packet> {
    if call.queued && !call.kind.Successor? then multiset{call.kind.packet} else multiset{}
  }

  /** The packets of the calls that have queued theirs. */
  ghost function QueuedPackets(calls: seq<Call>): multiset<Packet> {
    if calls == [] then multiset{}
    else QueuedPackets(calls[..|calls| - 1]) + QueuedBy(calls[|calls| - 1])
  }

  /** Each accepted packet is one call's, and each call's at most once. */
  ghost predicate LedgerOk(s: State) {
    multiset(s.accepted) == QueuedPackets(s.calls)
  }

  ghost predicate SameEntry(a: Call, b: Call) {
    a.kind == b.kind && a.queued == b.queued
  }

  /** Nothing is queued from `s` to `t`. */
  ghost predicate Quiet(s: State, t: State) {
    && t.accepted == s.accepted && |t.calls| == |s.calls|
    && forall i {:trigger SameEntry(s.calls[i], t.calls[i])} | 0 <= i < |s.calls| :: SameEntry(s.calls[i], t.calls[i])
  }

  // ---- sums over the calls ----

  lemma {:induction false} SameQueuedPackets(a: seq<Call>, b: seq<Call>)
    requires |a| == |b| && forall i {:trigger SameEntry(a[i], b[i])} | 0 <= i < |a| :: SameEntry(a[i], b[i])
    ensures QueuedPackets(a) == QueuedPackets(b)
    decreases |a|
  {
    if a != [] {
      var n := |a| - 1;
      assert SameEntry(a[n], b[n]);
      forall i | 0 <= i < n ensures SameEntry(a[..n][i], b[..n][i]) { assert SameEntry(a[i], b[i]); }
      SameQueuedPackets(a[..n], b[..n]);
    }
  }

  lemma {:induction false} QueuedPacketsOfUpdate(calls: seq<Call>, c: nat, call: Call)
    requires c < |calls| && QueuedBy(calls[c]) == multiset{}
    ensures QueuedPackets(calls[c := call]) == QueuedPackets(calls) + QueuedBy(call)
    decreases |calls|
  {
    var n := |calls| - 1;
    if c < n {
      assert calls[c := call][..n] == calls[..n][c := call];
      QueuedPacketsOfUpdate(calls[..n], c, call);
    } else {
      assert calls[c := call][..n] == calls[..n];
    }
  }

  lemma QuietLedger(s: State, t: State)
    requires LedgerOk(s) && Quiet(s, t)
    ensures LedgerOk(t)
  {
    SameQueuedPackets(s.calls, t.calls);
  }

  /** A new call, with nothing queued yet, may appear beside quiet changes. */
  lemma NewCallLedger(s: State, t: State, call: Call)
    requires LedgerOk(s) && !call.queued
    requires t.accepted == s.accepted && t.calls == s.calls + [call]
    ensures LedgerOk(t)
  {
    assert t.calls[..|s.calls|] == s.calls;
  }

  // ---- the segments that queue nothing ----

  lemma QuietTransitive(s: State, t: State, u: State)
    requires Quiet(s, t) && Quiet(t, u)
    ensures Quiet(s, u)
  {
    forall i | 0 <= i < |s.calls| ensures SameEntry(s.calls[i], u.calls[i]) {
      assert SameEntry(s.calls[i], t.calls[i]) && SameEntry(t.calls[i], u.calls[i]);
    }
  }

  /** Any change of one call but for its kind and what it has queued. */
  lemma OneCallQuiet(s: State, t: State, c: nat)
    requires c < |s.calls| == |t.calls| && t.calls == s.calls[c := t.calls[c]] && SameEntry(s.calls[c], t.calls[c])
    requires t.accepted == s.accepted
    ensures Quiet(s, t)
  {
  }

  lemma WakeRoomQuiet(s: State)
    ensures Quiet(s, WakeRoom(s))
  {
    if s.roomWaiters != [] && s.roomWaiters[0] < |s.calls| { OneCallQuiet(s, WakeRoom(s), s.roomWaiters[0]); }
  }

  lemma WakeInFlightQuiet(s: State)
    ensures Quiet(s, WakeInFlight(s))
  {
    if s.inFlightWaiters != [] && s.inFlightWaiters[0] < |s.calls| { OneCallQuiet(s, WakeInFlight(s), s.inFlightWaiters[0]); }
  }

  lemma FinishQuiet(s: State, c: nat, r: Result)
    requires c < |s.calls|
    ensures Quiet(s, Finish(s, c, r))
  {
    if s.calls[c].kind.Requester? {
      var t := Leave(s, c, r);
      OneCallQuiet(s, t, c);
      WakeInFlightQuiet(t);
      QuietTransitive(s, t, WakeInFlight(t));
    } else {
      OneCallQuiet(s, Finish(s, c, r), c);
    }
  }

  lemma AwaitQuiet(s: State, c: nat)
    requires c < |s.calls|
    ensures Quiet(s, Await(s, c))
  {
    if s.calls[c].settled.Some? {
      FinishQuiet(s, c, ResultOf(s.calls[c].settled.value));
    } else {
      OneCallQuiet(s, Await(s, c), c);
    }
  }

  lemma AfterEnqueueQuiet(s: State, c: nat)
    requires c < |s.calls|
    ensures Quiet(s, AfterEnqueue(s, c))
  {
    if s.calls[c].kind.Requester? { AwaitQuiet(s, c); } else { FinishQuiet(s, c, Sent); }
  }

  lemma DrainLoopQuiet(s: State, c: nat)
    requires c < |s.calls|
    ensures Quiet(s, DrainLoop(s, c))
  {
    if !s.closed && s.sendQueue != [] {
      var t := Take(s, c);
      OneCallQuiet(s, t, c);
      WakeRoomQuiet(t);
      QuietTransitive(s, t, WakeRoom(t));
    } else {
      var t := SetPc(s.(writerActive := false, writer := None), c, Running);
      OneCallQuiet(s, t, c);
      AfterEnqueueQuiet(t, c);
      QuietTransitive(s, t, AfterEnqueue(t, c));
    }
  }

  lemma BeginDrainQuiet(s: State, c: nat)
    requires c < |s.calls|
    ensures Quiet(s, BeginDrain(s, c))
  {
    if s.writeBuf != [] {
      OneCallQuiet(s, BeginDrain(s, c), c);
    } else {
      var t := SetPc(s.(writerActive := true, writer := Some(c)), c, InFlush);
      OneCallQuiet(s, t, c);
      DrainLoopQuiet(t, c);
      QuietTransitive(s, t, DrainLoop(t, c));
    }
  }

  lemma ShutdownQuiet(s: State)
    ensures Quiet(s, Shutdown(s))
  {
    forall c | 0 <= c < |s.calls| ensures SameEntry(s.calls[c], Shutdown(s).calls[c]) {
    }
  }

  lemma ExpireQuiet(s: State, c: nat)
    requires c < |s.calls| && s.calls[c].kind.Requester?
    ensures Quiet(s, Expire(s, c))
  {
    if s.calls[c].settled.Some? {
      OneCallQuiet(s, Expire(s, c), c);
      return;
    }
    var t := Expired(s, c);
    OneCallQuiet(s, t, c);
    if !ResumesTwice(s.calls[c]) {
      WakeInFlightQuiet(t);
      QuietTransitive(s, t, WakeInFlight(t));
    }
  }

  lemma RespondQuiet(s: State, p: Packet)
    ensures Quiet(s, Respond(s, p))
  {
    if p.messageId in s.pending {
      var c, s1 := s.pending[p.messageId], s.(pending := s.pending - {p.messageId});
      var t := if c < |s.calls| then SetCall(s1, c, Settle(s.calls[c], Answered(p))) else s1;
      if c < |s.calls| { OneCallQuiet(s, t, c); }
      WakeInFlightQuiet(t);
      QuietTransitive(s, t, WakeInFlight(t));
    }
  }

  lemma WriterFailsQuiet(s: State, c: nat, error: CallError)
    requires c < |s.calls|
    ensures Quiet(s, Finish(SetPc(Shutdown(s).(writer := None, writerActive := false), c, Running), c, Threw(error)))
  {
    var t := Shutdown(s);
    var u := SetPc(t.(writer := None, writerActive := false), c, Running);
    ShutdownQuiet(s);
    OneCallQuiet(t, u, c);
    QuietTransitive(s, t, u);
    FinishQuiet(u, c, Threw(error));
    QuietTransitive(s, u, Finish(u, c, Threw(error)));
  }

  // ---- the segments that may queue ----

  lemma QueueLedger(s: State, c: nat)
    requires LedgerOk(s) && c < |s.calls| && !s.calls[c].kind.Successor? && !s.calls[c].queued
    ensures LedgerOk(Queue(s, c))
  {
    QueuedPacketsOfUpdate(s.calls, c, s.calls[c].(queued := true));
  }

  lemma PutLedger(s: State, c: nat)
    requires LedgerOk(s) && c < |s.calls| && !s.calls[c].kind.Successor? && !s.calls[c].queued
    ensures LedgerOk(Put(s, c))
  {
    QueueLedger(s, c);
    if s.writerActive { AfterEnqueueQuiet(Queue(s, c), c); } else { BeginDrainQuiet(Queue(s, c), c); }
    QuietLedger(Queue(s, c), Put(s, c));
  }

  lemma RoomLoopLedger(s: State, c: nat)
    requires LedgerOk(s) && c < |s.calls| && !s.calls[c].kind.Successor? && !s.calls[c].queued
    ensures LedgerOk(RoomLoop(s, c))
  {
    if s.calls[c].settled.None? && !s.closed && RoomFor(s, PacketBytes(s.calls[c].kind.packet)) {
      PutLedger(s, c);
      return;
    }
    RoomLoopQuiet(s, c);
    QuietLedger(s, RoomLoop(s, c));
  }

  lemma RoomLoopQuiet(s: State, c: nat)
    requires c < |s.calls| && !s.calls[c].kind.Successor?
    requires s.calls[c].settled.Some? || s.closed || !RoomFor(s, PacketBytes(s.calls[c].kind.packet))
    ensures Quiet(s, RoomLoop(s, c))
  {
    if s.calls[c].settled.Some? {
      AwaitQuiet(s, c);
    } else if s.closed {
      FinishQuiet(s, c, Threw(Closed));
    } else {
      OneCallQuiet(s, RoomLoop(s, c), c);
    }
  }

  lemma EnqueueLedger(s: State, c: nat)
    requires LedgerOk(s) && c < |s.calls| && !s.calls[c].kind.Successor? && !s.calls[c].queued
    ensures LedgerOk(Enqueue(s, c))
  {
    var p := s.calls[c].kind.packet;
    if SizeRefused(s.cfg, p) {
      FinishQuiet(s, c, Threw(TooLarge));
      QuietLedger(s, Enqueue(s, c));
    } else if !s.closed && RoomFor(s, PacketBytes(p)) {
      PutLedger(s, c);
    } else {
      RoomLoopLedger(s, c);
    }
  }

  lemma SlotLoopLedger(s: State, c: nat)
    requires LedgerOk(s) && c < |s.calls| && s.calls[c].kind.Requester? && !s.calls[c].queued
    ensures LedgerOk(SlotLoop(s, c))
  {
    var call := s.calls[c];
    if call.settled.Some? || s.closed || |s.pending| >= s.cfg.maxInFlightRequests {
      SlotLoopQuiet(s, c);
      QuietLedger(s, SlotLoop(s, c));
      return;
    }
    var t := SetPc(s.(pending := s.pending[call.kind.packet.messageId := c]), c, Running);
    OneCallQuiet(s, t, c);
    QuietLedger(s, t);
    EnqueueLedger(t, c);
  }

  lemma SlotLoopQuiet(s: State, c: nat)
    requires c < |s.calls| && s.calls[c].kind.Requester?
    requires s.calls[c].settled.Some? || s.closed || |s.pending| >= s.cfg.maxInFlightRequests
    ensures Quiet(s, SlotLoop(s, c))
  {
    if s.calls[c].settled.Some? {
      AwaitQuiet(s, c);
    } else if s.closed {
      FinishQuiet(s, c, Threw(Closed));
    } else {
      OneCallQuiet(s, SlotLoop(s, c), c);
    }
  }

  // ---- every step ----

  lemma StartLedger(s: State, e: Event)
    requires LedgerOk(s) && Enabled(s, e) && (e.StartSend? || e.StartResponse? || e.StartRequest?)
    ensures LedgerOk(Step(s, e))
  {
    if e.StartSend? {
      var id := NextOneWayId(s.oneWayId);
      var k := NewCall(Sender(MakePacket(OneWay, id, e.bizType, e.data, e.compression)), Running, false);
      var t := s.(oneWayId := id, calls := s.calls + [k]);
      NewCallLedger(s, t, k);
      EnqueueLedger(t, |s.calls|);
      return;
    }
    if e.StartResponse? {
      var k := NewCall(Sender(MakePacket(Response, e.id, e.bizType, e.data, e.compression)), Running, false);
      var t := s.(calls := s.calls + [k]);
      NewCallLedger(s, t, k);
      EnqueueLedger(t, |s.calls|);
      return;
    }
    var p := MakePacket(Request, s.requestId + 1, e.bizType, e.data, e.compression);
    var k := NewCall(Requester(p), Starting, e.deadline);
    var t := s.(requestId := p.messageId, calls := s.calls + [k]);
    NewCallLedger(s, t, k);
    SlotLoopLedger(t, |s.calls|);
  }

  lemma WokenLedger(s: State, c: nat)
    requires Inv(s) && LedgerOk(s) && Enabled(s, RunWoken(c))
    ensures LedgerOk(StepWoken(s, c))
  {
    var call := s.calls[c];
    Of(s, c);
    if call.pc == SlotWoken {
      OneCallQuiet(s, SetPc(s, c, Starting), c);
      QuietLedger(s, SetPc(s, c, Starting));
      SlotLoopLedger(SetPc(s, c, Starting), c);
      return;
    }
    if call.pc == RoomWoken {
      var t := SetCall(s, c, call.(pc := Running, roomCont := false));
      OneCallQuiet(s, t, c);
      QuietLedger(s, t);
      RoomLoopLedger(t, c);
      return;
    }
    if call.pc == RoomRefused { FinishQuiet(s, c, Threw(Closed)); } else { FinishQuiet(s, c, ResultOf(call.settled.value)); }
    QuietLedger(s, StepWoken(s, c));
  }

  lemma WriterCancelledLedger(s: State, c: nat)
    requires LedgerOk(s) && c < |s.calls|
    ensures LedgerOk(Finish(HandOff(s, c), c, Threw(Cancelled)))
  {
    var t := HandOff(s, c);
    if |t.calls| == |s.calls| {
      OneCallQuiet(s, t, c);
      QuietLedger(s, t);
    } else {
      var u := SetPc(s, c, Running);
      OneCallQuiet(s, u, c);
      QuietLedger(s, u);
      NewCallLedger(u, t, NewCall(Successor, Launched, false));
    }
    FinishQuiet(t, c, Threw(Cancelled));
    QuietLedger(t, Finish(t, c, Threw(Cancelled)));
  }

  lemma WriterStepQuiet(s: State, e: Event)
    requires Enabled(s, e) && (e.FlushReturns? || e.SuccessorStarts? || e.WriterFails? || e.WriteReturns? || e.ScopeCancelled?)
    ensures Quiet(s, Step(s, e))
  {
    match e
    case FlushReturns => DrainLoopQuiet(s, s.writer.value);
    case SuccessorStarts => BeginDrainQuiet(s, s.writer.value);
    case WriterFails =>
      var c := s.writer.value;
      WriterFailsQuiet(s, c, if s.calls[c].pc == InWrite then Closed else WriteFailed);
    case WriteReturns => OneCallQuiet(s, Step(s, e), s.writer.value);
    case ScopeCancelled => if WriterAt(s, Launched) { OneCallQuiet(s, Step(s, e), s.writer.value); }
  }

  lemma OtherStepQuiet(s: State, e: Event)
    requires Enabled(s, e)
    requires !e.StartSend? && !e.StartResponse? && !e.StartRequest? && !e.RunWoken? && !e.WriterCancelled?
    ensures Quiet(s, Step(s, e))
  {
    if e.FlushReturns? || e.SuccessorStarts? || e.WriterFails? || e.WriteReturns? || e.ScopeCancelled? {
      WriterStepQuiet(s, e);
      return;
    }
    match e
    case RunCancelled(c) => FinishQuiet(s, c, Threw(Cancelled));
    case Cancel(c) => OneCallQuiet(s, Step(s, e), c);
    case Deadline(c) => ExpireQuiet(s, c);
    case InboundResponse(p) => RespondQuiet(s, p);
    case Close => ShutdownQuiet(s);
    case WriteSome(_) =>
  }

  lemma StepLedger(s: State, e: Event)
    requires Inv(s) && LedgerOk(s) && Enabled(s, e)
    ensures LedgerOk(Step(s, e))
  {
    match e
    case StartSend(_, _, _) => StartLedger(s, e);
    case StartResponse(_, _, _, _) => StartLedger(s, e);
    case StartRequest(_, _, _, _) => StartLedger(s, e);
    case RunWoken(c) => WokenLedger(s, c);
    case WriterCancelled => WriterCancelledLedger(s, s.writer.value);
    case _ =>
      OtherStepQuiet(s, e);
      QuietLedger(s, Step(s, e));
  }

  lemma {:induction false} RunLedger(s: State, events: seq<Event>)
    requires Inv(s) && LedgerOk(s)
    ensures LedgerOk(Run(s, events))
    decreases |events|
  {
    if events != [] {
      var before, e := events[..|events| - 1], events[|events| - 1];
      RunLedger(s, before);
      RunInv(s, before);
      if Enabled(Run(s, before), e) { StepLedger(Run(s, before), e); }
    }
  }

  // ---- the results ----

  /**
   The accepted packets are, one for one, those of the calls that queued theirs: no packet is accepted twice, and
   none that no call asked for. A `send` that succeeded, a call at the socket and a request waiting for its response
   have queued theirs; a call still waiting for a slot or for room has not.
   */
  lemma EachCallQueuesOnce(s: State)
    requires Reachable(s)
    ensures multiset(s.accepted) == QueuedPackets(s.calls)
    ensures forall c | 0 <= c < |s.calls| && AfterQueue(s.calls[c]) :: s.calls[c].queued && s.calls[c].kind.packet in s.accepted
    ensures forall c | 0 <= c < |s.calls| && BeforeQueue(s.calls[c].pc) :: !s.calls[c].queued
  {
    var cfg, events :| s == Run(Init(cfg), events);
    InitInv(cfg);
    RunLedger(Init(cfg), events);
    ReachableInv(s);
    forall c | 0 <= c < |s.calls| ensures AfterQueue(s.calls[c]) ==> s.calls[c].queued && s.calls[c].kind.packet in s.accepted {
      Of(s, c);
      if AfterQueue(s.calls[c]) { QueuedIsIn(s.calls, c); }
    }
    forall c | 0 <= c < |s.calls| ensures BeforeQueue(s.calls[c].pc) ==> !s.calls[c].queued { Of(s, c); }
  }

  lemma {:induction false} QueuedIsIn(calls: seq<Call>, c: nat)
    requires c < |calls| && calls[c].queued && !calls[c].kind.Successor?
    ensures calls[c].kind.packet in QueuedPackets(calls)
    decreases |calls|
  {
    var n := |calls| - 1;
    if c < n { QueuedIsIn(calls[..n], c); }
  }
}
