/**
 What one segment does, from the step that starts it to the next suspension: it leaves no coroutine in the middle of
 its code, and it takes at most one packet off the queue, passing the room it frees to the longest-waiting coroutine.
 */
module ConnectionSegments {
  import opened Bytes
  import opened Wrappers
  import opened Packets
  import opened ConnectionModel
  import opened ConnectionInvariants
  import opened ConnectionRuns

  /** Inside a segment. */
  predicate Active(pc: Pc) {
    pc.Starting? || pc.Running?
  }

  /** Between steps every coroutine is parked, runnable, at the socket or done. */
  ghost predicate AtRest(s: State) {
    forall c | 0 <= c < |s.calls| :: !Active(s.calls[c].pc)
  }

  ghost predicate Rests(a: Call, b: Call) {
    Active(b.pc) ==> Active(a.pc)
  }

  /** The queue of `s` and what was accepted since. */
  ghost function Offered(s: State, t: State): seq<Packet>
    requires s.accepted <= t.accepted
  {
    s.sendQueue + t.accepted[|s.accepted|..]
  }

  /** The room list has lost its head, if it had one, and that coroutine is runnable. */
  ghost predicate HeadAdmitted(s: State, t: State) {
    if s.roomWaiters == [] then t.roomWaiters == []
    else
      var h := s.roomWaiters[0];
      && t.roomWaiters == s.roomWaiters[1..]
      && (h < |s.calls| && s.calls[h].pc.RoomParked? ==> h < |t.calls| && t.calls[h].pc.RoomWoken?)
  }

  /** Exactly the first packet offered was taken, and the room passed on. */
  ghost predicate TakesOne(s: State, t: State)
    requires s.accepted <= t.accepted
  {
    var q := Offered(s, t);
    q != [] && t.encoded == s.encoded + [q[0]] && t.sendQueue == q[1..] && HeadAdmitted(s, t)
  }

  /** A segment of the coroutine `c` leads from `s` to `t`. */
  ghost predicate Segment(s: State, t: State, c: nat) {
    && c < |s.calls| <= |t.calls| && !Active(t.calls[c].pc)
    && (forall d {:trigger Rests(s.calls[d], t.calls[d])} | 0 <= d < |s.calls| && d != c :: Rests(s.calls[d], t.calls[d]))
    && (forall d | |s.calls| <= d < |t.calls| :: !Active(t.calls[d].pc))
    && s.accepted <= t.accepted
    && (t.encoded == s.encoded || TakesOne(s, t))
  }

  /** What a segment may do to its own coroutine before it goes on. */
  ghost predicate Prepares(s: State, t: State, c: nat) {
    && c < |s.calls| && |t.calls| == |s.calls| && t.calls == s.calls[c := t.calls[c]]
    && t.accepted == s.accepted && t.encoded == s.encoded && t.sendQueue == s.sendQueue && t.roomWaiters == s.roomWaiters
  }

  lemma PreparedSegment(s: State, t: State, u: State, c: nat)
    requires Prepares(s, t, c) && Segment(t, u, c) && !s.calls[c].pc.RoomParked?
    ensures Segment(s, u, c)
  {
    forall d | 0 <= d < |s.calls| && d != c ensures Rests(s.calls[d], u.calls[d]) {
      assert Rests(t.calls[d], u.calls[d]);
    }
    if u.encoded != t.encoded { PreparedTake(s, t, u, c); }
  }

  lemma PreparedTake(s: State, t: State, u: State, c: nat)
    requires Prepares(s, t, c) && t.accepted <= u.accepted && TakesOne(t, u) && !s.calls[c].pc.RoomParked?
    ensures TakesOne(s, u)
  {
    assert Offered(s, u) == Offered(t, u);
  }

  /** One coroutine comes to rest and another may be resumed; nothing is taken. */
  lemma WokenSegment(s: State, t: State, u: State, c: nat)
    requires Prepares(s, t, c) && !Active(t.calls[c].pc)
    requires |u.calls| == |t.calls| && u.accepted == t.accepted && u.encoded == t.encoded
    requires forall d {:trigger Rests(t.calls[d], u.calls[d])} | 0 <= d < |t.calls| :: Rests(t.calls[d], u.calls[d])
    ensures Segment(s, u, c)
  {
    assert Rests(t.calls[c], u.calls[c]);
    forall d | 0 <= d < |s.calls| && d != c ensures Rests(s.calls[d], u.calls[d]) {
      assert Rests(t.calls[d], u.calls[d]);
    }
  }

  lemma WakeInFlightRests(s: State)
    ensures var t := WakeInFlight(s);
            && t == s.(calls := t.calls, inFlightWaiters := t.inFlightWaiters, doubleResumes := t.doubleResumes)
            && |t.calls| == |s.calls| && forall d | 0 <= d < |s.calls| :: Rests(s.calls[d], t.calls[d])
  {
  }

  /** One call comes to rest, then at most another is resumed. */
  ghost predicate Ends(s: State, t: State, c: nat) {
    && c < |s.calls| && t.encoded == s.encoded && t.accepted == s.accepted && |t.calls| == |s.calls| && !Active(t.calls[c].pc)
    && forall d {:trigger Rests(s.calls[d], t.calls[d])} | 0 <= d < |s.calls| && d != c :: Rests(s.calls[d], t.calls[d])
  }

  lemma EndsThenWakes(s: State, t: State, c: nat)
    requires Ends(s, t, c)
    ensures Ends(s, WakeInFlight(t), c)
  {
    var u := WakeInFlight(t);
    WakeInFlightRests(t);
    assert Rests(t.calls[c], u.calls[c]);
    forall d | 0 <= d < |s.calls| && d != c ensures Rests(s.calls[d], u.calls[d]) {
      assert Rests(s.calls[d], t.calls[d]) && Rests(t.calls[d], u.calls[d]);
    }
  }

  /** The end of a coroutine takes nothing and leaves the others as they were, but for one that is resumed. */
  lemma FinishQuietly(s: State, c: nat, r: Result)
    requires c < |s.calls|
    ensures Ends(s, Finish(s, c, r), c)
  {
    if !s.calls[c].kind.Requester? {
      return;
    }
    var t := Leave(s, c, r);
    assert Ends(s, t, c);
    EndsThenWakes(s, t, c);
  }

  lemma FinishSegment(s: State, c: nat, r: Result)
    requires c < |s.calls|
    ensures Segment(s, Finish(s, c, r), c)
  {
    FinishQuietly(s, c, r);
  }

  lemma AwaitSegment(s: State, c: nat)
    requires c < |s.calls|
    ensures Segment(s, Await(s, c), c)
  {
    if s.calls[c].settled.Some? {
      FinishSegment(s, c, ResultOf(s.calls[c].settled.value));
    } else {
      WokenSegment(s, Await(s, c), Await(s, c), c);
    }
  }

  lemma AfterEnqueueSegment(s: State, c: nat)
    requires c < |s.calls|
    ensures Segment(s, AfterEnqueue(s, c), c)
  {
    if s.calls[c].kind.Requester? { AwaitSegment(s, c); } else { FinishSegment(s, c, Sent); }
  }

  lemma WakeRoomAdmits(s: State)
    ensures var t := WakeRoom(s);
            && HeadAdmitted(s, t) && |t.calls| == |s.calls|
            && t == s.(calls := t.calls, roomWaiters := t.roomWaiters, doubleResumes := t.doubleResumes)
            && forall d | 0 <= d < |s.calls| :: Rests(s.calls[d], t.calls[d])
  {
  }

  lemma TakeSegment(s: State, c: nat)
    requires c < |s.calls| && s.sendQueue != [] && !s.calls[c].pc.RoomParked?
    ensures Segment(s, WakeRoom(Take(s, c)), c)
  {
    var t := Take(s, c);
    var u := WakeRoom(t);
    WakeRoomAdmits(t);
    assert Offered(s, u) == s.sendQueue;
    assert Rests(t.calls[c], u.calls[c]);
    forall d | 0 <= d < |s.calls| && d != c ensures Rests(s.calls[d], u.calls[d]) {
      assert Rests(t.calls[d], u.calls[d]);
    }
  }

  lemma DrainLoopSegment(s: State, c: nat)
    requires c < |s.calls| && !s.calls[c].pc.RoomParked?
    ensures Segment(s, DrainLoop(s, c), c)
  {
    if !s.closed && s.sendQueue != [] {
      TakeSegment(s, c);
    } else {
      var t := SetPc(s.(writerActive := false, writer := None), c, Running);
      AfterEnqueueSegment(t, c);
      PreparedSegment(s, t, AfterEnqueue(t, c), c);
    }
  }

  lemma BeginDrainSegment(s: State, c: nat)
    requires c < |s.calls| && !s.calls[c].pc.RoomParked?
    ensures Segment(s, BeginDrain(s, c), c)
  {
    if s.writeBuf != [] {
      WokenSegment(s, BeginDrain(s, c), BeginDrain(s, c), c);
    } else {
      var t := SetPc(s.(writerActive := true, writer := Some(c)), c, InFlush);
      DrainLoopSegment(t, c);
      PreparedSegment(s, t, DrainLoop(t, c), c);
    }
  }

  lemma PutSegment(s: State, c: nat)
    requires c < |s.calls| && !s.calls[c].kind.Successor? && !s.calls[c].pc.RoomParked?
    ensures Segment(s, Put(s, c), c)
  {
    var q := Queue(s, c);
    if s.writerActive { AfterEnqueueSegment(q, c); } else { BeginDrainSegment(q, c); }
    QueuedSegment(s, Put(s, c), c);
  }

  /** What is true after the packet was queued is true of the whole. */
  lemma QueuedSegment(s: State, t: State, c: nat)
    requires c < |s.calls| && !s.calls[c].kind.Successor? && !s.calls[c].pc.RoomParked?
    requires Segment(Queue(s, c), t, c)
    ensures Segment(s, t, c)
  {
    var q := Queue(s, c);
    forall d | 0 <= d < |s.calls| && d != c ensures Rests(s.calls[d], t.calls[d]) {
      assert Rests(q.calls[d], t.calls[d]);
    }
    if t.encoded != s.encoded {
      assert t.accepted[|s.accepted|..] == [s.calls[c].kind.packet] + t.accepted[|q.accepted|..];
      assert Offered(s, t) == Offered(q, t);
    }
  }

  lemma RoomLoopSegment(s: State, c: nat)
    requires c < |s.calls| && !s.calls[c].kind.Successor? && !s.calls[c].pc.RoomParked?
    ensures Segment(s, RoomLoop(s, c), c)
  {
    if s.calls[c].settled.Some? {
      AwaitSegment(s, c);
    } else if s.closed {
      FinishSegment(s, c, Threw(Closed));
    } else if RoomFor(s, PacketBytes(s.calls[c].kind.packet)) {
      PutSegment(s, c);
    } else {
      assert Segment(s, RoomLoop(s, c), c);
    }
  }

  lemma EnqueueSegment(s: State, c: nat)
    requires c < |s.calls| && !s.calls[c].kind.Successor? && !s.calls[c].pc.RoomParked?
    ensures Segment(s, Enqueue(s, c), c)
  {
    var p := s.calls[c].kind.packet;
    if SizeRefused(s.cfg, p) {
      FinishSegment(s, c, Threw(TooLarge));
    } else if !s.closed && RoomFor(s, PacketBytes(p)) {
      PutSegment(s, c);
    } else {
      RoomLoopSegment(s, c);
    }
  }

  lemma RegisterSegment(s: State, c: nat)
    requires c < |s.calls| && s.calls[c].kind.Requester? && !s.calls[c].pc.RoomParked?
    ensures Segment(s, Enqueue(SetPc(s.(pending := s.pending[s.calls[c].kind.packet.messageId := c]), c, Running), c), c)
  {
    var t := SetPc(s.(pending := s.pending[s.calls[c].kind.packet.messageId := c]), c, Running);
    EnqueueSegment(t, c);
    PreparedSegment(s, t, Enqueue(t, c), c);
  }

  lemma SlotLoopSegment(s: State, c: nat)
    requires c < |s.calls| && s.calls[c].kind.Requester? && !s.calls[c].pc.RoomParked?
    ensures Segment(s, SlotLoop(s, c), c)
  {
    if s.calls[c].settled.Some? {
      AwaitSegment(s, c);
      return;
    }
    if s.closed {
      FinishSegment(s, c, Threw(Closed));
      return;
    }
    if |s.pending| >= s.cfg.maxInFlightRequests {
      WokenSegment(s, SlotLoop(s, c), SlotLoop(s, c), c);
      return;
    }
    RegisterSegment(s, c);
  }

  // ---- every step ----

  /** What holds from one step to the next. */
  ghost predicate Steps(s: State, t: State) {
    && (AtRest(s) ==> AtRest(t))
    && s.accepted <= t.accepted
    && (t.encoded == s.encoded || TakesOne(s, t))
  }

  lemma SegmentSteps(s: State, t: State, c: nat)
    requires Segment(s, t, c)
    ensures Steps(s, t)
  {
    forall d | 0 <= d < |s.calls| && d != c ensures Rests(s.calls[d], t.calls[d]) {
    }
  }

  /** The segment of a new coroutine. */
  lemma NewSegment(s: State, t: State, u: State)
    requires |t.calls| == |s.calls| + 1 && t.calls[..|s.calls|] == s.calls && Segment(t, u, |s.calls|)
    requires t.accepted == s.accepted && t.encoded == s.encoded && t.sendQueue == s.sendQueue && t.roomWaiters == s.roomWaiters
    ensures Steps(s, u)
  {
    forall d | 0 <= d < |s.calls| ensures Rests(s.calls[d], u.calls[d]) {
      assert Rests(t.calls[d], u.calls[d]);
    }
    if u.encoded != s.encoded { assert Offered(s, u) == Offered(t, u); }
  }

  /** Nothing is taken and no coroutine is left inside its code. */
  lemma QuietSteps(s: State, t: State)
    requires |s.calls| <= |t.calls| && t.accepted == s.accepted && t.encoded == s.encoded
    requires forall d {:trigger Rests(s.calls[d], t.calls[d])} | 0 <= d < |s.calls| :: Rests(s.calls[d], t.calls[d])
    requires forall d | |s.calls| <= d < |t.calls| :: !Active(t.calls[d].pc)
    ensures Steps(s, t)
  {
    forall d | 0 <= d < |t.calls| ensures AtRest(s) ==> !Active(t.calls[d].pc) {
      if d < |s.calls| { assert Rests(s.calls[d], t.calls[d]); }
    }
  }

  lemma StartSendSteps(s: State, p: Packet)
    ensures Steps(s, BeginSend(s, p))
  {
    var u := s.(calls := s.calls + [NewCall(Sender(p), Running, false)]);
    EnqueueSegment(u, |s.calls|);
    NewSegment(s, u, Enqueue(u, |s.calls|));
  }

  /** The one-way counter plays no part. */
  lemma CountedSteps(s: State, id: u32, t: State)
    requires Steps(s.(oneWayId := id), t)
    ensures Steps(s, t)
  {
    assert s.accepted <= t.accepted ==> Offered(s, t) == Offered(s.(oneWayId := id), t);
  }

  lemma StartRequestSteps(s: State, p: Packet, deadline: bool)
    ensures Steps(s, BeginRequest(s, p, deadline))
  {
    var u := s.(requestId := p.messageId, calls := s.calls + [NewCall(Requester(p), Starting, deadline)]);
    SlotLoopSegment(u, |s.calls|);
    NewSegment(s, u, SlotLoop(u, |s.calls|));
  }

  lemma EndSteps(s: State, c: nat, r: Result)
    requires c < |s.calls|
    ensures Steps(s, Finish(s, c, r))
  {
    FinishSegment(s, c, r);
    SegmentSteps(s, Finish(s, c, r), c);
  }

  lemma WokenSteps(s: State, c: nat)
    requires Core(s) && Enabled(s, RunWoken(c))
    ensures Steps(s, StepWoken(s, c))
  {
    var call := s.calls[c];
    Of(s, c);
    if call.pc == SlotWoken {
      var t := SetPc(s, c, Starting);
      SlotLoopSegment(t, c);
      PreparedSegment(s, t, SlotLoop(t, c), c);
      SegmentSteps(s, SlotLoop(t, c), c);
      return;
    }
    if call.pc == RoomWoken {
      var t := SetCall(s, c, call.(pc := Running, roomCont := false));
      RoomLoopSegment(t, c);
      PreparedSegment(s, t, RoomLoop(t, c), c);
      SegmentSteps(s, RoomLoop(t, c), c);
      return;
    }
    if call.pc == RoomRefused {
      EndSteps(s, c, Threw(Closed));
      return;
    }
    EndSteps(s, c, ResultOf(call.settled.value));
  }

  lemma OneCallSteps(s: State, t: State, c: nat)
    requires c < |s.calls| == |t.calls| && t.calls == s.calls[c := t.calls[c]] && Rests(s.calls[c], t.calls[c])
    requires t.accepted == s.accepted && t.encoded == s.encoded
    ensures Steps(s, t)
  {
  }

  lemma ExpiredRests(s: State, c: nat)
    requires c < |s.calls| && s.calls[c].kind.Requester?
    ensures var t := Expired(s, c);
            && t.calls == s.calls[c := ExpiredCall(s.calls[c])] && Rests(s.calls[c], ExpiredCall(s.calls[c]))
            && t.accepted == s.accepted && t.encoded == s.encoded
  {
  }

  lemma ExpireSteps(s: State, c: nat)
    requires c < |s.calls| && s.calls[c].kind.Requester?
    ensures Steps(s, Expire(s, c))
  {
    if s.calls[c].settled.Some? {
      OneCallSteps(s, Expire(s, c), c);
      return;
    }
    ExpiredRests(s, c);
    if ResumesTwice(s.calls[c]) {
      OneCallSteps(s, Expire(s, c), c);
      return;
    }
    WakeSteps(s, Expired(s, c));
  }

  /** Nothing but a wake-up follows. */
  lemma WakeSteps(s: State, t: State)
    requires |t.calls| == |s.calls| && t.accepted == s.accepted && t.encoded == s.encoded
    requires forall d {:trigger Rests(s.calls[d], t.calls[d])} | 0 <= d < |s.calls| :: Rests(s.calls[d], t.calls[d])
    ensures Steps(s, WakeInFlight(t))
  {
    var u := WakeInFlight(t);
    WakeInFlightRests(t);
    forall d | 0 <= d < |s.calls| ensures Rests(s.calls[d], u.calls[d]) {
      assert Rests(s.calls[d], t.calls[d]) && Rests(t.calls[d], u.calls[d]);
    }
    QuietSteps(s, u);
  }

  lemma RespondSteps(s: State, p: Packet)
    ensures Steps(s, Respond(s, p))
  {
    if p.messageId in s.pending { WakeSteps(s, Completed(s, p)); }
  }

  lemma SettleRests(call: Call, o: Outcome)
    ensures Rests(call, Settle(call, o)) && Rests(call, Unslot(call))
  {
  }

  lemma CloseCallRests(s: State, c: nat)
    requires c < |s.calls|
    ensures Rests(s.calls[c], CloseCall(s, c))
  {
    var call, o := s.calls[c], Failed(ConnectionClosed);
    var a := if c in s.pending.Values then Settle(call, o) else call;
    var b := if c in s.roomWaiters && a.pc == RoomParked then a.(pc := RoomRefused) else a;
    SettleRests(call, o);
    assert Rests(call, a) && Rests(a, b);
    SettleRests(b, o);
    SettleRests(Settle(b, o), o);
  }

  lemma ShutdownRests(s: State)
    ensures var t := Shutdown(s);
            && |t.calls| == |s.calls| && t.encoded == s.encoded && t.accepted == s.accepted
            && forall d | 0 <= d < |s.calls| :: Rests(s.calls[d], t.calls[d])
  {
    if !s.closed {
      forall d | 0 <= d < |s.calls| ensures Rests(s.calls[d], Shutdown(s).calls[d]) {
        CloseCallRests(s, d);
      }
    }
  }

  lemma WriterFailsSteps(s: State, c: nat, error: CallError)
    requires c < |s.calls|
    ensures Steps(s, Finish(SetPc(Shutdown(s).(writer := None, writerActive := false), c, Running), c, Threw(error)))
  {
    var t := Shutdown(s);
    var u := SetPc(t.(writer := None, writerActive := false), c, Running);
    var v := Finish(u, c, Threw(error));
    ShutdownRests(s);
    FinishQuietly(u, c, Threw(error));
    forall d | 0 <= d < |s.calls| ensures Rests(s.calls[d], v.calls[d]) {
      assert Rests(s.calls[d], t.calls[d]);
      if d != c { assert Rests(u.calls[d], v.calls[d]); }
    }
    QuietSteps(s, v);
  }

  lemma WriterCancelledSteps(s: State, c: nat)
    requires c < |s.calls|
    ensures Steps(s, Finish(HandOff(s, c), c, Threw(Cancelled)))
  {
    var t := HandOff(s, c);
    var u := Finish(t, c, Threw(Cancelled));
    FinishQuietly(t, c, Threw(Cancelled));
    forall d | 0 <= d < |s.calls| ensures Rests(s.calls[d], u.calls[d]) {
      if d != c { assert Rests(t.calls[d], u.calls[d]); }
    }
    forall d | |s.calls| <= d < |u.calls| ensures !Active(u.calls[d].pc) {
      assert Rests(t.calls[d], u.calls[d]);
    }
    QuietSteps(s, u);
  }

  lemma WriterSteps(s: State, e: Event)
    requires Enabled(s, e) && (e.FlushReturns? || e.SuccessorStarts? || e.WriterCancelled? || e.WriterFails?)
    ensures Steps(s, Step(s, e))
  {
    var c := s.writer.value;
    if e.FlushReturns? {
      DrainLoopSegment(s, c);
      SegmentSteps(s, DrainLoop(s, c), c);
      return;
    }
    if e.SuccessorStarts? {
      BeginDrainSegment(s, c);
      SegmentSteps(s, BeginDrain(s, c), c);
      return;
    }
    if e.WriterCancelled? {
      WriterCancelledSteps(s, c);
      return;
    }
    WriterFailsSteps(s, c, if s.calls[c].pc == InWrite then Closed else WriteFailed);
  }

  lemma OtherSteps(s: State, e: Event)
    requires Enabled(s, e) && (e.Cancel? || e.WriteSome? || e.WriteReturns? || e.ScopeCancelled?)
    ensures Steps(s, Step(s, e))
  {
    if e.Cancel? {
      assert Rests(s.calls[e.c], CancelledCall(s.calls[e.c]));
      OneCallSteps(s, StepCancel(s, e.c), e.c);
      return;
    }
    if e.WriteReturns? || (e.ScopeCancelled? && WriterAt(s, Launched)) {
      OneCallSteps(s, Step(s, e), s.writer.value);
    }
  }

  lemma CloseSteps(s: State)
    ensures Steps(s, Shutdown(s))
  {
    ShutdownRests(s);
    QuietSteps(s, Shutdown(s));
  }

  lemma StepSteps(s: State, e: Event)
    requires Core(s) && Enabled(s, e)
    ensures Steps(s, Step(s, e))
  {
    if e.StartSend? {
      var id := NextOneWayId(s.oneWayId);
      StartSendSteps(s.(oneWayId := id), MakePacket(OneWay, id, e.bizType, e.data, e.compression));
      CountedSteps(s, id, Step(s, e));
      return;
    }
    if e.StartResponse? {
      StartSendSteps(s, MakePacket(Response, e.id, e.bizType, e.data, e.compression));
      return;
    }
    if e.StartRequest? {
      StartRequestSteps(s, MakePacket(Request, s.requestId + 1, e.bizType, e.data, e.compression), e.deadline);
      return;
    }
    if e.FlushReturns? || e.SuccessorStarts? || e.WriterCancelled? || e.WriterFails? {
      WriterSteps(s, e);
      return;
    }
    if e.Cancel? || e.WriteSome? || e.WriteReturns? || e.ScopeCancelled? {
      OtherSteps(s, e);
      return;
    }
    match e
    case RunWoken(c) => WokenSteps(s, c);
    case RunCancelled(c) => EndSteps(s, c, Threw(Cancelled));
    case Deadline(c) => ExpireSteps(s, c);
    case InboundResponse(p) => RespondSteps(s, p);
    case Close => CloseSteps(s);
  }

  lemma {:induction false} RunRests(s: State, events: seq<Event>)
    requires Inv(s) && AtRest(s)
    ensures AtRest(Run(s, events))
    decreases |events|
  {
    if events != [] {
      var before, e := events[..|events| - 1], events[|events| - 1];
      RunRests(s, before);
      RunInv(s, before);
      if Enabled(Run(s, before), e) { StepSteps(Run(s, before), e); }
    }
  }

  /** Every step runs on to the next suspension: no reachable state has a coroutine in the middle of its code. */
  lemma ReachableRests(s: State)
    requires Reachable(s)
    ensures forall c | 0 <= c < |s.calls| :: !s.calls[c].pc.Starting? && !s.calls[c].pc.Running?
  {
    ReachableAtRest(s);
  }

  lemma ReachableAtRest(s: State)
    requires Reachable(s)
    ensures AtRest(s)
  {
    var cfg, events :| s == Run(Init(cfg), events);
    RunFromInitRests(cfg, events);
  }

  lemma RunFromInitRests(cfg: Config, events: seq<Event>)
    ensures AtRest(Run(Init(cfg), events))
  {
    InitInv(cfg);
    RunRests(Init(cfg), events);
  }

  /** One packet was taken, its bytes given back, and the room passed on to the coroutine that waited longest. */
  ghost predicate RoomPassedOn(s: State, t: State) {
    && s.accepted <= t.accepted
    && var q := s.sendQueue + t.accepted[|s.accepted|..];
       && q != [] && t.encoded == s.encoded + [q[0]] && t.sendQueue == q[1..]
       && t.queuedBytes == QueueBytes(t.sendQueue)
       && if s.roomWaiters == [] then t.roomWaiters == []
          else
            var h := s.roomWaiters[0];
            && t.roomWaiters == s.roomWaiters[1..]
            && h < |s.calls| && h < |t.calls| && s.calls[h].pc.RoomParked? && t.calls[h].pc.RoomWoken?
  }

  lemma TakingPassesOn(s: State, t: State)
    requires Core(s) && BudgetOk(t) && Steps(s, t) && t.encoded != s.encoded
    ensures RoomPassedOn(s, t)
  {
    if s.roomWaiters != [] {
      assert s.roomWaiters[0] in s.roomWaiters;
      Of(s, s.roomWaiters[0]);
    }
  }

  /**
   Whichever step takes a packet, of a writer that goes on, a successor or a caller that becomes the writer, takes
   exactly the first of those queued and just accepted, gives back exactly its bytes, and lets exactly the
   longest-waiting coroutine through.
   */
  lemma FreedRoomIsPassedOn(s: State, e: Event)
    requires Reachable(s) && Enabled(s, e) && Step(s, e).encoded != s.encoded
    ensures RoomPassedOn(s, Step(s, e))
  {
    ReachableInv(s);
    StepInv(s, e);
    StepSteps(s, e);
    TakingPassesOn(s, Step(s, e));
  }
}
