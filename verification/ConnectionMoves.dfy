/**
 Every step moves only the coroutine it runs: of the others it may resume those that are parked, and nothing else.
 */
module ConnectionMoves {
  import opened Wrappers
  import opened Packets
  import opened ConnectionModel

  /** From `a` to `b` a coroutine was left alone or resumed; it is refused room only by a close. */
  ghost predicate Resumed(a: Call, b: Call, closed: bool) {
    || b.pc == a.pc
    || (a.pc.SlotParked? && b.pc.SlotWoken?)
    || (a.pc.AwaitParked? && b.pc.AwaitWoken?)
    || (a.pc.RoomParked? && (b.pc.RoomWoken? || (b.pc.RoomRefused? && closed)))
  }

  /** A call is failed as closed only by a close. */
  ghost predicate FailsByClose(a: Call, b: Call, closed: bool) {
    b.settled == Some(Failed(ConnectionClosed)) ==> b.settled == a.settled || closed
  }

  /** From `s` to `t` at most the coroutine `who` ran; a new one beside it is a successor that has not started. */
  ghost predicate Moves(s: State, t: State, who: Option<nat>) {
    && |s.calls| <= |t.calls| && (s.closed ==> t.closed)
    && (forall d {:trigger Resumed(s.calls[d], t.calls[d], t.closed)} | 0 <= d < |s.calls| && Some(d) != who ::
          Resumed(s.calls[d], t.calls[d], t.closed))
    && (forall d | |s.calls| <= d < |t.calls| && Some(d) != who :: t.calls[d].pc.Launched?)
    && (forall d {:trigger FailsByClose(s.calls[d], t.calls[d], t.closed)} | 0 <= d < |s.calls| ::
          FailsByClose(s.calls[d], t.calls[d], t.closed))
    && (forall d | |s.calls| <= d < |t.calls| :: t.calls[d].settled == Some(Failed(ConnectionClosed)) ==> t.closed)
  }

  lemma MovesOn(s: State, t: State, u: State, who: Option<nat>)
    requires Moves(s, t, who) && Moves(t, u, who)
    ensures Moves(s, u, who)
  {
    forall d | 0 <= d < |s.calls| && Some(d) != who ensures Resumed(s.calls[d], u.calls[d], u.closed) {
      assert Resumed(s.calls[d], t.calls[d], t.closed) && Resumed(t.calls[d], u.calls[d], u.closed);
    }
    forall d | |s.calls| <= d < |u.calls| && Some(d) != who ensures u.calls[d].pc.Launched? {
      if d < |t.calls| { assert Resumed(t.calls[d], u.calls[d], u.closed); }
    }
    forall d | 0 <= d < |s.calls| ensures FailsByClose(s.calls[d], u.calls[d], u.closed) {
      assert FailsByClose(s.calls[d], t.calls[d], t.closed) && FailsByClose(t.calls[d], u.calls[d], u.closed);
    }
    forall d | |s.calls| <= d < |u.calls| ensures u.calls[d].settled == Some(Failed(ConnectionClosed)) ==> u.closed {
      if d < |t.calls| { assert FailsByClose(t.calls[d], u.calls[d], u.closed); }
    }
  }

  lemma OneMoves(s: State, t: State, c: nat)
    requires c < |s.calls| == |t.calls| && t.calls == s.calls[c := t.calls[c]] && t.closed == s.closed
    requires FailsByClose(s.calls[c], t.calls[c], t.closed)
    ensures Moves(s, t, Some(c))
  {
  }

  lemma OneResumed(s: State, t: State, h: nat, who: Option<nat>)
    requires h < |s.calls| == |t.calls| && t.calls == s.calls[h := t.calls[h]] && t.closed == s.closed
    requires Resumed(s.calls[h], t.calls[h], t.closed) && FailsByClose(s.calls[h], t.calls[h], t.closed)
    ensures Moves(s, t, who)
  {
  }

  lemma WakeRoomMoves(s: State, who: Option<nat>)
    ensures Moves(s, WakeRoom(s), who)
  {
    if s.roomWaiters != [] && s.roomWaiters[0] < |s.calls| { OneResumed(s, WakeRoom(s), s.roomWaiters[0], who); }
  }

  lemma WakeInFlightMoves(s: State, who: Option<nat>)
    ensures Moves(s, WakeInFlight(s), who)
  {
    if s.inFlightWaiters != [] && s.inFlightWaiters[0] < |s.calls| { OneResumed(s, WakeInFlight(s), s.inFlightWaiters[0], who); }
  }

  lemma FinishMoves(s: State, c: nat, r: Result)
    requires c < |s.calls|
    ensures Moves(s, Finish(s, c, r), Some(c))
  {
    if !s.calls[c].kind.Requester? {
      OneMoves(s, SetPc(s, c, Done(r)), c);
      return;
    }
    var t := Leave(s, c, r);
    OneMoves(s, t, c);
    WakeInFlightMoves(t, Some(c));
    MovesOn(s, t, WakeInFlight(t), Some(c));
  }

  lemma AwaitMoves(s: State, c: nat)
    requires c < |s.calls|
    ensures Moves(s, Await(s, c), Some(c))
  {
    if s.calls[c].settled.Some? { FinishMoves(s, c, ResultOf(s.calls[c].settled.value)); } else { OneMoves(s, Await(s, c), c); }
  }

  lemma AfterEnqueueMoves(s: State, c: nat)
    requires c < |s.calls|
    ensures Moves(s, AfterEnqueue(s, c), Some(c))
  {
    if s.calls[c].kind.Requester? { AwaitMoves(s, c); } else { FinishMoves(s, c, Sent); }
  }

  lemma DrainMoves(s: State, c: nat)
    requires c < |s.calls|
    ensures Moves(s, DrainLoop(s, c), Some(c))
  {
    if !s.closed && s.sendQueue != [] {
      var t := Take(s, c);
      OneMoves(s, t, c);
      WakeRoomMoves(t, Some(c));
      MovesOn(s, t, WakeRoom(t), Some(c));
      return;
    }
    var t := SetPc(s.(writerActive := false, writer := None), c, Running);
    OneMoves(s, t, c);
    AfterEnqueueMoves(t, c);
    MovesOn(s, t, AfterEnqueue(t, c), Some(c));
  }

  lemma BeginDrainMoves(s: State, c: nat)
    requires c < |s.calls|
    ensures Moves(s, BeginDrain(s, c), Some(c))
  {
    var s1 := s.(writerActive := true, writer := Some(c));
    if s.writeBuf != [] {
      OneMoves(s, SetPc(s1, c, InWrite), c);
      return;
    }
    var t := SetPc(s1, c, InFlush);
    OneMoves(s, t, c);
    DrainMoves(t, c);
    MovesOn(s, t, DrainLoop(t, c), Some(c));
  }

  lemma PutMoves(s: State, c: nat)
    requires c < |s.calls| && !s.calls[c].kind.Successor?
    ensures Moves(s, Put(s, c), Some(c))
  {
    var q := Queue(s, c);
    OneMoves(s, q, c);
    if s.writerActive {
      AfterEnqueueMoves(q, c);
      MovesOn(s, q, AfterEnqueue(q, c), Some(c));
      return;
    }
    BeginDrainMoves(q, c);
    MovesOn(s, q, BeginDrain(q, c), Some(c));
  }

  lemma RoomMoves(s: State, c: nat)
    requires c < |s.calls| && !s.calls[c].kind.Successor?
    ensures Moves(s, RoomLoop(s, c), Some(c))
  {
    if s.calls[c].settled.Some? {
      AwaitMoves(s, c);
      return;
    }
    if s.closed {
      FinishMoves(s, c, Threw(Closed));
      return;
    }
    if RoomFor(s, PacketBytes(s.calls[c].kind.packet)) {
      PutMoves(s, c);
      return;
    }
    OneMoves(s, RoomLoop(s, c), c);
  }

  lemma EnqueueMoves(s: State, c: nat)
    requires c < |s.calls| && !s.calls[c].kind.Successor?
    ensures Moves(s, Enqueue(s, c), Some(c))
  {
    var p := s.calls[c].kind.packet;
    if SizeRefused(s.cfg, p) {
      FinishMoves(s, c, Threw(TooLarge));
      return;
    }
    if !s.closed && RoomFor(s, PacketBytes(p)) {
      PutMoves(s, c);
      return;
    }
    RoomMoves(s, c);
  }

  lemma RegisterMoves(s: State, c: nat)
    requires c < |s.calls| && s.calls[c].kind.Requester?
    ensures Moves(s, Enqueue(SetPc(s.(pending := s.pending[s.calls[c].kind.packet.messageId := c]), c, Running), c), Some(c))
  {
    var t := SetPc(s.(pending := s.pending[s.calls[c].kind.packet.messageId := c]), c, Running);
    OneMoves(s, t, c);
    EnqueueMoves(t, c);
    MovesOn(s, t, Enqueue(t, c), Some(c));
  }

  lemma SlotMoves(s: State, c: nat)
    requires c < |s.calls| && s.calls[c].kind.Requester?
    ensures Moves(s, SlotLoop(s, c), Some(c))
  {
    if s.calls[c].settled.Some? {
      AwaitMoves(s, c);
      return;
    }
    if s.closed {
      FinishMoves(s, c, Threw(Closed));
      return;
    }
    if |s.pending| >= s.cfg.maxInFlightRequests {
      OneMoves(s, SlotLoop(s, c), c);
      return;
    }
    RegisterMoves(s, c);
  }

  /** The new coroutine is the one that runs. */
  lemma NewMoves(s: State, t: State, u: State)
    requires |t.calls| == |s.calls| + 1 && t.calls[..|s.calls|] == s.calls && t.closed == s.closed && Moves(t, u, Some(|s.calls|))
    requires t.calls[|s.calls|].settled.None?
    ensures Moves(s, u, Some(|s.calls|))
  {
    forall d | 0 <= d < |s.calls| ensures Resumed(s.calls[d], u.calls[d], u.closed) {
      assert Resumed(t.calls[d], u.calls[d], u.closed);
    }
    forall d | 0 <= d < |t.calls| ensures FailsByClose(t.calls[d], u.calls[d], u.closed) {
    }
  }

  lemma BeginSendMoves(s: State, p: Packet)
    ensures Moves(s, BeginSend(s, p), Some(|s.calls|))
  {
    var t := s.(calls := s.calls + [NewCall(Sender(p), Running, false)]);
    EnqueueMoves(t, |s.calls|);
    NewMoves(s, t, BeginSend(s, p));
  }

  lemma BeginRequestMoves(s: State, p: Packet, deadline: bool)
    ensures Moves(s, BeginRequest(s, p, deadline), Some(|s.calls|))
  {
    var t := s.(requestId := p.messageId, calls := s.calls + [NewCall(Requester(p), Starting, deadline)]);
    SlotMoves(t, |s.calls|);
    NewMoves(s, t, BeginRequest(s, p, deadline));
  }

  lemma StartMoves(s: State, e: Event)
    requires Enabled(s, e) && (e.StartSend? || e.StartResponse? || e.StartRequest?)
    ensures Moves(s, Step(s, e), Some(|s.calls|))
  {
    if e.StartSend? {
      var id := NextOneWayId(s.oneWayId);
      BeginSendMoves(s.(oneWayId := id), MakePacket(OneWay, id, e.bizType, e.data, e.compression));
      return;
    }
    if e.StartResponse? {
      BeginSendMoves(s, MakePacket(Response, e.id, e.bizType, e.data, e.compression));
      return;
    }
    var p := MakePacket(Request, s.requestId + 1, e.bizType, e.data, e.compression);
    assert Step(s, e) == BeginRequest(s, p, e.deadline);
    BeginRequestMoves(s, p, e.deadline);
  }

  lemma SlotWokenMoves(s: State, c: nat)
    requires c < |s.calls| && s.calls[c].kind.Requester?
    ensures Moves(s, SlotLoop(SetPc(s, c, Starting), c), Some(c))
  {
    var t := SetPc(s, c, Starting);
    OneMoves(s, t, c);
    SlotMoves(t, c);
    MovesOn(s, t, SlotLoop(t, c), Some(c));
  }

  lemma RoomWokenMoves(s: State, c: nat)
    requires c < |s.calls| && !s.calls[c].kind.Successor?
    ensures Moves(s, RoomLoop(SetCall(s, c, s.calls[c].(pc := Running, roomCont := false)), c), Some(c))
  {
    var t := SetCall(s, c, s.calls[c].(pc := Running, roomCont := false));
    OneMoves(s, t, c);
    RoomMoves(t, c);
    MovesOn(s, t, RoomLoop(t, c), Some(c));
  }

  lemma WokenMoves(s: State, c: nat)
    requires Enabled(s, RunWoken(c))
    ensures Moves(s, StepWoken(s, c), Some(c))
  {
    var call := s.calls[c];
    if call.pc == SlotWoken {
      if call.kind.Requester? { SlotWokenMoves(s, c); }
      return;
    }
    if call.pc == RoomWoken {
      if !call.kind.Successor? { RoomWokenMoves(s, c); }
      return;
    }
    if call.pc == RoomRefused {
      FinishMoves(s, c, Threw(Closed));
      return;
    }
    if call.settled.Some? { FinishMoves(s, c, ResultOf(call.settled.value)); }
  }

  lemma CloseCallResumed(s: State, d: nat)
    requires d < |s.calls|
    ensures Resumed(s.calls[d], CloseCall(s, d), true) && FailsByClose(s.calls[d], CloseCall(s, d), true)
  {
  }

  lemma ShutdownMoves(s: State, who: Option<nat>)
    ensures Moves(s, Shutdown(s), who) && |Shutdown(s).calls| == |s.calls|
  {
    if !s.closed {
      forall d | 0 <= d < |s.calls| ensures Resumed(s.calls[d], Shutdown(s).calls[d], true) { CloseCallResumed(s, d); }
    }
  }

  lemma WriterFailsMoves(s: State, c: nat, error: CallError)
    requires c < |s.calls|
    ensures Moves(s, Finish(SetPc(Shutdown(s).(writer := None, writerActive := false), c, Running), c, Threw(error)), Some(c))
  {
    var t := Shutdown(s);
    var u := SetPc(t.(writer := None, writerActive := false), c, Running);
    ShutdownMoves(s, Some(c));
    OneMoves(t, u, c);
    FinishMoves(u, c, Threw(error));
    MovesOn(s, t, u, Some(c));
    MovesOn(s, u, Finish(u, c, Threw(error)), Some(c));
  }

  lemma WriterCancelledMoves(s: State, c: nat)
    requires c < |s.calls|
    ensures Moves(s, Finish(HandOff(s, c), c, Threw(Cancelled)), Some(c))
  {
    var t := HandOff(s, c);
    assert Moves(s, t, Some(c));
    FinishMoves(t, c, Threw(Cancelled));
    MovesOn(s, t, Finish(t, c, Threw(Cancelled)), Some(c));
  }

  lemma ExpiredMoves(s: State, c: nat, who: Option<nat>)
    requires c < |s.calls| && s.calls[c].kind.Requester?
    ensures Moves(s, Expired(s, c), who)
  {
    OneResumed(s, Expired(s, c), c, who);
  }

  lemma ExpireMoves(s: State, c: nat, who: Option<nat>)
    requires c < |s.calls| && s.calls[c].kind.Requester?
    ensures Moves(s, Expire(s, c), who)
  {
    if s.calls[c].settled.Some? {
      OneResumed(s, Expire(s, c), c, who);
      return;
    }
    ExpiredMoves(s, c, who);
    if ResumesTwice(s.calls[c]) {
      return;
    }
    WakeInFlightMoves(Expired(s, c), who);
    MovesOn(s, Expired(s, c), WakeInFlight(Expired(s, c)), who);
  }

  lemma RespondMoves(s: State, p: Packet, who: Option<nat>)
    ensures Moves(s, Respond(s, p), who)
  {
    if p.messageId in s.pending {
      var c, t := s.pending[p.messageId], Completed(s, p);
      if c < |s.calls| { OneResumed(s, t, c, who); }
      WakeInFlightMoves(t, who);
      MovesOn(s, t, WakeInFlight(t), who);
    }
  }

  /** The coroutine that runs in a step; a deadline, a response and a close run none, they only resume. */
  ghost function Runs(s: State, e: Event): Option<nat> {
    match e
    case StartSend(_, _, _) => Some(|s.calls|)
    case StartResponse(_, _, _, _) => Some(|s.calls|)
    case StartRequest(_, _, _, _) => Some(|s.calls|)
    case RunWoken(c) => Some(c)
    case RunCancelled(c) => Some(c)
    case Cancel(c) => Some(c)
    case Deadline(_) => None
    case InboundResponse(_) => None
    case Close => None
    case _ => s.writer
  }

  lemma WriterMoves(s: State, e: Event)
    requires Enabled(s, e) && (e.FlushReturns? || e.WriterCancelled? || e.WriterFails? || e.SuccessorStarts?)
    ensures Moves(s, Step(s, e), Some(s.writer.value))
  {
    var c := s.writer.value;
    match e
    case FlushReturns => DrainMoves(s, c);
    case WriterCancelled => WriterCancelledMoves(s, c);
    case WriterFails => WriterFailsMoves(s, c, if s.calls[c].pc == InWrite then Closed else WriteFailed);
    case SuccessorStarts => BeginDrainMoves(s, c);
  }

  lemma SmallMoves(s: State, e: Event)
    requires Enabled(s, e) && (e.WriteReturns? || e.WriteSome? || e.ScopeCancelled? || e.Cancel?)
    ensures Moves(s, Step(s, e), Runs(s, e))
  {
    if e.Cancel? {
      OneMoves(s, StepCancel(s, e.c), e.c);
      return;
    }
    if e.WriteReturns? || (e.ScopeCancelled? && WriterAt(s, Launched)) {
      OneMoves(s, Step(s, e), s.writer.value);
    }
  }

  /** A step moves the coroutine it runs and at most resumes others. */
  lemma StepMoves(s: State, e: Event)
    requires Enabled(s, e)
    ensures Moves(s, Step(s, e), Runs(s, e))
  {
    if e.StartSend? || e.StartResponse? || e.StartRequest? {
      StartMoves(s, e);
      return;
    }
    if e.FlushReturns? || e.WriterCancelled? || e.WriterFails? || e.SuccessorStarts? {
      WriterMoves(s, e);
      return;
    }
    if e.WriteReturns? || e.WriteSome? || e.ScopeCancelled? || e.Cancel? {
      SmallMoves(s, e);
      return;
    }
    match e
    case RunWoken(c) => WokenMoves(s, c);
    case RunCancelled(c) => FinishMoves(s, c, Threw(Cancelled));
    case Deadline(c) => ExpireMoves(s, c, None);
    case InboundResponse(p) => RespondMoves(s, p, None);
    case Close => ShutdownMoves(s, None);
  }
}
