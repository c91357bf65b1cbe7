/**
 The inductive invariant of the connection and its preservation by every segment.
 */
module ConnectionInvariants {
  import opened Bytes
  import opened Streaming
  import opened Wrappers
  import opened Packets
  import opened Lists
  import opened ConnectionModel

  ghost predicate Parked(pc: Pc) {
    pc.SlotParked? || pc.RoomParked? || pc.AwaitParked?
  }

  ghost predicate Writing(pc: Pc) {
    pc.Launched? || pc.InWrite? || pc.InFlush?
  }

  /** Past registration and not finished. */
  ghost predicate Underway(pc: Pc) {
    || pc.Running? || pc.RoomParked? || pc.RoomWoken? || pc.RoomCancelled? || pc.RoomRefused?
    || pc.InWrite? || pc.InFlush? || pc.AwaitParked? || pc.AwaitWoken? || pc.AwaitCancelled?
  }

  /** Not yet past `enqueue`. */
  ghost predicate BeforeQueue(pc: Pc) {
    || pc.Starting? || pc.SlotParked? || pc.SlotWoken? || pc.SlotCancelled?
    || pc.RoomParked? || pc.RoomWoken? || pc.RoomCancelled? || pc.RoomRefused?
  }

  /** Past `enqueue`: at the socket, waiting for the response, or sent. */
  ghost predicate AfterQueue(k: Call) {
    !k.kind.Successor? && (Writing(k.pc) || k.pc.AwaitParked? || k.pc.AwaitWoken? || k.pc.AwaitCancelled? || k.pc == Done(Sent))
  }

  ghost predicate IsRegistered(s: State, c: nat, id: u32) {
    id in s.pending && s.pending[id] == c
  }

  ghost predicate IsRequest(call: Call, id: u32) {
    call.kind.Requester? && call.kind.packet.messageId == id
  }

  /** Which continuation fields hold something, and which lists the coroutine is in. */
  ghost predicate ParkingOk(s: State, c: nat)
    requires c < |s.calls|
  {
    var k := s.calls[c];
    && (k.pc.RoomParked? <==> c in s.roomWaiters)
    && (k.pc.SlotParked? <==> k.slotCont)
    && (k.slotCont ==> c in s.inFlightWaiters)
    && (c in s.inFlightWaiters ==> k.pc.SlotParked? || ((k.pc.SlotWoken? || k.pc.Starting?) && k.settled.Some?))
    && (k.waiter ==> k.pc.AwaitParked? || k.pc.AwaitCancelled?)
    && (k.pc.AwaitParked? ==> k.waiter)
    && (k.roomCont ==> k.pc.RoomParked? || k.pc.RoomWoken? || k.pc.RoomRefused? || k.pc.Done?)
    && (s.closed ==> !Parked(k.pc))
    && (BeforeQueue(k.pc) ==> !k.queued) && (AfterQueue(k) ==> k.queued)
    && ((k.pc.RoomParked? || k.pc.RoomWoken? || k.pc.RoomRefused?) && !k.kind.Successor? ==> !SizeRefused(s.cfg, k.kind.packet))
    && (Writing(k.pc) <==> s.writer.Some? && s.writer.value == c)
  }

  /** What holds of a request, of a one-way send or a response, of a successor. */
  ghost predicate KindOk(s: State, c: nat)
    requires c < |s.calls|
  {
    var k := s.calls[c];
    match k.kind
    case Requester(p) =>
      && !k.pc.Launched?
      && p.kind == Request && 1 <= p.messageId <= s.requestId
      && (Underway(k.pc) && k.settled.None? <==> IsRegistered(s, c, p.messageId))
      && (k.settled.Some? && k.settled.value.Answered? ==>
            k.settled.value.response.kind == Response && k.settled.value.response.messageId == p.messageId)
      && (k.settled == Some(Failed(TimedOut)) ==> !Parked(k.pc))
      && (k.pc.SlotParked? || k.pc.AwaitParked? ==> k.settled.None?)
      && (k.pc.AwaitWoken? || k.pc.RoomRefused? ==> k.settled.Some?)
      && (k.pc.RoomParked? ==> k.roomCont)
      && (k.pc.RoomWoken? && k.settled.None? ==> k.roomCont)
      && (k.pc.Done? ==> !k.armed)
      && (k.pc.Done? && k.pc.result.Returned? ==>
            k.settled.Some? && k.settled.value.Answered? && k.pc.result.payload == k.settled.value.response.payload)
    case _ =>
      && k.settled.None? && !k.armed && !k.waiter && !k.slotCont && !k.roomCont
      && !k.pc.SlotWoken? && !k.pc.SlotCancelled?
      && !k.pc.AwaitParked? && !k.pc.AwaitWoken? && !k.pc.AwaitCancelled?
      && (k.kind.Sender? ==> !k.pc.Launched?)
      && (k.kind.Successor? ==> k.pc.Starting? || k.pc.Running? || Writing(k.pc) || k.pc.Done?)
      && (k.pc.Done? ==> !k.pc.result.Returned?)
  }

  /** Every packet is one the connection built: no ext header, an array-sized payload. */
  ghost predicate Built(p: Packet) {
    p.extHeader == [] && |p.payload| <= MAX_ARRAY
  }

  ghost predicate CallOk(s: State, c: nat)
    requires c < |s.calls|
  {
    && ParkingOk(s, c)
    && KindOk(s, c)
    && (!s.calls[c].kind.Successor? ==> Built(s.calls[c].kind.packet))
  }

  ghost predicate CallsOk(s: State) {
    forall c | 0 <= c < |s.calls| :: CallOk(s, c)
  }

  ghost predicate InOrder(a: Call, b: Call) {
    a.kind.Requester? && b.kind.Requester? ==> a.kind.packet.messageId < b.kind.packet.messageId
  }

  /** Ids strictly increase from call to call. */
  ghost predicate IdsOk(s: State) {
    forall c, d {:trigger InOrder(s.calls[c], s.calls[d])} | 0 <= c < d < |s.calls| :: InOrder(s.calls[c], s.calls[d])
  }

  ghost predicate EntryOk(s: State, id: u32)
    requires id in s.pending
  {
    var c := s.pending[id];
    && c < |s.calls|
    && s.calls[c].kind.Requester? && s.calls[c].kind.packet.messageId == id
    && s.calls[c].settled.None? && Underway(s.calls[c].pc)
  }

  /** The registry holds unsettled requests under their own ids, and no more than allowed. */
  ghost predicate RegistryOk(s: State) {
    && (forall id {:trigger EntryOk(s, id)} | id in s.pending :: EntryOk(s, id))
    && |s.pending| <= s.cfg.maxInFlightRequests
  }

  ghost predicate ListsOk(s: State) {
    && NoDup(s.roomWaiters) && NoDup(s.inFlightWaiters)
    && (forall c | c in s.roomWaiters :: c < |s.calls|)
    && (forall c | c in s.inFlightWaiters :: c < |s.calls|)
  }

  /** One writer at a time, and none only when there is nothing left to write. */
  ghost predicate WriterOk(s: State) {
    && (s.writer.Some? ==> s.writer.value < |s.calls|)
    && (s.writerActive <==> s.writer.Some? || s.stranded)
    && (s.stranded ==> s.writer.None? && !s.scopeActive)
    && (WriterAt(s, InFlush) ==> s.writeBuf == [])
    && (!s.writerActive && !s.closed ==> !Unsent(s))
    && (!s.closed && (WriterAt(s, Launched) || s.stranded) ==> Unsent(s))
  }

  ghost predicate PacketsOk(s: State) {
    forall p | p in s.accepted :: Built(p) && !SizeRefused(s.cfg, p)
  }

  /** Nothing is lost, repeated or reordered between `enqueue` and the socket. */
  ghost predicate BytesOk(s: State) {
    && s.accepted == s.encoded + s.sendQueue + s.dropped
    && s.socket + s.writeBuf == WireAll(Wire(s.cfg.framing), s.encoded)
    && PacketsOk(s)
  }

  ghost predicate BudgetOk(s: State) {
    && s.queuedBytes == QueueBytes(s.sendQueue)
    && (s.queuedBytes == 0 || s.queuedBytes <= s.cfg.maxOutboundBytes)
    && |s.sendQueue| <= s.cfg.mailboxCapacity
  }

  ghost predicate ClosedOk(s: State) {
    if s.closed then
      && s.pending == map[] && s.sendQueue == [] && s.roomWaiters == [] && s.inFlightWaiters == []
      && s.closeCallbacks == 1
    else
      s.dropped == [] && s.closeCallbacks == 0
  }

  /** What concerns the coroutines, the registry and the waiter lists. */
  ghost predicate Core(s: State) {
    CallsOk(s) && IdsOk(s) && RegistryOk(s) && ListsOk(s)
  }

  ghost predicate Inv(s: State) {
    Core(s) && WriterOk(s) && BytesOk(s) && BudgetOk(s) && ClosedOk(s)
  }

  /** The invariant holds in `t`, and no continuation was resumed a second time on the way from `s`. */
  ghost predicate Safe(s: State, t: State) {
    Inv(t) && t.doubleResumes == s.doubleResumes
  }

  // ---- changing one coroutine ----

  /** Nothing the invariant says of another coroutine than `c` has changed. */
  ghost predicate SameElsewhere(s: State, t: State, c: nat) {
    && |t.calls| == |s.calls|
    && (forall d | 0 <= d < |s.calls| && d != c :: t.calls[d] == s.calls[d])
    && t.closed == s.closed && t.requestId == s.requestId
    && (forall d: nat {:trigger d in t.roomWaiters} | d != c :: d in t.roomWaiters <==> d in s.roomWaiters)
    && (forall d: nat {:trigger d in t.inFlightWaiters} | d != c :: d in t.inFlightWaiters <==> d in s.inFlightWaiters)
    && (t.writer == s.writer || (t.writer in {None, Some(c)} && s.writer in {None, Some(c)}))
    && (forall id | id in s.pending && s.pending[id] != c :: id in t.pending && t.pending[id] == s.pending[id])
    && (forall id | id in t.pending && t.pending[id] != c :: id in s.pending && t.pending[id] == s.pending[id])
  }

  /** Only the coroutine `c` and its places in the registry and the lists have changed. */
  ghost predicate CallChange(s: State, t: State, c: nat) {
    && c < |s.calls|
    && SameElsewhere(s, t, c) && t.calls[c].kind == s.calls[c].kind && t.cfg == s.cfg
    && (forall id | id in t.pending && t.pending[id] == c :: IsRequest(t.calls[c], id))
    && |t.pending| <= t.cfg.maxInFlightRequests
    && NoDup(t.roomWaiters) && NoDup(t.inFlightWaiters)
  }

  lemma CallChangeCore(s: State, t: State, c: nat)
    requires Core(s) && CallChange(s, t, c) && ParkingOk(t, c) && KindOk(t, c)
    ensures Core(t)
  {
    forall d | 0 <= d < |t.calls| ensures CallOk(t, d) {
      Of(s, d);
      if d != c {
        assert d in t.roomWaiters <==> d in s.roomWaiters;
        assert d in t.inFlightWaiters <==> d in s.inFlightWaiters;
      }
    }
    forall d, e | 0 <= d < e < |t.calls| ensures InOrder(t.calls[d], t.calls[e]) {
      assert InOrder(s.calls[d], s.calls[e]);
    }
    CallChangeLists(s, t, c);
  }

  lemma CallChangeLists(s: State, t: State, c: nat)
    requires Core(s) && CallChange(s, t, c) && KindOk(t, c)
    ensures RegistryOk(t) && ListsOk(t)
  {
    forall id | id in t.pending ensures EntryOk(t, id) {
      if t.pending[id] != c { assert EntryOk(s, id); }
    }
    forall d | d in t.roomWaiters ensures d < |t.calls| { assert d == c || d in s.roomWaiters; }
    forall d | d in t.inFlightWaiters ensures d < |t.calls| { assert d == c || d in s.inFlightWaiters; }
  }

  /** A change of one coroutine that leaves the outbound path alone. */
  ghost predicate OnlyCall(s: State, t: State, c: nat) {
    && CallChange(s, t, c)
    && t == s.(calls := t.calls, pending := t.pending, roomWaiters := t.roomWaiters, inFlightWaiters := t.inFlightWaiters)
    && (s.closed ==> t.pending == map[] && t.roomWaiters == [] && t.inFlightWaiters == [])
  }

  /** The coroutine reaches the flush or is launched only if it was there before. */
  ghost predicate SameRole(s: State, t: State, c: nat)
    requires c < |s.calls| && c < |t.calls|
  {
    t.calls[c].pc.InFlush? || t.calls[c].pc.Launched? ==> t.calls[c].pc == s.calls[c].pc
  }

  lemma OnlyCallInv(s: State, t: State, c: nat)
    requires Inv(s) && OnlyCall(s, t, c) && SameRole(s, t, c)
    requires ParkingOk(t, c) && KindOk(t, c)
    ensures Safe(s, t)
  {
    CallChangeCore(s, t, c);
    OutboundSame(s, t, c);
  }

  lemma OutboundSame(s: State, t: State, c: nat)
    requires WriterOk(s) && BytesOk(s) && BudgetOk(s) && ClosedOk(s)
    requires OnlyCall(s, t, c) && SameRole(s, t, c)
    ensures WriterOk(t) && BytesOk(t) && BudgetOk(t) && ClosedOk(t)
  {
  }

  lemma Of(s: State, c: nat)
    requires CallsOk(s) && c < |s.calls|
    ensures CallOk(s, c)
  {
  }

  lemma OwnEntry(s: State, c: nat)
    requires RegistryOk(s) && c < |s.calls|
    ensures forall id | id in s.pending && s.pending[id] == c :: IsRequest(s.calls[c], id)
  {
    forall id | id in s.pending && s.pending[id] == c ensures IsRequest(s.calls[c], id) {
      assert EntryOk(s, id);
    }
  }

  // ---- waking ----

  lemma WakeRoomStep(s: State)
    requires Core(s) && ClosedOk(s) && s.roomWaiters != []
    ensures var c, t := s.roomWaiters[0], WakeRoom(s);
            OnlyCall(s, t, c) && t.calls[c].pc.RoomWoken? && ParkingOk(t, c) && KindOk(t, c)
  {
    var c := s.roomWaiters[0];
    RestOf(s.roomWaiters);
    assert c in s.roomWaiters;
    Of(s, c);
    OwnEntry(s, c);
  }

  lemma WakeRoomInv(s: State)
    requires Inv(s)
    ensures Safe(s, WakeRoom(s))
  {
    if s.roomWaiters != [] {
      WakeRoomStep(s);
      OnlyCallInv(s, WakeRoom(s), s.roomWaiters[0]);
    }
  }

  lemma WakeInFlightStep(s: State)
    requires Core(s) && ClosedOk(s) && s.inFlightWaiters != []
    ensures var c, t := s.inFlightWaiters[0], WakeInFlight(s);
            OnlyCall(s, t, c) && SameRole(s, t, c) && ParkingOk(t, c) && KindOk(t, c)
  {
    var c := s.inFlightWaiters[0];
    RestOf(s.inFlightWaiters);
    assert c in s.inFlightWaiters;
    Of(s, c);
    OwnEntry(s, c);
  }

  lemma WakeInFlightInv(s: State)
    requires Inv(s)
    ensures Safe(s, WakeInFlight(s))
  {
    if s.inFlightWaiters != [] {
      WakeInFlightStep(s);
      OnlyCallInv(s, WakeInFlight(s), s.inFlightWaiters[0]);
    }
  }

  // ---- ending a call ----

  lemma IdsDiffer(s: State, c: nat, d: nat, id: u32)
    requires IdsOk(s) && c < |s.calls| && d < |s.calls| && c != d && IsRequest(s.calls[c], id)
    ensures !IsRequest(s.calls[d], id)
  {
    if d < c {
      assert InOrder(s.calls[d], s.calls[c]);
    } else {
      assert InOrder(s.calls[c], s.calls[d]);
    }
  }

  /** The registry entry under a request's id is the request's own. */
  lemma OnlyOwnId(s: State, c: nat)
    requires IdsOk(s) && RegistryOk(s) && c < |s.calls| && s.calls[c].kind.Requester?
    ensures var id := s.calls[c].kind.packet.messageId; id in s.pending ==> s.pending[id] == c
  {
    var id := s.calls[c].kind.packet.messageId;
    if id in s.pending && s.pending[id] != c {
      assert EntryOk(s, id);
      IdsDiffer(s, c, s.pending[id], id);
      assert false;
    }
  }

  /** A coroutine that holds the processor: not parked and not the writer. */
  ghost predicate Free(s: State, c: nat) {
    c < |s.calls| && !Parked(s.calls[c].pc) && !Writing(s.calls[c].pc) && !s.calls[c].pc.Done?
  }

  /** A request may return only the payload of its own response; only a queued packet counts as sent. */
  ghost predicate Honest(call: Call, r: Result) {
    && (r.Returned? ==> call.settled.Some? && call.settled.value.Answered? && r.payload == call.settled.value.response.payload)
    && (r.Sent? ==> call.queued || call.kind.Successor?)
  }

  lemma LeaveStep(s: State, c: nat, r: Result)
    requires Core(s) && ClosedOk(s) && Free(s, c) && s.calls[c].kind.Requester? && Honest(s.calls[c], r)
    ensures var t := Leave(s, c, r); OnlyCall(s, t, c) && t.calls[c].pc.Done? && ParkingOk(t, c) && KindOk(t, c)
  {
    Removed(s.inFlightWaiters, c);
    Of(s, c);
    OnlyOwnId(s, c);
    OwnEntry(s, c);
  }

  lemma SenderDoneStep(s: State, c: nat, r: Result)
    requires Core(s) && ClosedOk(s) && Free(s, c) && !s.calls[c].kind.Requester? && Honest(s.calls[c], r)
    ensures var t := SetPc(s, c, Done(r)); OnlyCall(s, t, c) && t.calls[c].pc.Done? && ParkingOk(t, c) && KindOk(t, c)
  {
    Of(s, c);
    OwnEntry(s, c);
  }

  lemma FinishInv(s: State, c: nat, r: Result)
    requires Inv(s) && Free(s, c) && Honest(s.calls[c], r)
    ensures Safe(s, Finish(s, c, r))
  {
    if s.calls[c].kind.Requester? {
      LeaveStep(s, c, r);
      OnlyCallInv(s, Leave(s, c, r), c);
      WakeInFlightInv(Leave(s, c, r));
    } else {
      Of(s, c);
      SenderDoneStep(s, c, r);
      OnlyCallInv(s, SetPc(s, c, Done(r)), c);
    }
  }

  // ---- after enqueue ----

  lemma AwaitStep(s: State, c: nat)
    requires Core(s) && ClosedOk(s) && c < |s.calls| && s.calls[c].kind.Requester?
    requires s.calls[c].pc.Running? && s.calls[c].queued && s.calls[c].settled.None?
    ensures var t := Await(s, c); OnlyCall(s, t, c) && t.calls[c].pc.AwaitParked? && ParkingOk(t, c) && KindOk(t, c)
  {
    Of(s, c);
    OwnEntry(s, c);
  }

  lemma AwaitInv(s: State, c: nat)
    requires Inv(s) && Free(s, c) && s.calls[c].kind.Requester?
    requires s.calls[c].settled.Some? || (s.calls[c].pc.Running? && s.calls[c].queued)
    ensures Safe(s, Await(s, c))
  {
    if s.calls[c].settled.Some? {
      FinishInv(s, c, ResultOf(s.calls[c].settled.value));
    } else {
      AwaitStep(s, c);
      OnlyCallInv(s, Await(s, c), c);
    }
  }

  lemma AfterEnqueueInv(s: State, c: nat)
    requires Inv(s) && c < |s.calls| && s.calls[c].pc.Running? && (s.calls[c].queued || s.calls[c].kind.Successor?)
    ensures Safe(s, AfterEnqueue(s, c))
  {
    if s.calls[c].kind.Requester? { AwaitInv(s, c); } else { FinishInv(s, c, Sent); }
  }

  // ---- the writer ----

  ghost predicate IsWriter(s: State, c: nat) {
    s.writer == Some(c) && c < |s.calls|
  }

  /** A writer moving between its own states, or to and from none, is a change of one coroutine. */
  lemma WriterStep(s: State, t: State, c: nat, pc: Pc)
    requires Core(s) && IsWriter(s, c)
    requires t.calls == s.calls[c := s.calls[c].(pc := pc)]
    requires t.cfg == s.cfg && t.pending == s.pending && t.roomWaiters == s.roomWaiters && t.inFlightWaiters == s.inFlightWaiters
    requires t.closed == s.closed && t.requestId == s.requestId
    requires if pc.Running? then t.writer == None else (pc.InWrite? || pc.InFlush?) && t.writer == Some(c)
    ensures Core(t)
  {
    Of(s, c);
    OwnEntry(s, c);
    CallChangeCore(s, t, c);
  }

  lemma QueueBytesAppend(q: seq<Packet>, p: Packet)
    ensures QueueBytes(q + [p]) == QueueBytes(q) + PacketBytes(p)
  {
    if q == [] {
      assert q + [p] == [p];
    } else {
      assert (q + [p])[0] == q[0] && (q + [p])[1..] == q[1..] + [p];
      QueueBytesAppend(q[1..], p);
    }
  }

  lemma WireAllOne(f: Framing, ps: seq<Packet>, p: Packet)
    ensures WireAll(Wire(f), ps + [p]) == WireAll(Wire(f), ps) + Wire(f)(p)
  {
    WireAllAppend(Wire(f), ps, [p]);
    assert WireAll(Wire(f), [p]) == Wire(f)(p) + [];
  }

  lemma TakeBytes(s: State, c: nat)
    requires BytesOk(s) && s.sendQueue != []
    ensures BytesOk(Take(s, c))
  {
    var p, t, w := s.sendQueue[0], Take(s, c), Wire(s.cfg.framing);
    WireAllOne(s.cfg.framing, s.encoded, p);
    TakeFirst(s.encoded, s.sendQueue, s.dropped);
    Associates(s.socket, s.writeBuf, w(p));
  }

  lemma Associates<T>(a: seq<T>, b: seq<T>, c: seq<T>)
    ensures (a + b) + c == a + (b + c)
  {
  }

  lemma TakeFirst<T>(a: seq<T>, q: seq<T>, b: seq<T>)
    requires q != []
    ensures (a + [q[0]]) + q[1..] + b == a + q + b
  {
    assert q == [q[0]] + q[1..];
  }

  lemma TakeInv(s: State, c: nat)
    requires Inv(s) && !s.closed && s.sendQueue != [] && IsWriter(s, c) && s.calls[c].pc.InFlush?
    ensures Safe(s, Take(s, c))
  {
    WriterStep(s, Take(s, c), c, InWrite);
    TakeBytes(s, c);
  }

  lemma DrainLoopInv(s: State, c: nat)
    requires Inv(s) && IsWriter(s, c) && s.calls[c].pc.InFlush?
    ensures Safe(s, DrainLoop(s, c))
  {
    if !s.closed && s.sendQueue != [] {
      TakeInv(s, c);
      WakeRoomInv(Take(s, c));
    } else {
      var t := SetPc(s.(writerActive := false, writer := None), c, Running);
      WriterStep(s, t, c, Running);
      Of(s, c);
      AfterEnqueueInv(t, c);
    }
  }

  lemma BeginWriting(s: State, c: nat, pc: Pc)
    requires Inv(s) && IsWriter(s, c) && s.calls[c].kind.Successor? && s.calls[c].pc.Launched?
    requires pc.InWrite? || (pc.InFlush? && s.writeBuf == [])
    ensures Safe(s, SetPc(s, c, pc))
  {
    WriterStep(s, SetPc(s, c, pc), c, pc);
  }

  /** A successor starts. */
  lemma SuccessorInv(s: State, c: nat)
    requires Inv(s) && IsWriter(s, c) && s.calls[c].pc.Launched?
    ensures Safe(s, BeginDrain(s, c))
  {
    Of(s, c);
    assert s.(writerActive := true, writer := Some(c)) == s;
    if s.writeBuf != [] {
      BeginWriting(s, c, InWrite);
    } else {
      BeginWriting(s, c, InFlush);
      DrainLoopInv(SetPc(s, c, InFlush), c);
    }
  }

  // ---- enqueue ----

  /** A coroutine about to queue its packet: there is room and the packet is one the peer accepts. */
  ghost predicate MayPut(s: State, c: nat) {
    && c < |s.calls| && s.calls[c].pc.Running? && !s.calls[c].kind.Successor?
    && !s.closed && !s.calls[c].queued
    && !SizeRefused(s.cfg, s.calls[c].kind.packet)
    && RoomFor(s, PacketBytes(s.calls[c].kind.packet))
  }

  lemma QueueBytesOk(s: State, c: nat)
    requires BytesOk(s) && ClosedOk(s) && BudgetOk(s) && MayPut(s, c) && Built(s.calls[c].kind.packet)
    ensures BytesOk(Queue(s, c)) && BudgetOk(Queue(s, c)) && ClosedOk(Queue(s, c))
  {
    var p := s.calls[c].kind.packet;
    QueueBytesAppend(s.sendQueue, p);
    assert s.encoded + s.sendQueue + [] + [p] == s.encoded + (s.sendQueue + [p]) + [];
  }

  /** Queued behind an active writer. */
  lemma QueueInv(s: State, c: nat)
    requires Inv(s) && MayPut(s, c) && s.writerActive
    ensures Safe(s, Queue(s, c))
  {
    Of(s, c);
    OwnEntry(s, c);
    CallChangeCore(s, Queue(s, c), c);
    QueueBytesOk(s, c);
  }

  lemma QueueAsWriterCore(s: State, c: nat)
    requires Core(s) && MayPut(s, c) && s.writer.None?
    ensures Core(SetPc(Queue(s, c).(writerActive := true, writer := Some(c)), c, InFlush))
  {
    Of(s, c);
    OwnEntry(s, c);
    CallChangeCore(s, SetPc(Queue(s, c).(writerActive := true, writer := Some(c)), c, InFlush), c);
  }

  /** Queued by the coroutine that becomes the writer. */
  lemma QueueAsWriterInv(s: State, c: nat)
    requires Inv(s) && MayPut(s, c) && !s.writerActive
    ensures Safe(s, SetPc(Queue(s, c).(writerActive := true, writer := Some(c)), c, InFlush))
  {
    var q := Queue(s, c);
    var t := SetPc(q.(writerActive := true, writer := Some(c)), c, InFlush);
    assert Built(s.calls[c].kind.packet) by { Of(s, c); }
    QueueAsWriterCore(s, c);
    QueueBytesOk(s, c);
  }

  lemma PutInv(s: State, c: nat)
    requires Inv(s) && MayPut(s, c)
    ensures Safe(s, Put(s, c))
  {
    if s.writerActive {
      QueueInv(s, c);
      AfterEnqueueInv(Queue(s, c), c);
    } else {
      QueueAsWriterInv(s, c);
      DrainLoopInv(SetPc(Queue(s, c).(writerActive := true, writer := Some(c)), c, InFlush), c);
    }
  }

  lemma RoomParkStep(s: State, c: nat, t: State)
    requires Core(s) && !s.closed && c < |s.calls| && !s.calls[c].kind.Successor?
    requires s.calls[c].pc.Running? && s.calls[c].settled.None? && !s.calls[c].queued && !SizeRefused(s.cfg, s.calls[c].kind.packet)
    requires t == SetCall(s, c, s.calls[c].(pc := RoomParked, roomCont := s.calls[c].kind.Requester?)).(roomWaiters := s.roomWaiters + [c])
    ensures OnlyCall(s, t, c) && ParkingOk(t, c) && KindOk(t, c)
  {
    Of(s, c);
    OwnEntry(s, c);
  }

  lemma RoomLoopInv(s: State, c: nat)
    requires Inv(s) && c < |s.calls| && s.calls[c].pc.Running? && !s.calls[c].kind.Successor?
    requires !SizeRefused(s.cfg, s.calls[c].kind.packet) && !s.calls[c].queued
    ensures Safe(s, RoomLoop(s, c))
  {
    Of(s, c);
    var call := s.calls[c];
    if call.settled.Some? {
      AwaitInv(s, c);
    } else if s.closed {
      FinishInv(s, c, Threw(Closed));
    } else if RoomFor(s, PacketBytes(call.kind.packet)) {
      PutInv(s, c);
    } else {
      RoomParkStep(s, c, RoomLoop(s, c));
      OnlyCallInv(s, RoomLoop(s, c), c);
    }
  }

  lemma EnqueueInv(s: State, c: nat)
    requires Inv(s) && c < |s.calls| && s.calls[c].pc.Running? && !s.calls[c].kind.Successor? && !s.calls[c].queued
    ensures Safe(s, Enqueue(s, c))
  {
    var p := s.calls[c].kind.packet;
    if SizeRefused(s.cfg, p) {
      FinishInv(s, c, Threw(TooLarge));
    } else if !s.closed && RoomFor(s, PacketBytes(p)) {
      PutInv(s, c);
    } else {
      RoomLoopInv(s, c);
    }
  }

  // ---- requests ----

  lemma SlotParkStep(s: State, c: nat, t: State)
    requires Core(s) && !s.closed && c < |s.calls| && s.calls[c].kind.Requester?
    requires s.calls[c].pc.Starting? && s.calls[c].settled.None?
    requires t == SetCall(s, c, s.calls[c].(pc := SlotParked, slotCont := true)).(inFlightWaiters := s.inFlightWaiters + [c])
    ensures OnlyCall(s, t, c) && ParkingOk(t, c) && KindOk(t, c)
  {
    Of(s, c);
    OwnEntry(s, c);
  }

  /** Registering takes a free slot: the id is new and the cap is kept. */
  lemma RegisterStep(s: State, c: nat, t: State)
    requires Core(s) && !s.closed && c < |s.calls| && s.calls[c].kind.Requester?
    requires s.calls[c].pc.Starting? && s.calls[c].settled.None? && |s.pending| < s.cfg.maxInFlightRequests
    requires t == SetPc(s.(pending := s.pending[s.calls[c].kind.packet.messageId := c]), c, Running)
    ensures OnlyCall(s, t, c) && ParkingOk(t, c) && KindOk(t, c)
  {
    Of(s, c);
    OwnEntry(s, c);
    OnlyOwnId(s, c);
  }

  lemma SlotLoopInv(s: State, c: nat)
    requires Inv(s) && c < |s.calls| && s.calls[c].kind.Requester? && s.calls[c].pc.Starting?
    ensures Safe(s, SlotLoop(s, c))
  {
    var call := s.calls[c];
    if call.settled.Some? {
      AwaitInv(s, c);
    } else if s.closed {
      FinishInv(s, c, Threw(Closed));
    } else if |s.pending| >= s.cfg.maxInFlightRequests {
      SlotParkInv(s, c);
    } else {
      RegisterInv(s, c);
    }
  }

  lemma SlotParkInv(s: State, c: nat)
    requires Inv(s) && !s.closed && c < |s.calls| && s.calls[c].kind.Requester?
    requires s.calls[c].pc.Starting? && s.calls[c].settled.None?
    ensures Safe(s, SetCall(s, c, s.calls[c].(pc := SlotParked, slotCont := true)).(inFlightWaiters := s.inFlightWaiters + [c]))
  {
    var t := SetCall(s, c, s.calls[c].(pc := SlotParked, slotCont := true)).(inFlightWaiters := s.inFlightWaiters + [c]);
    SlotParkStep(s, c, t);
    OnlyCallInv(s, t, c);
  }

  lemma RegisterInv(s: State, c: nat)
    requires Inv(s) && !s.closed && c < |s.calls| && s.calls[c].kind.Requester?
    requires s.calls[c].pc.Starting? && s.calls[c].settled.None? && |s.pending| < s.cfg.maxInFlightRequests
    ensures Safe(s, Enqueue(SetPc(s.(pending := s.pending[s.calls[c].kind.packet.messageId := c]), c, Running), c))
  {
    var t := SetPc(s.(pending := s.pending[s.calls[c].kind.packet.messageId := c]), c, Running);
    Of(s, c);
    RegisterStep(s, c, t);
    OnlyCallInv(s, t, c);
    EnqueueInv(t, c);
  }

  lemma DisarmInv(s: State, c: nat)
    requires Inv(s) && c < |s.calls|
    ensures Safe(s, SetCall(s, c, s.calls[c].(armed := false)))
  {
    Of(s, c);
    OwnEntry(s, c);
    OnlyCallInv(s, SetCall(s, c, s.calls[c].(armed := false)), c);
  }

  lemma ExpiredChange(s: State, c: nat)
    requires Core(s) && ClosedOk(s) && c < |s.calls| && s.calls[c].kind.Requester?
    ensures OnlyCall(s, Expired(s, c), c)
  {
    Removed(s.roomWaiters, c);
    OwnEntry(s, c);
    OnlyOwnId(s, c);
  }

  /** Where the deadline leaves a coroutine parked nowhere: woken if it was parked, else where it was. */
  lemma ExpiredCallIs(call: Call)
    requires call.kind.Requester? && call.settled.None?
    requires (call.pc.SlotParked? <==> call.slotCont) && (call.pc.AwaitParked? ==> call.waiter) && (call.pc.RoomParked? ==> call.roomCont)
    ensures var e := ExpiredCall(call);
            && e.kind == call.kind && e.queued == call.queued && !e.waiter && !e.slotCont && (e.roomCont ==> call.roomCont)
            && e.pc == (if call.pc.SlotParked? then SlotWoken else if call.pc.RoomParked? then RoomWoken
                        else if call.pc.AwaitParked? then AwaitWoken else call.pc)
            && (call.pc.RoomParked? ==> !e.roomCont)
            && e.settled == Some(Failed(TimedOut))
  {
  }

  lemma LeavesRoomList(s: State, c: nat)
    requires ListsOk(s)
    ensures c !in Remove(s.roomWaiters, c)
  {
    Removed(s.roomWaiters, c);
  }

  lemma ExpiredParking(s: State, c: nat)
    requires c < |s.calls| && CallOk(s, c) && c !in Remove(s.roomWaiters, c)
    requires s.calls[c].kind.Requester? && s.calls[c].armed && s.calls[c].settled.None?
    ensures SameRole(s, Expired(s, c), c) && ParkingOk(Expired(s, c), c)
  {
    ExpiredCallIs(s.calls[c]);
  }

  lemma ExpiredParkingOk(s: State, c: nat)
    requires Core(s) && c < |s.calls|
    requires s.calls[c].kind.Requester? && s.calls[c].armed && s.calls[c].settled.None?
    ensures SameRole(s, Expired(s, c), c) && ParkingOk(Expired(s, c), c)
  {
    LeavesRoomList(s, c);
    Of(s, c);
    ExpiredParking(s, c);
  }

  lemma ExpiredKindOk(s: State, c: nat)
    requires Core(s) && c < |s.calls|
    requires s.calls[c].kind.Requester? && s.calls[c].armed && s.calls[c].settled.None?
    ensures KindOk(Expired(s, c), c)
  {
    Of(s, c);
  }

  lemma ExpiredInv(s: State, c: nat)
    requires Inv(s) && c < |s.calls|
    requires s.calls[c].kind.Requester? && s.calls[c].armed && s.calls[c].settled.None?
    ensures Safe(s, Expired(s, c))
  {
    ExpiredChange(s, c);
    ExpiredParkingOk(s, c);
    ExpiredKindOk(s, c);
    OnlyCallInv(s, Expired(s, c), c);
  }

  /** The three cases of the deadline. */
  lemma ExpireIs(s: State, c: nat)
    requires c < |s.calls| && s.calls[c].kind.Requester?
    ensures var call := s.calls[c];
            Expire(s, c) == if call.settled.Some? then SetCall(s, c, call.(armed := false))
                            else if ResumesTwice(call) then Expired(s, c).(doubleResumes := s.doubleResumes + 1)
                            else WakeInFlight(Expired(s, c))
    ensures s.calls[c].settled.Some? ==> !ResumesTwice(s.calls[c])
  {
  }

  lemma ExpireSettledInv(s: State, c: nat)
    requires Inv(s) && c < |s.calls| && s.calls[c].kind.Requester? && s.calls[c].settled.Some?
    ensures Safe(s, Expire(s, c))
  {
    ExpireIs(s, c);
    DisarmInv(s, c);
  }

  lemma ExpireTwiceInv(s: State, c: nat)
    requires Inv(s) && c < |s.calls| && s.calls[c].kind.Requester? && s.calls[c].armed && s.calls[c].settled.None?
    requires ResumesTwice(s.calls[c])
    ensures Inv(Expire(s, c)) && Expire(s, c).doubleResumes == s.doubleResumes + 1
  {
    ExpireIs(s, c);
    ExpiredInv(s, c);
    DoubleResumesInv(Expired(s, c), s.doubleResumes + 1);
  }

  lemma ExpireOnceInv(s: State, c: nat)
    requires Inv(s) && c < |s.calls| && s.calls[c].kind.Requester? && s.calls[c].armed && s.calls[c].settled.None?
    requires !ResumesTwice(s.calls[c])
    ensures Safe(s, Expire(s, c))
  {
    ExpireIs(s, c);
    ExpiredInv(s, c);
    WakeInFlightInv(Expired(s, c));
  }

  lemma ExpireInv(s: State, c: nat)
    requires Inv(s) && c < |s.calls| && s.calls[c].kind.Requester? && s.calls[c].armed
    ensures Inv(Expire(s, c))
    ensures Expire(s, c).doubleResumes == s.doubleResumes + Count(ResumesTwice(s.calls[c]))
  {
    if s.calls[c].settled.Some? {
      ExpireSettledInv(s, c);
      return;
    }
    if ResumesTwice(s.calls[c]) {
      ExpireTwiceInv(s, c);
      return;
    }
    ExpireOnceInv(s, c);
  }

  lemma DoubleResumesInv(s: State, n: nat)
    requires Inv(s)
    ensures Inv(s.(doubleResumes := n))
  {
    var t := s.(doubleResumes := n);
    forall c | 0 <= c < |t.calls| ensures CallOk(t, c) { Of(s, c); }
    forall id | id in t.pending ensures EntryOk(t, id) { assert EntryOk(s, id); }
  }

  // ---- inbound responses ----

  lemma RespondedStep(s: State, id: u32, p: Packet)
    requires Core(s) && ClosedOk(s) && id in s.pending && p.messageId == id && p.kind == Response
    ensures EntryOk(s, id)
    ensures var c, t := s.pending[id], Completed(s, p);
            OnlyCall(s, t, c) && SameRole(s, t, c) && ParkingOk(t, c) && KindOk(t, c)
  {
    assert EntryOk(s, id);
    Of(s, s.pending[id]);
    OwnEntry(s, s.pending[id]);
  }

  lemma RespondInv(s: State, p: Packet)
    requires Inv(s) && p.kind == Response
    ensures Safe(s, Respond(s, p))
  {
    if p.messageId in s.pending {
      RespondedStep(s, p.messageId, p);
      OnlyCallInv(s, Completed(s, p), s.pending[p.messageId]);
      WakeInFlightInv(Completed(s, p));
    }
  }

  // ---- cancellation ----

  lemma CancelSlot(s: State, c: nat)
    requires Core(s) && ClosedOk(s) && CallAt(s, c, SlotParked)
    ensures var t := StepCancel(s, c); OnlyCall(s, t, c) && SameRole(s, t, c) && ParkingOk(t, c) && KindOk(t, c)
  {
    Removed(s.inFlightWaiters, c);
    Of(s, c);
    OwnEntry(s, c);
  }

  lemma CancelRoom(s: State, c: nat)
    requires Core(s) && ClosedOk(s) && CallAt(s, c, RoomParked)
    ensures var t := StepCancel(s, c); OnlyCall(s, t, c) && SameRole(s, t, c) && ParkingOk(t, c) && KindOk(t, c)
  {
    Removed(s.roomWaiters, c);
    Of(s, c);
    OwnEntry(s, c);
  }

  lemma CancelAwait(s: State, c: nat)
    requires Core(s) && ClosedOk(s) && CallAt(s, c, AwaitParked)
    ensures var t := StepCancel(s, c); OnlyCall(s, t, c) && SameRole(s, t, c) && ParkingOk(t, c) && KindOk(t, c)
  {
    Of(s, c);
    OwnEntry(s, c);
  }

  lemma CancelStep(s: State, c: nat)
    requires Core(s) && ClosedOk(s) && Enabled(s, Cancel(c))
    ensures var t := StepCancel(s, c); OnlyCall(s, t, c) && SameRole(s, t, c) && ParkingOk(t, c) && KindOk(t, c)
  {
    if s.calls[c].pc == SlotParked {
      CancelSlot(s, c);
      return;
    }
    if s.calls[c].pc == RoomParked {
      CancelRoom(s, c);
      return;
    }
    CancelAwait(s, c);
  }

  lemma CancelInv(s: State, c: nat)
    requires Inv(s) && Enabled(s, Cancel(c))
    ensures Safe(s, StepCancel(s, c))
  {
    CancelStep(s, c);
    OnlyCallInv(s, StepCancel(s, c), c);
  }

  // ---- running on ----

  lemma ResumeSlot(s: State, c: nat)
    requires Inv(s) && CallAt(s, c, SlotWoken) && s.calls[c].kind.Requester?
    ensures Safe(s, SetPc(s, c, Starting))
  {
    Of(s, c);
    OwnEntry(s, c);
    OnlyCallInv(s, SetPc(s, c, Starting), c);
  }

  lemma ResumeRoom(s: State, c: nat)
    requires Inv(s) && CallAt(s, c, RoomWoken) && !s.calls[c].kind.Successor?
    ensures Safe(s, SetCall(s, c, s.calls[c].(pc := Running, roomCont := false)))
  {
    Of(s, c);
    OwnEntry(s, c);
    OnlyCallInv(s, SetCall(s, c, s.calls[c].(pc := Running, roomCont := false)), c);
  }

  lemma WokenInv(s: State, c: nat)
    requires Inv(s) && Enabled(s, RunWoken(c))
    ensures Safe(s, StepWoken(s, c))
  {
    var call := s.calls[c];
    Of(s, c);
    if call.pc == SlotWoken {
      ResumeSlot(s, c);
      SlotLoopInv(SetPc(s, c, Starting), c);
      return;
    }
    if call.pc == RoomWoken {
      ResumeRoom(s, c);
      RoomLoopInv(SetCall(s, c, call.(pc := Running, roomCont := false)), c);
      return;
    }
    if call.pc == RoomRefused {
      FinishInv(s, c, Threw(Closed));
      return;
    }
    FinishInv(s, c, ResultOf(call.settled.value));
  }

  // ---- new coroutines ----

  /** A coroutine that starts: nothing else changes, and a request's id is above all before it. */
  ghost predicate Appended(s: State, t: State, k: Call) {
    && t.calls == s.calls + [k]
    && t.cfg == s.cfg && t.pending == s.pending && t.closed == s.closed
    && t.roomWaiters == s.roomWaiters && t.inFlightWaiters == s.inFlightWaiters
    && s.requestId <= t.requestId
    && (if Writing(k.pc) then s.writer.None? && t.writer == Some(|s.calls|) else t.writer == s.writer)
    && (s.writer.Some? ==> s.writer.value < |s.calls|)
    && (k.kind.Requester? ==> s.requestId < k.kind.packet.messageId)
    && (!k.kind.Successor? ==> Built(k.kind.packet))
  }

  lemma AppendedCore(s: State, t: State, k: Call)
    requires Core(s) && Appended(s, t, k)
    requires ParkingOk(t, |s.calls|) && KindOk(t, |s.calls|)
    ensures Core(t)
  {
    forall d | 0 <= d < |t.calls| ensures CallOk(t, d) {
      if d < |s.calls| { Of(s, d); }
    }
    forall d, e | 0 <= d < e < |t.calls| ensures InOrder(t.calls[d], t.calls[e]) {
      Of(s, d);
      if e < |s.calls| { assert InOrder(s.calls[d], s.calls[e]); }
    }
    forall id | id in t.pending ensures EntryOk(t, id) { assert EntryOk(s, id); }
  }

  lemma NewSenderInv(s: State, p: Packet, oneWayId: u32)
    requires Inv(s) && Built(p)
    ensures Safe(s, s.(oneWayId := oneWayId, calls := s.calls + [NewCall(Sender(p), Running, false)]))
  {
    var t := s.(oneWayId := oneWayId, calls := s.calls + [NewCall(Sender(p), Running, false)]);
    AppendedCore(s, t, NewCall(Sender(p), Running, false));
  }

  lemma NewRequestInv(s: State, p: Packet, deadline: bool)
    requires Inv(s) && Built(p) && p.kind == Request && p.messageId == s.requestId + 1
    ensures Safe(s, s.(requestId := p.messageId, calls := s.calls + [NewCall(Requester(p), Starting, deadline)]))
  {
    var k := NewCall(Requester(p), Starting, deadline);
    var t := s.(requestId := p.messageId, calls := s.calls + [k]);
    if p.messageId in s.pending {
      assert EntryOk(s, p.messageId);
      Of(s, s.pending[p.messageId]);
    }
    AppendedCore(s, t, k);
  }

  // ---- the writer's other steps ----

  lemma WriteSomeInv(s: State, k: nat)
    requires Inv(s) && WriterAt(s, InWrite) && k <= |s.writeBuf|
    ensures Safe(s, s.(socket := s.socket + s.writeBuf[..k], writeBuf := s.writeBuf[k..]))
  {
    var t := s.(socket := s.socket + s.writeBuf[..k], writeBuf := s.writeBuf[k..]);
    SameCore(s, t);
    Of(s, s.writer.value);
    Associates(s.socket, s.writeBuf[..k], s.writeBuf[k..]);
    assert s.writeBuf[..k] + s.writeBuf[k..] == s.writeBuf;
  }

  lemma SameCore(s: State, t: State)
    requires Core(s)
    requires t.cfg == s.cfg && t.calls == s.calls && t.pending == s.pending && t.closed == s.closed && t.requestId == s.requestId
    requires t.roomWaiters == s.roomWaiters && t.inFlightWaiters == s.inFlightWaiters && t.writer == s.writer
    ensures Core(t)
  {
    forall c | 0 <= c < |t.calls| ensures CallOk(t, c) { Of(s, c); }
    forall id | id in t.pending ensures EntryOk(t, id) { assert EntryOk(s, id); }
    forall c, d | 0 <= c < d < |t.calls| ensures InOrder(t.calls[c], t.calls[d]) { assert InOrder(s.calls[c], s.calls[d]); }
  }

  lemma WriteReturnsInv(s: State)
    requires Inv(s) && WriterAt(s, InWrite) && s.writeBuf == []
    ensures Safe(s, SetPc(s, s.writer.value, InFlush))
  {
    WriterStep(s, SetPc(s, s.writer.value, InFlush), s.writer.value, InFlush);
  }

  ghost predicate AtSocket(s: State, c: nat) {
    IsWriter(s, c) && (s.calls[c].pc.InWrite? || s.calls[c].pc.InFlush?)
  }

  lemma HandOffInv(s: State, c: nat)
    requires Inv(s) && AtSocket(s, c)
    ensures Safe(s, HandOff(s, c)) && CallAt(HandOff(s, c), c, Running)
  {
    var u := SetPc(s.(writer := None), c, Running);
    WriterStep(s, u, c, Running);
    if !s.closed && (s.writeBuf != [] || s.sendQueue != []) {
      if s.scopeActive {
        AppendedCore(u, HandOff(s, c), NewCall(Successor, Launched, false));
        return;
      }
      SameCore(u, HandOff(s, c));
      return;
    }
    SameCore(u, HandOff(s, c));
  }

  lemma ScopeCancelledInv(s: State)
    requires Inv(s) && s.scopeActive
    ensures Safe(s, Step(s, ScopeCancelled))
  {
    var t := Step(s, ScopeCancelled);
    if WriterAt(s, Launched) {
      var c := s.writer.value;
      Of(s, c);
      OwnEntry(s, c);
      CallChangeCore(s, t, c);
      return;
    }
    SameCore(s, t);
  }

  // ---- close ----

  lemma InRegistry(s: State, c: nat)
    requires Core(s) && c < |s.calls|
    ensures c in s.pending.Values <==> s.calls[c].kind.Requester? && Underway(s.calls[c].pc) && s.calls[c].settled.None?
  {
    Of(s, c);
    OwnEntry(s, c);
  }

  lemma CloseCallOk(s: State, c: nat)
    requires Core(s) && !s.closed && c < |s.calls|
    ensures CallOk(Shutdown(s), c)
    ensures Shutdown(s).calls[c].kind == s.calls[c].kind
    ensures Shutdown(s).calls[c].pc.InFlush? <==> s.calls[c].pc.InFlush?
  {
    Of(s, c);
    InRegistry(s, c);
  }

  /** Whatever close resumes is still waiting. */
  lemma CloseResumesOnce(s: State)
    requires Core(s)
    ensures (set c | 0 <= c < |s.calls| && CloseResumesTwice(s, c)) == {}
  {
    forall c | 0 <= c < |s.calls| ensures !CloseResumesTwice(s, c) { Of(s, c); }
  }

  lemma ShutdownInv(s: State)
    requires Inv(s)
    ensures Safe(s, Shutdown(s))
  {
    if !s.closed {
      var t := Shutdown(s);
      CloseResumesOnce(s);
      forall c | 0 <= c < |t.calls| ensures CallOk(t, c) { CloseCallOk(s, c); }
      forall c, d | 0 <= c < d < |t.calls| ensures InOrder(t.calls[c], t.calls[d]) {
        CloseCallOk(s, c);
        CloseCallOk(s, d);
        assert InOrder(s.calls[c], s.calls[d]);
      }
      if WriterAt(t, InFlush) { CloseCallOk(s, s.writer.value); }
    }
  }

  lemma StopWriting(s: State, c: nat, error: CallError)
    requires Inv(s) && s.closed && AtSocket(s, c)
    ensures Safe(s, Finish(SetPc(s.(writer := None, writerActive := false), c, Running), c, Threw(error)))
  {
    var t := SetPc(s.(writer := None, writerActive := false), c, Running);
    WriterStep(s, t, c, Running);
    FinishInv(t, c, Threw(error));
  }

  lemma StillAtSocket(s: State, c: nat)
    requires Core(s) && AtSocket(s, c)
    ensures AtSocket(Shutdown(s), c)
  {
    Of(s, c);
    if !s.closed { CloseCallOk(s, c); }
  }

  lemma WriterFailsInv(s: State, c: nat, error: CallError)
    requires Inv(s) && AtSocket(s, c)
    ensures Safe(s, Finish(SetPc(Shutdown(s).(writer := None, writerActive := false), c, Running), c, Threw(error)))
  {
    ShutdownInv(s);
    StillAtSocket(s, c);
    StopWriting(Shutdown(s), c, error);
  }
}
