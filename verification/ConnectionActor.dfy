/**
 The connection as an object: the fields the reactor thread owns and the segments that change them in place. The
 registry is the open-addressing map, the send queue the ring, the write buffer the codec's; the state they stand for
 is a state of `ConnectionModel`, and the object moves from state to state as the model does, so what is proved of
 runs there holds of it.
 */
module ConnectionActor {
  import opened Bytes
  import opened Wrappers
  import opened Packets
  import opened Lists
  import Rings
  import IdMaps
  import opened ConnectionModel
  import ConnectionInvariants
  import ConnectionRuns

  class Connection {
    const cfg: Config
    const pending: IdMaps.IdMap<nat>
    const sendQueue: Rings.Ring<Packet>
    const writeBuf: Buffer
    var calls: seq<Call>
    var requestId: u32
    var oneWayId: u32
    var queuedBytes: int
    var writerActive: bool
    var roomWaiters: seq<nat>
    var inFlightWaiters: seq<nat>
    var closed: bool
    var scopeActive: bool
    var closeCallbacks: nat
    var writer: Option<nat>
    /** The state of the model that the object stands for. */
    ghost var now: State

    /** The containers still use the arrays they had, or new ones. */
    twostate predicate Grown()
      reads this, pending, sendQueue
    {
      && ((pending.keys == old(pending.keys) && pending.vals == old(pending.vals)) || (fresh(pending.keys) && fresh(pending.vals)))
      && (sendQueue.items == old(sendQueue.items) || fresh(sendQueue.items))
    }

    twostate predicate SameArrays()
      reads this, pending, sendQueue
    {
      pending.keys == old(pending.keys) && pending.vals == old(pending.vals) && sendQueue.items == old(sendQueue.items)
    }

    ghost predicate Mirrors()
      reads this, pending, sendQueue, writeBuf
    {
      && now.cfg == cfg && now.calls == calls && now.pending == pending.contents && now.sendQueue == sendQueue.contents
      && now.writeBuf == writeBuf.readable && now.requestId == requestId && now.oneWayId == oneWayId
      && now.queuedBytes == queuedBytes && now.writerActive == writerActive && now.writer == writer
      && now.roomWaiters == roomWaiters && now.inFlightWaiters == inFlightWaiters
      && now.closed == closed && now.scopeActive == scopeActive && now.closeCallbacks == closeCallbacks
    }

    ghost predicate Valid()
      reads this, pending, pending.keys, pending.vals, sendQueue, sendQueue.items, writeBuf
    {
      && Mirrors() && pending.Valid() && sendQueue.Valid()
      && sendQueue.items as object != pending.keys as object && sendQueue.items as object != pending.vals as object
    }

    constructor (cfg: Config)
      ensures Valid() && now == Init(cfg) && fresh(pending) && fresh(sendQueue) && fresh(writeBuf)
      ensures fresh(pending.keys) && fresh(pending.vals) && fresh(sendQueue.items)
    {
      this.cfg := cfg;
      pending := new IdMaps.IdMap();
      sendQueue := new Rings.Ring();
      writeBuf := new Buffer();
      calls, requestId, oneWayId, queuedBytes, writerActive := [], 0, 0, 0, false;
      roomWaiters, inFlightWaiters := [], [];
      closed, scopeActive, closeCallbacks := false, true, 0;
      writer := None;
      now := Init(cfg);
    }

    // ---- the registry, the queue and the buffer ----

    /** Take a request out of the registry; the result says whether, and which call, it held. */
    method Unregister(id: u32) returns (r: Option<nat>)
      requires Valid()
      modifies this`now, pending, pending.keys, pending.vals
      ensures Valid() && SameArrays()
      ensures r == if id in old(now).pending then Some(old(now).pending[id]) else None
      ensures now == old(now).(pending := old(now).pending - {id})
    {
      r := pending.Remove(id);
      now := now.(pending := now.pending - {id});
    }

    /** Enter a request into the registry. */
    method Register(id: u32, c: nat)
      requires Valid()
      modifies this`now, pending, pending.keys, pending.vals
      ensures Valid() && Grown()
      ensures now == old(now).(pending := old(now).pending[id := c])
    {
      pending.Set(id, c);
      now := now.(pending := now.pending[id := c]);
    }

    /** The packet goes through the codec into the write buffer. */
    method Encode(p: Packet)
      requires Valid()
      modifies this`now, writeBuf
      ensures Valid()
      ensures now == old(now).(writeBuf := old(now).writeBuf + Wire(cfg.framing)(p), encoded := old(now).encoded + [p])
    {
      if cfg.framing.PlainPackets? {
        PacketCodec.EncodeInto(p, writeBuf);
      } else {
        LengthPrefixedCodec.EncodeInto(p, writeBuf);
      }
      now := now.(writeBuf := now.writeBuf + Wire(cfg.framing)(p), encoded := now.encoded + [p]);
    }

    method SetCallAt(c: nat, call: Call)
      requires Valid() && c < |calls|
      modifies this`now, this`calls
      ensures Valid() && now == SetCall(old(now), c, call)
    {
      calls := calls[c := call];
      now := SetCall(now, c, call);
    }

    method SetPcOf(c: nat, pc: Pc)
      requires Valid() && c < |calls|
      modifies this`now, this`calls
      ensures Valid() && now == SetPc(old(now), c, pc)
    {
      SetCallAt(c, calls[c].(pc := pc));
    }

    // ---- waking ----

    method WakeOneRoomWaiter()
      requires Valid()
      modifies this`now, this`calls, this`roomWaiters
      ensures Valid() && now == WakeRoom(old(now))
    {
      if roomWaiters != [] {
        var c := roomWaiters[0];
        roomWaiters := roomWaiters[1..];
        if c < |calls| {
          calls := calls[c := Admit(calls[c])];
        }
      }
      now := WakeRoom(now);
    }

    method ReleaseOutboundBytes(bytes: nat)
      requires Valid()
      modifies this`now, this`calls, this`roomWaiters, this`queuedBytes
      ensures Valid() && now == WakeRoom(old(now).(queuedBytes := Released(old(now).queuedBytes, bytes)))
    {
      queuedBytes := queuedBytes - bytes;
      if queuedBytes < 0 {
        queuedBytes := 0;
      }
      now := now.(queuedBytes := Released(now.queuedBytes, bytes));
      WakeOneRoomWaiter();
    }

    method WakeOneInFlightWaiter()
      requires Valid()
      modifies this`now, this`calls, this`inFlightWaiters
      ensures Valid() && now == WakeInFlight(old(now))
    {
      if inFlightWaiters != [] {
        var next := inFlightWaiters[0];
        inFlightWaiters := inFlightWaiters[1..];
        if next < |calls| {
          calls := calls[next := Unslot(calls[next])];
        }
      }
      now := WakeInFlight(now);
    }

    // ---- the end of a call ----

    /** A request leaves: deadline disposed, waiter cleared, both entries removed; the result says if it was registered. */
    method LeaveCall(c: nat, r: Result) returns (registered: bool)
      requires Valid() && c < |calls| && calls[c].kind.Requester?
      modifies this`now, this`calls, this`inFlightWaiters, pending, pending.keys, pending.vals
      ensures Valid() && SameArrays()
      ensures registered == (old(calls)[c].kind.packet.messageId in old(now).pending)
      ensures now == Leave(old(now), c, r)
    {
      var call := calls[c];
      var was := pending.Remove(call.kind.packet.messageId);
      registered := was.Some?;
      inFlightWaiters := Remove(inFlightWaiters, c);
      calls := calls[c := call.(pc := Done(r), armed := false, waiter := false)];
      now := Leave(now, c, r);
    }

    method End(c: nat, r: Result)
      requires Valid() && c < |calls|
      modifies this`now, this`calls, this`inFlightWaiters, pending, pending.keys, pending.vals
      ensures Valid() && SameArrays()
      ensures now == Finish(old(now), c, r)
    {
      if !calls[c].kind.Requester? {
        SetPcOf(c, Done(r));
        return;
      }
      var registered := LeaveCall(c, r);
      if registered {
        WakeOneInFlightWaiter();
      }
    }

    method AwaitResponse(c: nat)
      requires Valid() && c < |calls|
      modifies this`now, this`calls, this`inFlightWaiters, pending, pending.keys, pending.vals
      ensures Valid() && SameArrays()
      ensures now == Await(old(now), c)
    {
      if calls[c].settled.Some? {
        End(c, ResultOf(calls[c].settled.value));
      } else {
        SetCallAt(c, calls[c].(pc := AwaitParked, waiter := true));
      }
    }

    method LeaveEnqueue(c: nat)
      requires Valid() && c < |calls|
      modifies this`now, this`calls, this`inFlightWaiters, pending, pending.keys, pending.vals
      ensures Valid() && SameArrays()
      ensures now == AfterEnqueue(old(now), c)
    {
      if calls[c].kind.Requester? {
        AwaitResponse(c);
      } else {
        End(c, Sent);
      }
    }

    // ---- the writer ----

    /** Take the oldest packet off the queue, if there is one. */
    method TakeFirst() returns (p: Option<Packet>)
      requires Valid()
      modifies this`now, sendQueue, sendQueue.items
      ensures Valid() && SameArrays()
      ensures var q := old(now).sendQueue;
              && p == (if q == [] then None else Some(q[0]))
              && now == old(now).(sendQueue := if q == [] then [] else q[1..])
    {
      p := sendQueue.RemoveFirstOrNull();
      now := now.(sendQueue := if now.sendQueue == [] then [] else now.sendQueue[1..]);
    }

    /** What a turn of the drain loop does with the packet taken, in the source's order: release, wake, encode, write. */
    method WriteNext(c: nat, p: Packet)
      requires Valid() && c < |calls|
      modifies this`now, this`calls, this`roomWaiters, this`queuedBytes, writeBuf
      ensures Valid()
      ensures now == Filled(WakeRoom(old(now).(queuedBytes := Released(old(now).queuedBytes, PacketBytes(p)))), p, c)
    {
      ReleaseOutboundBytes(PacketBytes(p));
      Encode(p);
      SetPcOf(c, InWrite);
    }

    method StopWriting(c: nat)
      requires Valid() && c < |calls|
      modifies this`now, this`writerActive, this`writer, this`calls
      ensures Valid() && now == SetPc(old(now).(writerActive := false, writer := None), c, Running)
    {
      writerActive := false;
      writer := None;
      now := now.(writerActive := false, writer := None);
      SetPcOf(c, Running);
    }

    method StartWriting(c: nat, pc: Pc)
      requires Valid() && c < |calls|
      modifies this`now, this`writerActive, this`writer, this`calls
      ensures Valid() && now == SetPc(old(now).(writerActive := true, writer := Some(c)), c, pc)
    {
      writerActive := true;
      writer := Some(c);
      now := now.(writerActive := true, writer := Some(c));
      SetPcOf(c, pc);
    }

    /** The drain loop from one socket write to the next. */
    method Drain(c: nat)
      requires Valid() && c < |calls| && !calls[c].pc.RoomParked? && !calls[c].pc.RoomCancelled?
      modifies this, pending, pending.keys, pending.vals, sendQueue, sendQueue.items, writeBuf
      ensures Valid() && Grown()
      ensures now == DrainLoop(old(now), c)
    {
      if !closed && sendQueue.size != 0 {
        TakeInOrderIsTake(now, c);
        var p := TakeFirst();
        WriteNext(c, p.value);
        return;
      }
      StopWriting(c);
      LeaveEnqueue(c);
    }

    /** A writer first writes what a cancelled predecessor left in the buffer. */
    method DrainAsWriter(c: nat)
      requires Valid() && c < |calls|
      modifies this, pending, pending.keys, pending.vals, sendQueue, sendQueue.items, writeBuf
      ensures Valid() && Grown()
      ensures now == BeginDrain(old(now), c)
    {
      if writeBuf.readable != [] {
        StartWriting(c, InWrite);
        return;
      }
      StartWriting(c, InFlush);
      Drain(c);
    }

    // ---- enqueue ----

    method Accept(c: nat)
      requires Valid() && c < |calls| && !calls[c].kind.Successor?
      modifies this`now, this`queuedBytes, this`calls, sendQueue, sendQueue.items
      ensures Valid() && Grown()
      ensures now == Queue(old(now), c)
    {
      var p := calls[c].kind.packet;
      queuedBytes := queuedBytes + PacketBytes(p);
      sendQueue.AddLast(p);
      calls := calls[c := calls[c].(queued := true)];
      now := Queue(now, c);
    }

    method AddToQueue(c: nat)
      requires Valid() && c < |calls| && !calls[c].kind.Successor?
      modifies this, pending, pending.keys, pending.vals, sendQueue, sendQueue.items, writeBuf
      ensures Valid() && Grown()
      ensures now == Put(old(now), c)
    {
      Accept(c);
      if writerActive {
        LeaveEnqueue(c);
      } else {
        DrainAsWriter(c);
      }
    }

    method HasRoom(bytes: nat) returns (b: bool)
      requires Valid()
      ensures b == RoomFor(now, bytes)
    {
      b := sendQueue.size < cfg.mailboxCapacity && (queuedBytes == 0 || queuedBytes + bytes <= cfg.maxOutboundBytes);
    }

    method ParkForRoom(c: nat)
      requires Valid() && c < |calls|
      modifies this`now, this`calls, this`roomWaiters
      ensures Valid()
      ensures now == SetCall(old(now), c, old(calls)[c].(pc := RoomParked, roomCont := old(calls)[c].kind.Requester?))
                       .(roomWaiters := old(now).roomWaiters + [c])
    {
      SetCallAt(c, calls[c].(pc := RoomParked, roomCont := calls[c].kind.Requester?));
      roomWaiters := roomWaiters + [c];
      now := now.(roomWaiters := now.roomWaiters + [c]);
    }

    /** The room loop, from a turn to the next suspension. */
    method AwaitOutboundRoom(c: nat)
      requires Valid() && c < |calls| && !calls[c].kind.Successor?
      modifies this, pending, pending.keys, pending.vals, sendQueue, sendQueue.items, writeBuf
      ensures Valid() && Grown()
      ensures now == RoomLoop(old(now), c)
    {
      if calls[c].settled.Some? {
        AwaitResponse(c);
        return;
      }
      if closed {
        End(c, Threw(Closed));
        return;
      }
      var room := HasRoom(PacketBytes(calls[c].kind.packet));
      if room {
        AddToQueue(c);
        return;
      }
      ParkForRoom(c);
    }

    method EnqueueCall(c: nat)
      requires Valid() && c < |calls| && !calls[c].kind.Successor?
      modifies this, pending, pending.keys, pending.vals, sendQueue, sendQueue.items, writeBuf
      ensures Valid() && Grown()
      ensures now == Enqueue(old(now), c)
    {
      var p := calls[c].kind.packet;
      if PacketBytes(p) > cfg.maxPayloadLength || PacketBytes(p) > cfg.maxOutboundBytes {
        End(c, Threw(TooLarge));
        return;
      }
      var room := HasRoom(PacketBytes(p));
      if !closed && room {
        AddToQueue(c);
        return;
      }
      AwaitOutboundRoom(c);
    }

    // ---- requests ----

    method SlotsTaken() returns (b: bool)
      requires Valid()
      ensures b == (|now.pending| >= cfg.maxInFlightRequests)
    {
      pending.SizeIsCount();
      b := pending.size >= cfg.maxInFlightRequests;
    }

    method ParkForSlot(c: nat)
      requires Valid() && c < |calls|
      modifies this`now, this`calls, this`inFlightWaiters
      ensures Valid()
      ensures now == SetCall(old(now), c, old(calls)[c].(pc := SlotParked, slotCont := true))
                       .(inFlightWaiters := old(now).inFlightWaiters + [c])
    {
      SetCallAt(c, calls[c].(pc := SlotParked, slotCont := true));
      inFlightWaiters := inFlightWaiters + [c];
      now := now.(inFlightWaiters := now.inFlightWaiters + [c]);
    }

    /** The slot loop and what follows it. */
    method AwaitSlot(c: nat)
      requires Valid() && c < |calls| && calls[c].kind.Requester?
      modifies this, pending, pending.keys, pending.vals, sendQueue, sendQueue.items, writeBuf
      ensures Valid() && Grown()
      ensures now == SlotLoop(old(now), c)
    {
      var taken := SlotsTaken();
      if !closed && taken && calls[c].settled.None? {
        ParkForSlot(c);
        return;
      }
      if calls[c].settled.Some? {
        AwaitResponse(c);
        return;
      }
      if closed {
        End(c, Threw(Closed));
        return;
      }
      RegisterAndEnqueue(c);
    }

    method RegisterAndEnqueue(c: nat)
      requires Valid() && c < |calls| && calls[c].kind.Requester?
      modifies this, pending, pending.keys, pending.vals, sendQueue, sendQueue.items, writeBuf
      ensures Valid() && Grown()
      ensures now == Enqueue(SetPc(old(now).(pending := old(now).pending[old(calls)[c].kind.packet.messageId := c]), c, Running), c)
    {
      Register(calls[c].kind.packet.messageId, c);
      SetPcOf(c, Running);
      EnqueueCall(c);
    }

    method LeaveRoomList(c: nat)
      requires Valid()
      modifies this`now, this`roomWaiters
      ensures Valid() && now == old(now).(roomWaiters := Remove(old(now).roomWaiters, c))
    {
      roomWaiters := Remove(roomWaiters, c);
      now := now.(roomWaiters := roomWaiters);
    }

    /** The deadline fails the request and takes it out of the registry and the room list. */
    method ExpireUnsettled(c: nat)
      requires Valid() && c < |calls| && calls[c].kind.Requester?
      modifies this`now, this`calls, this`roomWaiters, pending, pending.keys, pending.vals
      ensures Valid() && SameArrays()
      ensures now == Expired(old(now), c)
    {
      var call := calls[c];
      var _ := Unregister(call.kind.packet.messageId);
      if call.roomCont {
        LeaveRoomList(c);
      }
      SetCallAt(c, ExpiredCall(call));
    }

    method OnDeadline(c: nat)
      requires Valid() && c < |calls| && calls[c].kind.Requester?
      modifies this, pending, pending.keys, pending.vals, sendQueue, sendQueue.items, writeBuf
      ensures Valid() && Grown()
      ensures now == Expire(old(now), c)
    {
      var call := calls[c];
      if call.settled.Some? {
        SetCallAt(c, call.(armed := false));
        return;
      }
      ExpireUnsettled(c);
      if ResumesTwice(call) {
        now := now.(doubleResumes := now.doubleResumes + 1);
        return;
      }
      WakeOneInFlightWaiter();
    }

    /** An id that is not registered leaves everything as it is. */
    method TakeRegistered(id: u32) returns (r: Option<nat>)
      requires Valid()
      modifies this`now, pending, pending.keys, pending.vals
      ensures Valid() && SameArrays()
      ensures if id in old(now).pending
              then r == Some(old(now).pending[id]) && now == old(now).(pending := old(now).pending - {id})
              else r == None && now == old(now)
    {
      r := Unregister(id);
      assert id !in old(now).pending ==> old(now).pending - {id} == old(now).pending;
    }

    method Answer(c: nat, p: Packet)
      requires Valid() && c < |calls|
      modifies this`now, this`calls
      ensures Valid()
      ensures now == SetCall(old(now), c, Settle(old(calls)[c], Answered(p)))
                       .(doubleResumes := old(now).doubleResumes + Count(LateForOutcome(old(calls)[c])))
    {
      now := now.(doubleResumes := now.doubleResumes + Count(LateForOutcome(calls[c])));
      SetCallAt(c, Settle(calls[c], Answered(p)));
    }

    /** The registered request that `p` answers leaves the registry and is settled. */
    method Complete(p: Packet) returns (found: bool)
      requires Valid()
      modifies this`now, this`calls, pending, pending.keys, pending.vals
      ensures Valid() && SameArrays()
      ensures found == (p.messageId in old(now).pending)
      ensures now == if found then Completed(old(now), p) else old(now)
    {
      var r := TakeRegistered(p.messageId);
      found := r.Some?;
      if found && r.value < |calls| {
        Answer(r.value, p);
      }
    }

    /** The read loop's Response branch. */
    method OnResponse(p: Packet)
      requires Valid()
      modifies this, pending, pending.keys, pending.vals, sendQueue, sendQueue.items, writeBuf
      ensures Valid() && Grown()
      ensures now == Respond(old(now), p)
    {
      var found := Complete(p);
      if found {
        WakeOneInFlightWaiter();
      }
    }

    // ---- close ----

    /** Every request in the registry is failed; none that is resumed was resumed before. */
    method FailPending()
      requires pending.Valid() && forall c | 0 <= c < |calls| :: !LateForOutcome(calls[c])
      modifies this`calls
      ensures calls == FailedCalls(old(calls), pending.contents.Values)
    {
      ghost var was, n := calls, |calls|;
      var vs, ks := pending.Values();
      for i := 0 to |vs|
        invariant |calls| == n
        invariant forall c | 0 <= c < n :: calls[c] == (if c in vs[..i] then Settle(was[c], Failed(ConnectionClosed)) else was[c])
      {
        var c := vs[i];
        assert vs[..i + 1] == vs[..i] + [c];
        if c < |calls| {
          assert !LateForOutcome(calls[c]);
          calls := calls[c := Settle(calls[c], Failed(ConnectionClosed))];
        }
      }
      assert vs[..|vs|] == vs;
      AllValues(pending.contents, vs, ks);
    }

    /** Every coroutine in the room list is resumed, for the first time, with the close failure, and the list is empty. */
    method RefuseRoomWaiters()
      requires NoDup(roomWaiters) && forall c | 0 <= c < |calls| && c in roomWaiters :: !LateForRoom(calls[c])
      modifies this`calls, this`roomWaiters
      ensures roomWaiters == [] && calls == RefusedCalls(old(calls), old(roomWaiters))
    {
      ghost var was, all, n := calls, roomWaiters, |calls|;
      ghost var k := 0;
      while roomWaiters != []
        invariant 0 <= k <= |all| && roomWaiters == all[k..] && |calls| == n
        invariant forall c | 0 <= c < n :: calls[c] == (if c in all[..k] then Refuse(was[c]) else was[c])
        decreases |roomWaiters|
      {
        var c := roomWaiters[0];
        assert c == all[k] && all[..k + 1] == all[..k] + [c];
        roomWaiters := roomWaiters[1..];
        if c < |calls| {
          assert !LateForRoom(calls[c]);
          calls := calls[c := Refuse(calls[c])];
        }
        k := k + 1;
      }
      assert all[..k] == all;
    }

    /** Every request in the slot list is failed and woken, for the first time, and the list is empty. */
    method FailSlotWaiters()
      requires forall c | 0 <= c < |calls| :: !LateForOutcome(calls[c]) && !LateForSlot(calls[c])
      modifies this`calls, this`inFlightWaiters
      ensures inFlightWaiters == [] && calls == GivenUpCalls(old(calls), old(inFlightWaiters))
    {
      ghost var was, all, n := calls, inFlightWaiters, |calls|;
      ghost var k := 0;
      while inFlightWaiters != []
        invariant 0 <= k <= |all| && inFlightWaiters == all[k..] && |calls| == n
        invariant forall c | 0 <= c < n :: calls[c] == (if c in all[..k] then GiveUp(was[c]) else was[c])
        decreases |inFlightWaiters|
      {
        var c := inFlightWaiters[0];
        assert all[..k + 1] == all[..k] + [c];
        inFlightWaiters := inFlightWaiters[1..];
        if c < |calls| {
          assert !LateForOutcome(calls[c]) && !LateForSlot(calls[c]);
          calls := calls[c := GiveUp(calls[c])];
        }
        k := k + 1;
      }
      assert all[..k] == all;
    }

    /** What close does to the calls: the three loops. */
    method ReleaseCalls()
      requires Valid() && NoDup(roomWaiters) && WaitingForClose(calls, now.pending, roomWaiters)
      modifies this`now, this`calls, this`roomWaiters, this`inFlightWaiters
      ensures Valid()
      ensures now == old(now).(
                calls := ClosedCalls(old(calls), now.pending, old(roomWaiters), old(inFlightWaiters)),
                roomWaiters := [], inFlightWaiters := [])
    {
      FailPendingNow();
      RefuseRoomNow();
      FailSlotsNow();
    }

    method FailPendingNow()
      requires Valid() && forall c | 0 <= c < |calls| :: !LateForOutcome(calls[c])
      modifies this`now, this`calls
      ensures Valid() && now == old(now).(calls := FailedCalls(old(calls), old(now).pending.Values))
    {
      FailPending();
      now := now.(calls := calls);
    }

    method RefuseRoomNow()
      requires Valid() && NoDup(roomWaiters) && forall c | 0 <= c < |calls| && c in roomWaiters :: !LateForRoom(calls[c])
      modifies this`now, this`calls, this`roomWaiters
      ensures Valid() && now == old(now).(calls := RefusedCalls(old(calls), old(roomWaiters)), roomWaiters := [])
    {
      RefuseRoomWaiters();
      now := now.(calls := calls, roomWaiters := []);
    }

    method FailSlotsNow()
      requires Valid() && forall c | 0 <= c < |calls| :: !LateForOutcome(calls[c]) && !LateForSlot(calls[c])
      modifies this`now, this`calls, this`inFlightWaiters
      ensures Valid() && now == old(now).(calls := GivenUpCalls(old(calls), old(inFlightWaiters)), inFlightWaiters := [])
    {
      FailSlotWaiters();
      now := now.(calls := calls, inFlightWaiters := []);
    }

    /** The registry and the queue are emptied. */
    method DropPending()
      requires Valid()
      modifies this`now, pending, pending.keys, pending.vals, sendQueue, sendQueue.items
      ensures Valid() && SameArrays()
      ensures now == old(now).(pending := map[], dropped := old(now).sendQueue, sendQueue := [])
    {
      pending.Clear();
      sendQueue.Clear();
      now := now.(pending := map[], dropped := now.sendQueue, sendQueue := []);
    }

    method MarkClosed()
      requires Valid()
      modifies this`now, this`closed, this`queuedBytes, this`closeCallbacks
      ensures Valid() && now == old(now).(closed := true, queuedBytes := 0, closeCallbacks := old(now).closeCallbacks + 1)
    {
      closed := true;
      queuedBytes := 0;
      closeCallbacks := closeCallbacks + 1;
      now := now.(closed := true, queuedBytes := 0, closeCallbacks := now.closeCallbacks + 1);
    }

    /** A second close does nothing. */
    method Close()
      requires Valid() && ConnectionRuns.Reachable(now)
      modifies this, pending, pending.keys, pending.vals, sendQueue, sendQueue.items, writeBuf
      ensures Valid() && Grown()
      ensures now == Shutdown(old(now))
    {
      if !closed {
        ClosingIsThreeLoops(now);
        ReleaseCalls();
        DropPending();
        MarkClosed();
      }
    }

    // ---- starting and resuming calls ----

    method AddCall(call: Call)
      requires Valid()
      modifies this`now, this`calls
      ensures Valid() && now == old(now).(calls := old(now).calls + [call])
    {
      calls := calls + [call];
      now := now.(calls := now.calls + [call]);
    }

    method StartSending(p: Packet)
      requires Valid()
      modifies this, pending, pending.keys, pending.vals, sendQueue, sendQueue.items, writeBuf
      ensures Valid() && Grown()
      ensures now == BeginSend(old(now), p)
    {
      var c := |calls|;
      AddCall(NewCall(Sender(p), Running, false));
      EnqueueCall(c);
    }

    /** A fresh id, a deadline, then the slot loop. */
    method StartRequesting(bizType: byte, data: seq<byte>, compression: Compression, deadline: bool)
      requires Valid() && requestId != 0xFFFF_FFFF
      modifies this, pending, pending.keys, pending.vals, sendQueue, sendQueue.items, writeBuf
      ensures Valid() && Grown()
      ensures now == BeginRequest(old(now), MakePacket(Request, old(requestId) + 1, bizType, data, compression), deadline)
    {
      requestId := requestId + 1;
      now := now.(requestId := requestId);
      var c := |calls|;
      var p := MakePacket(Request, requestId, bizType, data, compression);
      AddCall(NewCall(Requester(p), Starting, deadline));
      AwaitSlot(c);
    }

    method ResumeForSlot(c: nat)
      requires Valid() && c < |calls| && calls[c].kind.Requester?
      modifies this, pending, pending.keys, pending.vals, sendQueue, sendQueue.items, writeBuf
      ensures Valid() && Grown()
      ensures now == SlotLoop(SetPc(old(now), c, Starting), c)
    {
      SetPcOf(c, Starting);
      AwaitSlot(c);
    }

    method ResumeForRoom(c: nat)
      requires Valid() && c < |calls| && !calls[c].kind.Successor?
      modifies this, pending, pending.keys, pending.vals, sendQueue, sendQueue.items, writeBuf
      ensures Valid() && Grown()
      ensures now == RoomLoop(SetCall(old(now), c, old(calls)[c].(pc := Running, roomCont := false)), c)
    {
      SetCallAt(c, calls[c].(pc := Running, roomCont := false));
      AwaitOutboundRoom(c);
    }

    /** A woken coroutine runs on. */
    method Resume(c: nat)
      requires Valid() && c < |calls|
      modifies this, pending, pending.keys, pending.vals, sendQueue, sendQueue.items, writeBuf
      ensures Valid() && Grown()
      ensures now == StepWoken(old(now), c)
    {
      var call := calls[c];
      if call.pc == SlotWoken {
        if call.kind.Requester? {
          ResumeForSlot(c);
        }
        return;
      }
      if call.pc == RoomWoken {
        if !call.kind.Successor? {
          ResumeForRoom(c);
        }
        return;
      }
      if call.pc == RoomRefused {
        End(c, Threw(Closed));
        return;
      }
      if call.settled.Some? {
        End(c, ResultOf(call.settled.value));
      }
    }

    /** The cancellation handlers of the three suspension points. */
    method CancelParked(c: nat)
      requires Valid() && c < |calls|
      modifies this`now, this`calls, this`inFlightWaiters, this`roomWaiters
      ensures Valid() && now == StepCancel(old(now), c)
    {
      var pc := calls[c].pc;
      SetCallAt(c, CancelledCall(calls[c]));
      if pc == SlotParked {
        inFlightWaiters := Remove(inFlightWaiters, c);
        now := now.(inFlightWaiters := inFlightWaiters);
      } else if pc == RoomParked {
        LeaveRoomList(c);
      }
    }

    // ---- the writer's fate ----

    method LaunchSuccessor(c: nat)
      requires Valid() && c < |calls|
      modifies this`now, this`calls, this`writer
      ensures Valid()
      ensures now == old(now).(calls := old(now).calls[c := old(now).calls[c].(pc := Running)] + [NewCall(Successor, Launched, false)],
                               writer := Some(|old(now).calls|))
    {
      writer := Some(|calls|);
      calls := calls[c := calls[c].(pc := Running)] + [NewCall(Successor, Launched, false)];
      now := now.(calls := calls, writer := writer);
    }

    method LeaveUnwritten(c: nat)
      requires Valid() && c < |calls|
      modifies this`now, this`calls, this`writer
      ensures Valid() && now == SetPc(old(now).(writer := None, stranded := true), c, Running)
    {
      writer := None;
      now := now.(writer := None, stranded := true);
      SetPcOf(c, Running);
    }

    /** A cancelled writer leaves what is left to a successor. */
    method HandOver(c: nat)
      requires Valid() && c < |calls|
      modifies this`now, this`calls, this`writerActive, this`writer
      ensures Valid() && now == HandOff(old(now), c)
    {
      if closed || (writeBuf.readable == [] && sendQueue.size == 0) {
        StopWriting(c);
      } else if scopeActive {
        LaunchSuccessor(c);
      } else {
        LeaveUnwritten(c);
      }
    }

    method CancelWriter()
      requires Valid() && Enabled(now, WriterCancelled)
      modifies this, pending, pending.keys, pending.vals, sendQueue, sendQueue.items, writeBuf
      ensures Valid() && Grown()
      ensures now == Step(old(now), WriterCancelled)
    {
      var c := writer.value;
      HandOver(c);
      End(c, Threw(Cancelled));
    }

    method FailWriter(c: nat, error: CallError)
      requires Valid() && ConnectionRuns.Reachable(now) && c < |calls|
      modifies this, pending, pending.keys, pending.vals, sendQueue, sendQueue.items, writeBuf
      ensures Valid() && Grown()
      ensures now == Finish(SetPc(Shutdown(old(now)).(writer := None, writerActive := false), c, Running), c, Threw(error))
    {
      Close();
      StopWriting(c);
      End(c, Threw(error));
    }

    /** The socket takes bytes off the front of the buffer. */
    method SocketTakes(k: nat) returns (taken: seq<byte>)
      requires Valid() && k <= |writeBuf.readable|
      modifies this`now, writeBuf
      ensures Valid() && taken == old(now).writeBuf[..k]
      ensures now == old(now).(socket := old(now).socket + taken, writeBuf := old(now).writeBuf[k..])
    {
      taken := writeBuf.ReadBytes(k);
      now := now.(socket := now.socket + taken, writeBuf := now.writeBuf[k..]);
    }

    /** The scope is cancelled; a successor that has not started never will. */
    method CancelScope()
      requires Valid()
      modifies this`now, this`scopeActive, this`writer, this`calls
      ensures Valid() && now == LoseScope(old(now))
    {
      scopeActive := false;
      now := now.(scopeActive := false);
      if writer.Some? && writer.value < |calls| && calls[writer.value].pc == Launched {
        var c := writer.value;
        writer := None;
        now := now.(writer := None, stranded := true);
        SetPcOf(c, Done(Threw(Cancelled)));
      }
    }

    // ---- the reactor ----

    method HandleWriter(e: Event)
      requires Valid() && Enabled(now, e) && ConnectionRuns.Reachable(now)
      requires e.WriteSome? || e.WriteReturns? || e.FlushReturns? || e.SuccessorStarts? || e.WriterCancelled? || e.WriterFails?
      modifies this, pending, pending.keys, pending.vals, sendQueue, sendQueue.items, writeBuf
      ensures Valid() && Grown()
      ensures now == Step(old(now), e)
    {
      match e
      case WriteSome(k) => var _ := SocketTakes(k);
      case WriteReturns => SetPcOf(writer.value, InFlush);
      case FlushReturns => Drain(writer.value);
      case SuccessorStarts => DrainAsWriter(writer.value);
      case WriterCancelled => CancelWriter();
      case WriterFails => FailWriter(writer.value, if calls[writer.value].pc == InWrite then CallError.Closed else WriteFailed);
    }

    method HandleStart(e: Event)
      requires Valid() && Enabled(now, e) && (e.StartSend? || e.StartResponse? || e.StartRequest?)
      modifies this, pending, pending.keys, pending.vals, sendQueue, sendQueue.items, writeBuf
      ensures Valid() && Grown()
      ensures now == Step(old(now), e)
    {
      if e.StartSend? {
        oneWayId := NextOneWayId(oneWayId);
        now := now.(oneWayId := oneWayId);
        StartSending(MakePacket(OneWay, oneWayId, e.bizType, e.data, e.compression));
        return;
      }
      if e.StartResponse? {
        StartSending(MakePacket(Response, e.id, e.bizType, e.data, e.compression));
        return;
      }
      StartRequesting(e.bizType, e.data, e.compression, e.deadline);
    }

    /** One step of the reactor. */
    method Handle(e: Event)
      requires Valid() && Enabled(now, e) && ConnectionRuns.Reachable(now)
      modifies this, pending, pending.keys, pending.vals, sendQueue, sendQueue.items, writeBuf
      ensures Valid() && Grown()
      ensures now == Step(old(now), e)
    {
      if e.StartSend? || e.StartResponse? || e.StartRequest? {
        HandleStart(e);
        return;
      }
      if e.WriteSome? || e.WriteReturns? || e.FlushReturns? || e.SuccessorStarts? || e.WriterCancelled? || e.WriterFails? {
        HandleWriter(e);
        return;
      }
      match e
      case RunWoken(c) => Resume(c);
      case RunCancelled(c) => End(c, Threw(Cancelled));
      case Cancel(c) => CancelParked(c);
      case ScopeCancelled => CancelScope();
      case Deadline(c) => OnDeadline(c);
      case InboundResponse(p) => OnResponse(p);
      case Close => Close();
    }

    /** An event that is not enabled when its turn comes does nothing. */
    method Turn(e: Event)
      requires Valid() && ConnectionRuns.Reachable(now)
      modifies this, pending, pending.keys, pending.vals, sendQueue, sendQueue.items, writeBuf
      ensures Valid() && Grown()
      ensures now == if Enabled(old(now), e) then Step(old(now), e) else old(now)
    {
      var enabled := CanHandle(e);
      if enabled {
        Handle(e);
      }
    }

    /** Whatever it is asked to do, the object follows a run of the model. */
    method Perform(events: seq<Event>)
      requires Valid() && ConnectionRuns.Reachable(now)
      modifies this, pending, pending.keys, pending.vals, sendQueue, sendQueue.items, writeBuf
      ensures Valid() && Grown()
      ensures now == Run(old(now), events)
      ensures ConnectionRuns.Reachable(now)
    {
      ghost var s := now;
      for i := 0 to |events|
        invariant Valid() && Grown()
        invariant now == Run(s, events[..i]) && ConnectionRuns.Reachable(now)
      {
        assert events[..i + 1][..i] == events[..i];
        ConnectionRuns.ReachableRun(s, events[..i + 1]);
        Turn(events[i]);
      }
      assert events[..|events|] == events;
    }

    method CanHandle(e: Event) returns (b: bool)
      requires Valid()
      ensures b == Enabled(now, e)
    {
      b := match e
        case StartSend(_, data, _) => !closed && |data| <= MAX_ARRAY
        case StartResponse(_, _, data, _) => |data| <= MAX_ARRAY
        case StartRequest(_, data, _, _) => !closed && requestId != 0xFFFF_FFFF && |data| <= MAX_ARRAY
        case RunWoken(c) => c < |calls| && calls[c].pc in {SlotWoken, RoomWoken, RoomRefused, AwaitWoken}
        case RunCancelled(c) =>
          c < |calls| && calls[c].pc in {SlotWoken, SlotCancelled, RoomWoken, RoomCancelled, RoomRefused, AwaitWoken, AwaitCancelled}
        case Cancel(c) => c < |calls| && calls[c].pc in {SlotParked, RoomParked, AwaitParked}
        case WriteSome(k) => WriterIs({InWrite}) && k <= |writeBuf.readable|
        case WriteReturns => WriterIs({InWrite}) && writeBuf.readable == []
        case FlushReturns => WriterIs({InFlush})
        case WriterCancelled => WriterIs({InWrite, InFlush})
        case WriterFails => WriterIs({InWrite, InFlush})
        case SuccessorStarts => WriterIs({Launched})
        case ScopeCancelled => scopeActive
        case Deadline(c) => c < |calls| && calls[c].armed && calls[c].kind.Requester?
        case InboundResponse(p) => p.kind == Response
        case Close => true;
    }

    predicate WriterIs(pcs: set<Pc>)
      reads this
    {
      writer.Some? && writer.value < |calls| && calls[writer.value].pc in pcs
    }
  }

  // ---- the loops of close ----

  /** The values visited key by key are the values of the map. */
  lemma AllValues(m: map<u32, nat>, vs: seq<nat>, ks: seq<u32>)
    requires |vs| == |ks| && (forall i | 0 <= i < |ks| :: ks[i] in m && vs[i] == m[ks[i]])
    requires forall k | k in m :: k in ks
    ensures forall c :: c in vs <==> c in m.Values
  {
    forall c | c in m.Values ensures c in vs {
      var k :| k in m && m[k] == c;
      var i :| 0 <= i < |ks| && ks[i] == k;
      assert vs[i] == c;
    }
  }

  ghost function FailedCalls(calls: seq<Call>, registered: set<nat>): seq<Call> {
    seq(|calls|, c requires 0 <= c < |calls| => if c in registered then Settle(calls[c], Failed(ConnectionClosed)) else calls[c])
  }

  function Refuse(call: Call): Call {
    if call.pc == RoomParked then call.(pc := RoomRefused) else call
  }

  ghost function RefusedCalls(calls: seq<Call>, waiters: seq<nat>): seq<Call> {
    seq(|calls|, c requires 0 <= c < |calls| => if c in waiters then Refuse(calls[c]) else calls[c])
  }

  function GiveUp(call: Call): Call {
    Unslot(Settle(call, Failed(ConnectionClosed)))
  }

  ghost function GivenUpCalls(calls: seq<Call>, waiters: seq<nat>): seq<Call> {
    seq(|calls|, c requires 0 <= c < |calls| => if c in waiters then GiveUp(calls[c]) else calls[c])
  }

  ghost function ClosedCalls(calls: seq<Call>, pending: map<u32, nat>, room: seq<nat>, slots: seq<nat>): seq<Call> {
    GivenUpCalls(RefusedCalls(FailedCalls(calls, pending.Values), room), slots)
  }

  lemma ShutdownIsThreeLoops(s: State)
    requires !s.closed && ConnectionInvariants.Core(s)
    ensures Shutdown(s) == s.(
      closed := true, calls := ClosedCalls(s.calls, s.pending, s.roomWaiters, s.inFlightWaiters), pending := map[],
      dropped := s.sendQueue, sendQueue := [], queuedBytes := 0, roomWaiters := [], inFlightWaiters := [],
      closeCallbacks := s.closeCallbacks + 1)
  {
    ConnectionInvariants.CloseResumesOnce(s);
    assert Shutdown(s).calls == ClosedCalls(s.calls, s.pending, s.roomWaiters, s.inFlightWaiters);
  }

  /** At each of the three loops, whatever is resumed is still waiting. */
  ghost predicate WaitingForClose(calls: seq<Call>, pending: map<u32, nat>, room: seq<nat>) {
    && (forall c | 0 <= c < |calls| :: !LateForOutcome(calls[c]))
    && (var f := FailedCalls(calls, pending.Values);
        && (forall c | 0 <= c < |f| && c in room :: !LateForRoom(f[c]))
        && var g := RefusedCalls(f, room);
           forall c | 0 <= c < |g| :: !LateForOutcome(g[c]) && !LateForSlot(g[c]))
  }

  lemma ClosingFindsThemWaiting(s: State)
    requires ConnectionInvariants.Core(s)
    ensures NoDup(s.roomWaiters) && WaitingForClose(s.calls, s.pending, s.roomWaiters)
  {
    forall c | 0 <= c < |s.calls|
      ensures !LateForOutcome(s.calls[c])
      ensures var f := FailedCalls(s.calls, s.pending.Values)[c]; c in s.roomWaiters ==> !LateForRoom(f)
      ensures var r := RefusedCalls(FailedCalls(s.calls, s.pending.Values), s.roomWaiters)[c];
              !LateForOutcome(r) && !LateForSlot(r)
    {
      ConnectionInvariants.Of(s, c);
    }
  }

  lemma ClosingIsThreeLoops(s: State)
    requires ConnectionRuns.Reachable(s) && !s.closed
    ensures NoDup(s.roomWaiters) && WaitingForClose(s.calls, s.pending, s.roomWaiters)
    ensures Shutdown(s) == s.(
      closed := true, calls := ClosedCalls(s.calls, s.pending, s.roomWaiters, s.inFlightWaiters), pending := map[],
      dropped := s.sendQueue, sendQueue := [], queuedBytes := 0, roomWaiters := [], inFlightWaiters := [],
      closeCallbacks := s.closeCallbacks + 1)
  {
    ConnectionRuns.ReachableInv(s);
    ShutdownIsThreeLoops(s);
    ClosingFindsThemWaiting(s);
  }

  // ---- the writer's turn ----

  /** The writer's turn in the order the source has it: release and wake, then encode and write. */
  ghost function TakeInOrder(s: State, c: nat): State
    requires c < |s.calls| && s.sendQueue != []
  {
    var p := s.sendQueue[0];
    Filled(WakeRoom(s.(sendQueue := s.sendQueue[1..], queuedBytes := Released(s.queuedBytes, PacketBytes(p)))), p, c)
  }

  ghost function Filled(s: State, p: Packet, c: nat): State {
    SetPc(s.(writeBuf := s.writeBuf + Wire(s.cfg.framing)(p), encoded := s.encoded + [p]), c, InWrite)
  }

  /** The waiter woken is never the writer, so waking first or last comes to the same. */
  lemma TakeInOrderIsTake(s: State, c: nat)
    requires c < |s.calls| && s.sendQueue != [] && !s.calls[c].pc.RoomParked? && !s.calls[c].pc.RoomCancelled?
    ensures TakeInOrder(s, c) == WakeRoom(Take(s, c))
  {
    if s.roomWaiters != [] && s.roomWaiters[0] < |s.calls| {
      UpdatesCommute(s.calls, c, s.roomWaiters[0], InWrite);
    }
  }

  lemma UpdatesCommute(calls: seq<Call>, c: nat, w: nat, pc: Pc)
    requires c < |calls| && w < |calls| && !calls[c].pc.RoomParked? && !pc.RoomParked?
    ensures var a, b := calls[c := calls[c].(pc := pc)], calls[w := Admit(calls[w])];
            a[w := Admit(a[w])] == b[c := b[c].(pc := pc)]
  {
  }
}
