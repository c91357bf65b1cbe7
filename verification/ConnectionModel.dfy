/**
 The connection actor in INLINE write mode, as a state machine.

 All state is owned by one reactor thread, so the code between two suspension points runs as one step:
 a step of this model is such a segment, and between two steps any other coroutine, timer,
 cancellation or close may take its turn. `Connection` (in ConnectionActor.dfy) carries the segments out in
 place, over the hash table, the ring and the buffer that this state stands for.
 */
module ConnectionModel {
  import opened Bytes
  import opened Wrappers
  import opened Packets
  import opened Lists
  import PacketCodec
  import LengthPrefixedCodec

  datatype Framing = PlainPackets | LengthPrefixed

  datatype Config = Config(
    mailboxCapacity: nat,
    maxInFlightRequests: nat,
    maxPayloadLength: int,
    maxOutboundBytes: int,
    framing: Framing)

  datatype Failure = TimedOut | ConnectionClosed

  /** How a request settled: the field pair `response`/`error`, written once. */
  datatype Outcome = Answered(response: Packet) | Failed(why: Failure)

  datatype CallError = Cancelled | Closed | Timeout | TooLarge | WriteFailed

  datatype Result = Sent | Returned(payload: seq<byte>) | Threw(error: CallError)

  /** Who runs a coroutine: `send` or the handler loop, `request`, or a writer's successor. */
  datatype Kind = Sender(packet: Packet) | Requester(packet: Packet) | Successor

  /**
   Where a coroutine is. `Parked` waits for a resume; `Woken` was resumed and has not run yet;
   `Cancelled` was cancelled while parked and has not run yet; `RoomRefused` was resumed with the close
   failure. `Starting` and `Running` are inside a segment; a `Running` request is registered or settled.
   */
  datatype Pc =
    | Starting | Running
    | SlotParked | SlotWoken | SlotCancelled
    | RoomParked | RoomWoken | RoomCancelled | RoomRefused
    | Launched | InWrite | InFlush
    | AwaitParked | AwaitWoken | AwaitCancelled
    | Done(result: Result)

  /** One coroutine and, for a request, its `Pending`: `waiter`, `slotCont`, `roomCont` say which field holds a continuation. */
  datatype Call = Call(
    kind: Kind,
    pc: Pc,
    armed: bool,
    settled: Option<Outcome>,
    waiter: bool,
    slotCont: bool,
    roomCont: bool,
    queued: bool)

  datatype State = State(
    cfg: Config,
    calls: seq<Call>,
    pending: map<u32, nat>,
    requestId: u32,
    oneWayId: u32,
    sendQueue: seq<Packet>,
    queuedBytes: int,
    writerActive: bool,
    writeBuf: seq<byte>,
    roomWaiters: seq<nat>,
    inFlightWaiters: seq<nat>,
    closed: bool,
    scopeActive: bool,
    closeCallbacks: nat,
    // What has happened, for the statements only: bytes on the socket, packets queued, encoded and
    // dropped by close, the coroutine acting as writer, a successor lost to a cancelled scope, and
    // resumes of a continuation that had been resumed already.
    socket: seq<byte>,
    accepted: seq<Packet>,
    encoded: seq<Packet>,
    dropped: seq<Packet>,
    writer: Option<nat>,
    stranded: bool,
    doubleResumes: nat)

  function Init(cfg: Config): State {
    State(cfg, [], map[], 0, 0, [], 0, false, [], [], [], false, true, 0, [], [], [], [], None, false, 0)
  }

  /** What the connection puts on the stream for `p`. */
  function Wire(f: Framing): Packet -> seq<byte> {
    match f
    case PlainPackets => PacketCodec.Encode
    case LengthPrefixed => LengthPrefixedCodec.Encode
  }

  function PacketBytes(p: Packet): nat {
    |p.payload|
  }

  function QueueBytes(q: seq<Packet>): nat {
    if q == [] then 0 else PacketBytes(q[0]) + QueueBytes(q[1..])
  }

  function SetCall(s: State, c: nat, call: Call): State {
    if c < |s.calls| then s.(calls := s.calls[c := call]) else s
  }

  function SetPc(s: State, c: nat, pc: Pc): State {
    if c < |s.calls| then SetCall(s, c, s.calls[c].(pc := pc)) else s
  }

  // ---- the outbound path ----

  predicate SizeRefused(cfg: Config, p: Packet) {
    PacketBytes(p) > cfg.maxPayloadLength || PacketBytes(p) > cfg.maxOutboundBytes
  }

  predicate RoomFor(s: State, bytes: nat) {
    && |s.sendQueue| < s.cfg.mailboxCapacity
    && (s.queuedBytes == 0 || s.queuedBytes + bytes <= s.cfg.maxOutboundBytes)
  }

  // ---- resuming ----
  //
  // Resuming a continuation that was cancelled is ignored; resuming one that was resumed before throws. Each place
  // that resumes counts the second resumes it makes.

  function Count(late: bool): nat {
    if late then 1 else 0
  }

  /** A continuation taken from `roomWaiters`, or held by `roomCont`, is no longer waiting. */
  predicate LateForRoom(call: Call) {
    call.pc != RoomParked && call.pc != RoomCancelled
  }

  predicate LateForSlot(call: Call) {
    call.slotCont && call.pc != SlotParked && call.pc != SlotCancelled
  }

  predicate LateForOutcome(call: Call) {
    call.settled.None? && call.waiter && call.pc != AwaitParked && call.pc != AwaitCancelled
  }

  /** Resume a coroutine parked for room. */
  function Admit(call: Call): Call {
    call.(pc := if call.pc == RoomParked then RoomWoken else call.pc)
  }

  /** `wakeOneRoomWaiter` */
  function WakeRoom(s: State): State {
    if s.roomWaiters == [] then s
    else
      var c, s' := s.roomWaiters[0], s.(roomWaiters := s.roomWaiters[1..]);
      if c < |s.calls|
      then SetCall(s', c, Admit(s.calls[c])).(doubleResumes := s.doubleResumes + Count(LateForRoom(s.calls[c])))
      else s'
  }

  /** Resume the coroutine parked for a slot, if there is one. */
  function Unslot(call: Call): Call {
    if call.slotCont then call.(slotCont := false, pc := if call.pc == SlotParked then SlotWoken else call.pc) else call
  }

  /** `wakeOneInFlightWaiter` */
  function WakeInFlight(s: State): State {
    if s.inFlightWaiters == [] then s
    else
      var c, s' := s.inFlightWaiters[0], s.(inFlightWaiters := s.inFlightWaiters[1..]);
      if c < |s.calls|
      then SetCall(s', c, Unslot(s.calls[c])).(doubleResumes := s.doubleResumes + Count(LateForSlot(s.calls[c])))
      else s'
  }

  /** A request leaves the connection: its deadline is disposed, its waiter cleared, its entries removed. */
  function Leave(s: State, c: nat, r: Result): State
    requires c < |s.calls| && s.calls[c].kind.Requester?
  {
    var call := s.calls[c];
    SetCall(
      s.(pending := s.pending - {call.kind.packet.messageId}, inFlightWaiters := Remove(s.inFlightWaiters, c)),
      c, call.(pc := Done(r), armed := false, waiter := false))
  }

  /** The end of a coroutine; for a request the `finally` block of `requestOnOwner`. */
  function Finish(s: State, c: nat, r: Result): State
    requires c < |s.calls|
  {
    if !s.calls[c].kind.Requester? then SetPc(s, c, Done(r))
    else if s.calls[c].kind.packet.messageId in s.pending then WakeInFlight(Leave(s, c, r))
    else Leave(s, c, r)
  }

  function ResultOf(o: Outcome): Result {
    match o
    case Answered(p) => Returned(p.payload)
    case Failed(TimedOut) => Threw(Timeout)
    case Failed(ConnectionClosed) => Threw(Closed)
  }

  /** `await`: the outcome if there is one, else park for it. */
  function Await(s: State, c: nat): State
    requires c < |s.calls|
  {
    var call := s.calls[c];
    if call.settled.Some? then Finish(s, c, ResultOf(call.settled.value))
    else SetCall(s, c, call.(pc := AwaitParked, waiter := true))
  }

  /** What follows `enqueue`: a request goes on to `await`, the others are done. */
  function AfterEnqueue(s: State, c: nat): State
    requires c < |s.calls|
  {
    if s.calls[c].kind.Requester? then Await(s, c) else Finish(s, c, Sent)
  }

  /** `releaseOutboundBytes`, but for the wake-up. */
  function Released(queued: int, bytes: nat): int {
    if queued - bytes < 0 then 0 else queued - bytes
  }

  /** The writer takes the first packet off the queue, gives its bytes back, encodes it and starts to write. */
  function Take(s: State, c: nat): State
    requires s.sendQueue != []
  {
    var p := s.sendQueue[0];
    SetPc(
      s.(sendQueue := s.sendQueue[1..], queuedBytes := Released(s.queuedBytes, PacketBytes(p)),
         writeBuf := s.writeBuf + Wire(s.cfg.framing)(p), encoded := s.encoded + [p]),
      c, InWrite)
  }

  /**
   The `while` loop of `drainAsWriter`, up to the next socket write or the end. Waking a waiter only
   schedules it, so where in the segment that happens makes no difference.
   */
  function DrainLoop(s: State, c: nat): State
    requires c < |s.calls|
  {
    if !s.closed && s.sendQueue != [] then WakeRoom(Take(s, c))
    else AfterEnqueue(SetPc(s.(writerActive := false, writer := None), c, Running), c)
  }

  /** `drainAsWriter`: first what a cancelled predecessor left in the buffer, then the queue. */
  function BeginDrain(s: State, c: nat): State
    requires c < |s.calls|
  {
    var s1 := s.(writerActive := true, writer := Some(c));
    if s.writeBuf != [] then SetPc(s1, c, InWrite) else DrainLoop(SetPc(s1, c, InFlush), c)
  }

  /** The packet is accepted: its bytes are reserved and it is last in the queue. */
  function Queue(s: State, c: nat): State
    requires c < |s.calls| && !s.calls[c].kind.Successor?
  {
    var p := s.calls[c].kind.packet;
    SetCall(
      s.(queuedBytes := s.queuedBytes + PacketBytes(p), sendQueue := s.sendQueue + [p], accepted := s.accepted + [p]),
      c, s.calls[c].(queued := true))
  }

  /** The tail of `enqueue` once there is room: queue the packet, and drain if nobody does. */
  function Put(s: State, c: nat): State
    requires c < |s.calls| && !s.calls[c].kind.Successor?
  {
    if s.writerActive then AfterEnqueue(Queue(s, c), c) else BeginDrain(Queue(s, c), c)
  }

  /** The loop of `awaitOutboundRoom`, up to its next suspension or its end. */
  function RoomLoop(s: State, c: nat): State
    requires c < |s.calls| && !s.calls[c].kind.Successor?
  {
    var call := s.calls[c];
    if call.settled.Some? then Await(s, c)
    else if s.closed then Finish(s, c, Threw(Closed))
    else if RoomFor(s, PacketBytes(call.kind.packet)) then Put(s, c)
    else SetCall(s, c, call.(pc := RoomParked, roomCont := call.kind.Requester?)).(roomWaiters := s.roomWaiters + [c])
  }

  /** `enqueue` and `enqueueForRequest` */
  function Enqueue(s: State, c: nat): State
    requires c < |s.calls| && !s.calls[c].kind.Successor?
  {
    var p := s.calls[c].kind.packet;
    if SizeRefused(s.cfg, p) then Finish(s, c, Threw(TooLarge))
    else if !s.closed && RoomFor(s, PacketBytes(p)) then Put(s, c)
    else RoomLoop(s, c)
  }

  // ---- requests ----

  /** The slot loop of `requestOnOwner` and, once it ends, registration and `enqueueForRequest`. */
  function SlotLoop(s: State, c: nat): State
    requires c < |s.calls| && s.calls[c].kind.Requester?
  {
    var call := s.calls[c];
    if !s.closed && |s.pending| >= s.cfg.maxInFlightRequests && call.settled.None? then
      SetCall(s, c, call.(pc := SlotParked, slotCont := true)).(inFlightWaiters := s.inFlightWaiters + [c])
    else if call.settled.Some? then Await(s, c)
    else if s.closed then Finish(s, c, Threw(Closed))
    else Enqueue(SetPc(s.(pending := s.pending[call.kind.packet.messageId := c]), c, Running), c)
  }

  /** `Pending.fail` and `Pending.complete`: write the outcome once and resume the parked caller. */
  function Settle(call: Call, o: Outcome): Call {
    if call.settled.Some? then call
    else call.(settled := Some(o), waiter := false, pc := if call.waiter && call.pc == AwaitParked then AwaitWoken else call.pc)
  }

  /** What the deadline leaves of a request: failed, and taken off the slot or the room it was parked for. */
  function ExpiredCall(call: Call): Call {
    var failed := Unslot(Settle(call.(armed := false), Failed(TimedOut)));
    if failed.roomCont && failed.pc == RoomParked then failed.(roomCont := false, pc := RoomWoken) else failed
  }

  /** The deadline resumes a continuation that was resumed before: the response's, the slot's or the room's. */
  predicate ResumesTwice(call: Call) {
    call.settled.None? && (LateForOutcome(call) || LateForSlot(call) || (call.roomCont && LateForRoom(call)))
  }

  /** `Pending.run`, the deadline. When it throws on a second resume, the next slot waiter is not woken. */
  function Expire(s: State, c: nat): State
    requires c < |s.calls| && s.calls[c].kind.Requester?
  {
    var call := s.calls[c];
    if call.settled.Some? then SetCall(s, c, call.(armed := false))
    else if ResumesTwice(call) then Expired(s, c).(doubleResumes := s.doubleResumes + 1)
    else WakeInFlight(Expired(s, c))
  }

  /** The deadline of an unsettled request, but for the wake-up it ends with. */
  function Expired(s: State, c: nat): State
    requires c < |s.calls| && s.calls[c].kind.Requester?
  {
    var call := s.calls[c];
    SetCall(
      s.(pending := s.pending - {call.kind.packet.messageId},
         roomWaiters := if call.roomCont then Remove(s.roomWaiters, c) else s.roomWaiters),
      c, ExpiredCall(call))
  }

  /** The read loop's handling of an inbound Response; one with no matching id is dropped. */
  function Respond(s: State, p: Packet): State {
    if p.messageId !in s.pending then s else WakeInFlight(Completed(s, p))
  }

  /** The request `p` answers leaves the registry and is settled. */
  function Completed(s: State, p: Packet): State
    requires p.messageId in s.pending
  {
    var c, s' := s.pending[p.messageId], s.(pending := s.pending - {p.messageId});
    if c < |s.calls|
    then SetCall(s', c, Settle(s.calls[c], Answered(p))).(doubleResumes := s.doubleResumes + Count(LateForOutcome(s.calls[c])))
    else s'
  }

  // ---- close ----

  /** What `shutdown` does to one coroutine: fail it if registered, refuse it room, fail and wake it if it waits for a slot. */
  function CloseCall(s: State, c: nat): Call
    requires c < |s.calls|
  {
    var call := s.calls[c];
    var a := if c in s.pending.Values then Settle(call, Failed(ConnectionClosed)) else call;
    var b := if c in s.roomWaiters && a.pc == RoomParked then a.(pc := RoomRefused) else a;
    if c in s.inFlightWaiters then Unslot(Settle(b, Failed(ConnectionClosed))) else b
  }

  /** Close resumes a continuation of `c` that was resumed before. */
  predicate CloseResumesTwice(s: State, c: nat) {
    && c < |s.calls|
    && var call := s.calls[c];
       || ((c in s.pending.Values || c in s.inFlightWaiters) && LateForOutcome(call))
       || (c in s.roomWaiters && LateForRoom(call))
       || (c in s.inFlightWaiters && LateForSlot(call))
  }

  function Shutdown(s: State): State {
    if s.closed then s
    else s.(
      closed := true,
      calls := seq(|s.calls|, c requires 0 <= c < |s.calls| => CloseCall(s, c)),
      pending := map[],
      dropped := s.sendQueue,
      sendQueue := [],
      queuedBytes := 0,
      roomWaiters := [],
      inFlightWaiters := [],
      closeCallbacks := s.closeCallbacks + 1,
      doubleResumes := s.doubleResumes + |set c | 0 <= c < |s.calls| && CloseResumesTwice(s, c)|)
  }

  // ---- the writer ----

  /** Bytes or packets are left to write. */
  predicate Unsent(s: State) {
    s.writeBuf != [] || s.sendQueue != []
  }

  /** The `catch (CancellationException)` of `drainAsWriter`: hand what is left to a successor. */
  function HandOff(s: State, c: nat): State
    requires c < |s.calls|
  {
    if !s.closed && Unsent(s) then
      if s.scopeActive then
        s.(calls := s.calls[c := s.calls[c].(pc := Running)] + [NewCall(Successor, Launched, false)],
           writer := Some(|s.calls|))
      else SetPc(s.(writer := None, stranded := true), c, Running)
    else SetPc(s.(writer := None, writerActive := false), c, Running)
  }

  /** The scope is cancelled: a successor that has not started never will. */
  function LoseScope(s: State): State {
    if WriterAt(s, Launched)
    then SetPc(s.(scopeActive := false, writer := None, stranded := true), s.writer.value, Done(Threw(Cancelled)))
    else s.(scopeActive := false)
  }

  // ---- steps ----

  datatype Event =
    | StartSend(bizType: byte, data: seq<byte>, compression: Compression)
    | StartResponse(id: u32, bizType: byte, data: seq<byte>, compression: Compression)
    | StartRequest(bizType: byte, data: seq<byte>, compression: Compression, deadline: bool)
    | RunWoken(c: nat)
    | RunCancelled(c: nat)
    | Cancel(c: nat)
    | WriteSome(k: nat)
    | WriteReturns
    | FlushReturns
    | WriterCancelled
    | WriterFails
    | SuccessorStarts
    | ScopeCancelled
    | Deadline(c: nat)
    | InboundResponse(p: Packet)
    | Close

  function MakePacket(kind: PacketType, id: u32, bizType: byte, data: seq<byte>, compression: Compression): Packet {
    Packet(kind, id, bizType, data, [], compression, 0)
  }

  function NewCall(kind: Kind, pc: Pc, armed: bool): Call {
    Call(kind, pc, armed, None, false, false, false, false)
  }

  /** `send` or the handler loop starts to queue `p`. */
  function BeginSend(s: State, p: Packet): State {
    Enqueue(s.(calls := s.calls + [NewCall(Sender(p), Running, false)]), |s.calls|)
  }

  /** `request` starts with a fresh id. */
  function BeginRequest(s: State, p: Packet, deadline: bool): State {
    SlotLoop(s.(requestId := p.messageId, calls := s.calls + [NewCall(Requester(p), Starting, deadline)]), |s.calls|)
  }

  /** `nextOneWayId`: wraps and skips zero. */
  function NextOneWayId(id: u32): (r: u32)
    ensures 1 <= r && r % 0xFFFF_FFFF == (id + 1) % 0xFFFF_FFFF
  {
    if id == 0xFFFF_FFFF then 1 else id + 1
  }

  predicate WriterAt(s: State, pc: Pc) {
    s.writer.Some? && s.writer.value < |s.calls| && s.calls[s.writer.value].pc == pc
  }

  predicate CallAt(s: State, c: nat, pc: Pc) {
    c < |s.calls| && s.calls[c].pc == pc
  }

  /** A coroutine that was resumed or cancelled and waits for its turn. */
  predicate Runnable(s: State, c: nat) {
    && c < |s.calls|
    && s.calls[c].pc in {SlotWoken, SlotCancelled, RoomWoken, RoomCancelled, RoomRefused, AwaitWoken, AwaitCancelled}
  }

  predicate Enabled(s: State, e: Event) {
    match e
    case StartSend(_, data, _) => !s.closed && |data| <= MAX_ARRAY
    case StartResponse(_, _, data, _) => |data| <= MAX_ARRAY
    case StartRequest(_, data, _, _) => !s.closed && s.requestId != 0xFFFF_FFFF && |data| <= MAX_ARRAY
    case RunWoken(c) =>
      CallAt(s, c, SlotWoken) || CallAt(s, c, RoomWoken) || CallAt(s, c, RoomRefused) || CallAt(s, c, AwaitWoken)
    case RunCancelled(c) => Runnable(s, c)
    case Cancel(c) => CallAt(s, c, SlotParked) || CallAt(s, c, RoomParked) || CallAt(s, c, AwaitParked)
    case WriteSome(k) => WriterAt(s, InWrite) && k <= |s.writeBuf|
    case WriteReturns => WriterAt(s, InWrite) && s.writeBuf == []
    case FlushReturns => WriterAt(s, InFlush)
    case WriterCancelled => WriterAt(s, InWrite) || WriterAt(s, InFlush)
    case WriterFails => WriterAt(s, InWrite) || WriterAt(s, InFlush)
    case SuccessorStarts => WriterAt(s, Launched)
    case ScopeCancelled => s.scopeActive
    case Deadline(c) => c < |s.calls| && s.calls[c].armed && s.calls[c].kind.Requester?
    case InboundResponse(p) => p.kind == Response
    case Close => true
  }

  function Step(s: State, e: Event): State
    requires Enabled(s, e)
  {
    match e
    case StartSend(biz, data, z) =>
      var id := NextOneWayId(s.oneWayId);
      BeginSend(s.(oneWayId := id), MakePacket(OneWay, id, biz, data, z))
    case StartResponse(id, biz, data, z) => BeginSend(s, MakePacket(Response, id, biz, data, z))
    case StartRequest(biz, data, z, deadline) => BeginRequest(s, MakePacket(Request, s.requestId + 1, biz, data, z), deadline)
    case RunWoken(c) => StepWoken(s, c)
    case RunCancelled(c) => Finish(s, c, Threw(Cancelled))
    case Cancel(c) => StepCancel(s, c)
    case WriteSome(k) => s.(socket := s.socket + s.writeBuf[..k], writeBuf := s.writeBuf[k..])
    case WriteReturns => SetPc(s, s.writer.value, InFlush)
    case FlushReturns => DrainLoop(s, s.writer.value)
    case WriterCancelled =>
      var c := s.writer.value;
      Finish(HandOff(s, c), c, Threw(Cancelled))
    case WriterFails =>
      var c := s.writer.value;
      var error := if s.calls[c].pc == InWrite then Closed else WriteFailed;
      Finish(SetPc(Shutdown(s).(writer := None, writerActive := false), c, Running), c, Threw(error))
    case SuccessorStarts => BeginDrain(s, s.writer.value)
    case ScopeCancelled => LoseScope(s)
    case Deadline(c) => Expire(s, c)
    case InboundResponse(p) => Respond(s, p)
    case Close => Shutdown(s)
  }

  /** A woken coroutine runs on from where it was parked. */
  function StepWoken(s: State, c: nat): State
    requires c < |s.calls|
  {
    var call := s.calls[c];
    if call.pc == SlotWoken then (if call.kind.Requester? then SlotLoop(SetPc(s, c, Starting), c) else s)
    else if call.pc == RoomWoken then
      (if call.kind.Successor? then s else RoomLoop(SetCall(s, c, call.(pc := Running, roomCont := false)), c))
    else if call.pc == RoomRefused then Finish(s, c, Threw(Closed))
    else if call.settled.Some? then Finish(s, c, ResultOf(call.settled.value))
    else s
  }

  function CancelledCall(call: Call): Call {
    match call.pc
    case SlotParked => call.(pc := SlotCancelled, slotCont := false)
    case RoomParked => call.(pc := RoomCancelled, roomCont := false)
    case _ => call.(pc := AwaitCancelled)
  }

  /** A parked coroutine is cancelled: its handler takes it out of the list it waits in. */
  function StepCancel(s: State, c: nat): State
    requires c < |s.calls|
  {
    var pc := s.calls[c].pc;
    SetCall(s, c, CancelledCall(s.calls[c])).(
      inFlightWaiters := if pc == SlotParked then Remove(s.inFlightWaiters, c) else s.inFlightWaiters,
      roomWaiters := if pc == RoomParked then Remove(s.roomWaiters, c) else s.roomWaiters)
  }

  /** A run: any sequence of events; one that is not enabled when its turn comes does nothing. */
  function Run(s: State, events: seq<Event>): State
    decreases |events|
  {
    if events == [] then s
    else
      var t := Run(s, events[..|events| - 1]);
      var e := events[|events| - 1];
      if Enabled(t, e) then Step(t, e) else t
  }
}
