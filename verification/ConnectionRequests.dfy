/**
 Requests over whole runs: correlation, the single outcome, the deadline, and close.
 */
module ConnectionRequests {
  import opened Bytes
  import opened Wrappers
  import opened Packets
  import opened Lists
  import opened ConnectionModel
  import opened ConnectionInvariants
  import opened ConnectionHistory
  import opened ConnectionRuns
  import opened ConnectionScenarios

  // ---- starting a call ----

  ghost predicate Carries(p: Packet, kind: PacketType, bizType: byte, data: seq<byte>, compression: Compression) {
    p.kind == kind && p.bizType == bizType && p.payload == data && p.compression == compression && p.extHeader == [] && p.reserved == 0
  }

  /** A new call, on whatever path it sets out, keeps the packet made of its arguments. */
  lemma SendCarriesItsArguments(s: State, e: Event)
    requires Reachable(s) && Enabled(s, e) && (e.StartSend? || e.StartResponse?)
    ensures var t := Step(s, e);
            && |s.calls| < |t.calls| && t.calls[|s.calls|].kind.Sender?
            && var p := t.calls[|s.calls|].kind.packet;
               && Carries(p, if e.StartSend? then OneWay else Response, e.bizType, e.data, e.compression)
               && (if e.StartSend? then p.messageId == t.oneWayId == NextOneWayId(s.oneWayId) else p.messageId == e.id)
  {
    var id := if e.StartSend? then NextOneWayId(s.oneWayId) else s.oneWayId;
    var p := if e.StartSend? then MakePacket(OneWay, id, e.bizType, e.data, e.compression)
             else MakePacket(Response, e.id, e.bizType, e.data, e.compression);
    var t := s.(oneWayId := id, calls := s.calls + [NewCall(Sender(p), Running, false)]);
    EnqueueKeeps(t, |s.calls|);
    assert CallKeeps(t.calls[|s.calls|], Enqueue(t, |s.calls|).calls[|s.calls|], None);
  }

  /** A request carries its arguments under an id no request had before. */
  lemma RequestCarriesItsArguments(s: State, e: Event)
    requires Reachable(s) && Enabled(s, e) && e.StartRequest?
    ensures var t := Step(s, e);
            && |s.calls| < |t.calls| && t.calls[|s.calls|].kind.Requester?
            && var p := t.calls[|s.calls|].kind.packet;
               && Carries(p, Request, e.bizType, e.data, e.compression)
               && forall d | 0 <= d < |s.calls| :: !IsRequest(s.calls[d], p.messageId)
  {
    ReachableInv(s);
    var p := MakePacket(Request, s.requestId + 1, e.bizType, e.data, e.compression);
    var t := s.(requestId := p.messageId, calls := s.calls + [NewCall(Requester(p), Starting, e.deadline)]);
    SlotLoopKeeps(t, |s.calls|);
    assert CallKeeps(t.calls[|s.calls|], SlotLoop(t, |s.calls|).calls[|s.calls|], None);
    forall d | 0 <= d < |s.calls| ensures !IsRequest(s.calls[d], p.messageId) { Of(s, d); }
  }

  // ---- correlation ----

  /** The registry holds only unsettled requests, each under its own id; no two requests share an id. */
  lemma RegistryHoldsUnsettled(s: State, id: u32)
    requires Reachable(s) && id in s.pending
    ensures var c := s.pending[id];
            && c < |s.calls|
            && IsRequest(s.calls[c], id) && s.calls[c].settled.None? && !s.calls[c].pc.Done?
            && forall d | 0 <= d < |s.calls| && d != c :: !IsRequest(s.calls[d], id)
  {
    ReachableInv(s);
    assert EntryOk(s, id);
    var c := s.pending[id];
    forall d | 0 <= d < |s.calls| && d != c ensures !IsRequest(s.calls[d], id) {
      IdsDiffer(s, c, d, id);
    }
  }

  /** A request parked for its response is registered. */
  lemma ParkedIsRegistered(s: State, c: nat)
    requires Reachable(s) && c < |s.calls| && s.calls[c].pc.AwaitParked?
    ensures s.calls[c].kind.Requester? && IsRegistered(s, c, s.calls[c].kind.packet.messageId)
  {
    ReachableInv(s);
    Of(s, c);
  }

  lemma CompletedSettles(s: State, p: Packet, c: nat)
    requires Core(s) && p.messageId in s.pending && c < |s.calls|
    ensures c < |Completed(s, p).calls|
    ensures Completed(s, p).calls[c].settled == if s.pending[p.messageId] == c then Some(Answered(p)) else s.calls[c].settled
  {
    assert EntryOk(s, p.messageId);
  }

  lemma WakeSettlesNothing(s: State, c: nat)
    requires c < |s.calls|
    ensures c < |WakeInFlight(s).calls| && WakeInFlight(s).calls[c].settled == s.calls[c].settled
  {
  }

  /** Whoever a Response settles had asked with its id; every other call keeps its outcome. */
  lemma ResponseSettlesOnlyItsRequest(s: State, p: Packet, c: nat)
    requires Reachable(s) && p.kind == Response && c < |s.calls|
    ensures c < |Respond(s, p).calls|
    ensures Respond(s, p).calls[c].settled ==
            if IsRegistered(s, c, p.messageId) then Some(Answered(p)) else s.calls[c].settled
  {
    if p.messageId in s.pending {
      ReachableInv(s);
      CompletedSettles(s, p, c);
      WakeSettlesNothing(Completed(s, p), c);
    }
  }

  // ---- what a run keeps ----

  ghost predicate AnswerIn(o: Option<Outcome>, events: seq<Event>) {
    o.Some? && o.value.Answered? ==> InboundResponse(o.value.response) in events
  }

  /** What `events` may have made of the call `a`. */
  ghost predicate CallLater(a: Call, b: Call, events: seq<Event>) {
    && b.kind == a.kind
    && (a.settled.Some? ==> b.settled == a.settled && b.queued == a.queued)
    && (a.settled.None? ==> AnswerIn(b.settled, events))
    && (a.pc.Done? ==> b.pc == a.pc)
  }

  /** From `s` on, `events` led to `t`. */
  ghost predicate Later(s: State, t: State, events: seq<Event>) {
    && |s.calls| <= |t.calls|
    && (forall c | 0 <= c < |s.calls| :: CallLater(s.calls[c], t.calls[c], events))
    && (forall c | |s.calls| <= c < |t.calls| :: AnswerIn(t.calls[c].settled, events))
    && s.accepted <= t.accepted && s.socket <= t.socket && (s.closed ==> t.closed && t.accepted == s.accepted)
  }

  lemma LaterKeeps(s: State, t: State, u: State, before: seq<Event>, e: Event)
    requires Later(s, t, before) && t.socket <= u.socket
    requires Keeps(t.(oneWayId := u.oneWayId, socket := u.socket, stranded := u.stranded), u, AnswerOf(e))
    ensures Later(s, u, before + [e])
  {
    forall c | 0 <= c < |s.calls| ensures CallLater(s.calls[c], u.calls[c], before + [e]) {
      assert CallLater(s.calls[c], t.calls[c], before) && CallKeeps(t.calls[c], u.calls[c], AnswerOf(e));
    }
    forall c | |s.calls| <= c < |u.calls| ensures AnswerIn(u.calls[c].settled, before + [e]) {
      if c < |t.calls| { assert CallKeeps(t.calls[c], u.calls[c], AnswerOf(e)); }
    }
  }

  lemma LaterStep(s: State, t: State, before: seq<Event>, e: Event)
    requires Later(s, t, before) && Inv(t) && Enabled(t, e)
    ensures Later(s, Step(t, e), before + [e])
  {
    if e.Deadline? { Of(t, e.c); }
    StepKeeps(t, e);
    LaterKeeps(s, t, Step(t, e), before, e);
  }

  lemma LaterMore(s: State, t: State, before: seq<Event>, e: Event)
    requires Later(s, t, before)
    ensures Later(s, t, before + [e])
  {
    forall c | 0 <= c < |s.calls| ensures CallLater(s.calls[c], t.calls[c], before + [e]) {
      assert CallLater(s.calls[c], t.calls[c], before);
    }
  }

  lemma {:induction false} RunIsLater(s: State, events: seq<Event>)
    requires Inv(s)
    ensures Later(s, Run(s, events), events)
    decreases |events|
  {
    if events != [] {
      var before, e := events[..|events| - 1], events[|events| - 1];
      var t := Run(s, before);
      RunIsLater(s, before);
      RunInv(s, before);
      assert before + [e] == events;
      if Enabled(t, e) { LaterStep(s, t, before, e); } else { LaterMore(s, t, before, e); }
    }
  }

  /** A request's outcome is written at most once and its end is final, whatever comes later. */
  lemma OutcomeIsFinal(s: State, events: seq<Event>, c: nat)
    requires Reachable(s) && c < |s.calls|
    ensures c < |Run(s, events).calls|
    ensures s.calls[c].settled.Some? ==> Run(s, events).calls[c].settled == s.calls[c].settled
    ensures s.calls[c].pc.Done? ==> Run(s, events).calls[c].pc == s.calls[c].pc
  {
    ReachableInv(s);
    RunIsLater(s, events);
  }

  /** `request` returns only the payload of a Response that arrived in this run under its own id. */
  lemma ReturnsOwnResponse(cfg: Config, events: seq<Event>, c: nat)
    requires c < |Run(Init(cfg), events).calls|
    requires var call := Run(Init(cfg), events).calls[c]; call.pc.Done? && call.pc.result.Returned?
    ensures var call := Run(Init(cfg), events).calls[c];
            && call.kind.Requester?
            && exists p :: InboundResponse(p) in events && p.kind == Response && p.messageId == call.kind.packet.messageId
                           && p.payload == call.pc.result.payload
  {
    var s := Run(Init(cfg), events);
    InitInv(cfg);
    RunInv(Init(cfg), events);
    RunIsLater(Init(cfg), events);
    Of(s, c);
    assert AnswerIn(s.calls[c].settled, events);
    assert InboundResponse(s.calls[c].settled.value.response) in events;
  }

  // ---- continuations ----

  /**
   Each continuation the connection holds belongs to a parked coroutine, so taking it out to resume it resumes
   it once. `roomCont` is the exception: after a wake-up it stays set until the coroutine runs.
   */
  lemma ContinuationsAreParked(s: State, c: nat)
    requires Reachable(s) && c < |s.calls|
    ensures c in s.roomWaiters <==> s.calls[c].pc.RoomParked?
    ensures s.calls[c].slotCont <==> s.calls[c].pc.SlotParked?
    ensures s.calls[c].waiter ==> s.calls[c].pc.AwaitParked? || s.calls[c].pc.AwaitCancelled?
    ensures NoDup(s.roomWaiters) && NoDup(s.inFlightWaiters)
  {
    ReachableInv(s);
    Of(s, c);
  }

  /** Of what a deadline may resume, only the room's continuation can have been resumed before. */
  lemma ResumesTwiceIff(s: State, c: nat)
    requires Core(s) && c < |s.calls| && s.calls[c].kind.Requester? && s.calls[c].armed
    ensures ResumesTwice(s.calls[c]) <==> s.calls[c].pc.RoomWoken? && s.calls[c].settled.None?
  {
    Of(s, c);
  }

  /**
   Of all the places that resume a continuation, the deadline alone ever resumes one a second time, exactly when it
   fires between the wake-up of a request parked for room and that request's next turn.
   */
  lemma DoubleResumeIff(s: State, e: Event)
    requires Reachable(s) && Enabled(s, e)
    ensures Step(s, e).doubleResumes == s.doubleResumes
            <==> !(e.Deadline? && s.calls[e.c].pc.RoomWoken? && s.calls[e.c].settled.None?)
  {
    ReachableInv(s);
    StepInv(s, e);
    if e.Deadline? { ResumesTwiceIff(s, e.c); }
  }

  /** The deadline does resume a continuation twice in some runs. */
  lemma DoubleResumeHappens()
    ensures exists s, c :: Reachable(s) && Enabled(s, Deadline(c)) && Step(s, Deadline(c)).doubleResumes != s.doubleResumes
  {
    var s1 := FirstSend();
    var s2 := SecondSend(s1);
    assert s2.calls[0] == s1.calls[0];
    var s3 := RequestParks(s2);
    assert s3.calls[0] == s2.calls[0];
    var s4 := WriterFlushes(s3);
    var s5 := WriterWakes(s4, 2);
    assert Enabled(s5, Deadline(2));
    DoubleResumeIff(s5, Deadline(2));
  }

  // ---- the deadline ----

  /**
   One deadline for the whole call: once it has failed a request, the request is out of the registry, is not
   parked on a slot, on room or on its response, and never queues its packet, however the run goes on.
   */
  lemma DeadlineEndsTheCall(s: State, c: nat, events: seq<Event>)
    requires Reachable(s) && Enabled(s, Deadline(c)) && s.calls[c].settled.None?
    ensures var t := Run(Step(s, Deadline(c)), events);
            && c < |t.calls|
            && t.calls[c].settled == Some(Failed(TimedOut))
            && !Parked(t.calls[c].pc)
            && !IsRegistered(t, c, s.calls[c].kind.packet.messageId)
            && t.calls[c].queued == s.calls[c].queued
            && (t.calls[c].pc.Done? ==> !t.calls[c].pc.result.Returned?)
  {
    ReachableInv(s);
    Of(s, c);
    var u := Step(s, Deadline(c));
    StepInv(s, Deadline(c));
    ExpireSettles(s, c);
    RunIsLater(u, events);
    RunInv(u, events);
    Of(Run(u, events), c);
  }

  lemma ExpireSettles(s: State, c: nat)
    requires c < |s.calls| && s.calls[c].kind.Requester? && s.calls[c].settled.None?
    ensures c < |Expire(s, c).calls|
    ensures Expire(s, c).calls[c].settled == Some(Failed(TimedOut))
    ensures Expire(s, c).calls[c].queued == s.calls[c].queued && Expire(s, c).calls[c].kind == s.calls[c].kind
  {
    var t := Expired(s, c);
    WakeInFlightKeeps(t);
    assert CallKeeps(t.calls[c], WakeInFlight(t).calls[c], None);
  }

  // ---- close ----

  /** Nothing is held any more: no entry, no packet, no waiter, and no coroutine parked on any of them. */
  ghost predicate Emptied(s: State) {
    && s.closed
    && s.pending == map[] && s.sendQueue == [] && s.queuedBytes == 0
    && s.roomWaiters == [] && s.inFlightWaiters == []
    && s.closeCallbacks == 1
    && forall c | 0 <= c < |s.calls| :: !Parked(s.calls[c].pc)
  }

  lemma ClosedIsEmptied(s: State)
    requires Inv(s) && s.closed
    ensures Emptied(s)
  {
    forall c | 0 <= c < |s.calls| ensures !Parked(s.calls[c].pc) { Of(s, c); }
  }

  /** The requests close must fail: those registered and those parked for a slot. */
  ghost predicate Outstanding(s: State, c: nat) {
    c < |s.calls| && (c in s.pending.Values || s.calls[c].pc.SlotParked?)
  }

  lemma CloseFails(s: State, c: nat)
    requires Inv(s) && !s.closed && Outstanding(s, c)
    ensures c < |Shutdown(s).calls| && Shutdown(s).calls[c].settled == Some(Failed(ConnectionClosed))
  {
    Of(s, c);
    InRegistry(s, c);
    assert Shutdown(s).calls[c] == CloseCall(s, c);
  }

  /**
   Close is terminal: it empties the connection and runs the close callbacks once, and no later step, a second
   close included, undoes that or accepts another packet.
   */
  lemma CloseIsTerminal(s: State, events: seq<Event>)
    requires Reachable(s)
    ensures Emptied(Run(Shutdown(s), events))
    ensures Run(Shutdown(s), events).accepted == s.accepted
  {
    ReachableInv(s);
    ShutdownInv(s);
    RunInv(Shutdown(s), events);
    RunIsLater(Shutdown(s), events);
    ClosedIsEmptied(Run(Shutdown(s), events));
  }

  /** Close fails every registered and every slot-waiting request, for good. */
  lemma CloseFailsOutstanding(s: State, events: seq<Event>, c: nat)
    requires Reachable(s) && !s.closed && Outstanding(s, c)
    ensures c < |Run(Shutdown(s), events).calls|
    ensures Run(Shutdown(s), events).calls[c].settled == Some(Failed(ConnectionClosed))
  {
    ReachableInv(s);
    ShutdownInv(s);
    CloseFails(s, c);
    RunIsLater(Shutdown(s), events);
  }
}
