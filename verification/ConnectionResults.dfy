/**
 How calls end, over whole runs: what a result says is so, whoever is answered, timed out or closed upon ends with
 exactly that, and a call that nobody interrupts ends as its packet fared.
 */
module ConnectionResults {
  import opened Wrappers
  import opened Packets
  import opened ConnectionModel
  import opened ConnectionInvariants
  import opened ConnectionHistory
  import opened ConnectionRuns
  import opened ConnectionRequests
  import opened ConnectionMoves
  import opened ConnectionTables

  /** All that is known of a step without looking into it. */
  ghost predicate Follows(s: State, e: Event, t: State) {
    && Enabled(s, e)
    && TableSays(s, e, t) && Moves(s, t, Runs(s, e))
    && Keeps(s.(oneWayId := t.oneWayId, socket := t.socket, stranded := t.stranded), t, AnswerOf(e))
    && (e.StartSend? || e.StartResponse? || e.StartRequest? ==>
          && |s.calls| < |t.calls|
          && t.calls[|s.calls|].kind == if e.StartRequest? then Requester(PacketOf(s, e)) else Sender(PacketOf(s, e)))
  }

  lemma StepFollows(s: State, e: Event)
    requires Inv(s) && Enabled(s, e)
    ensures Follows(s, e, Step(s, e)) && Inv(Step(s, e))
  {
    StepInv(s, e);
    StepTable(s, e);
    StepMoves(s, e);
    if e.Deadline? { Of(s, e.c); }
    StepKeeps(s, e);
    if e.StartSend? || e.StartResponse? || e.StartRequest? { StartedKind(s, e); }
  }

  // ---- what a result says is so ----

  ghost predicate ResultTrue(s: State, k: Call, r: Result) {
    match r
    case Sent => !k.kind.Requester? && (k.kind.Sender? ==> k.queued)
    case Returned(payload) => k.settled.Some? && k.settled.value.Answered? && payload == k.settled.value.response.payload
    case Threw(Timeout) => k.settled == Some(Failed(TimedOut))
    case Threw(Closed) => s.closed
    case Threw(WriteFailed) => s.closed
    case Threw(TooLarge) => !k.kind.Successor? && Oversized(s, |k.kind.packet.payload|)
    case Threw(Cancelled) => true
  }

  ghost predicate Truthful(s: State, c: nat)
    requires c < |s.calls|
  {
    var k := s.calls[c];
    && (k.pc.RoomRefused? || k.settled == Some(Failed(ConnectionClosed)) ==> s.closed)
    && (k.pc.Done? ==> ResultTrue(s, k, k.pc.result))
  }

  /** A call keeps its kind and its outcome from one step to the next. */
  lemma SameCall(s: State, e: Event, t: State, c: nat)
    requires Follows(s, e, t) && c < |s.calls|
    ensures c < |t.calls| && CallKeeps(s.calls[c], t.calls[c], AnswerOf(e)) && t.cfg == s.cfg && (s.closed ==> t.closed)
    ensures FailsByClose(s.calls[c], t.calls[c], t.closed)
    ensures Runs(s, e) != Some(c) ==> Resumed(s.calls[c], t.calls[c], t.closed)
  {
    var s' := s.(oneWayId := t.oneWayId, socket := t.socket, stranded := t.stranded);
    assert CallKeeps(s'.calls[c], t.calls[c], AnswerOf(e));
  }

  lemma NewRunnerIsTruthful(s: State, e: Event, t: State)
    requires Follows(s, e, t) && Runs(s, e) == Some(|s.calls|) && |s.calls| < |t.calls| && CallOk(t, |s.calls|)
    ensures Truthful(t, |s.calls|)
  {
  }

  /** The coroutine that a step runs ends truthfully. */
  lemma RunnerIsTruthful(s: State, e: Event, t: State, c: nat)
    requires Follows(s, e, t) && Runs(s, e) == Some(c) && c < |s.calls| && !s.calls[c].pc.Done? && Truthful(s, c)
    requires CallOk(s, c) && c < |t.calls| && CallOk(t, c)
    ensures Truthful(t, c)
  {
    SameCall(s, e, t, c);
    var a, b := s.calls[c], t.calls[c];
    assert Carried(s, t, a, b);
    if e.RunWoken? {
      WokenIsTruthful(s, c, t);
      return;
    }
    if e.FlushReturns? || e.SuccessorStarts? {
      DrainedIsTruthful(s, t, c);
    }
  }

  /** What of `SameCall` bears on results. */
  ghost predicate Carried(s: State, t: State, a: Call, b: Call) {
    && b.kind == a.kind && (a.settled.Some? ==> b.settled == a.settled) && t.cfg == s.cfg && (s.closed ==> t.closed)
    && FailsByClose(a, b, t.closed)
  }

  /** A settled request that ends with its outcome ends truthfully. */
  lemma OutcomeIsTruthful(s: State, t: State, c: nat)
    requires c < |s.calls| && c < |t.calls| && Carried(s, t, s.calls[c], t.calls[c]) && Truthful(s, c)
    requires s.calls[c].settled.Some? && t.calls[c].pc == Done(EndOf(s.calls[c].settled.value))
    ensures Truthful(t, c)
  {
  }

  lemma WokenIsTruthful(s: State, c: nat, t: State)
    requires c < |s.calls| && c < |t.calls| && Woken(s, t, c) && Carried(s, t, s.calls[c], t.calls[c]) && Truthful(s, c)
    ensures Truthful(t, c)
  {
    if !s.calls[c].pc.RoomRefused? && s.calls[c].settled.Some? {
      OutcomeIsTruthful(s, t, c);
    }
  }

  lemma DrainedIsTruthful(s: State, t: State, c: nat)
    requires c < |s.calls| && c < |t.calls| && Carried(s, t, s.calls[c], t.calls[c]) && Truthful(s, c)
    requires t.calls[c].pc.InWrite? || t.calls[c].pc == AfterSending(s.calls[c])
    requires t.calls[c].kind.Sender? && t.calls[c].pc == Done(Sent) ==> t.calls[c].queued
    ensures Truthful(t, c)
  {
    if t.calls[c].pc.Done? && s.calls[c].settled.Some? && s.calls[c].kind.Requester? {
      OutcomeIsTruthful(s, t, c);
    }
  }

  lemma StaysTruthful(s: State, e: Event, t: State, c: nat)
    requires Follows(s, e, t) && c < |s.calls| && Truthful(s, c)
    requires CallOk(s, c) && c < |t.calls| && CallOk(t, c)
    ensures Truthful(t, c)
  {
    if Runs(s, e) == Some(c) && !s.calls[c].pc.Done? {
      RunnerIsTruthful(s, e, t, c);
      return;
    }
    SameCall(s, e, t, c);
    if s.calls[c].pc.Done? {
      return;
    }
  }

  ghost predicate AllTruthful(s: State) {
    forall c | 0 <= c < |s.calls| :: Truthful(s, c)
  }

  lemma TruthfulStep(s: State, e: Event, t: State)
    requires Follows(s, e, t) && AllTruthful(s) && CallsOk(s) && CallsOk(t)
    ensures AllTruthful(t)
  {
    forall c | 0 <= c < |t.calls| ensures Truthful(t, c) {
      Of(t, c);
      if c < |s.calls| {
        Of(s, c);
        StaysTruthful(s, e, t, c);
      } else if Runs(s, e) == Some(|s.calls|) && c == |s.calls| {
        NewRunnerIsTruthful(s, e, t);
      } else {
        LaunchedIsTruthful(s, e, t, c);
      }
    }
  }

  lemma LaunchedIsTruthful(s: State, e: Event, t: State, c: nat)
    requires Follows(s, e, t) && |s.calls| <= c < |t.calls| && Runs(s, e) != Some(c)
    ensures Truthful(t, c)
  {
  }

  lemma {:induction false} RunTruthful(s: State, events: seq<Event>)
    requires Inv(s) && AllTruthful(s)
    ensures AllTruthful(Run(s, events))
    decreases |events|
  {
    if events != [] {
      var before, e := events[..|events| - 1], events[|events| - 1];
      var t := Run(s, before);
      RunTruthful(s, before);
      RunInv(s, before);
      if Enabled(t, e) {
        StepFollows(t, e);
        TruthfulStep(t, e, Step(t, e));
      }
    }
  }

  lemma ReachableTruthful(s: State)
    requires Reachable(s)
    ensures AllTruthful(s)
  {
    var cfg, events :| s == Run(Init(cfg), events);
    InitInv(cfg);
    RunTruthful(Init(cfg), events);
  }

  /**
   In every run a result is true: a request returns only what it was answered with, times out only when its deadline
   failed it, a call is closed upon or fails to write only on a closed connection, and is too large only if it is.
   */
  lemma ResultsAreTrue(s: State, c: nat)
    requires Reachable(s) && c < |s.calls| && s.calls[c].pc.Done?
    ensures ResultTrue(s, s.calls[c], s.calls[c].pc.result)
  {
    ReachableTruthful(s);
    assert Truthful(s, c);
  }

  // ---- answered, timed out, closed upon ----

  /** Resumed or cancelled: whatever comes, the coroutine ends with `r`, unless it is resumed and then cancelled. */
  ghost predicate Bound(k: Call, r: Result) {
    || k.pc == Done(r)
    || (k.pc.RoomRefused? && r == Threw(Closed))
    || ((k.pc.SlotCancelled? || k.pc.RoomCancelled? || k.pc.AwaitCancelled?) && r == Threw(Cancelled))
    || ((k.pc.SlotWoken? || k.pc.RoomWoken? || k.pc.AwaitWoken?) && k.settled.Some? && r == EndOf(k.settled.value))
  }

  lemma BoundStep(s: State, e: Event, t: State, c: nat, r: Result)
    requires Follows(s, e, t) && c < |s.calls| && CallOk(s, c) && Bound(s.calls[c], r)
    requires e == RunCancelled(c) ==> r == Threw(Cancelled)
    ensures c < |t.calls| && Bound(t.calls[c], r)
    ensures e == RunWoken(c) || e == RunCancelled(c) ==> t.calls[c].pc == Done(r)
  {
    SameCall(s, e, t, c);
    if Runs(s, e) == Some(c) && !s.calls[c].pc.Done? {
      assert e == RunWoken(c) || e == RunCancelled(c);
    }
  }

  lemma {:induction false} BoundRun(s: State, events: seq<Event>, c: nat, r: Result)
    requires Inv(s) && c < |s.calls| && Bound(s.calls[c], r) && (RunCancelled(c) in events ==> r == Threw(Cancelled))
    ensures Inv(Run(s, events)) && c < |Run(s, events).calls| && Bound(Run(s, events).calls[c], r)
    decreases |events|
  {
    if events != [] {
      var before, e := events[..|events| - 1], events[|events| - 1];
      var t := Run(s, before);
      BoundRun(s, before, c, r);
      assert e in events;
      if Enabled(t, e) {
        StepFollows(t, e);
        Of(t, c);
        BoundStep(t, e, Step(t, e), c, r);
      }
    }
  }

  /** A run first, then an event. */
  lemma RunThen(s: State, events: seq<Event>, e: Event)
    ensures Run(s, events + [e]) == if Enabled(Run(s, events), e) then Step(Run(s, events), e) else Run(s, events)
  {
    assert (events + [e])[..|events|] == events;
  }

  /** The turn the coroutine is waiting for. */
  ghost function TurnOf(c: nat, r: Result): Event {
    if r == Threw(Cancelled) then RunCancelled(c) else RunWoken(c)
  }

  /** After any run the coroutine's next turn gives `r`. */
  lemma BoundEnds(s: State, events: seq<Event>, c: nat, r: Result)
    requires Inv(s) && c < |s.calls| && Bound(s.calls[c], r) && (RunCancelled(c) in events ==> r == Threw(Cancelled))
    ensures CallAt(Run(s, events + [TurnOf(c, r)]), c, Done(r))
  {
    var t, e := Run(s, events), TurnOf(c, r);
    BoundRun(s, events, c, r);
    RunThen(s, events, e);
    if Enabled(t, e) {
      StepFollows(t, e);
      Of(t, c);
      BoundStep(t, e, Step(t, e), c, r);
    }
  }

  /** An event first, then a run. */
  lemma FirstThen(s: State, e: Event, events: seq<Event>)
    requires Enabled(s, e)
    ensures Run(s, [e] + events) == Run(Step(s, e), events)
  {
    RunSplits(s, [e], events);
    assert [e][..0] == [];
    assert Run(s, [e]) == Step(s, e);
  }

  lemma WakeLeaves(s: State, c: nat)
    requires c < |s.calls| && s.calls[c].pc != SlotParked
    ensures var t := WakeInFlight(s); c < |t.calls| && t.calls[c].pc == s.calls[c].pc && t.calls[c].settled == s.calls[c].settled
  {
    if s.inFlightWaiters == [] || s.inFlightWaiters[0] >= |s.calls| {
      return;
    }
    var h := s.inFlightWaiters[0];
    assert WakeInFlight(s).calls == s.calls[h := Unslot(s.calls[h])];
  }

  lemma ResponseBinds(s: State, c: nat, p: Packet)
    requires Core(s) && CallAt(s, c, AwaitParked) && IsRegistered(s, c, p.messageId)
    ensures c < |Respond(s, p).calls| && Bound(Respond(s, p).calls[c], Returned(p.payload))
  {
    Of(s, c);
    WakeLeaves(Completed(s, p), c);
  }

  lemma ExpiredBinds(s: State, c: nat)
    requires Core(s) && Enabled(s, Deadline(c)) && Parked(s.calls[c].pc) && s.calls[c].settled.None?
    ensures c < |Expired(s, c).calls| && Expired(s, c).calls[c].settled == Some(Failed(TimedOut))
    ensures Bound(Expired(s, c).calls[c], Threw(Timeout)) && !Expired(s, c).calls[c].pc.SlotParked?
  {
    Of(s, c);
  }

  lemma DeadlineBinds(s: State, c: nat)
    requires Core(s) && Enabled(s, Deadline(c)) && Parked(s.calls[c].pc) && s.calls[c].settled.None?
    ensures c < |Expire(s, c).calls| && Bound(Expire(s, c).calls[c], Threw(Timeout))
  {
    ExpiredBinds(s, c);
    WakeLeaves(Expired(s, c), c);
  }

  lemma CloseBinds(s: State, c: nat)
    requires Core(s) && !s.closed && c < |s.calls| && Parked(s.calls[c].pc)
    ensures c < |Shutdown(s).calls| && Bound(Shutdown(s).calls[c], Threw(Closed))
  {
    Of(s, c);
    assert Shutdown(s).calls[c] == CloseCall(s, c);
  }

  /**
   A request parked for its response returns the payload of the Response that comes under its id, at its next turn,
   whatever else happens in between short of its cancellation.
   */
  lemma AnsweredReturns(s: State, c: nat, p: Packet, events: seq<Event>)
    requires Reachable(s) && CallAt(s, c, AwaitParked) && s.calls[c].kind.Requester?
    requires p.kind == Response && p.messageId == s.calls[c].kind.packet.messageId && RunCancelled(c) !in events
    ensures CallAt(Run(s, [InboundResponse(p)] + (events + [RunWoken(c)])), c, Done(Returned(p.payload)))
  {
    ReachableInv(s);
    ParkedIsRegistered(s, c);
    ResponseBinds(s, c, p);
    RespondInv(s, p);
    BoundEnds(Respond(s, p), events, c, Returned(p.payload));
    FirstThen(s, InboundResponse(p), events + [RunWoken(c)]);
  }

  /** A request parked anywhere, for a slot, for room or for its response, throws the timeout once its deadline has passed. */
  lemma ExpiredThrows(s: State, c: nat, events: seq<Event>)
    requires Reachable(s) && Enabled(s, Deadline(c)) && Parked(s.calls[c].pc) && s.calls[c].settled.None? && RunCancelled(c) !in events
    ensures CallAt(Run(s, [Deadline(c)] + (events + [RunWoken(c)])), c, Done(Threw(Timeout)))
  {
    ReachableInv(s);
    DeadlineBinds(s, c);
    StepInv(s, Deadline(c));
    BoundEnds(Expire(s, c), events, c, Threw(Timeout));
    FirstThen(s, Deadline(c), events + [RunWoken(c)]);
  }

  /** Whoever is parked anywhere when the connection closes throws the close. */
  lemma ClosedThrows(s: State, c: nat, events: seq<Event>)
    requires Reachable(s) && c < |s.calls| && Parked(s.calls[c].pc) && RunCancelled(c) !in events
    ensures CallAt(Run(s, [Close] + (events + [RunWoken(c)])), c, Done(Threw(Closed)))
  {
    ReachableInv(s);
    Of(s, c);
    CloseBinds(s, c);
    ShutdownInv(s);
    BoundEnds(Shutdown(s), events, c, Threw(Closed));
    FirstThen(s, Close, events + [RunWoken(c)]);
  }

  lemma CancelBinds(s: State, c: nat)
    requires Enabled(s, Cancel(c))
    ensures c < |StepCancel(s, c).calls| && Bound(StepCancel(s, c).calls[c], Threw(Cancelled))
  {
  }

  /** Whoever is cancelled while parked throws the cancellation at its next turn, whatever else happens in between. */
  lemma CancelledThrows(s: State, c: nat, events: seq<Event>)
    requires Reachable(s) && Enabled(s, Cancel(c))
    ensures CallAt(Run(s, [Cancel(c)] + (events + [RunCancelled(c)])), c, Done(Threw(Cancelled)))
  {
    ReachableInv(s);
    CancelBinds(s, c);
    StepInv(s, Cancel(c));
    BoundEnds(StepCancel(s, c), events, c, Threw(Cancelled));
    FirstThen(s, Cancel(c), events + [RunCancelled(c)]);
  }

  // ---- waiting, and being refused ----

  /** A payload is too large exactly when it is over one of the two limits of the configuration. */
  lemma TooLargeIff(s: State, e: Event)
    requires Reachable(s) && Enabled(s, e) && (e.StartSend? || e.StartResponse?)
    ensures CallAt(Step(s, e), |s.calls|, Done(Threw(TooLarge)))
            <==> |e.data| > s.cfg.maxPayloadLength || |e.data| > s.cfg.maxOutboundBytes
  {
    SendTable(s, e);
  }

  /** On an open connection a payload within both limits is accepted at once if there is a slot and there are bytes left for it. */
  lemma AcceptedAtOnce(s: State, e: Event)
    requires Reachable(s) && Enabled(s, e) && (e.StartSend? || e.StartResponse?) && !s.closed
    requires |e.data| <= s.cfg.maxPayloadLength && |e.data| <= s.cfg.maxOutboundBytes
    requires |s.sendQueue| < s.cfg.mailboxCapacity && s.queuedBytes + |e.data| <= s.cfg.maxOutboundBytes
    ensures var t := Step(s, e);
            && t.accepted == s.accepted + [PacketOf(s, e)] && PacketOf(s, e).payload == e.data
            && CallAt(t, |s.calls|, if s.writerActive then Done(Sent) else InWrite)
  {
    SendTable(s, e);
  }

  ghost predicate Newly(s: State, t: State, c: nat, pc: Pc) {
    CallAt(t, c, pc) && !CallAt(s, c, pc)
  }

  /**
   Whichever step it is: a coroutine comes to wait for room only when a slot or the bytes are missing, for a slot only
   when as many requests as allowed are in flight, and is told too large only when it is over a limit.
   */
  lemma WaitsOnlyIf(s: State, e: Event, c: nat)
    requires Reachable(s) && Enabled(s, e) && c < |Step(s, e).calls|
    ensures var t := Step(s, e);
            && (Newly(s, t, c, RoomParked) ==>
                  && !s.closed && !t.calls[c].kind.Successor?
                  && (|s.sendQueue| >= s.cfg.mailboxCapacity
                      || (s.queuedBytes != 0 && s.queuedBytes + |t.calls[c].kind.packet.payload| > s.cfg.maxOutboundBytes)))
            && (Newly(s, t, c, SlotParked) ==> !s.closed && |s.pending| >= s.cfg.maxInFlightRequests)
            && (Newly(s, t, c, Done(Threw(TooLarge))) ==>
                  && !t.calls[c].kind.Successor?
                  && var n := |t.calls[c].kind.packet.payload|; n > s.cfg.maxPayloadLength || n > s.cfg.maxOutboundBytes)
  {
    ReachableInv(s);
    StepFollows(s, e);
    if c < |s.calls| { Of(s, c); }
    WaitsFollow(s, e, Step(s, e), c);
  }

  lemma WaitsFollow(s: State, e: Event, t: State, c: nat)
    requires Follows(s, e, t) && c < |t.calls| && (c < |s.calls| ==> CallOk(s, c))
    ensures Newly(s, t, c, RoomParked) ==> !s.closed && !t.calls[c].kind.Successor? && !HasRoom(s, |t.calls[c].kind.packet.payload|)
    ensures Newly(s, t, c, SlotParked) ==> !s.closed && |s.pending| >= s.cfg.maxInFlightRequests
    ensures Newly(s, t, c, Done(Threw(TooLarge))) ==> !t.calls[c].kind.Successor? && Oversized(s, |t.calls[c].kind.packet.payload|)
  {
    if c < |s.calls| { SameCall(s, e, t, c); }
    if Runs(s, e) != Some(c) {
      return;
    }
    if e.RunWoken? {
      WokenWaits(s, t, c);
      return;
    }
    if e.FlushReturns? || e.SuccessorStarts? || e.WriterCancelled? || e.WriterFails? || e.WriteReturns? {
      assert WriterGoes(s, e, t);
    }
  }

  lemma WokenWaits(s: State, t: State, c: nat)
    requires c < |s.calls| && c < |t.calls| && Woken(s, t, c) && t.calls[c].kind == s.calls[c].kind
    ensures t.calls[c].pc.RoomParked? ==> !s.closed && !t.calls[c].kind.Successor? && !HasRoom(s, |t.calls[c].kind.packet.payload|)
    ensures t.calls[c].pc.SlotParked? ==> !s.closed && |s.pending| >= s.cfg.maxInFlightRequests
    ensures t.calls[c].pc == Done(Threw(TooLarge)) ==>
              !t.calls[c].kind.Successor? && Oversized(s, |t.calls[c].kind.packet.payload|)
  {
  }

  // ---- calls that nobody interrupts ----

  /** The step cancels `c`, or fails it in the middle of a write. */
  ghost predicate Interrupts(s: State, e: Event, c: nat) {
    e == RunCancelled(c) || ((e.WriterCancelled? || e.WriterFails?) && s.writer == Some(c))
  }

  ghost predicate Uninterrupted(s: State, events: seq<Event>, c: nat) {
    forall i | 0 <= i < |events| :: !Interrupts(Run(s, events[..i]), events[i], c)
  }

  /**
   A send ends as its packet fared: sent if it was queued, else too large if it is, else closed upon. A request ends
   with its outcome; without one it was never queued, and is too large or closed upon.
   */
  ghost predicate EndsFairly(s: State, k: Call)
    requires k.pc.Done?
  {
    match k.kind
    case Sender(p) =>
      if k.queued then k.pc.result == Sent
      else if |p.payload| > s.cfg.maxPayloadLength || |p.payload| > s.cfg.maxOutboundBytes then k.pc.result == Threw(TooLarge)
      else k.pc.result == Threw(Closed) && s.closed
    case Requester(p) =>
      || (k.settled.Some? && k.pc.result == EndOf(k.settled.value))
      || (!k.queued && k.pc.result == Threw(TooLarge) && (|p.payload| > s.cfg.maxPayloadLength || |p.payload| > s.cfg.maxOutboundBytes))
      || (!k.queued && k.pc.result == Threw(Closed) && s.closed)
    case Successor => true
  }

  ghost predicate Fair(s: State, c: nat) {
    c < |s.calls| && (s.calls[c].pc.Done? ==> EndsFairly(s, s.calls[c]))
  }

  lemma FairStart(s: State, e: Event, t: State)
    requires Follows(s, e, t) && Runs(s, e) == Some(|s.calls|) && (e.StartSend? || e.StartResponse? || e.StartRequest?)
    ensures Fair(t, |s.calls|)
  {
  }

  lemma FairRunner(s: State, e: Event, t: State, c: nat)
    requires Follows(s, e, t) && Runs(s, e) == Some(c) && c < |s.calls| && !s.calls[c].pc.Done? && !Interrupts(s, e, c)
    requires CallOk(s, c) && Truthful(s, c)
    ensures Fair(t, c)
  {
    SameCall(s, e, t, c);
  }

  lemma FairStep(s: State, e: Event, t: State, c: nat)
    requires Follows(s, e, t) && Fair(s, c) && !Interrupts(s, e, c) && CallOk(s, c) && Truthful(s, c)
    ensures Fair(t, c)
  {
    if Runs(s, e) == Some(c) && !s.calls[c].pc.Done? {
      FairRunner(s, e, t, c);
      return;
    }
    SameCall(s, e, t, c);
  }

  lemma UninterruptedBefore(s: State, events: seq<Event>, c: nat)
    requires Uninterrupted(s, events, c) && events != []
    ensures Uninterrupted(s, events[..|events| - 1], c)
  {
    var before := events[..|events| - 1];
    forall i | 0 <= i < |before| ensures !Interrupts(Run(s, before[..i]), before[i], c) { assert before[..i] == events[..i]; }
  }

  lemma {:induction false} FairRun(s: State, events: seq<Event>, c: nat)
    requires Inv(s) && AllTruthful(s) && Fair(s, c) && Uninterrupted(s, events, c)
    ensures Fair(Run(s, events), c)
    decreases |events|
  {
    if events != [] {
      var n := |events| - 1;
      var before, e := events[..n], events[n];
      var t := Run(s, before);
      UninterruptedBefore(s, events, c);
      FairRun(s, before, c);
      RunInv(s, before);
      RunTruthful(s, before);
      if Enabled(t, e) {
        StepFollows(t, e);
        Of(t, c);
        FairStep(t, e, Step(t, e), c);
      }
    }
  }

  /** From its start on, a call that is neither cancelled nor fails in a write of its own ends as its packet fared. */
  lemma UninterruptedEndsFairly(s: State, e: Event, events: seq<Event>)
    requires Reachable(s) && Enabled(s, e) && (e.StartSend? || e.StartResponse? || e.StartRequest?)
    requires Uninterrupted(Step(s, e), events, |s.calls|)
    ensures var t := Run(Step(s, e), events);
            |s.calls| < |t.calls| && (t.calls[|s.calls|].pc.Done? ==> EndsFairly(t, t.calls[|s.calls|]))
  {
    ReachableInv(s);
    StepFollows(s, e);
    FairStart(s, e, Step(s, e));
    ReachableTruthful(s);
    TruthfulStep(s, e, Step(s, e));
    FairRun(Step(s, e), events, |s.calls|);
  }

  // ---- the deadline is set ----

  /** A request with a deadline has it set until it has an outcome or its end; one without never has. */
  ghost predicate Timed(k: Call, deadline: bool) {
    k.kind.Requester? && (k.armed ==> deadline) && (deadline ==> k.armed || k.pc.Done? || k.settled.Some?)
  }

  lemma StartedTimed(s: State, e: Event)
    requires Enabled(s, e) && e.StartRequest?
    ensures |s.calls| < |Step(s, e).calls| && Timed(Step(s, e).calls[|s.calls|], e.deadline)
  {
    var p := MakePacket(Request, s.requestId + 1, e.bizType, e.data, e.compression);
    assert Step(s, e) == BeginRequest(s, p, e.deadline);
    RequesterTimed(s, p, e.deadline);
  }

  lemma RequesterTimed(s: State, p: Packet, deadline: bool)
    ensures var t := BeginRequest(s, p, deadline); |s.calls| < |t.calls| && Timed(t.calls[|s.calls|], deadline)
  {
    RequesterKind(s, p, deadline);
  }

  lemma {:induction false} RunTimed(s: State, events: seq<Event>, c: nat, deadline: bool)
    requires Inv(s) && c < |s.calls| && Timed(s.calls[c], deadline)
    ensures c < |Run(s, events).calls| && Timed(Run(s, events).calls[c], deadline)
    decreases |events|
  {
    if events != [] {
      var before, e := events[..|events| - 1], events[|events| - 1];
      var t := Run(s, before);
      RunTimed(s, before, c, deadline);
      RunInv(s, before);
      if Enabled(t, e) {
        StepFollows(t, e);
        SameCall(t, e, Step(t, e), c);
      }
    }
  }

  /**
   One deadline for the whole call: from its start a request with a timeout can be failed by it wherever it is, until
   it has its outcome or has ended; a request without one never is.
   */
  lemma DeadlineCanFire(s: State, e: Event, events: seq<Event>)
    requires Reachable(s) && Enabled(s, e) && e.StartRequest?
    ensures var t, c := Run(Step(s, e), events), |s.calls|;
            && c < |t.calls|
            && (e.deadline && !t.calls[c].pc.Done? && t.calls[c].settled.None? ==> Enabled(t, Deadline(c)))
            && (!e.deadline ==> !Enabled(t, Deadline(c)))
  {
    ReachableInv(s);
    StepInv(s, e);
    StartedTimed(s, e);
    RunTimed(Step(s, e), events, |s.calls|, e.deadline);
  }
}
