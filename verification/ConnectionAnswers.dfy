/**
 Whether a request that returned was ever sent. A Response is matched by its id alone, so one that bears the id of a
 request still waiting for room settles it, and that request returns without having queued its packet.
 */
module ConnectionAnswers {
  import opened Bytes
  import opened Wrappers
  import opened Packets
  import opened ConnectionModel
  import opened ConnectionInvariants
  import opened ConnectionHistory
  import opened ConnectionLedger
  import opened ConnectionRuns
  import opened ConnectionScenarios
  import opened ConnectionRequests
  import opened ConnectionSegments

  predicate WaitsForRoom(pc: Pc) {
    pc.RoomParked? || pc.RoomWoken? || pc.RoomCancelled?
  }

  /** A registered request has queued its packet, or it still waits for room. */
  lemma RegisteredIsQueuedIff(s: State, id: u32)
    requires Reachable(s) && id in s.pending
    ensures var c := s.pending[id]; c < |s.calls| && (s.calls[c].queued <==> !WaitsForRoom(s.calls[c].pc))
  {
    ReachableInv(s);
    ReachableRests(s);
    assert EntryOk(s, id);
    Of(s, s.pending[id]);
  }

  lemma RespondQueuesNothing(s: State, p: Packet, c: nat)
    requires c < |s.calls|
    ensures c < |Respond(s, p).calls| && Respond(s, p).calls[c].queued == s.calls[c].queued
  {
    RespondQuiet(s, p);
    assert SameEntry(s.calls[c], Respond(s, p).calls[c]);
  }

  /** In the run `events`, the event at `k` is the Response that settled the request `c`. */
  ghost predicate SettledAt(s: State, events: seq<Event>, c: nat, k: nat) {
    && k < |events| && events[k].InboundResponse?
    && var t := Run(s, events[..k]);
       && Enabled(t, events[k]) && c < |t.calls| && IsRegistered(t, c, events[k].p.messageId)
       && c < |Run(s, events).calls| && Run(s, events).calls[c].settled == Some(Answered(events[k].p))
  }

  /** A step that leaves a request answered either found it so or is the Response that settles it. */
  lemma AnsweringStep(t: State, e: Event, c: nat)
    requires Reachable(t) && Enabled(t, e) && c < |Step(t, e).calls|
    requires var o := Step(t, e).calls[c].settled; o.Some? && o.value.Answered?
    ensures c < |t.calls|
    ensures t.calls[c].settled == Step(t, e).calls[c].settled
            || (e.InboundResponse? && IsRegistered(t, c, e.p.messageId) && Step(t, e).calls[c].settled == Some(Answered(e.p)))
  {
    ReachableInv(t);
    if e.Deadline? { Of(t, e.c); }
    StepKeeps(t, e);
    assert c < |t.calls| ==> CallKeeps(t.calls[c], Step(t, e).calls[c], AnswerOf(e));
    if c < |t.calls| && t.calls[c].settled.None? { ResponseSettlesOnlyItsRequest(t, e.p, c); }
  }

  /** A request was answered by one Response of the run, which found it registered. */
  lemma {:induction false} FindAnswer(cfg: Config, events: seq<Event>, c: nat) returns (k: nat)
    requires c < |Run(Init(cfg), events).calls|
    requires var o := Run(Init(cfg), events).calls[c].settled; o.Some? && o.value.Answered?
    ensures SettledAt(Init(cfg), events, c, k)
    decreases |events|
  {
    var n := |events| - 1;
    var t, e := Run(Init(cfg), events[..n]), events[n];
    assert Reachable(t);
    if Enabled(t, e) {
      AnsweringStep(t, e, c);
      if t.calls[c].settled != Step(t, e).calls[c].settled {
        return n;
      }
    }
    k := FindAnswer(cfg, events[..n], c);
    assert events[..n][..k] == events[..k];
  }

  /**
   A request that returned queued its packet if and only if the Response that settled it did not find it still
   waiting for room.
   */
  lemma ReturnedIsSentIff(cfg: Config, events: seq<Event>, c: nat)
    requires c < |Run(Init(cfg), events).calls|
    requires var call := Run(Init(cfg), events).calls[c]; call.pc.Done? && call.pc.result.Returned?
    ensures var call := Run(Init(cfg), events).calls[c];
            exists k: nat :: SettledAt(Init(cfg), events, c, k) && events[k].p.payload == call.pc.result.payload
                        && (call.queued <==> !WaitsForRoom(Run(Init(cfg), events[..k]).calls[c].pc))
  {
    var s := Run(Init(cfg), events);
    assert Reachable(s);
    ReachableInv(s);
    Of(s, c);
    var k := FindAnswer(cfg, events, c);
    var t := Run(Init(cfg), events[..k]);
    assert Reachable(t);
    RegisteredIsQueuedIff(t, events[k].p.messageId);
    QueuedAtAnswer(cfg, events, c, k);
  }

  lemma RunFrom(s: State, events: seq<Event>, k: nat)
    requires k < |events| && Enabled(Run(s, events[..k]), events[k])
    ensures Run(s, events) == Run(Step(Run(s, events[..k]), events[k]), events[k + 1..])
  {
    assert events[..k + 1][..k] == events[..k];
    assert events[..k + 1] + events[k + 1..] == events;
    RunSplits(s, events[..k + 1], events[k + 1..]);
  }

  /** What the Response found queued is all that is ever queued. */
  lemma QueuedAtAnswer(cfg: Config, events: seq<Event>, c: nat, k: nat)
    requires SettledAt(Init(cfg), events, c, k)
    ensures Run(Init(cfg), events).calls[c].queued == Run(Init(cfg), events[..k]).calls[c].queued
  {
    var t, e := Run(Init(cfg), events[..k]), events[k];
    assert Reachable(t);
    AnsweredStaysAsQueued(t, e.p, c, events[k + 1..]);
    RunFrom(Init(cfg), events, k);
  }

  lemma AnsweredStaysAsQueued(t: State, p: Packet, c: nat, events: seq<Event>)
    requires Reachable(t) && p.kind == Response && c < |t.calls| && IsRegistered(t, c, p.messageId)
    ensures var u := Run(Respond(t, p), events); c < |u.calls| && u.calls[c].queued == t.calls[c].queued
  {
    RespondQueuesNothing(t, p, c);
    ResponseSettlesOnlyItsRequest(t, p, c);
    ReachableInv(t);
    RespondInv(t, p);
    RunIsLater(Respond(t, p), events);
  }

  /** It does happen that a request returns unsent. */
  lemma UnsentRequestReturns()
    ensures exists s, c: nat :: Reachable(s) && c < |s.calls| && s.calls[c].pc.Done? && s.calls[c].pc.result.Returned? && !s.calls[c].queued
  {
    var s1 := FirstSend();
    var s2 := SecondSend(s1);
    assert s2.calls[0] == s1.calls[0];
    var s3 := RequestParks(s2);
    assert s3.calls[0] == s2.calls[0];
    var s4 := RequestAnswered(s3, 2);
    var s5 := WriterFlushes(s4);
    var s6 := WriterWakes(s5, 2);
    var s7 := AnsweredReturns(s6, 2);
  }

  lemma RequestAnswered(s: State, c: nat) returns (t: State)
    requires Reachable(s) && s.inFlightWaiters == [] && c < |s.calls| && IsRegistered(s, c, 1)
    requires s.calls[c].pc.RoomParked?
    ensures Reachable(t) && |t.calls| == |s.calls| && t.calls[c].pc.RoomParked? && t.calls[c].settled.Some?
    ensures t.calls[c].settled.value.Answered? && SameEntry(t.calls[c], s.calls[c])
    ensures t == s.(pending := t.pending, calls := s.calls[c := t.calls[c]])
  {
    var e := InboundResponse(MakePacket(Response, 1, 0, [], NoCompression));
    ReachableInv(s);
    RespondedStep(s, 1, e.p);
    ReachableStep(s, e);
    t := Step(s, e);
    assert t == Completed(s, e.p);
  }

  lemma AnsweredReturns(s: State, c: nat) returns (t: State)
    requires Reachable(s) && CallAt(s, c, RoomWoken) && s.calls[c].settled.Some? && s.calls[c].settled.value.Answered?
    requires s.calls[c].kind.Requester?
    ensures Reachable(t) && c < |t.calls| && t.calls[c].pc.Done? && t.calls[c].pc.result.Returned? && t.calls[c].queued == s.calls[c].queued
  {
    ReachableStep(s, RunWoken(c));
    t := Step(s, RunWoken(c));
    EndsWith(SetCall(s, c, s.calls[c].(pc := Running, roomCont := false)), c, ResultOf(s.calls[c].settled.value));
  }

  lemma EndsWith(s: State, c: nat, r: Result)
    requires c < |s.calls| && s.calls[c].kind.Requester?
    ensures var t := Finish(s, c, r); c < |t.calls| && t.calls[c].pc == Done(r) && t.calls[c].queued == s.calls[c].queued
  {
    var t := Leave(s, c, r);
    WakeInFlightKeeps(t);
    assert CallKeeps(t.calls[c], WakeInFlight(t).calls[c], None);
    FinishQuiet(s, c, r);
    assert SameEntry(s.calls[c], Finish(s, c, r).calls[c]);
  }
}
