/**
 What a cancelled scope does to the writer: the successor that should take over never runs, nobody clears
 `writerActive`, and what is left stays unsent until the connection is closed.
 */
module ConnectionStranding {
  import opened ConnectionModel
  import opened ConnectionInvariants
  import opened ConnectionHistory
  import opened ConnectionRuns
  import opened ConnectionScenarios

  /** The connection is open, something is left to write, and no coroutine writes it or will start to. */
  ghost predicate Stuck(s: State) {
    !s.closed && Unsent(s) && NobodyWrites(s)
  }

  ghost predicate NobodyWrites(s: State) {
    forall c | 0 <= c < |s.calls| :: !Writing(s.calls[c].pc)
  }

  lemma NobodyWritesIff(s: State)
    requires Inv(s)
    ensures NobodyWrites(s) <==> s.writer.None?
  {
    if s.writer.Some? { Of(s, s.writer.value); }
    forall c | 0 <= c < |s.calls| ensures s.writer.None? ==> !Writing(s.calls[c].pc) { Of(s, c); }
  }

  lemma StuckIff(s: State)
    requires Inv(s)
    ensures Stuck(s) <==> s.stranded && !s.closed
  {
    NobodyWritesIff(s);
  }

  /**
   A step gets an open connection stuck exactly when it cancels the scope under a successor that has not started, or
   cancels a writer that has something left after the scope was cancelled.
   */
  lemma StrandsIff(s: State, e: Event)
    requires Reachable(s) && Enabled(s, e)
    ensures !Stuck(s) && Stuck(Step(s, e)) <==>
            || (e.ScopeCancelled? && WriterAt(s, Launched) && !s.closed)
            || (e.WriterCancelled? && !s.scopeActive && !s.closed && Unsent(s))
  {
    ReachableInv(s);
    StepInv(s, e);
    StuckIff(s);
    StuckIff(Step(s, e));
    StrandedBy(s, e);
    if Strands(s, e) && !s.closed { StrandingLeavesOpen(s, e); }
  }

  lemma StrandedBy(s: State, e: Event)
    requires Inv(s) && Enabled(s, e)
    ensures Step(s, e).stranded == (s.stranded || Strands(s, e))
    ensures s.closed ==> Step(s, e).closed
  {
    if e.Deadline? { Of(s, e.c); }
    StepKeeps(s, e);
  }

  /** Neither of the two closes the connection, and neither comes twice. */
  lemma StrandingLeavesOpen(s: State, e: Event)
    requires WriterOk(s) && Enabled(s, e) && Strands(s, e) && !s.closed
    ensures !Step(s, e).closed && !s.stranded
  {
  }

  /** It does happen: the scope is cancelled, then the writer of the first packet. */
  lemma StrandHappens()
    ensures exists s :: Reachable(s) && Stuck(s)
  {
    var s1 := FirstSend();
    var s2 := Step(s1, ScopeCancelled);
    ReachableStep(s1, ScopeCancelled);
    assert WriterAt(s2, InWrite);
    var s3 := Step(s2, WriterCancelled);
    ReachableStep(s2, WriterCancelled);
    StrandsIff(s2, WriterCancelled);
  }

  /** Once stuck, nothing reaches the socket any more, whatever happens; only close ends it, by dropping what is left. */
  lemma StuckForGood(s: State, events: seq<Event>)
    requires Reachable(s) && Stuck(s)
    ensures var t := Run(s, events); t.socket == s.socket && t.writerActive && NobodyWrites(t) && (Stuck(t) || t.closed)
  {
    ReachableInv(s);
    StuckIff(s);
    StrandedForGood(s, events);
    RunInv(s, events);
    var t := Run(s, events);
    StuckIff(t);
    NobodyWritesIff(t);
  }

  lemma {:induction false} StrandedForGood(s: State, events: seq<Event>)
    requires Inv(s) && s.stranded
    ensures Run(s, events).stranded && Run(s, events).socket == s.socket
    decreases |events|
  {
    if events != [] {
      var before, e := events[..|events| - 1], events[|events| - 1];
      StrandedForGood(s, before);
      RunInv(s, before);
      var t := Run(s, before);
      if Enabled(t, e) {
        if e.Deadline? { Of(t, e.c); }
        StepKeeps(t, e);
      }
    }
  }
}
