/**
 The race of connection attempts in the QUIC client's `open` (section 5 of RFC 8305), as a step machine: the
 loop that starts attempts and receives their outcomes, the racers that wait for handshakes, and the clean-up.
 */
module HappyEyeballs {
  import opened Lists
  import opened Wrappers

  /** A handshake: not finished, failed, or a connection that is open or closed. */
  datatype Handshake = Unfinished | Failed | Connected(open: bool)

  /** A racer waits for its handshake; its outcome is then in the channel, received, or too late for it. */
  datatype Stage = Waiting | Posted | Received | Late

  datatype Attempt = Attempt(address: nat, endpointOpen: bool, handshake: Handshake, stage: Stage)

  /** What became of an address: it could not even start, or it is an attempt. */
  datatype Fate = CouldNotStart | Started(attempt: nat)

  datatype Phase = Racing | OpeningStream | Returned | ConnectFailed | Threw

  datatype State = State(
    addresses: nat,
    next: nat,
    running: int,
    attempts: seq<Attempt>,
    outcomes: seq<nat>,
    channelOpen: bool,
    racersCancelled: bool,
    winner: Option<nat>,
    phase: Phase,
    fates: seq<Fate>)

  function Init(addresses: nat): State {
    State(addresses, 0, 0, [], [], true, false, None, Racing, [])
  }

  datatype StartResult = NoEndpoint | ConnectRefused | StartedRacer

  datatype Event =
    | StartNext(result: StartResult)
    | ReceiveOutcome
    | GiveUp
    | CancelOpen
    | HandshakeEnds(k: nat, ok: bool)
    | RacerCancelled(k: nat)
    | StreamOpens
    | StreamFails

  /** A connection that lost is closed. */
  function CloseConnection(a: Attempt): Attempt {
    if a.handshake.Connected? then a.(handshake := Connected(false)) else a
  }

  /** What the `finally` block leaves of an attempt: a queued outcome that lost and every losing endpoint are closed. */
  function CleanUp(s: State, k: nat): Attempt
    requires k < |s.attempts|
  {
    var a := s.attempts[k];
    if s.winner == Some(k) then a
    else (if k in s.outcomes then CloseConnection(a) else a).(endpointOpen := false)
  }

  /** The `finally` block: cancel the racers, close and drain the channel, close the losers. */
  function Finally(s: State): State {
    s.(racersCancelled := true, channelOpen := false, outcomes := [],
       attempts := seq(|s.attempts|, k requires 0 <= k < |s.attempts| => CleanUp(s, k)))
  }

  predicate Enabled(s: State, e: Event) {
    match e
    case StartNext(_) => s.phase.Racing? && s.next < s.addresses
    case ReceiveOutcome => s.phase.Racing? && s.running > 0 && s.outcomes != []
    case GiveUp => s.phase.Racing? && s.running == 0 && s.next == s.addresses
    case CancelOpen => s.phase.Racing?
    case HandshakeEnds(k, _) => k < |s.attempts| && s.attempts[k].stage.Waiting?
    case RacerCancelled(k) => k < |s.attempts| && s.attempts[k].stage.Waiting? && s.racersCancelled
    case StreamOpens => s.phase.OpeningStream?
    case StreamFails => s.phase.OpeningStream?
  }

  /** `startNext`: an attempt that fails to start leaves no endpoint behind. */
  function Begin(s: State, result: StartResult): State {
    if result.StartedRacer? then
      s.(next := s.next + 1, running := s.running + 1,
         attempts := s.attempts + [Attempt(s.next, true, Unfinished, Waiting)],
         fates := s.fates + [Started(|s.attempts|)])
    else s.(next := s.next + 1, fates := s.fates + [CouldNotStart])
  }

  /** The loop receives the first outcome in the channel; a success ends the race. */
  function Receive(s: State): State
    requires s.outcomes != []
  {
    var k := s.outcomes[0];
    if k >= |s.attempts| then s
    else
      var s1 := s.(running := s.running - 1, outcomes := s.outcomes[1..],
                   attempts := s.attempts[k := s.attempts[k].(stage := Received)]);
      if s.attempts[k].handshake.Connected? then Finally(s1.(winner := Some(k))).(phase := OpeningStream) else s1
  }

  /** A racer's handshake ends: its outcome goes to the channel, or is closed if the channel no longer takes it. */
  function End(s: State, k: nat, ok: bool): State
    requires k < |s.attempts|
  {
    var a := s.attempts[k].(handshake := if ok then Connected(true) else Failed);
    if s.channelOpen then s.(attempts := s.attempts[k := a.(stage := Posted)], outcomes := s.outcomes + [k])
    else s.(attempts := s.attempts[k := CloseConnection(a).(stage := Late)])
  }

  function Step(s: State, e: Event): State
    requires Enabled(s, e)
  {
    match e
    case StartNext(result) => Begin(s, result)
    case ReceiveOutcome => Receive(s)
    case GiveUp => Finally(s).(phase := ConnectFailed)
    case CancelOpen => Finally(s).(phase := Threw)
    case HandshakeEnds(k, ok) => End(s, k, ok)
    case RacerCancelled(k) => s.(attempts := s.attempts[k := s.attempts[k].(handshake := Failed, stage := Late)])
    case StreamOpens => s.(phase := Returned)
    case StreamFails =>
      var t := s.(phase := Threw);
      if s.winner.Some? && s.winner.value < |s.attempts|
      then t.(attempts := s.attempts[s.winner.value := CloseConnection(s.attempts[s.winner.value]).(endpointOpen := false)])
      else t
  }

  function Run(s: State, events: seq<Event>): State
    decreases |events|
  {
    if events == [] then s
    else
      var t := Run(s, events[..|events| - 1]);
      var e := events[|events| - 1];
      if Enabled(t, e) then Step(t, e) else t
  }

  // ---- the invariant ----

  function Unreceived(attempts: seq<Attempt>): nat {
    if attempts == [] then 0
    else Unreceived(attempts[..|attempts| - 1]) + if attempts[|attempts| - 1].stage.Received? then 0 else 1
  }

  lemma {:induction false} UnreceivedOfUpdate(attempts: seq<Attempt>, k: nat, a: Attempt)
    requires k < |attempts|
    ensures Unreceived(attempts[k := a]) == Unreceived(attempts)
              + (if a.stage.Received? then 0 else 1) - (if attempts[k].stage.Received? then 0 else 1)
    decreases |attempts|
  {
    var n := |attempts| - 1;
    if k < n {
      assert attempts[k := a][..n] == attempts[..n][k := a];
      UnreceivedOfUpdate(attempts[..n], k, a);
    } else {
      assert attempts[k := a][..n] == attempts[..n];
    }
  }

  lemma UnreceivedOfAppend(attempts: seq<Attempt>, a: Attempt)
    ensures Unreceived(attempts + [a]) == Unreceived(attempts) + if a.stage.Received? then 0 else 1
  {
    assert (attempts + [a])[..|attempts|] == attempts;
  }

  lemma {:induction false} NoneUnreceived(attempts: seq<Attempt>, k: nat)
    requires Unreceived(attempts) == 0 && k < |attempts|
    ensures attempts[k].stage.Received?
    decreases |attempts|
  {
    if k < |attempts| - 1 { NoneUnreceived(attempts[..|attempts| - 1], k); }
  }

  /** While the race is on: nothing is closed or lost yet, and the channel holds exactly the posted outcomes. */
  ghost predicate RaceOk(s: State) {
    && s.channelOpen && !s.racersCancelled && s.winner.None?
    && s.running == Unreceived(s.attempts)
    && NoDup(s.outcomes)
    && (forall k | k in s.outcomes :: k < |s.attempts| && s.attempts[k].stage.Posted?)
    && forall k | 0 <= k < |s.attempts| ::
         && s.attempts[k].endpointOpen
         && (s.attempts[k].stage.Waiting? <==> s.attempts[k].handshake.Unfinished?)
         && (s.attempts[k].stage.Posted? ==> k in s.outcomes && s.attempts[k].handshake != Connected(false))
         && (s.attempts[k].stage.Received? ==> s.attempts[k].handshake.Failed?)
         && !s.attempts[k].stage.Late?
  }

  /** Who may still hold something open: the winner, until its stream fails. */
  ghost predicate Keeps(s: State, k: nat) {
    s.winner == Some(k) && (s.phase.OpeningStream? || s.phase.Returned?)
  }

  /** After the race: all that is open belongs to the winner. */
  ghost predicate CleanOk(s: State) {
    && !s.channelOpen && s.racersCancelled && s.outcomes == []
    && (s.phase.OpeningStream? || s.phase.Returned? ==> s.winner.Some? && s.winner.value < |s.attempts|)
    && (s.phase.ConnectFailed? ==> s.winner.None?)
    && forall k | 0 <= k < |s.attempts| ::
         && (s.attempts[k].stage.Waiting? ==> s.attempts[k].handshake.Unfinished?)
         && (Keeps(s, k) ==> s.attempts[k].endpointOpen && s.attempts[k].handshake == Connected(true))
         && (!Keeps(s, k) ==> !s.attempts[k].endpointOpen && s.attempts[k].handshake != Connected(true))
         && (s.attempts[k].stage.Received? && s.winner != Some(k) ==> s.attempts[k].handshake.Failed?)
  }

  /** Every address taken so far has its fate, in order. */
  ghost predicate FatesOk(s: State) {
    && |s.fates| == s.next <= s.addresses
    && (forall i | 0 <= i < |s.fates| && s.fates[i].Started? ::
          s.fates[i].attempt < |s.attempts| && s.attempts[s.fates[i].attempt].address == i)
  }

  /** A connect failure is reported only when every address was tried and has failed. */
  ghost predicate FailureOk(s: State) {
    s.phase.ConnectFailed? ==>
      && s.next == s.addresses
      && forall k | 0 <= k < |s.attempts| :: s.attempts[k].stage.Received? && s.attempts[k].handshake.Failed?
  }

  ghost predicate Inv(s: State) {
    && FatesOk(s) && FailureOk(s)
    && (if s.phase.Racing? then RaceOk(s) else CleanOk(s))
  }

  lemma BeginInv(s: State, result: StartResult)
    requires Inv(s) && Enabled(s, StartNext(result))
    ensures Inv(Begin(s, result))
  {
    if result.StartedRacer? {
      UnreceivedOfAppend(s.attempts, Attempt(s.next, true, Unfinished, Waiting));
    }
  }

  lemma ReceiveInv(s: State)
    requires Inv(s) && Enabled(s, ReceiveOutcome)
    ensures Inv(Receive(s))
  {
    var k := s.outcomes[0];
    assert k in s.outcomes;
    UnreceivedOfUpdate(s.attempts, k, s.attempts[k].(stage := Received));
    RestOf(s.outcomes);
    if s.attempts[k].handshake.Connected? {
      return;
    }
    assert forall j | j in Receive(s).outcomes :: j in s.outcomes;
  }

  lemma EndInv(s: State, k: nat, ok: bool)
    requires Inv(s) && Enabled(s, HandshakeEnds(k, ok))
    ensures Inv(End(s, k, ok))
  {
    UnreceivedOfUpdate(s.attempts, k, End(s, k, ok).attempts[k]);
  }

  lemma GiveUpInv(s: State)
    requires Inv(s) && Enabled(s, GiveUp)
    ensures Inv(Step(s, GiveUp))
  {
    forall k | 0 <= k < |s.attempts| ensures s.attempts[k].stage.Received? { NoneUnreceived(s.attempts, k); }
  }

  lemma StepInv(s: State, e: Event)
    requires Inv(s) && Enabled(s, e)
    ensures Inv(Step(s, e))
  {
    match e
    case StartNext(result) => BeginInv(s, result);
    case ReceiveOutcome => ReceiveInv(s);
    case GiveUp => GiveUpInv(s);
    case CancelOpen =>
    case HandshakeEnds(k, ok) => EndInv(s, k, ok);
    case RacerCancelled(k) =>
    case StreamOpens =>
    case StreamFails =>
  }

  lemma {:induction false} RunInv(s: State, events: seq<Event>)
    requires Inv(s)
    ensures Inv(Run(s, events))
    decreases |events|
  {
    if events != [] {
      RunInv(s, events[..|events| - 1]);
      var t, e := Run(s, events[..|events| - 1]), events[|events| - 1];
      if Enabled(t, e) { StepInv(t, e); }
    }
  }

  // ---- what holds in every run ----

  ghost predicate Reachable(s: State) {
    exists addresses: nat, events :: s == Run(Init(addresses), events)
  }

  lemma ReachableInv(s: State)
    requires Reachable(s)
    ensures Inv(s)
  {
    var addresses: nat, events :| s == Run(Init(addresses), events);
    RunInv(Init(addresses), events);
  }

  /**
   Once the race is over, on every exit and however late a handshake ends: nothing is open but the winner's
   endpoint and connection, and those are exactly while the winner is used.
   */
  lemma OnlyTheWinnerStaysOpen(s: State, late: seq<Event>, k: nat)
    requires Reachable(s) && !s.phase.Racing?
    requires k < |Run(s, late).attempts|
    ensures var t := Run(s, late);
            && (t.attempts[k].endpointOpen <==> Keeps(t, k))
            && (t.attempts[k].handshake == Connected(true) <==> Keeps(t, k))
            && !t.phase.Racing?
  {
    ReachableInv(s);
    RunInv(s, late);
    StaysOver(s, late);
  }

  lemma {:induction false} StaysOver(s: State, events: seq<Event>)
    requires !s.phase.Racing?
    ensures !Run(s, events).phase.Racing? && Run(s, events).winner == s.winner
    decreases |events|
  {
    if events != [] { StaysOver(s, events[..|events| - 1]); }
  }

  // ---- what the outcome says of the handshakes ----

  datatype Ending = Ending(k: nat, ok: bool)

  ghost function Logged(s: State, e: Event, log: seq<Ending>): seq<Ending> {
    if e.HandshakeEnds? && Enabled(s, e) then log + [Ending(e.k, e.ok)] else log
  }

  ghost function StartedWith(s: State, e: Event, starts: seq<StartResult>): seq<StartResult> {
    if e.StartNext? && Enabled(s, e) then starts + [e.result] else starts
  }

  /** The handshakes that ended in a run from the start, in order, and how. */
  ghost function Endings(addresses: nat, events: seq<Event>): seq<Ending>
    decreases |events|
  {
    if events == [] then []
    else
      var before := events[..|events| - 1];
      Logged(Run(Init(addresses), before), events[|events| - 1], Endings(addresses, before))
  }

  /** How the addresses started in a run from the start, in order. */
  ghost function Starts(addresses: nat, events: seq<Event>): seq<StartResult>
    decreases |events|
  {
    if events == [] then []
    else
      var before := events[..|events| - 1];
      StartedWith(Run(Init(addresses), before), events[|events| - 1], Starts(addresses, before))
  }

  /** The `i`th event of a run ends the handshake of `x.k`, and is enabled at its turn. */
  ghost predicate EndsAt(addresses: nat, events: seq<Event>, i: nat, x: Ending) {
    i < |events| && events[i] == HandshakeEnds(x.k, x.ok) && Enabled(Run(Init(addresses), events[..i]), events[i])
  }

  lemma EndsAtEarlier(addresses: nat, events: seq<Event>, i: nat, x: Ending)
    requires i < |events| - 1
    ensures EndsAt(addresses, events[..|events| - 1], i, x) == EndsAt(addresses, events, i, x)
  {
    assert events[..|events| - 1][..i] == events[..i];
  }

  /** A handshake is in the record exactly when some event of the run ends it so. */
  lemma {:induction false} EndingsAreEvents(addresses: nat, events: seq<Event>, x: Ending)
    ensures x in Endings(addresses, events) <==> exists i :: EndsAt(addresses, events, i, x)
    decreases |events|
  {
    if events != [] {
      var n := |events| - 1;
      var before := events[..n];
      EndingsAreEvents(addresses, before, x);
      forall i: nat | i < n ensures EndsAt(addresses, before, i, x) == EndsAt(addresses, events, i, x) {
        EndsAtEarlier(addresses, events, i, x);
      }
      if x in Endings(addresses, before) {
        var i :| EndsAt(addresses, before, i, x);
        assert EndsAt(addresses, events, i, x);
      } else {
        assert x in Endings(addresses, events) <==> EndsAt(addresses, events, n, x);
      }
    }
  }

  /** An attempt has what its handshake ended with, however late that was. */
  ghost predicate EndedAs(s: State, x: Ending) {
    && x.k < |s.attempts| && !s.attempts[x.k].stage.Waiting?
    && (if x.ok then s.attempts[x.k].handshake.Connected? else s.attempts[x.k].handshake.Failed?)
  }

  /** The `i`th of the outcomes in the channel is the `i`th of those that ended last. */
  ghost predicate InOrder(outcomes: seq<nat>, log: seq<Ending>) {
    && |outcomes| <= |log|
    && forall i | 0 <= i < |outcomes| :: outcomes[i] == log[|log| - |outcomes| + i].k
  }

  ghost predicate AllFailed(log: seq<Ending>) {
    forall i | 0 <= i < |log| :: !log[i].ok
  }

  /** The first success in `log` is that of `k`. */
  ghost predicate FirstSuccess(log: seq<Ending>, k: nat) {
    exists i :: 0 <= i < |log| && log[i] == Ending(k, true) && AllFailed(log[..i])
  }

  /** Attempt `k` was received with a failure. */
  ghost predicate FailedIn(log: seq<Ending>, k: nat) {
    Ending(k, false) in log
  }

  ghost predicate LogOk(s: State, log: seq<Ending>) {
    && (forall x | x in log :: EndedAs(s, x))
    && (s.phase.Racing? ==> InOrder(s.outcomes, log) && AllFailed(log[..|log| - |s.outcomes|]))
    && (forall k | 0 <= k < |s.attempts| :: s.attempts[k].stage.Received? && s.winner != Some(k) ==> FailedIn(log, k))
    && (s.phase.Racing? ==> forall k | k in s.outcomes :: k < |s.attempts| && Ending(k, s.attempts[k].handshake.Connected?) in log)
    && (s.winner.Some? ==> FirstSuccess(log, s.winner.value))
    && (s.phase.ConnectFailed? ==> AllFailed(log))
  }

  lemma FirstSuccessKept(log: seq<Ending>, more: seq<Ending>, k: nat)
    requires FirstSuccess(log, k)
    ensures FirstSuccess(log + more, k)
  {
    var i :| 0 <= i < |log| && log[i] == Ending(k, true) && AllFailed(log[..i]);
    assert (log + more)[i] == Ending(k, true) && (log + more)[..i] == log[..i];
  }

  lemma EndLog(s: State, k: nat, ok: bool, log: seq<Ending>)
    requires Inv(s) && LogOk(s, log) && Enabled(s, HandshakeEnds(k, ok))
    ensures LogOk(Step(s, HandshakeEnds(k, ok)), log + [Ending(k, ok)])
  {
    var t, after := Step(s, HandshakeEnds(k, ok)), log + [Ending(k, ok)];
    if s.phase.Racing? {
      assert after[..|after| - |t.outcomes|] == log[..|log| - |s.outcomes|];
    }
    if s.winner.Some? { FirstSuccessKept(log, [Ending(k, ok)], s.winner.value); }
    assert forall x | x in after :: x in log || x == Ending(k, ok);
    assert Ending(k, ok) in after;
  }

  lemma ReceiveLog(s: State, log: seq<Ending>)
    requires Inv(s) && LogOk(s, log) && Enabled(s, ReceiveOutcome)
    ensures LogOk(Receive(s), log)
  {
    var m, k := |log| - |s.outcomes|, s.outcomes[0];
    assert k in s.outcomes && log[m] in log && log[m].k == k;
    if s.attempts[k].handshake.Connected? {
      assert log[m] == Ending(k, true);
      assert FirstSuccess(log, k);
      return;
    }
    assert log[..m + 1] == log[..m] + [log[m]];
    assert forall j | j in Receive(s).outcomes :: j in s.outcomes;
  }

  lemma GiveUpLog(s: State, log: seq<Ending>)
    requires Inv(s) && LogOk(s, log) && Enabled(s, GiveUp)
    ensures LogOk(Step(s, GiveUp), log)
  {
    if s.outcomes != [] {
      assert s.outcomes[0] in s.outcomes;
      NoneUnreceived(s.attempts, s.outcomes[0]);
    }
    assert log[..|log|] == log;
  }

  lemma StepLog(s: State, e: Event, log: seq<Ending>)
    requires Inv(s) && LogOk(s, log) && Enabled(s, e)
    ensures LogOk(Step(s, e), Logged(s, e, log))
  {
    match e
    case StartNext(result) =>
    case ReceiveOutcome => ReceiveLog(s, log);
    case GiveUp => GiveUpLog(s, log);
    case CancelOpen =>
    case HandshakeEnds(k, ok) => EndLog(s, k, ok, log);
    case RacerCancelled(k) =>
    case StreamOpens =>
    case StreamFails =>
  }

  /** Every address started as the run says; an attempt is that of its address. */
  ghost predicate StartsOk(s: State, starts: seq<StartResult>) {
    && |s.fates| == |starts|
    && (forall i | 0 <= i < |starts| :: s.fates[i].Started? <==> starts[i].StartedRacer?)
    && (forall k | 0 <= k < |s.attempts| :: s.attempts[k].address < |s.fates| && s.fates[s.attempts[k].address] == Started(k))
  }

  lemma AddressesKept(s: State, e: Event)
    requires Enabled(s, e) && !e.StartNext?
    ensures var t := Step(s, e);
            && t.fates == s.fates && t.addresses == s.addresses && |t.attempts| == |s.attempts|
            && forall k | 0 <= k < |s.attempts| :: t.attempts[k].address == s.attempts[k].address
  {
  }

  lemma StepStarts(s: State, e: Event, starts: seq<StartResult>)
    requires FatesOk(s) && StartsOk(s, starts) && Enabled(s, e)
    ensures StartsOk(Step(s, e), StartedWith(s, e, starts)) && Step(s, e).addresses == s.addresses
  {
    if !e.StartNext? { AddressesKept(s, e); }
  }

  ghost predicate Recorded(s: State, addresses: nat, starts: seq<StartResult>, log: seq<Ending>) {
    Inv(s) && s.addresses == addresses && StartsOk(s, starts) && LogOk(s, log)
  }

  lemma StepRecorded(s: State, e: Event, addresses: nat, starts: seq<StartResult>, log: seq<Ending>)
    requires Recorded(s, addresses, starts, log) && Enabled(s, e)
    ensures Recorded(Step(s, e), addresses, StartedWith(s, e, starts), Logged(s, e, log))
  {
    StepInv(s, e);
    StepLog(s, e, log);
    StepStarts(s, e, starts);
  }

  lemma {:induction false} RunRecorded(addresses: nat, events: seq<Event>)
    ensures Recorded(Run(Init(addresses), events), addresses, Starts(addresses, events), Endings(addresses, events))
    decreases |events|
  {
    if events != [] {
      var before, e := events[..|events| - 1], events[|events| - 1];
      RunRecorded(addresses, before);
      var s := Run(Init(addresses), before);
      if Enabled(s, e) {
        StepRecorded(s, e, addresses, Starts(addresses, before), Endings(addresses, before));
      }
    }
  }

  ghost predicate EveryAddressFailed(s: State, starts: seq<StartResult>, log: seq<Ending>) {
    && |s.fates| == |starts| == s.addresses
    && (forall i | 0 <= i < |s.fates| ::
          if starts[i].StartedRacer? then
            s.fates[i].Started? && s.fates[i].attempt < |s.attempts| && s.attempts[s.fates[i].attempt].address == i
          else s.fates[i] == CouldNotStart)
    && (forall k | 0 <= k < |s.attempts| :: Ending(k, false) in log)
    && (forall x | x in log :: !x.ok)
  }

  lemma FailureRecorded(s: State, addresses: nat, starts: seq<StartResult>, log: seq<Ending>)
    requires Recorded(s, addresses, starts, log) && s.phase.ConnectFailed?
    ensures EveryAddressFailed(s, starts, log)
  {
    forall k | 0 <= k < |s.attempts| ensures Ending(k, false) in log { assert FailedIn(log, k); }
  }

  /**
   `open` reports a connect failure only after every address was tried, in order: each either could not start or has
   an attempt of its own whose handshake ended in failure, and no handshake ended in success.
   */
  lemma FailsOnlyWhenAllFailed(addresses: nat, events: seq<Event>)
    requires Run(Init(addresses), events).phase.ConnectFailed?
    ensures EveryAddressFailed(Run(Init(addresses), events), Starts(addresses, events), Endings(addresses, events))
    ensures Run(Init(addresses), events).addresses == addresses
  {
    RunRecorded(addresses, events);
    FailureRecorded(Run(Init(addresses), events), addresses, Starts(addresses, events), Endings(addresses, events));
  }

  /** `k` won by the first handshake in `log` that succeeded, and whatever else was received had failed. */
  ghost predicate WonBy(s: State, k: nat, log: seq<Ending>) {
    && (exists i :: 0 <= i < |log| && log[i] == Ending(k, true) && forall j | 0 <= j < i :: !log[j].ok)
    && (forall j | 0 <= j < |s.attempts| && j != k && s.attempts[j].stage.Received? ::
          Ending(j, false) in log && Ending(j, true) !in log)
  }

  lemma WinnerRecorded(s: State, addresses: nat, starts: seq<StartResult>, log: seq<Ending>)
    requires Recorded(s, addresses, starts, log) && s.winner.Some?
    ensures WonBy(s, s.winner.value, log)
  {
    var k := s.winner.value;
    var i :| 0 <= i < |log| && log[i] == Ending(k, true) && AllFailed(log[..i]);
    forall j | 0 <= j < i ensures !log[j].ok { assert log[..i][j] == log[j]; }
    forall j | 0 <= j < |s.attempts| && j != k && s.attempts[j].stage.Received?
      ensures Ending(j, false) in log && Ending(j, true) !in log
    {
      assert FailedIn(log, j);
      assert EndedAs(s, Ending(j, false));
    }
  }

  /**
   The winner's handshake is the first of all that succeeded: every handshake that ended before it failed. What was
   received besides the winner had failed too.
   */
  lemma WinnerIsFirstSuccess(addresses: nat, events: seq<Event>)
    requires var s := Run(Init(addresses), events); s.phase.OpeningStream? || s.phase.Returned?
    ensures var s := Run(Init(addresses), events);
            s.winner.Some? && WonBy(s, s.winner.value, Endings(addresses, events))
  {
    RunRecorded(addresses, events);
    WinnerRecorded(Run(Init(addresses), events), addresses, Starts(addresses, events), Endings(addresses, events));
  }

  lemma SuccessRecorded(s: State, addresses: nat, starts: seq<StartResult>, log: seq<Ending>)
    requires Recorded(s, addresses, starts, log) && Enabled(s, ReceiveOutcome)
    ensures var k, t := s.outcomes[0], Step(s, ReceiveOutcome);
            if Ending(k, true) in log then t.phase.OpeningStream? && t.winner == Some(k)
            else t.phase.Racing? && Ending(k, false) in log
  {
    var k := s.outcomes[0];
    assert k in s.outcomes;
    assert Ending(k, true) in log ==> EndedAs(s, Ending(k, true));
  }

  /** While the loop runs, a received success ends the race and a received failure does not. */
  lemma FirstSuccessWins(addresses: nat, events: seq<Event>)
    requires Enabled(Run(Init(addresses), events), ReceiveOutcome)
    ensures var s, log := Run(Init(addresses), events), Endings(addresses, events);
            var k, t := s.outcomes[0], Step(s, ReceiveOutcome);
            if Ending(k, true) in log then t.phase.OpeningStream? && t.winner == Some(k)
            else t.phase.Racing? && Ending(k, false) in log
  {
    RunRecorded(addresses, events);
    SuccessRecorded(Run(Init(addresses), events), addresses, Starts(addresses, events), Endings(addresses, events));
  }

  /** `open` returns exactly when the winner's stream opens; a stream that fails leaves nothing open. */
  lemma StreamDecides(s: State)
    requires Reachable(s) && s.phase.OpeningStream?
    ensures var t := Step(s, StreamOpens);
            t.phase.Returned? && s.winner.Some? && t.winner == s.winner && t.attempts == s.attempts && Keeps(t, s.winner.value)
    ensures var t := Step(s, StreamFails);
            t.phase.Threw? && forall k | 0 <= k < |t.attempts| :: !t.attempts[k].endpointOpen && t.attempts[k].handshake != Connected(true)
  {
    ReachableInv(s);
  }

  // ---- the clean-up in place ----

  /** The `finally` block over its mutable lists: `tryReceive` until the channel is empty, then every attempt. */
  class Race {
    var attempts: seq<Attempt>
    var outcomes: seq<nat>
    var channelOpen: bool
    var racersCancelled: bool
    var winner: Option<nat>

    ghost predicate Matches(s: State)
      reads this
    {
      attempts == s.attempts && outcomes == s.outcomes && channelOpen == s.channelOpen
      && racersCancelled == s.racersCancelled && winner == s.winner
    }

    constructor (s: State)
      ensures Matches(s)
    {
      attempts, outcomes, channelOpen, racersCancelled, winner :=
        s.attempts, s.outcomes, s.channelOpen, s.racersCancelled, s.winner;
    }

    method CloseLosers(ghost s: State)
      requires Matches(s)
      modifies this
      ensures Matches(Finally(s))
    {
      racersCancelled := true;
      channelOpen := false;
      DrainOutcomes();
      CloseEndpoints();
      assert attempts == Finally(s).attempts;
    }

    /** Handshakes that completed but lost. */
    method DrainOutcomes()
      modifies this`attempts, this`outcomes
      ensures outcomes == [] && |attempts| == |old(attempts)|
      ensures forall k | 0 <= k < |attempts| :: attempts[k] ==
                (if k in old(outcomes) && winner != Some(k) then CloseConnection(old(attempts)[k]) else old(attempts)[k])
    {
      ghost var was, all, n := attempts, outcomes, 0;
      while outcomes != []
        invariant 0 <= n <= |all| && outcomes == all[n..] && |attempts| == |was|
        invariant forall k | 0 <= k < |was| :: attempts[k] ==
                    (if k in all[..n] && winner != Some(k) then CloseConnection(was[k]) else was[k])
        decreases |outcomes|
      {
        var k := outcomes[0];
        assert all[..n + 1] == all[..n] + [k];
        outcomes := outcomes[1..];
        if k < |attempts| && winner != Some(k) {
          attempts := attempts[k := CloseConnection(attempts[k])];
        }
        n := n + 1;
      }
      assert all[..n] == all;
    }

    method CloseEndpoints()
      modifies this`attempts
      ensures |attempts| == |old(attempts)|
      ensures forall k | 0 <= k < |attempts| :: attempts[k] ==
                (if winner == Some(k) then old(attempts)[k] else old(attempts)[k].(endpointOpen := false))
    {
      ghost var was := attempts;
      for i := 0 to |attempts|
        invariant |attempts| == |was|
        invariant forall k | 0 <= k < |was| :: attempts[k] ==
                    (if k < i && winner != Some(k) then was[k].(endpointOpen := false) else was[k])
      {
        if winner != Some(i) {
          attempts := attempts[i := attempts[i].(endpointOpen := false)];
        }
      }
    }
  }
}
