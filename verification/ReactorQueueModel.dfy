/**
 The bounded single-producer, single-consumer queue between the read loop and the handler loop.

 A step is what runs between two suspension points of the producer's `send`, of the consumer's `receive`,
 or of `close` and the cancellation handler. A resume only schedules the coroutine, so a woken one runs in
 a step of its own.
 */
module ReactorQueueModel {
  import opened Wrappers

  type Job = nat

  datatype SendError = QueueClosed | SenderCancelled

  /** How the last `send` ended. */
  datatype SendEnd = NoSend | SendReturned | SendThrew(error: SendError)

  /** How the last `receive` ended: with an item, with null, or with the cancellation of its job. */
  datatype ReceiveEnd<+T> = NoReceive | Received(item: Option<T>) | ReceiveThrew

  /** The consumer's coroutine. `Woken` holds what `receive` will return; a `Stranded` one is never resumed. */
  datatype Consumer<+T> =
    | TakeIdle(last: ReceiveEnd<T>)
    | TakeParked(job: Job)
    | TakeWoken(job: Job, item: Option<T>)
    | TakeCancelled(job: Job)
    | TakeStranded

  /** The producer's coroutine. `Failed` holds the exception it was resumed with. */
  datatype Producer<+T> =
    | PutIdle(last: SendEnd)
    | PutParked(job: Job, item: T)
    | PutWoken(job: Job, item: T)
    | PutFailed(job: Job, item: T, error: SendError)
    | PutStranded(job: Job, item: T)

  datatype State<T> = State(
    capacity: nat,
    items: seq<T>,
    takeWaiter: Option<Job>,
    putWaiter: Option<Job>,
    closed: bool,
    watchedA: Option<Job>,
    watchedB: Option<Job>,
    // The two coroutines, the jobs cancelled so far and the cancellation notices on their way to the owner.
    consumer: Consumer<T>,
    producer: Producer<T>,
    cancelled: set<Job>,
    notices: set<Job>,
    // What was accepted by `send`, returned by `receive`, and dropped by a refused resume.
    accepted: seq<T>,
    delivered: seq<T>,
    dropped: seq<T>)

  function Init<T>(capacity: nat): State<T> {
    State(capacity, [], None, None, false, None, None, TakeIdle(NoReceive), PutIdle(NoSend), {}, {}, [], [], [])
  }

  /** The slots after `watch` registers a job that is in neither: a third job evicts the older watch. */
  function Watch<T>(s: State<T>, job: Job): State<T> {
    if s.watchedA == Some(job) || s.watchedB == Some(job) then s
    else if s.watchedA.None? then s.(watchedA := Some(job))
    else if s.watchedB.None? then s.(watchedB := Some(job))
    else s.(watchedA := s.watchedB, watchedB := Some(job))
  }

  /** `resumeTake`; a refusal drops the item and closes the queue. */
  function ResumeTake<T>(s: State<T>, item: Option<T>, refused: bool): State<T>
    requires s.takeWaiter.Some?
  {
    if !refused then s.(takeWaiter := None, consumer := TakeWoken(s.takeWaiter.value, item))
    else s.(takeWaiter := None, consumer := TakeStranded, closed := true,
            dropped := s.dropped + (if item.Some? then [item.value] else []))
  }

  /** Whether `offer` takes the item now; on a closed queue it throws instead. */
  predicate Accepts<T>(s: State<T>) {
    !s.closed && (s.takeWaiter.Some? || |s.items| < s.capacity)
  }

  /** `offer` when it takes the item: hand it to a parked receiver or append it. */
  function Offer<T>(s: State<T>, item: T, refused: bool): State<T> {
    var s1 := s.(accepted := s.accepted + [item], producer := PutIdle(SendReturned));
    if s.takeWaiter.Some? then ResumeTake(s1, Some(item), refused) else s1.(items := s.items + [item])
  }

  /** A turn of `send` or of `sendSlow`'s loop; a closed queue or a cancelled job ends it with an exception. */
  function Put<T>(s: State<T>, job: Job, item: T, refused: bool): State<T> {
    if s.closed then s.(producer := PutIdle(SendThrew(QueueClosed)))
    else if Accepts(s) then Offer(s, item, refused)
    else if job in s.cancelled then s.(producer := PutIdle(SendThrew(SenderCancelled)))
    else Watch(s, job).(putWaiter := Some(job), producer := PutParked(job, item))
  }

  /** `resumePut` */
  function ResumePut<T>(s: State<T>, refused: bool): State<T> {
    if s.putWaiter.None? || !s.producer.PutParked? then s
    else if !refused then s.(putWaiter := None, producer := PutWoken(s.producer.job, s.producer.item))
    else s.(putWaiter := None, producer := PutStranded(s.producer.job, s.producer.item), closed := true)
  }

  /** `receive`, up to its suspension or its end. */
  function Receive<T>(s: State<T>, job: Job, refused: bool): State<T> {
    if s.items != [] then
      var x := s.items[0];
      ResumePut(s.(items := s.items[1..], delivered := s.delivered + [x], consumer := TakeIdle(Received(Some(x)))), refused)
    else if s.closed then s.(consumer := TakeIdle(Received(None)))
    else if job in s.cancelled then s.(consumer := TakeIdle(ReceiveThrew))
    else Watch(s, job).(takeWaiter := Some(job), consumer := TakeParked(job))
  }

  /** `close` */
  function CloseQueue<T>(s: State<T>, refused: bool): State<T> {
    if s.closed then s
    else
      var s1 := s.(closed := true);
      var s2 := if s.items == [] && s.takeWaiter.Some? then ResumeTake(s1, None, refused) else s1;
      var s3 := if s2.putWaiter.Some? && s2.producer.PutParked?
                then s2.(putWaiter := None, producer := PutFailed(s2.producer.job, s2.producer.item, QueueClosed)) else s2;
      s3.(watchedA := None, watchedB := None)
  }

  /** `onCancelled`, when a job's notice reaches the owner. */
  function OnCancelled<T>(s: State<T>, job: Job): State<T> {
    var s1 := if s.takeWaiter == Some(job) then s.(takeWaiter := None, consumer := TakeCancelled(job)) else s;
    if s1.putWaiter == Some(job) && s1.producer.PutParked?
    then s1.(putWaiter := None, producer := PutFailed(job, s1.producer.item, SenderCancelled)) else s1
  }

  datatype Event<T> =
    | StartSend(job: Job, item: T, refused: bool)
    | RunProducer(refused: bool)
    | StartReceive(job: Job, refused: bool)
    | RunConsumer
    | Close(refused: bool)
    | CancelJob(job: Job)
    | Notice(job: Job)

  predicate Enabled<T>(s: State<T>, e: Event<T>) {
    match e
    case StartSend(_, _, _) => s.producer.PutIdle?
    case RunProducer(_) => s.producer.PutWoken? || s.producer.PutFailed?
    case StartReceive(_, _) => s.consumer.TakeIdle?
    case RunConsumer => s.consumer.TakeWoken? || s.consumer.TakeCancelled?
    case Close(_) => true
    case CancelJob(_) => true
    case Notice(job) => job in s.notices
  }

  function Step<T>(s: State<T>, e: Event<T>): State<T>
    requires Enabled(s, e)
  {
    match e
    case StartSend(job, item, refused) => Put(s, job, item, refused)
    case RunProducer(refused) =>
      if s.producer.PutWoken? then Put(s, s.producer.job, s.producer.item, refused) else s.(producer := PutIdle(SendThrew(s.producer.error)))
    case StartReceive(job, refused) => Receive(s, job, refused)
    case RunConsumer =>
      s.(consumer := TakeIdle(if s.consumer.TakeWoken? then Received(s.consumer.item) else ReceiveThrew),
         delivered := s.delivered + if s.consumer.TakeWoken? && s.consumer.item.Some? then [s.consumer.item.value] else [])
    case Close(refused) => CloseQueue(s, refused)
    case CancelJob(job) =>
      var fired := s.watchedA == Some(job) || s.watchedB == Some(job);
      s.(cancelled := s.cancelled + {job}, notices := if fired then s.notices + {job} else s.notices)
    case Notice(job) => OnCancelled(s.(notices := s.notices - {job}), job)
  }

  function Run<T>(s: State<T>, events: seq<Event<T>>): State<T>
    decreases |events|
  {
    if events == [] then s
    else
      var t := Run(s, events[..|events| - 1]);
      var e := events[|events| - 1];
      if Enabled(t, e) then Step(t, e) else t
  }

  // ---- the invariant ----

  /** An item handed to a receiver that has not run yet. */
  function HandedOver<T>(s: State<T>): seq<T> {
    if s.consumer.TakeWoken? && s.consumer.item.Some? then [s.consumer.item.value] else []
  }

  ghost predicate Watched<T>(s: State<T>, job: Job) {
    s.watchedA == Some(job) || s.watchedB == Some(job)
  }

  /** The waiter slots and the coroutines agree, and a waiter waits for a reason. */
  ghost predicate WaitersOk<T>(s: State<T>) {
    && (s.takeWaiter.Some? <==> s.consumer.TakeParked?)
    && (s.takeWaiter.Some? ==> s.takeWaiter.value == s.consumer.job && s.items == [] && !s.closed)
    && (s.putWaiter.Some? <==> s.producer.PutParked?)
    && (s.putWaiter.Some? ==> s.putWaiter.value == s.producer.job && |s.items| == s.capacity && !s.closed)
  }

  /** Whoever is parked is watched, and once its job is cancelled a notice for it is on its way. */
  ghost predicate WatchOk<T>(s: State<T>) {
    && (s.takeWaiter.Some? ==> Watched(s, s.takeWaiter.value))
    && (s.putWaiter.Some? ==> Watched(s, s.putWaiter.value))
    && (s.takeWaiter.Some? && s.takeWaiter.value in s.cancelled ==> s.takeWaiter.value in s.notices)
    && (s.putWaiter.Some? && s.putWaiter.value in s.cancelled ==> s.putWaiter.value in s.notices)
  }

  /** Accepted items come out in order, each once; only a refused resume drops one, and nothing follows it. */
  ghost predicate FifoOk<T>(s: State<T>) {
    && s.accepted == s.delivered + HandedOver(s) + s.items + s.dropped
    && |s.items| <= s.capacity
    && (s.dropped != [] ==> |s.dropped| == 1 && s.closed && s.items == [] && s.consumer.TakeStranded?)
    && (s.consumer.TakeStranded? ==> s.closed && s.items == [])
  }

  /** An exception or a null that is on its way has its reason. */
  ghost predicate ReasonsOk<T>(s: State<T>) {
    && s.notices <= s.cancelled
    && (s.producer.PutFailed? ==> if s.producer.error.QueueClosed? then s.closed else s.producer.job in s.cancelled)
    && (s.producer.PutStranded? ==> s.closed)
    && (s.consumer.TakeWoken? && s.consumer.item.None? ==> s.closed && s.items == [])
    && (s.consumer.TakeCancelled? ==> s.consumer.job in s.cancelled)
  }

  ghost predicate Inv<T>(s: State<T>) {
    s.capacity >= 1 && WaitersOk(s) && WatchOk(s) && FifoOk(s) && ReasonsOk(s)
  }

  lemma PutInv<T>(s: State<T>, job: Job, item: T, refused: bool)
    requires Inv(s) && !s.producer.PutParked?
    ensures Inv(Put(s, job, item, refused))
  {
    if Accepts(s) { OfferInv(s, item, refused); }
  }

  lemma OfferInv<T>(s: State<T>, item: T, refused: bool)
    requires Inv(s) && !s.producer.PutParked? && Accepts(s)
    ensures Inv(Offer(s, item, refused))
  {
    var t := Offer(s, item, refused);
    assert s.delivered + HandedOver(s) + s.items + s.dropped + [item] == t.delivered + HandedOver(t) + t.items + t.dropped;
  }

  lemma ReceiveInv<T>(s: State<T>, job: Job, refused: bool)
    requires Inv(s) && s.consumer.TakeIdle?
    ensures Inv(Receive(s, job, refused))
  {
    if s.items != [] {
      assert s.items == [s.items[0]] + s.items[1..];
      var t := Receive(s, job, refused);
      assert s.delivered + HandedOver(s) + s.items + s.dropped == t.delivered + HandedOver(t) + t.items + t.dropped;
    }
  }

  lemma StepInv<T>(s: State<T>, e: Event<T>)
    requires Inv(s) && Enabled(s, e)
    ensures Inv(Step(s, e))
  {
    match e
    case StartSend(job, item, refused) => PutInv(s, job, item, refused);
    case RunProducer(refused) =>
      if s.producer.PutWoken? { PutInv(s, s.producer.job, s.producer.item, refused); }
    case StartReceive(job, refused) => ReceiveInv(s, job, refused);
    case RunConsumer =>
      var t := Step(s, e);
      assert s.delivered + HandedOver(s) + s.items + s.dropped == t.delivered + HandedOver(t) + t.items + t.dropped;
    case Close(refused) =>
    case CancelJob(job) =>
    case Notice(job) =>
  }

  lemma {:induction false} RunInv<T>(s: State<T>, events: seq<Event<T>>)
    requires Inv(s)
    ensures Inv(Run(s, events))
    decreases |events|
  {
    if events != [] {
      RunInv(s, events[..|events| - 1]);
      var t, e := Run(s, events[..|events| - 1]), events[|events| - 1];
      if Enabled(t, e) { StepInv(t, e); }
    }
  }

  // ---- what holds in every run ----

  ghost predicate Reachable<T(!new)>(s: State<T>) {
    exists capacity: nat, events: seq<Event<T>> :: capacity >= 1 && s == Run(Init(capacity), events)
  }

  lemma ReachableInv<T(!new)>(s: State<T>)
    requires Reachable(s)
    ensures Inv(s)
  {
    var capacity: nat, events: seq<Event<T>> :| capacity >= 1 && s == Run(Init(capacity), events);
    RunInv(Init(capacity), events);
  }

  /** A lossless, bounded FIFO: what was received, is handed over or is queued is what was accepted, in order. */
  lemma LosslessFifo<T(!new)>(s: State<T>)
    requires Reachable(s)
    ensures s.delivered <= s.accepted && |s.items| <= s.capacity
    ensures s.accepted == s.delivered + HandedOver(s) + s.items + s.dropped
    ensures |s.dropped| <= 1 && (s.dropped != [] ==> s.consumer.TakeStranded? && s.closed)
  {
    ReachableInv(s);
  }

  /** No lost wake-up: a parked receiver means an empty queue, a parked sender a full one, and never both. */
  lemma NoLostWakeUp<T(!new)>(s: State<T>)
    requires Reachable(s)
    ensures s.consumer.TakeParked? ==> s.items == [] && !s.closed && s.takeWaiter == Some(s.consumer.job)
    ensures s.producer.PutParked? ==> |s.items| == s.capacity && !s.closed && s.putWaiter == Some(s.producer.job)
    ensures !(s.consumer.TakeParked? && s.producer.PutParked?)
    ensures s.closed ==> s.takeWaiter.None? && s.putWaiter.None?
    ensures (s.takeWaiter.Some? ==> s.consumer.TakeParked?) && (s.putWaiter.Some? ==> s.producer.PutParked?)
  {
    ReachableInv(s);
  }

  /**
   Evicting the older of two watches never drops that of a parked coroutine: a parked coroutine whose job is
   cancelled has a notice on its way, and the notice ends the wait.
   */
  lemma CancellationReachesTheParked<T(!new)>(s: State<T>, job: Job)
    requires Reachable(s) && job in s.cancelled
    ensures s.consumer == TakeParked(job) ==> Enabled(s, Notice(job)) && Step(s, Notice(job)).consumer == TakeCancelled(job)
    ensures s.producer.PutParked? && s.producer.job == job ==>
              Enabled(s, Notice(job)) && Step(s, Notice(job)).producer == PutFailed(job, s.producer.item, SenderCancelled)
  {
    ReachableInv(s);
  }

  // ---- what a send and a receive come to ----

  /** What `send` does at once: it throws, hands over, appends, or waits, and it waits exactly at a full open queue. */
  lemma SendTable<T(!new)>(s: State<T>, job: Job, item: T, refused: bool)
    requires Reachable(s) && Enabled(s, StartSend(job, item, refused))
    ensures var t := Step(s, StartSend(job, item, refused));
            if s.closed then t == s.(producer := PutIdle(SendThrew(QueueClosed)))
            else if s.consumer.TakeParked? then
              && t.producer == PutIdle(SendReturned) && t.accepted == s.accepted + [item] && t.items == []
              && (if refused then t.consumer == TakeStranded && t.closed && t.dropped == [item]
                  else t.consumer == TakeWoken(s.consumer.job, Some(item)) && !t.closed)
            else if |s.items| < s.capacity then
              t == s.(producer := PutIdle(SendReturned), accepted := s.accepted + [item], items := s.items + [item])
            else if job in s.cancelled then t == s.(producer := PutIdle(SendThrew(SenderCancelled)))
            else t.producer == PutParked(job, item) && t.accepted == s.accepted && t.items == s.items && !t.closed
  {
    ReachableInv(s);
  }

  /** What `receive` does at once: it takes the oldest item and wakes a parked sender, returns null, throws, or waits. */
  lemma ReceiveTable<T(!new)>(s: State<T>, job: Job, refused: bool)
    requires Reachable(s) && Enabled(s, StartReceive(job, refused))
    ensures var t := Step(s, StartReceive(job, refused));
            if s.items != [] then
              && t.consumer == TakeIdle(Received(Some(s.items[0])))
              && t.items == s.items[1..] && t.delivered == s.delivered + [s.items[0]] && t.accepted == s.accepted
              && (s.producer.PutParked? ==>
                    if refused then t.producer == PutStranded(s.producer.job, s.producer.item) && t.closed
                    else t.producer == PutWoken(s.producer.job, s.producer.item) && !t.closed)
              && (!s.producer.PutParked? ==> t.producer == s.producer && t.closed == s.closed)
            else if s.closed then t == s.(consumer := TakeIdle(Received(None)))
            else if job in s.cancelled then t == s.(consumer := TakeIdle(ReceiveThrew))
            else t.consumer == TakeParked(job) && t.delivered == s.delivered && t.producer == s.producer && !t.closed
  {
    ReachableInv(s);
  }

  /** `close` fails a parked sender and gives a parked receiver null, once. */
  lemma CloseTable<T(!new)>(s: State<T>, refused: bool)
    requires Reachable(s)
    ensures var t := Step(s, Close(refused));
            && t.closed && t.items == s.items && t.accepted == s.accepted && t.delivered == s.delivered
            && (s.producer.PutParked? ==> t.producer == PutFailed(s.producer.job, s.producer.item, QueueClosed))
            && (!s.producer.PutParked? ==> t.producer == s.producer)
            && (s.consumer.TakeParked? ==> t.consumer == if refused then TakeStranded else TakeWoken(s.consumer.job, None))
            && (!s.consumer.TakeParked? ==> t.consumer == s.consumer)
            && (s.closed ==> t == s)
  {
    ReachableInv(s);
  }

  ghost predicate NoNewSend<T>(events: seq<Event<T>>) {
    forall i | 0 <= i < |events| :: !events[i].StartSend?
  }

  ghost predicate NoNewReceive<T>(events: seq<Event<T>>) {
    forall i | 0 <= i < |events| :: !events[i].StartReceive?
  }

  /** Where a send of `item` by `job` stands in `t`, when `before` was accepted ahead of it. */
  ghost predicate SendStands<T>(t: State<T>, job: Job, item: T, before: seq<T>) {
    match t.producer
    case PutIdle(SendReturned) => t.accepted == before + [item]
    case PutIdle(SendThrew(error)) => t.accepted == before && if error.QueueClosed? then t.closed else job in t.cancelled
    case PutIdle(NoSend) => false
    case PutParked(j, x) => t.accepted == before && j == job && x == item && !t.closed && |t.items| == t.capacity
    case PutWoken(j, x) => t.accepted == before && j == job && x == item
    case PutFailed(j, x, _) => t.accepted == before && j == job && x == item
    case PutStranded(j, x) => t.accepted == before && j == job && x == item && t.closed
  }

  /** Where a receive by `job` stands in `t`, when `before` was delivered ahead of it. */
  ghost predicate ReceiveStands<T>(t: State<T>, job: Job, before: seq<T>) {
    match t.consumer
    case TakeIdle(Received(Some(x))) => t.delivered == before + [x]
    case TakeIdle(Received(None)) => t.delivered == before && t.closed && t.items == []
    case TakeIdle(ReceiveThrew) => t.delivered == before && job in t.cancelled
    case TakeIdle(NoReceive) => false
    case TakeParked(j) => t.delivered == before && j == job && !t.closed && t.items == []
    case TakeWoken(j, _) => t.delivered == before && j == job
    case TakeCancelled(j) => t.delivered == before && j == job
    case TakeStranded => t.delivered == before && t.closed
  }

  lemma SendStandsStep<T>(s: State<T>, e: Event<T>, job: Job, item: T, before: seq<T>)
    requires Inv(s) && Enabled(s, e) && !e.StartSend? && SendStands(s, job, item, before)
    ensures SendStands(Step(s, e), job, item, before)
  {
    StepInv(s, e);
  }

  lemma ReceiveStandsStep<T>(s: State<T>, e: Event<T>, job: Job, before: seq<T>)
    requires Inv(s) && Enabled(s, e) && !e.StartReceive? && ReceiveStands(s, job, before)
    ensures ReceiveStands(Step(s, e), job, before)
  {
    StepInv(s, e);
  }

  lemma {:induction false} SendStandsRun<T>(s: State<T>, events: seq<Event<T>>, job: Job, item: T, before: seq<T>)
    requires Inv(s) && NoNewSend(events) && SendStands(s, job, item, before)
    ensures SendStands(Run(s, events), job, item, before)
    decreases |events|
  {
    if events != [] {
      var n := |events| - 1;
      SendStandsRun(s, events[..n], job, item, before);
      RunInv(s, events[..n]);
      if Enabled(Run(s, events[..n]), events[n]) { SendStandsStep(Run(s, events[..n]), events[n], job, item, before); }
    }
  }

  lemma {:induction false} ReceiveStandsRun<T>(s: State<T>, events: seq<Event<T>>, job: Job, before: seq<T>)
    requires Inv(s) && NoNewReceive(events) && ReceiveStands(s, job, before)
    ensures ReceiveStands(Run(s, events), job, before)
    decreases |events|
  {
    if events != [] {
      var n := |events| - 1;
      ReceiveStandsRun(s, events[..n], job, before);
      RunInv(s, events[..n]);
      if Enabled(Run(s, events[..n]), events[n]) { ReceiveStandsStep(Run(s, events[..n]), events[n], job, before); }
    }
  }

  /**
   Whatever happens while a send is under way: if it returns, its item was accepted, once and as the next one; if it
   throws, nothing was accepted, and the queue is closed or its job cancelled, as the exception says; while it waits,
   its item is kept.
   */
  lemma SendIsAllOrNothing<T(!new)>(s: State<T>, job: Job, item: T, refused: bool, events: seq<Event<T>>)
    requires Reachable(s) && Enabled(s, StartSend(job, item, refused)) && NoNewSend(events)
    ensures var t := Run(Step(s, StartSend(job, item, refused)), events);
            && (t.producer.PutIdle? ==> t.producer.last.SendReturned? || t.producer.last.SendThrew?)
            && (t.producer == PutIdle(SendReturned) <==> t.accepted == s.accepted + [item])
            && (t.producer != PutIdle(SendReturned) ==> t.accepted == s.accepted)
            && (t.producer == PutIdle(SendThrew(QueueClosed)) ==> t.closed)
            && (t.producer == PutIdle(SendThrew(SenderCancelled)) ==> job in t.cancelled)
            && (t.producer.PutParked? || t.producer.PutWoken? ==> t.producer.job == job && t.producer.item == item)
  {
    ReachableInv(s);
    var e := StartSend(job, item, refused);
    StepInv(s, e);
    SendTable(s, job, item, refused);
    SendStandsRun(Step(s, e), events, job, item, s.accepted);
  }

  /**
   Whatever happens while a receive is under way: an item it returns is the next accepted one; null means a closed
   queue with nothing left; an exception means its job was cancelled, and then nothing was taken.
   */
  lemma ReceiveReturnsTheNext<T(!new)>(s: State<T>, job: Job, refused: bool, events: seq<Event<T>>)
    requires Reachable(s) && Enabled(s, StartReceive(job, refused)) && NoNewReceive(events)
    ensures var t := Run(Step(s, StartReceive(job, refused)), events);
            && (t.consumer.TakeIdle? ==>
                  match t.consumer.last
                  case Received(Some(x)) =>
                    t.delivered == s.delivered + [x] && |t.accepted| > |s.delivered| && t.accepted[|s.delivered|] == x
                  case Received(None) => t.delivered == s.delivered && t.closed && t.items == []
                  case ReceiveThrew => t.delivered == s.delivered && job in t.cancelled
                  case NoReceive => false)
            && (!t.consumer.TakeIdle? ==> t.delivered == s.delivered)
  {
    ReachableInv(s);
    var e := StartReceive(job, refused);
    StepInv(s, e);
    ReceiveTable(s, job, refused);
    ReceiveStandsRun(Step(s, e), events, job, s.delivered);
    RunInv(Step(s, e), events);
  }

  ghost function Receives<T>(job: Job, n: nat): seq<Event<T>> {
    seq(n, _ => StartReceive(job, false))
  }

  /** What was queued before close is still received, in order, and only then null. */
  lemma {:induction false} ClosedQueueDrains<T(!new)>(s: State<T>, job: Job, n: nat)
    requires Inv(s) && s.closed && s.consumer.TakeIdle? && n <= |s.items|
    ensures var t := Run(s, Receives(job, n));
            && t.delivered == s.delivered + s.items[..n] && t.items == s.items[n..]
            && t.closed && t.consumer.TakeIdle?
            && (n == |s.items| ==> Receive(t, job, false) == t.(consumer := TakeIdle(Received(None))))
    decreases n
  {
    if n > 0 {
      ClosedQueueDrains(s, job, n - 1);
      var before := Receives<T>(job, n - 1);
      assert Receives<T>(job, n)[..n - 1] == before;
      RunInv(s, before);
      assert s.items[..n] == s.items[..n - 1] + [s.items[n - 1]];
    }
  }
}
