/**
 The reactor queue as an object over a ring, with the two coroutines and the jobs that use it; each turn is a step of
 `ReactorQueueModel`, so what is proved of runs there holds of the object.
 */
module ReactorQueues {
  import opened Wrappers
  import Rings
  import opened ReactorQueueModel

  class ReactorQueue<T> {
    const capacity: nat
    const items: Rings.Ring<T>
    var takeWaiter: Option<Job>
    var putWaiter: Option<Job>
    var closed: bool
    var watchedA: Option<Job>
    var watchedB: Option<Job>
    // The coroutines of the producer and the consumer, and the jobs, as the owner's reactor sees them.
    var consumer: Consumer<T>
    var producer: Producer<T>
    var cancelled: set<Job>
    var notices: set<Job>
    /** The state of the model that the object stands for. */
    ghost var now: State<T>

    /** The object stands for `now`. */
    ghost predicate Mirrors()
      reads this, items, items.items
    {
      && items.Valid() && now.items == items.contents && now.capacity == capacity
      && now.takeWaiter == takeWaiter && now.putWaiter == putWaiter && now.closed == closed
      && now.watchedA == watchedA && now.watchedB == watchedB
      && now.consumer == consumer && now.producer == producer && now.cancelled == cancelled && now.notices == notices
    }

    ghost predicate Valid()
      reads this, items, items.items
    {
      Mirrors() && Inv(now)
    }

    constructor (capacity: nat)
      requires capacity >= 1
      ensures Valid() && now == Init(capacity) && fresh(items) && fresh(items.items)
    {
      this.capacity := capacity;
      items := new Rings.Ring(if capacity < 16 then capacity else 16);
      takeWaiter, putWaiter, closed, watchedA, watchedB := None, None, false, None, None;
      consumer, producer, cancelled, notices := TakeIdle(NoReceive), PutIdle(NoSend), {}, {};
      now := Init(capacity);
    }

    /** A resume of the parked receiver; `refused` is what the reactor's resumer answers. */
    method Hand(item: Option<T>, refused: bool)
      requires Mirrors() && takeWaiter.Some?
      modifies this`now, this`takeWaiter, this`closed, this`consumer
      ensures Mirrors() && now == ResumeTake(old(now), item, refused)
    {
      if refused {
        closed := true;
        consumer := TakeStranded;
      } else {
        consumer := TakeWoken(takeWaiter.value, item);
      }
      takeWaiter := None;
      now := ResumeTake(now, item, refused);
    }

    method SetProducer(p: Producer<T>)
      requires Mirrors()
      modifies this`now, this`producer
      ensures Mirrors() && now == old(now).(producer := p)
    {
      producer := p;
      now := now.(producer := p);
    }

    /** Hand the item to a parked receiver or append it; false when the queue is full. */
    method Offer(item: T, refused: bool) returns (ok: bool)
      requires Mirrors() && !closed
      modifies this, items, items.items
      ensures Mirrors() && (items.items == old(items.items) || fresh(items.items))
      ensures ok == Accepts(old(now))
      ensures now == if ok then ReactorQueueModel.Offer(old(now), item, refused) else old(now)
    {
      if takeWaiter.Some? {
        SetProducer(PutIdle(SendReturned));
        now := now.(accepted := now.accepted + [item]);
        Hand(Some(item), refused);
        return true;
      }
      if items.size < capacity {
        items.AddLast(item);
        producer := PutIdle(SendReturned);
        now := ReactorQueueModel.Offer(now, item, refused);
        return true;
      }
      return false;
    }

    /** The two watch slots; a third job evicts the older watch. */
    method WatchJob(job: Job)
      requires Mirrors()
      modifies this`now, this`watchedA, this`watchedB
      ensures Mirrors() && now == Watch(old(now), job)
    {
      if watchedA != Some(job) && watchedB != Some(job) {
        if watchedA.None? {
          watchedA := Some(job);
        } else if watchedB.None? {
          watchedB := Some(job);
        } else {
          watchedA := watchedB;
          watchedB := Some(job);
        }
      }
      now := Watch(now, job);
    }

    method ParkProducer(job: Job, item: T)
      requires Mirrors()
      modifies this`now, this`watchedA, this`watchedB, this`putWaiter, this`producer
      ensures Mirrors() && now == Watch(old(now), job).(putWaiter := Some(job), producer := PutParked(job, item))
    {
      WatchJob(job);
      putWaiter := Some(job);
      producer := PutParked(job, item);
      now := now.(putWaiter := Some(job), producer := PutParked(job, item));
    }

    /** A turn of a send, of its first or of a later attempt. */
    method SendTurn(job: Job, item: T, refused: bool)
      requires Valid() && !producer.PutParked?
      modifies this, items, items.items
      ensures Valid() && (items.items == old(items.items) || fresh(items.items))
      ensures now == Put(old(now), job, item, refused)
    {
      PutInv(now, job, item, refused);
      if closed {
        SetProducer(PutIdle(SendThrew(QueueClosed)));
        return;
      }
      var ok := Offer(item, refused);
      if ok {
        return;
      }
      if job in cancelled {
        SetProducer(PutIdle(SendThrew(SenderCancelled)));
        return;
      }
      ParkProducer(job, item);
    }

    /** The parked sender is resumed, now that there is room. */
    method ResumeProducer(refused: bool)
      requires Mirrors() && (putWaiter.Some? ==> producer.PutParked?)
      modifies this`now, this`putWaiter, this`closed, this`producer
      ensures Mirrors() && now == ResumePut(old(now), refused)
    {
      if putWaiter.Some? {
        putWaiter := None;
        if refused {
          closed := true;
          producer := PutStranded(producer.job, producer.item);
        } else {
          producer := PutWoken(producer.job, producer.item);
        }
      }
      now := ResumePut(now, refused);
    }

    method ParkConsumer(job: Job)
      requires Mirrors()
      modifies this`now, this`watchedA, this`watchedB, this`takeWaiter, this`consumer
      ensures Mirrors() && now == Watch(old(now), job).(takeWaiter := Some(job), consumer := TakeParked(job))
    {
      WatchJob(job);
      takeWaiter := Some(job);
      consumer := TakeParked(job);
      now := now.(takeWaiter := Some(job), consumer := TakeParked(job));
    }

    /** Take the oldest item, if there is one. */
    method TakeItem() returns (x: Option<T>)
      requires Mirrors()
      modifies this`now, this`consumer, items, items.items
      ensures Mirrors() && items.items == old(items.items)
      ensures if old(now).items == [] then x == None && now == old(now)
              else x == Some(old(now).items[0])
                   && now == old(now).(items := old(now).items[1..], delivered := old(now).delivered + [old(now).items[0]],
                                       consumer := TakeIdle(Received(x)))
    {
      x := items.RemoveFirstOrNull();
      if x.Some? {
        consumer := TakeIdle(Received(x));
        now := now.(items := now.items[1..], delivered := now.delivered + [x.value], consumer := TakeIdle(Received(x)));
      }
    }

    method SetConsumer(c: Consumer<T>)
      requires Mirrors()
      modifies this`now, this`consumer
      ensures Mirrors() && now == old(now).(consumer := c)
    {
      consumer := c;
      now := now.(consumer := c);
    }

    /** A turn of a receive. */
    method ReceiveTurn(job: Job, refused: bool)
      requires Valid() && consumer.TakeIdle?
      modifies this, items, items.items
      ensures Valid() && items.items == old(items.items)
      ensures now == Receive(old(now), job, refused)
    {
      ReceiveInv(now, job, refused);
      var x := TakeItem();
      if x.Some? {
        ResumeProducer(refused);
        return;
      }
      if closed {
        SetConsumer(TakeIdle(Received(None)));
      } else if job in cancelled {
        SetConsumer(TakeIdle(ReceiveThrew));
      } else {
        ParkConsumer(job);
      }
    }

    /** A receiver parked at an empty queue gets nothing, a parked sender fails, the watches are disposed. */
    method CloseTurn(refused: bool)
      requires Valid()
      modifies this
      ensures Valid() && now == CloseQueue(old(now), refused)
    {
      StepInv(now, Close(refused));
      ghost var t := CloseQueue(now, refused);
      if closed {
        return;
      }
      closed := true;
      if items.size == 0 && takeWaiter.Some? {
        consumer := if refused then TakeStranded else TakeWoken(takeWaiter.value, None);
        takeWaiter := None;
      }
      if putWaiter.Some? {
        putWaiter := None;
        producer := PutFailed(producer.job, producer.item, QueueClosed);
      }
      watchedA, watchedB := None, None;
      now := t;
    }

    /** A cancellation notice reaches the owner: whoever of that job is parked is resumed with the cancellation. */
    method NoticeTurn(job: Job)
      requires Valid() && job in notices
      modifies this
      ensures Valid() && now == Step(old(now), Notice(job))
    {
      StepInv(now, Notice(job));
      ghost var t := Step(now, Notice(job));
      notices := notices - {job};
      if takeWaiter == Some(job) {
        takeWaiter := None;
        consumer := TakeCancelled(job);
      }
      if putWaiter == Some(job) {
        putWaiter := None;
        producer := PutFailed(job, producer.item, SenderCancelled);
      }
      now := t;
    }

    /** A job is cancelled; a watch on it posts a notice to the owner. */
    method CancelTurn(job: Job)
      requires Valid()
      modifies this`now, this`cancelled, this`notices
      ensures Valid() && now == Step(old(now), CancelJob(job))
    {
      StepInv(now, CancelJob(job));
      ghost var t := Step(now, CancelJob(job));
      cancelled := cancelled + {job};
      if watchedA == Some(job) || watchedB == Some(job) {
        notices := notices + {job};
      }
      now := t;
    }

    /** The resumed receiver runs on. */
    method ConsumerTurn()
      requires Valid() && (consumer.TakeWoken? || consumer.TakeCancelled?)
      modifies this`now, this`consumer
      ensures Valid() && now == Step(old(now), RunConsumer)
    {
      StepInv(now, RunConsumer);
      now := Step(now, RunConsumer);
      consumer := TakeIdle(if consumer.TakeWoken? then Received(consumer.item) else ReceiveThrew);
    }

    /** The resumed sender runs on. */
    method ProducerTurn(refused: bool)
      requires Valid() && (producer.PutWoken? || producer.PutFailed?)
      modifies this, items, items.items
      ensures Valid() && (items.items == old(items.items) || fresh(items.items))
      ensures now == Step(old(now), RunProducer(refused))
    {
      StepInv(now, RunProducer(refused));
      if producer.PutWoken? {
        SendTurn(producer.job, producer.item, refused);
      } else {
        SetProducer(PutIdle(SendThrew(producer.error)));
      }
    }

    method Handle(e: Event<T>)
      requires Valid() && Enabled(now, e)
      modifies this, items, items.items
      ensures Valid() && (items.items == old(items.items) || fresh(items.items))
      ensures now == Step(old(now), e)
    {
      match e
      case StartSend(job, item, refused) => SendTurn(job, item, refused);
      case RunProducer(refused) => ProducerTurn(refused);
      case StartReceive(job, refused) => ReceiveTurn(job, refused);
      case RunConsumer => ConsumerTurn();
      case Close(refused) => CloseTurn(refused);
      case CancelJob(job) => CancelTurn(job);
      case Notice(job) => NoticeTurn(job);
    }

    method CanHandle(e: Event<T>) returns (b: bool)
      requires Mirrors()
      ensures b == Enabled(now, e)
    {
      b := match e
        case StartSend(_, _, _) => producer.PutIdle?
        case RunProducer(_) => producer.PutWoken? || producer.PutFailed?
        case StartReceive(_, _) => consumer.TakeIdle?
        case RunConsumer => consumer.TakeWoken? || consumer.TakeCancelled?
        case Close(_) => true
        case CancelJob(_) => true
        case Notice(job) => job in notices;
    }

    /** Whatever it is asked to do, the object follows a run of the model. */
    method Perform(events: seq<Event<T>>)
      requires Valid()
      modifies this, items, items.items
      ensures Valid() && now == Run(old(now), events)
    {
      ghost var s := now;
      for i := 0 to |events|
        invariant Valid() && (items.items == old(items.items) || fresh(items.items))
        invariant now == Run(s, events[..i])
      {
        assert events[..i + 1][..i] == events[..i];
        var enabled := CanHandle(events[i]);
        if enabled {
          Handle(events[i]);
        }
      }
      assert events[..|events|] == events;
    }
  }
}
