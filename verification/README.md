# msgtrans-kotlin: a verified model of the session layer

msgtrans-kotlin is a request/response session layer: packets on a byte stream, a connection that is an actor on one
reactor thread, and adapters that carry the packets over TCP, QUIC and WebSocket. This project models the parts of it
where the difficulty lies and proves, for every input or every run, what they are for.

| modules | what they model |
|---|---|
| `ConnectionModel`, `ConnectionActor` | the connection in its default INLINE write mode: the state machine, and the object whose methods are its steps |
| `ConnectionInvariants`, `ConnectionHistory`, `ConnectionRuns`, `ConnectionLedger`, `ConnectionSegments`, `ConnectionRequests`, `ConnectionAnswers`, `ConnectionWakeUps`, `ConnectionStranding` | what holds in every run of the connection |
| `ConnectionMoves`, `ConnectionTables`, `ConnectionResults` | what each step makes of its own coroutine and of the others, and how calls end |
| `ConnectionScenarios` | the first steps of the runs that show what can happen |
| `IdMaps` | the open-addressing registry with backward-shift deletion |
| `Rings`, `ReactorQueueModel`, `ReactorQueues` | the ring buffer and the single-producer, single-consumer queue over it |
| `Bytes`, `Packets`, `PacketCodec`, `LengthPrefixedCodec`, `Streaming` | the wire format, both framings, and decoding from a stream |
| `Bits`, `WebSocketStream` | one packet per WebSocket message |
| `HappyEyeballs` | the staggered connection race of the QUIC client (section 5 of RFC 8305) |
| `Histograms` | the log-linear latency histogram |
| `ZstdStream` | the zstd decompression loop over an arbitrary decoder |
| `Wrappers`, `Lists` | shared definitions |

`dafny verify dfyconfig.toml` verifies everything.

## How the source is modelled

- **Steps.** All of a connection's coroutines run on one thread, so a step is the code between
  two suspension points. Between steps any coroutine, timer, cancellation, socket event, scope cancellation or close may
  come next. A run is any sequence of such events, and "reachable" means reached by some run from a new connection of
  any configuration. Resuming a coroutine schedules it; it runs in a later step.
- **Calls.** A call refused before it starts (closed connection, request ids exhausted) changes nothing and is an event
  that is not enabled. Payloads arrive already compressed or not; the connection's own packets have no ext header.
- **The socket.** A write takes bytes off the front of the write buffer in any portions. A cancelled write leaves exactly
  the bytes not taken, which the source assumes of `IoStream.write`; a failed one closes the connection.
- **The object.** The runs are proved over a state with a map for the registry and sequences for the send queue and the
  write buffer. `ConnectionActor` holds the hash table, the ring and the codec's buffer instead and is proved to follow
  those runs; the waiter lists, which the source keeps in array deques, are sequences in both.
- **Close.** One event stands for every caller of `shutdown`: `close`, the end of the peer's stream, a read error, and
  the read loop cancelled with its scope. It may come at any time; no run is required to contain it.
- **Resumes.** A second resume of a continuation throws; resuming a cancelled one is ignored. The model counts second
  resumes wherever the source resumes.
- **Numbers.** Ids are 32 bits wide and their exhaustion and wrap-around are explicit, as are the truncation of field
  widths, the `Int` counters of the zstd loop and the `Long` sums of the histogram. Lengths and byte totals elsewhere
  are unbounded; buffers and arrays hold at most the largest `Int` where that matters.
- **The reactor queue** has a capacity of at least one, one producer and one consumer. Whether the reactor
  refuses a resume is an input of the step. A job is cancelled on the owner thread and noticed in a later step.
- **The race.** Receiving an outcome is one step with acting on it. Which handshakes end, when and how are inputs.
- **The histogram.** Percentages are real numbers; the rounding of their product with the count is not modelled.
- **The zstd decoder** is any function of the calls so far that consumes at most its input and produces at most its room.

## Where the source does not do what it sets out to do

- An ext header over 65535 bytes is written with a truncated length. Plain framing then misreads the stream, the
  length-prefixed one refuses it. `RoundTripsIffWithinLimits`, `OversizedExtHeaderIsMisread`, `RoundTripsElseRefused`.
- The deadline of a request may resume its room continuation a second time, which throws and skips the wake-up that
  follows. `DoubleResumeIff` says exactly when, `DoubleResumeHappens` that it can. The slot it frees then goes to
  nobody: `FreedSlotIsPassedOn`, `SlotIsLost`.
- The zstd output limit is not enforced for the largest `Int`. `LimitIsExactIff`, `LargestLimitOverruns`.
- If the connection's scope is cancelled while something is left to write, the successor never runs and `writerActive`
  stays set, so later sends queue packets nobody writes. `StrandsIff` says exactly which steps do that, `StrandHappens`
  that it can happen, `StuckForGood` that nothing but close ends it. In the source the same cancellation ends the read
  loop, whose `finally` closes the connection
  (msgtrans/src/commonMain/kotlin/msgtrans/transport/Connection.kt:480-482); the model has that close as an event that
  may follow at any time, so these results are about the time until it does.
- The class comment says that a request waits for its response once its packet is queued. A Response that bears the id
  of a request still waiting for outbound room settles it, and the request returns unsent. `ReturnedIsSentIff`,
  `UnsentRequestReturns`.

## Model

| member | source | states |
|---|---|---|
| `ConnectionRuns.StreamIsAcceptedPackets` | msgtrans/src/commonMain/kotlin/msgtrans/transport/Connection.kt:319-443 | In every reachable state the bytes on the socket, the unsent write buffer, the encodings of the send queue and, after close, of what close dropped are together the encodings of all accepted packets in the order of acceptance; the socket is always a prefix of that; nothing is dropped while open. Holds across writers cancelled in the middle of a packet. |
| `ConnectionRuns.OneWriterNothingStranded` | msgtrans/src/commonMain/kotlin/msgtrans/transport/Connection.kt:394-429 | At most one coroutine is ever the writer. While the connection is open, an inactive writer means an empty buffer and an empty queue, in every reachable state. While its scope is active too, unsent bytes or queued packets imply a writer, and `writerActive` implies one. |
| `ConnectionStranding.StrandsIff` | msgtrans/src/commonMain/kotlin/msgtrans/transport/Connection.kt:394-429 | A step leaves an open connection with something to write and nobody to write it, when it was not so before, if and only if it cancels the scope under a successor that has not started, or cancels a writer with something left after the scope was cancelled. |
| `ConnectionStranding.StrandHappens` | msgtrans/src/commonMain/kotlin/msgtrans/transport/Connection.kt:405-428 | That state is reachable: a concrete run gets there. |
| `ConnectionStranding.StuckForGood` | msgtrans/src/commonMain/kotlin/msgtrans/transport/Connection.kt:394-429 | From there on, whatever happens, the socket gets no further byte, `writerActive` stays set and no coroutine writes; the state lasts until the connection is closed. |
| `ConnectionRuns.PeerDecodesAcceptedPrefix` | msgtrans/src/commonMain/kotlin/msgtrans/transport/Connection.kt:394-443 | Decoding any prefix of the socket bytes, cut into any chunks, gives no protocol error and exactly the first packets accepted: as many as fit whole. For both framings. |
| `ConnectionRuns.EverythingBounded` | msgtrans/src/commonMain/kotlin/msgtrans/transport/Connection.kt:274-329 | In every reachable state `queuedBytes` is the payload bytes of the queue and within the budget, so the clamp at zero never changes a value; the queue is within the mailbox, the registry within the in-flight limit, every accepted payload within both size limits. |
| `ConnectionRuns.StepInv` | msgtrans/src/commonMain/kotlin/msgtrans/transport/Connection.kt:319-704 | Every step, of every kind, keeps the inductive invariant that ties coroutines, continuations, waiter lists, registry, writer, queue and byte stream together. No place that resumes a continuation, other than a deadline, resumes one that was resumed before. |
| `ConnectionRuns.RunInv` | msgtrans/src/commonMain/kotlin/msgtrans/transport/Connection.kt:319-704 | Hence every run does, whatever it interleaves. |
| `ConnectionLedger.EachCallQueuesOnce` | msgtrans/src/commonMain/kotlin/msgtrans/transport/Connection.kt:319-351 | In every reachable state the accepted packets are, counted with multiplicity, those of the calls that queued theirs: none twice, none unasked. A finished `send`, a call at the socket and a request awaiting its response have queued theirs; a call waiting for a slot or room has not. |
| `ConnectionLedger.StepLedger` | msgtrans/src/commonMain/kotlin/msgtrans/transport/Connection.kt:319-704 | Every step keeps that account. |
| `ConnectionHistory.StepKeeps` | msgtrans/src/commonMain/kotlin/msgtrans/transport/Connection.kt:319-704 | No step changes the kind of a call, overwrites an outcome, revives a finished call or lets it queue anything, queues the packet of a settled request, sets a deadline anew or drops one before the call has an outcome or its end, or takes back anything accepted or written; an answer can only be the Response of this step; nothing is accepted once closed; only a send moves the one-way counter. |
| `ConnectionRequests.RegistryHoldsUnsettled` | msgtrans/src/commonMain/kotlin/msgtrans/transport/Connection.kt:522-567 | Between steps the registry holds only unsettled, unfinished requests, each under its own id, and no two requests share an id. |
| `ConnectionRequests.SendCarriesItsArguments` | msgtrans/src/commonMain/kotlin/msgtrans/transport/Connection.kt:660-664 | A send or a response, on whatever path it sets out, is a call for the packet made of exactly its arguments; a send takes the next one-way id and the counter moves on, a response the id it answers. |
| `ConnectionRequests.RequestCarriesItsArguments` | msgtrans/src/commonMain/kotlin/msgtrans/transport/Connection.kt:594-620 | A request is a call for the packet made of exactly its arguments, under an id no request of the connection had before. |
| `ConnectionRequests.ParkedIsRegistered` | msgtrans/src/commonMain/kotlin/msgtrans/transport/Connection.kt:547-551 | A caller parked for its response is a registered request. |
| `ConnectionRequests.ResponseSettlesOnlyItsRequest` | msgtrans/src/commonMain/kotlin/msgtrans/transport/Connection.kt:466-466 | An inbound Response settles the registered request with its id and leaves every other outcome as it was; late, repeated and unknown Responses settle nothing. |
| `ConnectionRequests.OutcomeIsFinal` | msgtrans/src/commonMain/kotlin/msgtrans/transport/Connection.kt:530-545 | Over any further run a settled request keeps its outcome and a finished call its result. |
| `ConnectionRequests.ReturnsOwnResponse` | msgtrans/src/commonMain/kotlin/msgtrans/transport/Connection.kt:594-628 | `request` returns only the payload of a Response that arrived in the run with the request's own id. |
| `ConnectionAnswers.ReturnedIsSentIff` | msgtrans/src/commonMain/kotlin/msgtrans/transport/Connection.kt:594-628 | A request that returned had queued its packet if and only if the Response that settled it did not find it still waiting for outbound room; that Response is one of the run, came while the request was registered and has the payload returned. |
| `ConnectionAnswers.UnsentRequestReturns` | msgtrans/src/commonMain/kotlin/msgtrans/transport/Connection.kt:466-466 | A request does return unsent in some runs. |
| `ConnectionAnswers.RegisteredIsQueuedIff` | msgtrans/src/commonMain/kotlin/msgtrans/transport/Connection.kt:604-621 | In every reachable state a registered request has queued its packet, unless it waits for room. |
| `ConnectionRequests.ContinuationsAreParked` | msgtrans/src/commonMain/kotlin/msgtrans/transport/Connection.kt:288-305 | In every reachable state a coroutine is in `roomWaiters` exactly when it is parked for room, holds `slotCont` exactly when parked for a slot, holds `waiter` only while parked or cancelled there, and is in no list twice: every resume through these finds a parked coroutine. |
| `ConnectionRequests.DoubleResumeIff` | msgtrans/src/commonMain/kotlin/msgtrans/transport/Connection.kt:558-566 | Second resumes are counted wherever a continuation is resumed: the two wake-ups, a response, the three resumes of a deadline, the three loops of close. A step makes one if and only if it is the deadline of an unsettled request that was already woken for room and has not run since. |
| `ConnectionRequests.DoubleResumeHappens` | msgtrans/src/commonMain/kotlin/msgtrans/transport/Connection.kt:288-303 | That case is reachable: a concrete run with a one-slot mailbox gets there. |
| `ConnectionRequests.DeadlineEndsTheCall` | msgtrans/src/commonMain/kotlin/msgtrans/transport/Connection.kt:552-566 | Once the deadline of an unsettled request fires, in every later state it has failed with the timeout, is unregistered, is parked nowhere, has queued nothing more and returns no payload. |
| `ConnectionRequests.CloseIsTerminal` | msgtrans/src/commonMain/kotlin/msgtrans/transport/Connection.kt:677-704 | After close, in every later state of every run, registry, queue, both waiter lists and `queuedBytes` are empty, nothing is parked, the close callbacks ran once and nothing more is accepted. |
| `ConnectionRequests.CloseFailsOutstanding` | msgtrans/src/commonMain/kotlin/msgtrans/transport/Connection.kt:684-697 | Close settles every request that is registered or waits for a slot with the close failure, for good. |
| `ConnectionResults.AnsweredReturns` | msgtrans/src/commonMain/kotlin/msgtrans/transport/Connection.kt:535-541 | A request parked for its response returns the payload of the Response that comes under its id, at its next turn, whatever else the run does in between short of cancelling it. |
| `ConnectionResults.ExpiredThrows` | msgtrans/src/commonMain/kotlin/msgtrans/transport/Connection.kt:552-566 | A request parked for a slot, for room or for its response when its deadline passes throws the timeout at its next turn, whatever happens in between short of its cancellation. |
| `ConnectionResults.ClosedThrows` | msgtrans/src/commonMain/kotlin/msgtrans/transport/Connection.kt:677-694 | Whoever is parked for a slot, for room or for a response when the connection closes throws the close at its next turn, whatever happens in between short of its cancellation. |
| `ConnectionResults.CancelledThrows` | msgtrans/src/commonMain/kotlin/msgtrans/transport/Connection.kt:296-300 | Whoever is cancelled while parked throws the cancellation at its next turn, whatever happens in between. |
| `ConnectionResults.UninterruptedEndsFairly` | msgtrans/src/commonMain/kotlin/msgtrans/transport/Connection.kt:319-351 | From its start on, in every run, a call that is neither cancelled nor fails in a write of its own ends as its packet fared. A send whose packet was queued returns; else it throws that it is too large, exactly if it is over a limit, or that the connection closed, which then is so. A request ends with its outcome, or was never queued and is too large or closed upon. |
| `ConnectionResults.ResultsAreTrue` | msgtrans/src/commonMain/kotlin/msgtrans/transport/Connection.kt:319-628 | In every reachable state a result is true: a request returns only what it was answered with and times out only if its deadline failed it; the close and the failed write are thrown only on a closed connection; too large is thrown only for a payload over a limit; a send that returned was queued. |
| `ConnectionResults.DeadlineCanFire` | msgtrans/src/commonMain/kotlin/msgtrans/transport/Connection.kt:600-603 | From its start, in every later state of every run, a request with a timeout can be failed by its deadline wherever it is, until it has its outcome or its end; one without a timeout never is. |
| `ConnectionResults.TooLargeIff` | msgtrans/src/commonMain/kotlin/msgtrans/transport/Connection.kt:274-278 | A send or a response is refused as too large if and only if its payload is longer than `maxPayloadLength` or than `maxOutboundBytes`. |
| `ConnectionResults.AcceptedAtOnce` | msgtrans/src/commonMain/kotlin/msgtrans/transport/Connection.kt:307-329 | On an open connection a payload within both limits is accepted in the step that offers it when the queue has a free slot and the budget the bytes; the caller is done, or is the writer if there was none. |
| `ConnectionResults.WaitsOnlyIf` | msgtrans/src/commonMain/kotlin/msgtrans/transport/Connection.kt:288-305 | Whichever step it is, a coroutine comes to wait for room only on an open connection whose queue is full or whose budget lacks the bytes and is in use, for a slot only when `maxInFlightRequests` are registered, and is told too large only when over a limit. |
| `ConnectionTables.SendTable` | msgtrans/src/commonMain/kotlin/msgtrans/transport/Connection.kt:319-329 | What a send or a response comes to in its first step, in the numbers of the configuration: too large, closed upon, accepted and sent or writing, or last in line for room; it is accepted in exactly the one case. |
| `ConnectionTables.RequestTable` | msgtrans/src/commonMain/kotlin/msgtrans/transport/Connection.kt:604-621 | What a request comes to in its first step: last in line for a slot exactly when `maxInFlightRequests` are registered, else what a send comes to, but waiting for its response where a send is done. |
| `ConnectionTables.WokenTable` | msgtrans/src/commonMain/kotlin/msgtrans/transport/Connection.kt:288-305 | What a resumed coroutine does at its turn: refused room it throws the close; settled it ends with its outcome; else it tries again for its slot or its room, under the same conditions. |
| `ConnectionTables.WriterTable` | msgtrans/src/commonMain/kotlin/msgtrans/transport/Connection.kt:394-443 | What the writer does at each of its steps: it goes on while the open connection has packets, else it is sent or has or awaits its outcome; cancelled it throws the cancellation; failed in the write it throws the close, in the flush the failure, and the connection is closed. |
| `ConnectionTables.StepTable` | msgtrans/src/commonMain/kotlin/msgtrans/transport/Connection.kt:319-704 | Every step, of every kind, makes of the coroutine it runs what its table says. |
| `ConnectionMoves.StepMoves` | msgtrans/src/commonMain/kotlin/msgtrans/transport/Connection.kt:319-704 | Every step moves only the coroutine it runs: of all others it leaves each where it was or resumes it from where it is parked, refuses room only by closing, and fails a request as closed only by closing. |
| `ConnectionWakeUps.FreedSlotIsPassedOn` | msgtrans/src/commonMain/kotlin/msgtrans/transport/Connection.kt:466-633 | Whichever step takes a request out of the registry of a connection that stays open, exactly that entry goes. With slot waiters in the list, the longest-waiting one, and no other, leaves it and runs if it was parked, if and only if the step is not the deadline of a request already woken for room; that deadline leaves the list as it was. |
| `ConnectionWakeUps.OnlyTheseFree` | msgtrans/src/commonMain/kotlin/msgtrans/transport/Connection.kt:466-628 | Only a response, a deadline, a cancellation before the coroutine runs and a cancelled write take a request out of the registry of an open connection, and each only its own. |
| `ConnectionWakeUps.SlotIsLost` | msgtrans/src/commonMain/kotlin/msgtrans/transport/Connection.kt:558-566 | The exception is reachable: in a concrete run a slot becomes free while a request stays parked for it and nobody was let through. |
| `ConnectionSegments.FreedRoomIsPassedOn` | msgtrans/src/commonMain/kotlin/msgtrans/transport/Connection.kt:375-403 | Whichever step takes a packet, of a writer that goes on, of a successor or of a caller that becomes the writer, takes exactly the first of those queued and just accepted, leaves the rest in order, gives back exactly its bytes and wakes exactly the longest-waiting room waiter. |
| `ConnectionSegments.ReachableRests` | msgtrans/src/commonMain/kotlin/msgtrans/transport/Connection.kt:288-628 | Every step runs on to the next suspension point: no reachable state has a coroutine in the middle of its code. |
| `ConnectionModel.NextOneWayId` | msgtrans/src/commonMain/kotlin/msgtrans/transport/Connection.kt:712-716 | One-way ids run through 1 to the largest 32-bit value in turn and round again, never zero. |
| `ConnectionActor.Connection.Perform` | msgtrans/src/commonMain/kotlin/msgtrans/transport/Connection.kt:191-716 | The object, whose registry is the open-addressing `IdMap`, whose send queue is the `Ring` and whose write buffer is filled by the codecs, stands before and after every event for a state of the model and moves from one to the next as the model does, over any sequence of events; so every result above is about this object. |
| `ConnectionActor.TakeInOrderIsTake` | msgtrans/src/commonMain/kotlin/msgtrans/transport/Connection.kt:400-403 | Waking the room waiter before the encoding, as the source does, and after it give the same state. |
| `ConnectionActor.Connection.Drain` | msgtrans/src/commonMain/kotlin/msgtrans/transport/Connection.kt:399-429 | The drain loop up to its next socket write or the end of the writer, over the ring and the buffer and in the source's order of release, wake-up and encoding, is the model's turn. |
| `ConnectionActor.Connection.FailPending` | msgtrans/src/commonMain/kotlin/msgtrans/transport/Connection.kt:684-684 | The walk over the slots of the registry fails exactly the registered requests, and resumes none that was resumed before. |
| `ConnectionActor.Connection.RefuseRoomWaiters` | msgtrans/src/commonMain/kotlin/msgtrans/transport/Connection.kt:688-688 | The loop that empties `roomWaiters` refuses every coroutine in it and no other, each for the first time. |
| `ConnectionActor.Connection.FailSlotWaiters` | msgtrans/src/commonMain/kotlin/msgtrans/transport/Connection.kt:690-694 | The loop that empties `inFlightWaiters` fails and wakes every request in it and no other, each for the first time. |
| `ConnectionActor.Connection.Close` | msgtrans/src/commonMain/kotlin/msgtrans/transport/Connection.kt:677-704 | The three loops together are the model's `Shutdown`; a second close does nothing. |
| `ConnectionActor.ShutdownIsThreeLoops` | msgtrans/src/commonMain/kotlin/msgtrans/transport/Connection.kt:677-704 | `Shutdown`, which says coroutine by coroutine what close does, is the composition of the three loops. |
| `IdMaps.IdMap.constructor` | msgtrans/src/commonMain/kotlin/msgtrans/transport/IdMap.kt:8-14 | An empty map in a power-of-two table of at least 16 slots and twice the requested size. |
| `IdMaps.IdMap.Probe` | msgtrans/src/commonMain/kotlin/msgtrans/transport/IdMap.kt:20-24 | The probe loop ends, at the slot of the key or at an empty slot that shows the key absent. |
| `IdMaps.IdMap.Set` | msgtrans/src/commonMain/kotlin/msgtrans/transport/IdMap.kt:17-26 | The contents become `old[k := v]`; the table doubles exactly when it would be more than half full, even for a key already there; the load stays at most one half. |
| `IdMaps.IdMap.Remove` | msgtrans/src/commonMain/kotlin/msgtrans/transport/IdMap.kt:29-48 | The contents become `old - {k}` and the result is the value removed, or null; the table stays probeable. |
| `IdMaps.IdMap.ShiftBack` | msgtrans/src/commonMain/kotlin/msgtrans/transport/IdMap.kt:36-43 | The backward-shift loop ends, keeps every remaining entry and restores that each is reached from its home slot through live slots, also across the end of the table. |
| `IdMaps.IdMap.Grow` | msgtrans/src/commonMain/kotlin/msgtrans/transport/IdMap.kt:55-60 | Doubles the table, keeps the contents and never grows inside its own insertions. |
| `IdMaps.IdMap.Clear` | msgtrans/src/commonMain/kotlin/msgtrans/transport/IdMap.kt:53-53 | The contents become empty and the table stays usable. |
| `IdMaps.IdMap.Values` | msgtrans/src/commonMain/kotlin/msgtrans/transport/IdMap.kt:51-51 | Visits the value of every key exactly once, `size` values in all. |
| `IdMaps.IdMap.Perform` | msgtrans/src/commonMain/kotlin/msgtrans/transport/IdMap.kt:8-61 | Any sequence of set, remove and clear leaves exactly what it leaves in a mathematical map. |
| `IdMaps.IdMap.SizeIsCount` | msgtrans/src/commonMain/kotlin/msgtrans/transport/IdMap.kt:11-12 | `size` is the number of keys. |
| `IdMaps.EmptyMeansAbsent` | msgtrans/src/commonMain/kotlin/msgtrans/transport/IdMap.kt:32-33 | In a probeable table an empty slot met by a probe proves the key absent. |
| `IdMaps.BetweenIsCyclic` | msgtrans/src/commonMain/kotlin/msgtrans/transport/IdMap.kt:40-40 | The source's case split is the cyclic test: a key stays if and only if its home lies strictly after the hole and not after the key. |
| `IdMaps.ShiftingSkips` | msgtrans/src/commonMain/kotlin/msgtrans/transport/IdMap.kt:40-42 | An entry left in place needs no slot before the hole. |
| `IdMaps.ShiftingMoves` | msgtrans/src/commonMain/kotlin/msgtrans/transport/IdMap.kt:41-41 | An entry moved into the hole is still reached from home, and the hole is now where it was. |
| `IdMaps.ShiftingEnds` | msgtrans/src/commonMain/kotlin/msgtrans/transport/IdMap.kt:38-44 | At the first empty slot no entry needs the hole any more. |
| `ReactorQueueModel.LosslessFifo` | msgtrans/src/commonMain/kotlin/msgtrans/transport/ReactorQueue.kt:52-111 | In every reachable state the accepted items are, in order, those delivered, then the one handed over but not yet received, then those queued, then at most one dropped by a refused resume, which closes the queue; never more than the capacity is queued. |
| `ReactorQueueModel.NoLostWakeUp` | msgtrans/src/commonMain/kotlin/msgtrans/transport/ReactorQueue.kt:58-91 | A parked receiver means an empty open queue, a parked sender a full open one, never both; closed leaves neither; each waiter slot holds the parked coroutine and nothing else, so no continuation is resumed twice. |
| `ReactorQueueModel.CancellationReachesTheParked` | msgtrans/src/commonMain/kotlin/msgtrans/transport/ReactorQueue.kt:125-149 | The two-slot watch never loses a parked coroutine: once its job is cancelled, the notice is pending and ends its wait with the cancellation. |
| `ReactorQueueModel.SendIsAllOrNothing` | msgtrans/src/commonMain/kotlin/msgtrans/transport/ReactorQueue.kt:52-71 | Whatever happens while a send is under way: it returns if and only if its item was accepted, once and as the next one. If it throws, nothing was accepted and the queue is closed or its job cancelled, as the exception says. While it waits its item is kept. |
| `ReactorQueueModel.ReceiveReturnsTheNext` | msgtrans/src/commonMain/kotlin/msgtrans/transport/ReactorQueue.kt:73-81 | Whatever happens while a receive is under way: an item it returns is the next accepted one; null means the queue is closed and empty; an exception means its job was cancelled, and then nothing was taken. |
| `ReactorQueueModel.SendTable` | msgtrans/src/commonMain/kotlin/msgtrans/transport/ReactorQueue.kt:52-71 | What `send` does at once: it throws on a closed queue, hands over to a parked receiver, appends below the capacity, throws if its job was cancelled, and waits exactly at a full open queue. |
| `ReactorQueueModel.ReceiveTable` | msgtrans/src/commonMain/kotlin/msgtrans/transport/ReactorQueue.kt:73-81 | What `receive` does at once: it takes the oldest item and wakes a parked sender, returns null from a closed queue, throws if its job was cancelled, and waits exactly at an empty open queue. |
| `ReactorQueueModel.CloseTable` | msgtrans/src/commonMain/kotlin/msgtrans/transport/ReactorQueue.kt:84-91 | `close` fails a parked sender, gives a parked receiver null, keeps what is queued, and does nothing the second time. |
| `ReactorQueueModel.ClosedQueueDrains` | msgtrans/src/commonMain/kotlin/msgtrans/transport/ReactorQueue.kt:73-91 | A closed queue still delivers what it holds, in order, and only then returns null, for ever. |
| `ReactorQueueModel.StepInv` | msgtrans/src/commonMain/kotlin/msgtrans/transport/ReactorQueue.kt:52-149 | Every send, receive, resume, refusal, cancellation and close keeps the invariant behind these. |
| `ReactorQueues.ReactorQueue.Offer` | msgtrans/src/commonMain/kotlin/msgtrans/transport/ReactorQueue.kt:58-64 | Hand over to a parked receiver, else append, else refuse. |
| `ReactorQueues.ReactorQueue.SendTurn` | msgtrans/src/commonMain/kotlin/msgtrans/transport/ReactorQueue.kt:52-71 | A turn of `send` or of `sendSlow`'s loop, over the ring, is the model's step, its result included. |
| `ReactorQueues.ReactorQueue.ReceiveTurn` | msgtrans/src/commonMain/kotlin/msgtrans/transport/ReactorQueue.kt:73-81 | A turn of `receive`, over the ring, is the model's step, its result included. |
| `ReactorQueues.ReactorQueue.CloseTurn` | msgtrans/src/commonMain/kotlin/msgtrans/transport/ReactorQueue.kt:84-91 | Over the ring close is the model's step. |
| `ReactorQueues.ReactorQueue.ConsumerTurn` | msgtrans/src/commonMain/kotlin/msgtrans/transport/ReactorQueue.kt:73-81 | A resumed receive ends as the model's does: with what was handed over, with null after a close, or with the cancellation. |
| `ReactorQueues.ReactorQueue.Perform` | msgtrans/src/commonMain/kotlin/msgtrans/transport/ReactorQueue.kt:37-150 | Over any sequence of sends, receives, resumes, refusals, cancellations and closes the object keeps the model's invariant and follows the model's run, so the results above are about this object. |
| `Rings.Ring.AddLast` | msgtrans/src/commonMain/kotlin/msgtrans/transport/Ring.kt:17-21 | The contents become `old + [x]`, through wrap-around and growth. |
| `Rings.Ring.RemoveFirstOrNull` | msgtrans/src/commonMain/kotlin/msgtrans/transport/Ring.kt:24-31 | The head and the rest, or null for an empty ring. |
| `Rings.Ring.Clear` | msgtrans/src/commonMain/kotlin/msgtrans/transport/Ring.kt:33-36 | The contents become empty. |
| `Rings.Ring.Grow` | msgtrans/src/commonMain/kotlin/msgtrans/transport/Ring.kt:38-43 | Twice the slots, the same contents. |
| `Rings.WrapIsRemainder` | msgtrans/src/commonMain/kotlin/msgtrans/transport/Ring.kt:19-41 | Where the ring wraps is the remainder the source computes. |
| `PacketCodec.EncodeLayout` | msgtrans/src/commonMain/kotlin/msgtrans/core/PacketCodec.kt:34-45 | Every field of an encoded packet lies where the wire format puts it, whatever follows; the encoding has the packet's size. |
| `PacketCodec.LeadingBytes` | msgtrans/src/commonMain/kotlin/msgtrans/core/PacketCodec.kt:35-39 | The first eight bytes of every encoding, by value: version 1, the codes of compression and type, the business type, and the message id with its most significant byte first. |
| `PacketCodec.DecodeOfEncode` | msgtrans/src/commonMain/kotlin/msgtrans/core/PacketCodec.kt:34-71 | Decoding an encoding within limits followed by anything gives the packet and leaves the rest. |
| `PacketCodec.EncodeOfDecode` | msgtrans/src/commonMain/kotlin/msgtrans/core/PacketCodec.kt:47-71 | Re-encoding a decoded packet gives exactly the bytes consumed, and the packet is within limits. |
| `PacketCodec.DecodesIffEncoded` | msgtrans/src/commonMain/kotlin/msgtrans/core/PacketCodec.kt:47-71 | A buffer decodes to a packet and a rest if and only if the packet is within limits and the buffer is its encoding followed by the rest. |
| `PacketCodec.RoundTripsIffWithinLimits` | msgtrans/src/commonMain/kotlin/msgtrans/core/PacketCodec.kt:40-41 | A packet round-trips if and only if its ext header is at most 65535 bytes and its payload within the maximum. |
| `PacketCodec.OversizedExtHeaderIsMisread` | msgtrans/src/commonMain/kotlin/msgtrans/core/PacketCodec.kt:40-40 | A 65536-byte ext header is written with length 0: the packet is read back without it and its bytes are left as the next packet. |
| `PacketCodec.DecodeSettles` | msgtrans/src/commonMain/kotlin/msgtrans/core/PacketCodec.kt:47-71 | Once a buffer decodes or is refused, more bytes do not change that verdict. |
| `PacketCodec.MalformedIffHopeless` | msgtrans/src/commonMain/kotlin/msgtrans/core/PacketCodec.kt:51-61 | A full header is refused if and only if no continuation of the buffer could decode. |
| `PacketCodec.RefusesFirstFault` | msgtrans/src/commonMain/kotlin/msgtrans/core/PacketCodec.kt:50-61 | A full header is refused for the first of version, compression, type and payload length that is wrong, with that error and the offending value, and for nothing else. |
| `PacketCodec.PlainIsIncremental` | msgtrans/src/commonMain/kotlin/msgtrans/core/PacketCodec.kt:47-71 | The decoder meets the conditions under which chunking does not matter. |
| `PacketCodec.PlainReadsBack` | msgtrans/src/commonMain/kotlin/msgtrans/core/PacketCodec.kt:34-71 | A stream of packets within limits reads back item by item. |
| `PacketCodec.EncodeInto` | msgtrans/src/commonMain/kotlin/msgtrans/core/PacketCodec.kt:34-45 | The field-by-field writer appends exactly the encoding. |
| `PacketCodec.DecodeFrom` | msgtrans/src/commonMain/kotlin/msgtrans/core/PacketCodec.kt:47-71 | The buffer decoder gives the verdict on the readable bytes, consumes nothing unless it decodes, and then exactly the packet. |
| `Packets.TypeFromCode` | msgtrans/src/commonMain/kotlin/msgtrans/core/Packet.kt:10-15 | The inverse of the type code, and none exactly for a code no type has. |
| `Packets.CompressionFromCode` | msgtrans/src/commonMain/kotlin/msgtrans/core/Packet.kt:26-31 | The inverse of the compression code, and none exactly for a code no compression has. |
| `Bytes.FieldsKeepLowBits` | msgtrans/src/commonMain/kotlin/msgtrans/core/PacketCodec.kt:39-42 | A written u16 or u32 field reads back as the value modulo its range. |
| `Streaming.ChunkingIrrelevant` | msgtrans/src/commonMain/kotlin/msgtrans/core/PacketCodec.kt:47-71 | For every byte string, valid or not, and every way to cut it, feeding the pieces gives the same packets, the same first error and, without one, the same leftover as decoding it whole. |
| `Streaming.PrefixDecodes` | msgtrans/src/commonMain/kotlin/msgtrans/core/PacketCodec.kt:47-71 | Any prefix of a stream of encodings decodes to exactly the items that fit whole, leaving the cut one, without error. |
| `LengthPrefixedCodec.RefinesPlain` | msgtrans/src/commonMain/kotlin/msgtrans/core/LengthPrefixedPacketCodec.kt:31-43 | What the length-prefixed decoder accepts, the plain one accepts behind the prefix, with the same result, and the prefix is the packet's size. |
| `LengthPrefixedCodec.StrippedStreamIsPlain` | msgtrans/src/commonMain/kotlin/msgtrans/core/LengthPrefixedPacketCodec.kt:31-43 | Stripping the prefixes of any stream gives a stream the plain decoder reads to the same packets, all of it. |
| `LengthPrefixedCodec.IncompleteFrameUnreachable` | msgtrans/src/commonMain/kotlin/msgtrans/core/LengthPrefixedPacketCodec.kt:42-42 | The `incomplete packet in a complete frame` failure never occurs. |
| `LengthPrefixedCodec.FrameLengthsAreExact` | msgtrans/src/commonMain/kotlin/msgtrans/core/LengthPrefixedPacketCodec.kt:24-36 | Of the lengths a prefix can hold, under a limit that is not negative, exactly those pass both length checks that some packet within limits has; under a negative limit no packet is within limits. |
| `LengthPrefixedCodec.DecodesIffEncoded` | msgtrans/src/commonMain/kotlin/msgtrans/core/LengthPrefixedPacketCodec.kt:31-43 | A buffer decodes if and only if it starts with the frame of a packet within limits whose size fits the prefix. |
| `LengthPrefixedCodec.RoundTripsElseRefused` | msgtrans/src/commonMain/kotlin/msgtrans/core/LengthPrefixedPacketCodec.kt:26-43 | A packet round-trips if its ext header is at most 65535 bytes and its payload within the maximum, and is refused otherwise, never misread. |
| `LengthPrefixedCodec.FrameLayout` | msgtrans/src/commonMain/kotlin/msgtrans/core/LengthPrefixedPacketCodec.kt:26-29 | The frame is the size in four bytes and then the plain encoding. |
| `LengthPrefixedCodec.PrefixedIsIncremental` | msgtrans/src/commonMain/kotlin/msgtrans/core/LengthPrefixedPacketCodec.kt:31-43 | Chunking does not matter to the length-prefixed decoder either. |
| `LengthPrefixedCodec.PrefixedReadsBack` | msgtrans/src/commonMain/kotlin/msgtrans/core/LengthPrefixedPacketCodec.kt:26-43 | A stream of frames reads back item by item. |
| `LengthPrefixedCodec.EncodeInto` | msgtrans/src/commonMain/kotlin/msgtrans/core/LengthPrefixedPacketCodec.kt:26-29 | The writer appends exactly the frame. |
| `LengthPrefixedCodec.DecodeFrom` | msgtrans/src/commonMain/kotlin/msgtrans/core/LengthPrefixedPacketCodec.kt:31-43 | The buffer decoder gives the verdict on the readable bytes, consumes nothing when it needs more, exactly the frame when it decodes, and at most the prefix when it refuses. |
| `WebSocketStream.OneMessagePerPacket` | msgtrans-websocket/src/commonMain/kotlin/msgtrans/transport/WebSocketTransport.kt:302-323 | However a packet stream is cut into writes, the messages fed are exactly the packets' encodings in order, nothing is left pending at the end, and each passes the receiver's check. |
| `WebSocketStream.WebSocketDeliversPackets` | msgtrans-websocket/src/commonMain/kotlin/msgtrans/transport/WebSocketTransport.kt:273-323 | End to end: packets cut into any writes, sent as messages among any pings, pongs and closes, read and decoded, give the same packets without error. |
| `WebSocketStream.CutsConserveBytes` | msgtrans-websocket/src/commonMain/kotlin/msgtrans/transport/WebSocketTransport.kt:308-319 | For any bytes, messages fed and bytes still pending are together the bytes written. |
| `WebSocketStream.OverLimitStops` | msgtrans-websocket/src/commonMain/kotlin/msgtrans/transport/WebSocketTransport.kt:308-319 | For any bytes: each message fed is one packet within `maxMessageSize`; cutting stops at the first header that announces more, which is refused with its length and of which nothing is fed, or where a packet is still incomplete. |
| `WebSocketStream.CutTable` | msgtrans-websocket/src/commonMain/kotlin/msgtrans/transport/WebSocketTransport.kt:308-312 | The next cut, in the bytes themselves: wait, refuse or take exactly the announced bytes. |
| `WebSocketStream.CutterIsIncremental` | msgtrans-websocket/src/commonMain/kotlin/msgtrans/transport/WebSocketTransport.kt:308-319 | Where writes are cut does not matter, for any bytes. |
| `WebSocketStream.ShiftedIsAnnounced` | msgtrans-websocket/src/commonMain/kotlin/msgtrans/transport/WebSocketTransport.kt:297-298 | The receiver's shift-and-or length is the big-endian length of the header. |
| `WebSocketStream.ChecksIffOneCut` | msgtrans-websocket/src/commonMain/kotlin/msgtrans/transport/WebSocketTransport.kt:295-300 | A message passes the receiver's check if and only if the sender would cut it as one whole packet. |
| `WebSocketStream.ChecksIffOnePacket` | msgtrans-websocket/src/commonMain/kotlin/msgtrans/transport/WebSocketTransport.kt:295-300 | In the bytes themselves: the check passes exactly the messages as long as their header announces, and names the fault of any other. |
| `WebSocketStream.ReadsAllPayloads` | msgtrans-websocket/src/commonMain/kotlin/msgtrans/transport/WebSocketTransport.kt:273-293 | Reading skips control messages and yields every binary payload in order. |
| `WebSocketStream.PacketStream.Write` | msgtrans-websocket/src/commonMain/kotlin/msgtrans/transport/WebSocketTransport.kt:302-323 | One write feeds exactly the whole packets and keeps the rest pending. An oversized packet is reported after those before it were fed. When a feed fails, exactly the packets before it were fed, that one alone is lost and the bytes behind it stay pending. It flushes only when something was fed without error. |
| `WebSocketStream.WriteReports` | msgtrans-websocket/src/commonMain/kotlin/msgtrans/transport/WebSocketTransport.kt:302-323 | What a write reports, in the bytes themselves: a failed feed, else a packet over the limit, else a failed flush of something, else success. |
| `WebSocketStream.OverlappingWrites` | msgtrans-websocket/src/commonMain/kotlin/msgtrans/transport/WebSocketTransport.kt:302-319 | However writes overlap and wherever they are cancelled at the lock, the messages fed are the first packets of the bytes written, in order, and with what is pending they are those bytes. |
| `WebSocketStream.PacketStream.Read` | msgtrans-websocket/src/commonMain/kotlin/msgtrans/transport/WebSocketTransport.kt:273-300 | One read stops at the first binary or text message: what came before is gone, what comes after stays. It returns the bytes if and only if that message is binary and as long as its 16-byte header and the two lengths in it say; any other binary message and a text are refused; with no such message it reports the end. |
| `WebSocketStream.ReadNextGives` | msgtrans-websocket/src/commonMain/kotlin/msgtrans/transport/WebSocketTransport.kt:273-300 | The same of the function that the results on whole sessions use. |
| `HappyEyeballs.FailsOnlyWhenAllFailed` | msgtrans-quic/src/commonMain/kotlin/msgtrans/transport/QuicTransport.kt:103-141 | Over every run: `open` reports a connect failure only when every address was tried in order and either could not start or has an attempt of its own whose handshake ended in failure, and when no handshake ended in success. |
| `HappyEyeballs.OnlyTheWinnerStaysOpen` | msgtrans-quic/src/commonMain/kotlin/msgtrans/transport/QuicTransport.kt:131-181 | When the race is over, by a winner, a failure, a cancellation or a failed `openBi`, and after any handshakes that end later, an endpoint is open and a completed handshake unclosed if and only if they are the returned winner's. |
| `HappyEyeballs.WinnerIsFirstSuccess` | msgtrans-quic/src/commonMain/kotlin/msgtrans/transport/QuicTransport.kt:117-130 | Over every run: the winner's handshake ended in success, and every handshake that ended before it, of whichever attempt, in failure; whatever else was received had failed. |
| `HappyEyeballs.FirstSuccessWins` | msgtrans-quic/src/commonMain/kotlin/msgtrans/transport/QuicTransport.kt:123-130 | When the loop receives an outcome, it ends the race for that attempt if its handshake had ended in success, and goes on if in failure. |
| `HappyEyeballs.EndingsAreEvents` | msgtrans-quic/src/commonMain/kotlin/msgtrans/transport/QuicTransport.kt:168-182 | The record these results speak of holds exactly the handshakes that some event of the run ended, and how. |
| `HappyEyeballs.StreamDecides` | msgtrans-quic/src/commonMain/kotlin/msgtrans/transport/QuicTransport.kt:141-149 | `open` returns the winner when its stream opens; when that fails it throws and nothing stays open. |
| `HappyEyeballs.StepInv` | msgtrans-quic/src/commonMain/kotlin/msgtrans/transport/QuicTransport.kt:93-184 | Every step of the race keeps the invariant that counts running attempts and places every endpoint and connection. |
| `HappyEyeballs.Race.CloseLosers` | msgtrans-quic/src/commonMain/kotlin/msgtrans/transport/QuicTransport.kt:131-140 | The `finally` block does to every attempt what the model says. |
| `HappyEyeballs.Race.DrainOutcomes` | msgtrans-quic/src/commonMain/kotlin/msgtrans/transport/QuicTransport.kt:135-138 | Exactly the connections of the undelivered outcomes that did not win are closed. |
| `HappyEyeballs.Race.CloseEndpoints` | msgtrans-quic/src/commonMain/kotlin/msgtrans/transport/QuicTransport.kt:139-139 | Exactly the endpoints that did not win are closed. |
| `Histograms.IndexInRange` | msgtrans-bench/src/nativeMain/kotlin/msgtrans/bench/Harness.kt:133-138 | Every Long from 1 up falls into one of the buckets 1 to 31 and 160 to 2015. |
| `Histograms.IndexMonotone` | msgtrans-bench/src/nativeMain/kotlin/msgtrans/bench/Harness.kt:133-138 | A larger value never falls into an earlier bucket. |
| `Histograms.UpperBoundIsClose` | msgtrans-bench/src/nativeMain/kotlin/msgtrans/bench/Harness.kt:141-147 | The bound of a value's bucket is at least the value, exceeds it by less than a 32nd, is exact below 64 and stays a Long. |
| `Histograms.UpperBoundIsInBucket` | msgtrans-bench/src/nativeMain/kotlin/msgtrans/bench/Harness.kt:141-147 | The bound of each of those buckets falls into the bucket itself: it is the largest value there, and no such bucket is unused. |
| `Histograms.UpperBoundIs` | msgtrans-bench/src/nativeMain/kotlin/msgtrans/bench/Harness.kt:145-146 | The bound in Long arithmetic is the exact one for every bucket, although the sum leaves the range for the last. |
| `Histograms.ReportedIsClose` | msgtrans-bench/src/nativeMain/kotlin/msgtrans/bench/Harness.kt:149-158 | The bucket where the cumulative count reaches the rank is that of the true nearest-rank value, so what is reported is at least it and less than a 32nd above it. |
| `Histograms.RankInSorted` | msgtrans-bench/src/nativeMain/kotlin/msgtrans/bench/Harness.kt:149-158 | The rank used is the nearest-rank order statistic: in a sorted sequence, the value at that place. |
| `Histograms.RankUnique` | msgtrans-bench/src/nativeMain/kotlin/msgtrans/bench/Harness.kt:149-158 | At most one value has a rank. |
| `Histograms.HasRank` | msgtrans-bench/src/nativeMain/kotlin/msgtrans/bench/Harness.kt:149-158 | Every rank from one to the number of values is some value's. |
| `Histograms.LatencyHistogram.Record` | msgtrans-bench/src/nativeMain/kotlin/msgtrans/bench/Harness.kt:125-131 | The recorded values grow by the value, raised to 1, and the buckets still count them. |
| `Histograms.LatencyHistogram.Percentile` | msgtrans-bench/src/nativeMain/kotlin/msgtrans/bench/Harness.kt:149-158 | For every sequence recorded and every percentage, a value of the nearest rank exists and the loop's result reports it within a 32nd, never above the maximum; 0 with nothing recorded, the maximum beyond 100 per cent. |
| `Histograms.NearestRankIs` | msgtrans-bench/src/nativeMain/kotlin/msgtrans/bench/Harness.kt:151-151 | The rank is the least whole number of values that makes up the percentage. |
| `ZstdStream.DecompressesIffComplete` | msgtrans/src/zstdKmpMain/kotlin/msgtrans/core/ZstdCodec.zstdKmp.kt:50-83 | For any decoder that consumes at most its input and produces at most its room, and any limit below the largest Int: bytes are returned if and only if there is input and some number of calls completes the frame with all of it consumed within the limit, and they are everything those calls produced. Otherwise the reason given is that of the call that stopped the loop; empty input, and no other, is refused as empty. |
| `ZstdStream.LoopFollowsCalls` | msgtrans/src/zstdKmpMain/kotlin/msgtrans/core/ZstdCodec.zstdKmp.kt:57-80 | The loop ends, since unread input and room left decrease together, and its outcome is what the successive decoder calls determine. |
| `ZstdStream.LimitIsExact` | msgtrans/src/zstdKmpMain/kotlin/msgtrans/core/ZstdCodec.zstdKmp.kt:58-74 | Below the largest Int the check refuses exactly the outputs over the limit. |
| `ZstdStream.LimitIsExactIff` | msgtrans/src/zstdKmpMain/kotlin/msgtrans/core/ZstdCodec.zstdKmp.kt:58-74 | The check is exact if and only if the limit is below the largest Int. |
| `ZstdStream.LargestLimitOverruns` | msgtrans/src/zstdKmpMain/kotlin/msgtrans/core/ZstdCodec.zstdKmp.kt:72-74 | With the largest Int as limit a decoder that always fills its chunk makes the byte count wrap. |
| `ZstdStream.Decompress` | msgtrans/src/zstdKmpMain/kotlin/msgtrans/core/ZstdCodec.zstdKmp.kt:50-92 | The loop with its offset, chunk and collector computes that outcome. |
| `ZstdStream.ByteCollector.Append` | msgtrans/src/commonMain/kotlin/msgtrans/core/PayloadCompression.kt:73-77 | The collected bytes grow by the first `count` bytes, by nothing for a count of zero or less. |
| `ZstdStream.ByteCollector.ToByteArray` | msgtrans/src/commonMain/kotlin/msgtrans/core/PayloadCompression.kt:79-87 | The array is the concatenation of the chunks. |

## Left out

- The CHANNEL write mode, which rests on the internals of kotlinx `Channel` and `select`.
- Liveness of the slot and room wake-ups: a woken waiter that is cancelled or times out before it runs does not always pass its wake-up on. `FreedSlotIsPassedOn` and `FreedRoomIsPassedOn` say who is woken, not that the freed slot or room is then used.
- The handler loop, the first-packet policy, inbound queueing and payload compression in the read loop; only its handling of a Response is modelled.
- The compress loop, the zlib codecs and the Android zstd codec, which have the same shape as the loop modelled.
- zstd, zlib, QUIC, TLS, WebSocket and the reactors themselves, which are foreign code.
- WebSocket keepalive, closing handshake and upgrade.
- The QUIC server side and `QuicSessionStream`.
- Transports, platform bindings, handlers and the rest of the benchmark, where there is little to prove; the histogram's `sum`, `min` and `mean`.
- Calls from other threads, which hop to the owner before they touch any of the state modelled, and the second `isActive` check of `watch`, which only such threads make necessary.
- IdMaps.IdMap.Set: table sizes are not bounded by the largest `Int`.
- Histograms.LatencyHistogram.Percentile: computes the rank exactly, not in floating point.
- ReactorQueueModel.LosslessFifo: the queue has one producer and one consumer, as its contract demands.
- WebSocketStream.PacketStream.Write: is one write from its beginning to its end; how writes overlap is `OverlappingWrites`, which has no failing feeds or flushes.
