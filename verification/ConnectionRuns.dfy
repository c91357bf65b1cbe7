/**
 What holds in every run of the connection, whatever coroutines, timers, cancellations, write failures and
 closes it interleaves.
 */
module ConnectionRuns {
  import opened Bytes
  import opened Streaming
  import opened Wrappers
  import opened Packets
  import opened ConnectionModel
  import opened ConnectionInvariants

  // ---- every step, every run ----

  lemma StartInv(s: State, e: Event)
    requires Inv(s) && Enabled(s, e) && (e.StartSend? || e.StartResponse? || e.StartRequest?)
    ensures Safe(s, Step(s, e))
  {
    if e.StartSend? {
      var id := NextOneWayId(s.oneWayId);
      var p := MakePacket(OneWay, id, e.bizType, e.data, e.compression);
      NewSenderInv(s, p, id);
      EnqueueInv(s.(oneWayId := id, calls := s.calls + [NewCall(Sender(p), Running, false)]), |s.calls|);
      return;
    }
    if e.StartResponse? {
      var p := MakePacket(Response, e.id, e.bizType, e.data, e.compression);
      NewSenderInv(s, p, s.oneWayId);
      EnqueueInv(s.(calls := s.calls + [NewCall(Sender(p), Running, false)]), |s.calls|);
      return;
    }
    var p := MakePacket(Request, s.requestId + 1, e.bizType, e.data, e.compression);
    NewRequestInv(s, p, e.deadline);
    SlotLoopInv(s.(requestId := p.messageId, calls := s.calls + [NewCall(Requester(p), Starting, e.deadline)]), |s.calls|);
  }

  lemma WriterInv(s: State, e: Event)
    requires Inv(s) && Enabled(s, e) && (e.WriterCancelled? || e.WriterFails?)
    ensures Safe(s, Step(s, e))
  {
    var c := s.writer.value;
    if e.WriterCancelled? {
      HandOffInv(s, c);
      FinishInv(HandOff(s, c), c, Threw(Cancelled));
      return;
    }
    WriterFailsInv(s, c, if s.calls[c].pc == InWrite then Closed else WriteFailed);
  }

  lemma StepInv(s: State, e: Event)
    requires Inv(s) && Enabled(s, e)
    ensures Inv(Step(s, e))
    ensures Step(s, e).doubleResumes == s.doubleResumes + Count(e.Deadline? && ResumesTwice(s.calls[e.c]))
  {
    match e
    case StartSend(_, _, _) => StartInv(s, e);
    case StartResponse(_, _, _, _) => StartInv(s, e);
    case StartRequest(_, _, _, _) => StartInv(s, e);
    case RunWoken(c) => WokenInv(s, c);
    case RunCancelled(c) => FinishInv(s, c, Threw(Cancelled));
    case Cancel(c) => CancelInv(s, c);
    case WriteSome(k) => WriteSomeInv(s, k);
    case WriteReturns => WriteReturnsInv(s);
    case FlushReturns => DrainLoopInv(s, s.writer.value);
    case WriterCancelled => WriterInv(s, e);
    case WriterFails => WriterInv(s, e);
    case SuccessorStarts => SuccessorInv(s, s.writer.value);
    case ScopeCancelled => ScopeCancelledInv(s);
    case Deadline(c) => ExpireInv(s, c);
    case InboundResponse(p) => RespondInv(s, p);
    case Close => ShutdownInv(s);
  }

  /** The connection as constructed. */
  lemma InitInv(cfg: Config)
    ensures Inv(Init(cfg))
  {
  }

  lemma {:induction false} RunInv(s: State, events: seq<Event>)
    requires Inv(s)
    ensures Inv(Run(s, events))
    decreases |events|
  {
    if events != [] {
      RunInv(s, events[..|events| - 1]);
      var t, e := Run(s, events[..|events| - 1]), events[|events| - 1];
      if Enabled(t, e) { StepInv(t, e); }
    }
  }

  lemma {:induction false} RunSplits(s: State, a: seq<Event>, b: seq<Event>)
    ensures Run(s, a + b) == Run(Run(s, a), b)
    decreases |b|
  {
    if b == [] {
      assert a + b == a;
    } else {
      var b' := b[..|b| - 1];
      assert (a + b)[..|a + b| - 1] == a + b';
      RunSplits(s, a, b');
    }
  }

  /** A state some run reaches. */
  ghost predicate Reachable(s: State) {
    exists cfg, events :: s == Run(Init(cfg), events)
  }

  lemma ReachableInv(s: State)
    requires Reachable(s)
    ensures Inv(s)
  {
    var cfg, events :| s == Run(Init(cfg), events);
    InitInv(cfg);
    RunInv(Init(cfg), events);
  }

  lemma ReachableRun(s: State, events: seq<Event>)
    requires Reachable(s)
    ensures Reachable(Run(s, events))
  {
    var cfg, before :| s == Run(Init(cfg), before);
    RunSplits(Init(cfg), before, events);
  }

  lemma ReachableStep(s: State, e: Event)
    requires Reachable(s) && Enabled(s, e)
    ensures Reachable(Step(s, e))
  {
    ReachableRun(s, [e]);
    assert [e][..0] == [];
    assert Run(s, [e]) == Step(s, e);
  }

  // ---- the byte stream ----

  /**
   The socket, the write buffer and the send queue together hold the encodings of the accepted packets in the
   order they were accepted: nothing is lost, repeated, reordered or torn by a writer cancelled mid-write.
   */
  lemma StreamIsAcceptedPackets(s: State)
    requires Reachable(s)
    ensures var w := Wire(s.cfg.framing);
            && s.socket <= WireAll(w, s.accepted)
            && s.socket + s.writeBuf + WireAll(w, s.sendQueue) + WireAll(w, s.dropped) == WireAll(w, s.accepted)
            && (!s.closed ==> s.dropped == [])
  {
    ReachableInv(s);
    var w := Wire(s.cfg.framing);
    WireAllAppend(w, s.encoded + s.sendQueue, s.dropped);
    WireAllAppend(w, s.encoded, s.sendQueue);
    PrefixOfSum(s.socket, s.writeBuf, WireAll(w, s.sendQueue), WireAll(w, s.dropped));
  }

  lemma PrefixOfSum(a: seq<byte>, b: seq<byte>, c: seq<byte>, d: seq<byte>)
    ensures a <= a + b + c + d
  {
  }

  /**
   At most one coroutine is the writer. An inactive writer has left nothing, and while the scope lives there is a
   writer whenever anything is left to write: a cancelled one strands nothing. `ConnectionStranding` says what a
   cancelled scope does.
   */
  lemma OneWriterNothingStranded(s: State)
    requires Reachable(s)
    ensures forall c, d | 0 <= c < |s.calls| && 0 <= d < |s.calls| && Writing(s.calls[c].pc) && Writing(s.calls[d].pc) :: c == d
    ensures !s.writerActive && !s.closed ==> s.writeBuf == [] && s.sendQueue == []
    ensures !s.closed && s.scopeActive && Unsent(s) ==>
              exists c :: 0 <= c < |s.calls| && Writing(s.calls[c].pc)
    ensures s.writerActive && s.scopeActive ==> exists c :: 0 <= c < |s.calls| && Writing(s.calls[c].pc)
  {
    ReachableInv(s);
    forall c, d | 0 <= c < |s.calls| && 0 <= d < |s.calls| && Writing(s.calls[c].pc) && Writing(s.calls[d].pc) ensures c == d {
      Of(s, c);
      Of(s, d);
    }
    if s.writer.Some? { Of(s, s.writer.value); }
  }

  /** The decoder a peer with payload limit `max` runs on this connection's stream. */
  function PeerDecoder(f: Framing, max: int): Decoder<Packet> {
    match f
    case PlainPackets => PacketCodec.Plain(max)
    case LengthPrefixed => LengthPrefixedCodec.Prefixed(max)
  }

  lemma PeerReadsBack(s: State, max: int)
    requires PacketsOk(s) && s.cfg.maxPayloadLength <= max
    ensures Incremental(PeerDecoder(s.cfg.framing, max))
    ensures ReadsBack(PeerDecoder(s.cfg.framing, max), Wire(s.cfg.framing), s.accepted)
  {
    assert forall p | p in s.accepted :: WithinLimits(p, max) && Size(p) <= 0xFFFF_FFFF;
    match s.cfg.framing
    case PlainPackets =>
      PacketCodec.PlainIsIncremental(max);
      PacketCodec.PlainReadsBack(max, s.accepted);
    case LengthPrefixed =>
      LengthPrefixedCodec.PrefixedIsIncremental(max);
      LengthPrefixedCodec.PrefixedReadsBack(max, s.accepted);
  }

  /**
   End to end: a peer that has received any part of the socket's bytes, in any chunks, has decoded exactly
   the accepted packets that lie whole within it, in order, and has met no protocol error.
   */
  lemma PeerDecodesAcceptedPrefix(s: State, max: int, chunks: seq<seq<byte>>)
    requires Reachable(s) && s.cfg.maxPayloadLength <= max
    requires Concat(chunks) <= s.socket
    ensures var r := FeedAll(PeerDecoder(s.cfg.framing, max), Reader([], [], None), chunks);
            var k := WholeItems(Wire(s.cfg.framing), s.accepted, |Concat(chunks)|);
            r.error == None && r.items == s.accepted[..k]
  {
    ReachableInv(s);
    StreamIsAcceptedPackets(s);
    PeerReadsBack(s, max);
    var d, w := PeerDecoder(s.cfg.framing, max), Wire(s.cfg.framing);
    PrefixTransitive(Concat(chunks), s.socket, WireAll(w, s.accepted));
    ChunkingIrrelevant(d, chunks);
    PrefixDecodes(d, w, s.accepted, Concat(chunks));
  }

  lemma PrefixTransitive(a: seq<byte>, b: seq<byte>, c: seq<byte>)
    requires a <= b && b <= c
    ensures a <= c
  {
  }

  // ---- bounds ----

  /** Everything the connection holds is bounded, and the clamp of `releaseOutboundBytes` never acts. */
  lemma EverythingBounded(s: State)
    requires Reachable(s)
    ensures s.queuedBytes == QueueBytes(s.sendQueue) && (s.queuedBytes == 0 || s.queuedBytes <= s.cfg.maxOutboundBytes)
    ensures |s.sendQueue| <= s.cfg.mailboxCapacity
    ensures |s.pending| <= s.cfg.maxInFlightRequests
    ensures s.sendQueue != [] ==> Released(s.queuedBytes, PacketBytes(s.sendQueue[0])) == QueueBytes(s.sendQueue[1..])
    ensures forall p | p in s.accepted :: |p.payload| <= s.cfg.maxPayloadLength && |p.payload| <= s.cfg.maxOutboundBytes
  {
    ReachableInv(s);
  }
}
