/**
 A WebSocket carrying packets: the bytes written are cut at packet boundaries into one binary message
 each, and each binary message read must be exactly one packet.
 */
module WebSocketStream {
  import opened Bits
  import opened Bytes
  import opened Streaming
  import opened Wrappers
  import opened Packets
  import PacketCodec

  datatype Message = Binary(data: seq<byte>) | Text | Ping | Pong | Close

  /** The next whole packet of the written bytes, cut by the lengths its header announces. */
  function Cut(limit: int, b: seq<byte>): Verdict<seq<byte>> {
    if |b| < FIXED_HEADER_SIZE then NeedMore
    else
      var length := PacketCodec.Announced(b);
      if length > limit then Malformed(MessageTooLong(length, limit))
      else if |b| < length then NeedMore
      else Decoded(b[..length], b[length..])
  }

  function Cutter(limit: int): Decoder<seq<byte>> {
    (b: seq<byte>) => Cut(limit, b)
  }

  lemma CutterIsIncremental(limit: int)
    ensures Incremental(Cutter(limit))
  {
    forall b: seq<byte>, more: seq<byte>
      ensures Cut(limit, b).Malformed? ==> Cut(limit, b + more) == Cut(limit, b)
      ensures Cut(limit, b).Decoded? ==> Cut(limit, b + more) == Decoded(Cut(limit, b).item, Cut(limit, b).rest + more)
    {
      if |b| >= FIXED_HEADER_SIZE {
        PacketCodec.SameHeader(b, more);
        var n := PacketCodec.Announced(b);
        if |b| >= n {
          assert (b + more)[..n] == b[..n] && (b + more)[n..] == b[n..] + more;
        }
      }
    }
  }

  /** No byte is lost, added or moved: the messages and what is still pending are the bytes written. */
  lemma {:induction false} CutsConserveBytes(limit: int, b: seq<byte>)
    ensures Concat(Drain(Cutter(limit), b).items) + Drain(Cutter(limit), b).buffered == b
    decreases |b|
  {
    if Cut(limit, b).Decoded? {
      var m, rest := Cut(limit, b).item, Cut(limit, b).rest;
      var r := Drain(Cutter(limit), rest);
      CutsConserveBytes(limit, rest);
      ConsConcat(m, r.items, r.buffered);
      SplitAt(b, |m|);
    }
  }

  lemma SplitAt(b: seq<byte>, n: nat)
    requires n <= |b|
    ensures b[..n] + b[n..] == b
  {
  }

  lemma ConsConcat(m: seq<byte>, ms: seq<seq<byte>>, tail: seq<byte>)
    ensures Concat([m] + ms) + tail == m + (Concat(ms) + tail)
  {
    assert ([m] + ms)[1..] == ms;
    assert (m + Concat(ms)) + tail == m + (Concat(ms) + tail);
  }

  /** The length `checkOnePacket` computes from the header, with shifts and ors. */
  function ShiftedLength(data: seq<byte>): nat
    requires |data| >= FIXED_HEADER_SIZE
  {
    FIXED_HEADER_SIZE + Or(Shl(data[8], 8), data[9])
    + Or(Or(Or(Shl(data[10], 24), Shl(data[11], 16)), Shl(data[12], 8)), data[13])
  }

  function CheckOnePacket(data: seq<byte>): Option<ProtocolError> {
    if |data| < FIXED_HEADER_SIZE then Some(MessageTooShort(|data|))
    else if ShiftedLength(data) != |data| then Some(MessageMismatch(|data|, ShiftedLength(data)))
    else None
  }

  lemma Pow2Values()
    ensures Pow2(8) == 0x100 && Pow2(16) == 0x1_0000 && Pow2(24) == 0x100_0000
  {
    Pow2Adds(8, 8);
    Pow2Adds(16, 8);
  }

  lemma OrOfBytes(a: byte, b: byte, c: byte, d: byte)
    ensures Or(Or(Or(Shl(a, 24), Shl(b, 16)), Shl(c, 8)), d) == a as int * 0x100_0000 + b as int * 0x1_0000 + c as int * 0x100 + d
  {
    Pow2Values();
    OrIsSum(a, 24, Shl(b, 16));
    var ab := a as int * 0x100 + b;
    assert Shl(ab, 16) == Shl(a, 24) + Shl(b, 16);
    OrIsSum(ab, 16, Shl(c, 8));
    var abc := ab * 0x100 + c;
    assert Shl(abc, 8) == Shl(ab, 16) + Shl(c, 8);
    OrIsSum(abc, 8, d);
  }

  /** The shifted and or-ed length is the big-endian one. */
  lemma ShiftedIsAnnounced(data: seq<byte>)
    requires |data| >= FIXED_HEADER_SIZE
    ensures ShiftedLength(data) == PacketCodec.Announced(data)
  {
    Pow2Values();
    OrIsSum(data[8], 8, data[9]);
    Spelled(data[8..10]);
    Spelled(data[10..14]);
    OrOfBytes(data[10], data[11], data[12], data[13]);
  }

  /** Length of the packet a header starts: 16 bytes and the two lengths in bytes 8 to 13, most significant first. */
  ghost function HeaderLength(b: seq<byte>): nat
    requires |b| >= 16
  {
    16 + (b[8] as int * 0x100 + b[9])
    + (b[10] as int * 0x100_0000 + b[11] as int * 0x1_0000 + b[12] as int * 0x100 + b[13])
  }

  lemma AnnouncedIsHeaderLength(b: seq<byte>)
    requires |b| >= 16
    ensures PacketCodec.Announced(b) == HeaderLength(b)
  {
    Spelled(b[8..10]);
    Spelled(b[10..14]);
  }

  /** The message is its header and as many bytes as that announces. */
  ghost predicate OnePacket(data: seq<byte>) {
    |data| >= 16 && |data| == HeaderLength(data)
  }

  /** The check of the receiver, in the bytes themselves. */
  lemma ChecksIffOnePacket(data: seq<byte>)
    ensures CheckOnePacket(data) == if OnePacket(data) then None
                                    else if |data| < 16 then Some(MessageTooShort(|data|))
                                    else Some(MessageMismatch(|data|, HeaderLength(data)))
  {
    if |data| >= 16 {
      ShiftedIsAnnounced(data);
      AnnouncedIsHeaderLength(data);
    }
  }

  /** The cut of the sender, in the bytes themselves: a header that announces more than the limit is refused. */
  lemma CutTable(limit: int, b: seq<byte>)
    ensures if |b| < 16 then Cut(limit, b) == NeedMore
            else if HeaderLength(b) > limit then Cut(limit, b) == Malformed(MessageTooLong(HeaderLength(b), limit))
            else if |b| < HeaderLength(b) then Cut(limit, b) == NeedMore
            else Cut(limit, b) == Decoded(b[..HeaderLength(b)], b[HeaderLength(b)..])
  {
    if |b| >= 16 { AnnouncedIsHeaderLength(b); }
  }

  lemma CutIsOnePacket(limit: int, b: seq<byte>)
    requires Cut(limit, b).Decoded?
    ensures OnePacket(Cut(limit, b).item) && |Cut(limit, b).item| <= limit
  {
    CutTable(limit, b);
    var m := Cut(limit, b).item;
    assert forall i | 0 <= i < |m| :: m[i] == b[i];
  }

  /**
   What cutting all of `b` feeds and where it stops: each message is one packet within the limit, and the first header
   that announces more is refused with nothing of it fed.
   */
  lemma {:induction false} OverLimitStops(limit: int, b: seq<byte>)
    ensures var r := Drain(Cutter(limit), b);
            && (forall m | m in r.items :: OnePacket(m) && |m| <= limit)
            && Concat(r.items) + r.buffered == b
            && (r.error == if |r.buffered| >= 16 && HeaderLength(r.buffered) > limit
                           then Some(MessageTooLong(HeaderLength(r.buffered), limit)) else None)
            && (r.error.None? ==> |r.buffered| < 16 || |r.buffered| < HeaderLength(r.buffered))
    decreases |b|
  {
    CutsConserveBytes(limit, b);
    CutTable(limit, b);
    if Cut(limit, b).Decoded? {
      CutIsOnePacket(limit, b);
      OverLimitStops(limit, Cut(limit, b).rest);
      var r := Drain(Cutter(limit), b);
      assert forall m | m in r.items :: m == Cut(limit, b).item || m in Drain(Cutter(limit), Cut(limit, b).rest).items;
    }
  }

  /** The receiver passes exactly the messages the sender's cutting can produce. */
  lemma ChecksIffOneCut(data: seq<byte>)
    ensures CheckOnePacket(data).None? <==> Cut(|data|, data) == Decoded(data, [])
  {
    if |data| >= FIXED_HEADER_SIZE {
      ShiftedIsAnnounced(data);
      assert data[..|data|] == data;
    }
  }

  lemma CutAnywhere(limit: int, m: seq<byte>)
    requires Cut(limit, m) == Decoded(m, [])
    ensures Cut(|m|, m) == Decoded(m, [])
  {
  }

  /** Packets whose encodings go out as messages of at most `limit` bytes. */
  ghost predicate Sendable(ps: seq<Packet>, limit: int) {
    forall p | p in ps :: |p.extHeader| <= 0xFFFF && |p.payload| <= 0xFFFF_FFFF && Size(p) <= limit
  }

  ghost function Encodings(ps: seq<Packet>): seq<seq<byte>> {
    seq(|ps|, i requires 0 <= i < |ps| => PacketCodec.Encode(ps[i]))
  }

  lemma {:induction false} EncodingsConcat(ps: seq<Packet>)
    ensures Concat(Encodings(ps)) == WireAll(PacketCodec.Encode, ps)
    ensures WireAll((m: seq<byte>) => m, Encodings(ps)) == WireAll(PacketCodec.Encode, ps)
  {
    if ps != [] {
      EncodingsConcat(ps[1..]);
      assert Encodings(ps)[1..] == Encodings(ps[1..]);
    }
  }

  lemma CutOfEncode(limit: int, p: Packet, rest: seq<byte>)
    requires |p.extHeader| <= 0xFFFF && |p.payload| <= 0xFFFF_FFFF && Size(p) <= limit
    ensures Cut(limit, PacketCodec.Encode(p) + rest) == Decoded(PacketCodec.Encode(p), rest)
  {
    PacketCodec.AnnouncedOfEncode(p, rest);
    CutAt(limit, PacketCodec.Encode(p), rest);
  }

  lemma CutAt(limit: int, m: seq<byte>, rest: seq<byte>)
    requires FIXED_HEADER_SIZE <= |m| <= limit && PacketCodec.Announced(m + rest) == |m|
    ensures Cut(limit, m + rest) == Decoded(m, rest)
  {
  }

  lemma CutterReadsBack(limit: int, ps: seq<Packet>)
    requires Sendable(ps, limit)
    ensures ReadsBack(Cutter(limit), (m: seq<byte>) => m, Encodings(ps))
  {
    forall m, rest | m in Encodings(ps) ensures Cut(limit, m + rest) == Decoded(m, rest) {
      var i :| 0 <= i < |ps| && m == PacketCodec.Encode(ps[i]);
      assert ps[i] in ps;
      CutOfEncode(limit, ps[i], rest);
    }
  }

  /** The receiver passes every encoding. */
  lemma EncodingsPass(limit: int, ps: seq<Packet>)
    requires Sendable(ps, limit)
    ensures forall m | m in Encodings(ps) :: CheckOnePacket(m).None?
  {
    forall m | m in Encodings(ps) ensures CheckOnePacket(m).None? {
      var i :| 0 <= i < |ps| && m == PacketCodec.Encode(ps[i]);
      assert ps[i] in ps;
      CutOfEncode(limit, ps[i], []);
      assert m + [] == m;
      CutAnywhere(limit, m);
      ChecksIffOneCut(m);
    }
  }

  /**
   However a stream of packets is split across writes, each packet goes out as one message of its own, in
   order, nothing stays pending at the end, and the receiver passes every message.
   */
  lemma OneMessagePerPacket(limit: int, ps: seq<Packet>, writes: seq<seq<byte>>)
    requires Sendable(ps, limit)
    requires Concat(writes) == WireAll(PacketCodec.Encode, ps)
    ensures SameOutcome(FeedAll(Cutter(limit), Reader([], [], None), writes), Reader(Encodings(ps), [], None))
    ensures forall m | m in Encodings(ps) :: CheckOnePacket(m).None?
  {
    CutterIsIncremental(limit);
    CutterReadsBack(limit, ps);
    EncodingsConcat(ps);
    EncodingsPass(limit, ps);
    ChunkingIrrelevant(Cutter(limit), writes);
    WholeStreamDecodes(Cutter(limit), (m: seq<byte>) => m, Encodings(ps));
  }

  datatype WriteResult = Wrote | TooLong(error: ProtocolError) | FeedFailed | FlushFailed

  datatype ReadResult = GotBytes(data: seq<byte>) | Ended | Refused(error: ProtocolError)

  /** One `read`: skips control messages; `rest` is what the WebSocket has still to deliver. */
  function ReadNext(inbox: seq<Message>): (ReadResult, seq<Message>) {
    if inbox == [] then (Ended, [])
    else match inbox[0]
      case Binary(data) =>
        (if CheckOnePacket(data).Some? then Refused(CheckOnePacket(data).value) else GotBytes(data), inbox[1..])
      case Text => (Refused(TextMessage), inbox[1..])
      case _ => ReadNext(inbox[1..])
  }

  /** Message `i` is the first that is not a control message. */
  ghost predicate FirstData(inbox: seq<Message>, i: nat) {
    && i < |inbox| && (inbox[i].Binary? || inbox[i].Text?)
    && forall j | 0 <= j < i :: inbox[j].Ping? || inbox[j].Pong? || inbox[j].Close?
  }

  /** What a read makes of the message it stops at. */
  ghost predicate ReadAs(m: Message, r: ReadResult) {
    match m
    case Binary(data) =>
      if OnePacket(data) then r == GotBytes(data)
      else r == Refused(if |data| < 16 then MessageTooShort(|data|) else MessageMismatch(|data|, HeaderLength(data)))
    case _ => r == Refused(TextMessage)
  }

  /** A read that finds `inbox` gives `r` and leaves `rest`: it stops at the first message of data, or at the end. */
  ghost predicate ReadGives(inbox: seq<Message>, r: ReadResult, rest: seq<Message>) {
    && (forall i: nat | FirstData(inbox, i) :: rest == inbox[i + 1..] && ReadAs(inbox[i], r))
    && ((forall i: nat :: !FirstData(inbox, i)) ==> rest == [] && r == Ended)
  }

  lemma {:induction false} ReadNextGives(inbox: seq<Message>)
    ensures ReadGives(inbox, ReadNext(inbox).0, ReadNext(inbox).1)
    decreases |inbox|
  {
    if inbox == [] {
      return;
    }
    if inbox[0].Binary? || inbox[0].Text? {
      if inbox[0].Binary? { ChecksIffOnePacket(inbox[0].data); }
      assert FirstData(inbox, 0);
      assert forall i: nat | FirstData(inbox, i) :: i == 0;
      return;
    }
    var tail := inbox[1..];
    ReadNextGives(tail);
    forall i: nat | i < |tail| ensures FirstData(tail, i) <==> FirstData(inbox, i + 1) { FirstDataLater(inbox, i); }
    forall i: nat | FirstData(inbox, i) ensures ReadNext(inbox).1 == inbox[i + 1..] && ReadAs(inbox[i], ReadNext(inbox).0) {
      assert FirstData(tail, i - 1);
    }
    if i: nat :| FirstData(tail, i) { assert FirstData(inbox, i + 1); }
  }

  lemma FirstDataLater(inbox: seq<Message>, i: nat)
    requires i + 1 < |inbox| && !inbox[0].Binary? && !inbox[0].Text?
    ensures FirstData(inbox[1..], i) <==> FirstData(inbox, i + 1)
  {
    var tail := inbox[1..];
    if FirstData(tail, i) {
      forall j | 0 <= j < i + 1 ensures inbox[j].Ping? || inbox[j].Pong? || inbox[j].Close? {
        if j > 0 { assert inbox[j] == tail[j - 1]; }
      }
    }
  }

  /** The binary messages among `inbox`. */
  ghost function Payloads(inbox: seq<Message>): seq<seq<byte>> {
    if inbox == [] then []
    else (match inbox[0] case Binary(data) => [data] case _ => []) + Payloads(inbox[1..])
  }

  /** The chunks successive reads put into the connection's buffer, until the session ends or is refused. */
  ghost function ReadAll(inbox: seq<Message>): (chunks: seq<seq<byte>>)
    decreases |inbox|
  {
    ReadNextShortens(inbox);
    match ReadNext(inbox).0
    case GotBytes(data) => [data] + ReadAll(ReadNext(inbox).1)
    case _ => []
  }

  lemma {:induction false} ReadNextShortens(inbox: seq<Message>)
    ensures |ReadNext(inbox).1| < |inbox| || inbox == []
    ensures inbox == [] ==> ReadNext(inbox) == (Ended, [])
  {
    if inbox != [] && !inbox[0].Binary? && !inbox[0].Text? {
      ReadNextShortens(inbox[1..]);
    }
  }

  /** Pings, pongs and close frames between the packets change nothing of what is read. */
  lemma {:induction false} ReadsAllPayloads(inbox: seq<Message>)
    requires Text !in inbox
    requires forall m | m in Payloads(inbox) :: CheckOnePacket(m).None?
    ensures ReadAll(inbox) == Payloads(inbox)
    decreases |inbox|
  {
    if inbox != [] {
      var tail := inbox[1..];
      match inbox[0]
      case Binary(data) =>
        assert data in Payloads(inbox);
        ReadsAllPayloads(tail);
      case Text =>
      case _ =>
        assert Payloads(inbox) == Payloads(tail);
        ReadsAllPayloads(tail);
        SkipControl(inbox);
    }
  }

  lemma SkipControl(inbox: seq<Message>)
    requires inbox != [] && !inbox[0].Binary? && !inbox[0].Text?
    ensures ReadAll(inbox) == ReadAll(inbox[1..])
  {
    ReadNextShortens(inbox[1..]);
  }

  /**
   End to end: packets written in any pieces, carried one message each among any control messages, reach the
   peer's codec as the packets written.
   */
  lemma WebSocketDeliversPackets(limit: int, max: int, ps: seq<Packet>, writes: seq<seq<byte>>, inbox: seq<Message>)
    requires Sendable(ps, limit) && forall p | p in ps :: WithinLimits(p, max)
    requires Concat(writes) == WireAll(PacketCodec.Encode, ps)
    requires Text !in inbox
    requires Payloads(inbox) == FeedAll(Cutter(limit), Reader([], [], None), writes).items
    ensures FeedAll(PacketCodec.Plain(max), Reader([], [], None), ReadAll(inbox)).items == ps
    ensures FeedAll(PacketCodec.Plain(max), Reader([], [], None), ReadAll(inbox)).error == None
  {
    OneMessagePerPacket(limit, ps, writes);
    ReadsAllPayloads(inbox);
    EncodingsConcat(ps);
    PacketCodec.PlainIsIncremental(max);
    PacketCodec.PlainReadsBack(max, ps);
    WholeStreamDecodes(PacketCodec.Plain(max), PacketCodec.Encode, ps);
    ChunkingIrrelevant(PacketCodec.Plain(max), ReadAll(inbox));
  }

  /** The reader `r` having delivered `items` before. */
  ghost function After<T>(items: seq<T>, r: Reader<T>): Reader<T> {
    r.(items := items + r.items)
  }

  lemma StopsHere(limit: int, b: seq<byte>, items: seq<seq<byte>>)
    requires !Cut(limit, b).Decoded?
    ensures After(items, Drain(Cutter(limit), b))
            == Reader(items, b, if Cut(limit, b).Malformed? then Some(Cut(limit, b).error) else None)
  {
    assert items + [] == items;
  }

  lemma CutSoFar(cut: seq<seq<byte>>, r: Reader<seq<byte>>)
    requires cut != []
    ensures var items := After(cut, r).items;
            |cut| <= |items| && items[..|cut|] == cut && items[..|cut| - 1] == cut[..|cut| - 1]
  {
  }

  /** What a write reports, given all that it can cut. */
  function Outcome(r: Reader<seq<byte>>, failsAt: Option<nat>, flushFails: bool): WriteResult {
    if failsAt.Some? && failsAt.value < |r.items| then FeedFailed
    else if r.error.Some? then TooLong(r.error.value)
    else if r.items != [] && flushFails then FlushFailed
    else Wrote
  }

  /** What a write reports, in the bytes themselves. */
  lemma WriteReports(limit: int, b: seq<byte>, failsAt: Option<nat>, flushFails: bool)
    ensures var r := Drain(Cutter(limit), b);
            var w, tooLong := Outcome(r, failsAt, flushFails), |r.buffered| >= 16 && HeaderLength(r.buffered) > limit;
            if failsAt.Some? && failsAt.value < |r.items| then w == FeedFailed
            else if tooLong then w == TooLong(MessageTooLong(HeaderLength(r.buffered), limit))
            else w == if r.items != [] && flushFails then FlushFailed else Wrote
  {
    OverLimitStops(limit, b);
  }

  /**
   What a write of the bytes `all` has fed and left pending, given all that it can cut: every packet, or those before
   the one whose feed failed, which alone is lost.
   */
  ghost predicate Fed(before: seq<seq<byte>>, fed: seq<seq<byte>>, all: seq<byte>, pending: seq<byte>, r: Reader<seq<byte>>,
                      failsAt: Option<nat>) {
    if failsAt.Some? && failsAt.value < |r.items| then
      fed == before + r.items[..failsAt.value] && Concat(r.items[..failsAt.value + 1]) + pending == all
    else
      fed == before + r.items && pending == r.buffered
  }

  /** Cutting `all` packet by packet gives `cut` and leaves `b`. */
  ghost predicate Cuts(limit: int, all: seq<byte>, b: seq<byte>, cut: seq<seq<byte>>)
    decreases |cut|
  {
    if cut == [] then all == b
    else
      var v := Cut(limit, all);
      v.Decoded? && v.item == cut[0] && Cuts(limit, v.rest, b, cut[1..])
  }

  lemma {:induction false} NextCut(limit: int, all: seq<byte>, b: seq<byte>, cut: seq<seq<byte>>)
    requires Cuts(limit, all, b, cut) && Cut(limit, b).Decoded?
    ensures Cuts(limit, all, Cut(limit, b).rest, cut + [Cut(limit, b).item])
    decreases |cut|
  {
    var m := Cut(limit, b).item;
    if cut == [] {
      assert (cut + [m])[1..] == cut;
    } else {
      NextCut(limit, Cut(limit, all).rest, b, cut[1..]);
      assert (cut + [m])[1..] == cut[1..] + [m];
    }
  }

  lemma DrainOne(limit: int, b: seq<byte>)
    requires Cut(limit, b).Decoded?
    ensures Drain(Cutter(limit), b) == After([Cut(limit, b).item], Drain(Cutter(limit), Cut(limit, b).rest))
  {
  }

  lemma AfterBoth<T>(m: T, ms: seq<T>, r: Reader<T>)
    ensures After([m], After(ms, r)) == After([m] + ms, r)
  {
    assert [m] + (ms + r.items) == [m] + ms + r.items;
  }

  /** So the packets cut are the first of all that can be. */
  lemma {:induction false} CutsAreDrained(limit: int, all: seq<byte>, b: seq<byte>, cut: seq<seq<byte>>)
    requires Cuts(limit, all, b, cut)
    ensures Drain(Cutter(limit), all) == After(cut, Drain(Cutter(limit), b))
    decreases |cut|
  {
    var r := Drain(Cutter(limit), b);
    if cut == [] {
      assert cut + r.items == r.items;
      return;
    }
    CutsAreDrained(limit, Cut(limit, all).rest, b, cut[1..]);
    DrainOne(limit, all);
    AfterBoth(cut[0], cut[1..], r);
    assert [cut[0]] + cut[1..] == cut;
  }

  lemma JoinAll(a: seq<byte>, b: seq<byte>, c: seq<byte>)
    ensures a + (b + c) == a + b + c
  {
  }

  /** With what is left they are the bytes. */
  lemma {:induction false} CutsConcat(limit: int, all: seq<byte>, b: seq<byte>, cut: seq<seq<byte>>)
    requires Cuts(limit, all, b, cut)
    ensures all == Concat(cut) + b
    decreases |cut|
  {
    if cut != [] {
      var v := Cut(limit, all);
      CutsConcat(limit, v.rest, b, cut[1..]);
      SplitAt(all, |v.item|);
      JoinAll(v.item, Concat(cut[1..]), b);
    }
  }

  // Writes overlap: each adds its bytes before it waits for the lock, and may be cancelled there. So bytes are added at
  // any time, also while the holder of the lock is between two packets, and whoever holds it feeds the next packet.

  datatype WriteStep = Adds(bytes: seq<byte>) | FeedsNext

  datatype Outgoing = Outgoing(pending: seq<byte>, fed: seq<seq<byte>>)

  function Goes(limit: int, s: Outgoing, e: WriteStep): Outgoing {
    match e
    case Adds(bytes) => s.(pending := s.pending + bytes)
    case FeedsNext =>
      var v := Cut(limit, s.pending);
      if v.Decoded? then Outgoing(v.rest, s.fed + [v.item]) else s
  }

  function GoesOn(limit: int, steps: seq<WriteStep>): Outgoing {
    if steps == [] then Outgoing([], []) else Goes(limit, GoesOn(limit, steps[..|steps| - 1]), steps[|steps| - 1])
  }

  /** The bytes written, in the order in which the writes began. */
  function Written(steps: seq<WriteStep>): seq<byte> {
    if steps == [] then []
    else Written(steps[..|steps| - 1]) + if steps[|steps| - 1].Adds? then steps[|steps| - 1].bytes else []
  }

  lemma {:induction false} CutsMore(limit: int, all: seq<byte>, b: seq<byte>, cut: seq<seq<byte>>, more: seq<byte>)
    requires Cuts(limit, all, b, cut)
    ensures Cuts(limit, all + more, b + more, cut)
    decreases |cut|
  {
    if cut != [] {
      CutterIsIncremental(limit);
      assert Cutter(limit)(all).Decoded? && Cutter(limit)(all + more) == Cut(limit, all + more);
      CutsMore(limit, Cut(limit, all).rest, b, cut[1..], more);
    }
  }

  lemma {:induction false} StepsCut(limit: int, steps: seq<WriteStep>)
    ensures var s := GoesOn(limit, steps); Cuts(limit, Written(steps), s.pending, s.fed)
    decreases |steps|
  {
    if steps != [] {
      var before, e := steps[..|steps| - 1], steps[|steps| - 1];
      StepsCut(limit, before);
      var s := GoesOn(limit, before);
      if e.Adds? {
        CutsMore(limit, Written(before), s.pending, s.fed, e.bytes);
      } else {
        assert Written(steps) == Written(before);
        if Cut(limit, s.pending).Decoded? { NextCut(limit, Written(before), s.pending, s.fed); }
      }
    }
  }

  /**
   However writes overlap and wherever they are cancelled at the lock, the messages fed are the first packets of the
   bytes written, in order, and with what is pending they are those bytes: none is lost, torn, repeated or moved.
   */
  lemma OverlappingWrites(limit: int, steps: seq<WriteStep>)
    ensures var s := GoesOn(limit, steps);
            && Concat(s.fed) + s.pending == Written(steps)
            && s.fed <= Drain(Cutter(limit), Written(steps)).items
  {
    var s := GoesOn(limit, steps);
    StepsCut(limit, steps);
    CutsConcat(limit, Written(steps), s.pending, s.fed);
    CutsAreDrained(limit, Written(steps), s.pending, s.fed);
  }

  /** The loop ends where nothing more can be cut. */
  lemma FeedsAll(limit: int, all: seq<byte>, b: seq<byte>, cut: seq<seq<byte>>, before: seq<seq<byte>>, failsAt: Option<nat>)
    requires Cuts(limit, all, b, cut) && !Cut(limit, b).Decoded?
    requires failsAt.Some? ==> |cut| <= failsAt.value
    ensures var r := Drain(Cutter(limit), all);
            && Outcome(r, failsAt, false) == (if Cut(limit, b).Malformed? then TooLong(Cut(limit, b).error) else Wrote)
            && Fed(before, before + cut, all, b, r, failsAt) && r.items == cut
  {
    CutsAreDrained(limit, all, b, cut);
    StopsHere(limit, b, cut);
  }

  /** The loop ends at the packet whose feed fails, the last one cut. */
  lemma FeedsUpTo(limit: int, all: seq<byte>, b: seq<byte>, cut: seq<seq<byte>>, before: seq<seq<byte>>)
    requires Cuts(limit, all, b, cut) && cut != []
    ensures var r, failsAt := Drain(Cutter(limit), all), Some(|cut| - 1);
            Outcome(r, failsAt, false) == FeedFailed && Fed(before, before + cut[..|cut| - 1], all, b, r, failsAt)
  {
    CutsAreDrained(limit, all, b, cut);
    CutsConcat(limit, all, b, cut);
    CutSoFar(cut, Drain(Cutter(limit), b));
  }

  /** The stream's state: bytes not yet forming a packet, messages fed, messages still to read. */
  class PacketStream {
    const maxMessageSize: int
    var pending: seq<byte>
    var fed: seq<seq<byte>>
    var flushed: nat
    var inbox: seq<Message>

    constructor (maxMessageSize: int, inbox: seq<Message>)
      ensures this.maxMessageSize == maxMessageSize && this.inbox == inbox
      ensures pending == [] && fed == [] && flushed == 0
    {
      this.maxMessageSize := maxMessageSize;
      this.inbox := inbox;
      pending, fed, flushed := [], [], 0;
    }

    /**
     `write`: takes all of `src`, feeds every whole packet, flushes if it fed any and none was too long. `failsAt` is
     the packet of this write, if any, whose feed fails; `flushFails` says whether a flush does.
     */
    method Write(src: Buffer, failsAt: Option<nat>, flushFails: bool) returns (w: WriteResult)
      modifies this, src
      ensures src.readable == [] && inbox == old(inbox)
      ensures var r := Drain(Cutter(maxMessageSize), old(pending) + old(src.readable));
              && w == Outcome(r, failsAt, flushFails)
              && Fed(old(fed), fed, old(pending) + old(src.readable), pending, r, failsAt)
              && flushed == if w.Wrote? && r.items != [] then |fed| else old(flushed)
    {
      pending := pending + src.readable;
      src.readable := [];
      var queued;
      w, queued := FeedPackets(failsAt);
      if w.Wrote? && queued {
        if flushFails {
          return FlushFailed;
        }
        flushed := |fed|;
      }
    }

    /** The loop of `write`, and what it has fed. */
    method FeedPackets(failsAt: Option<nat>) returns (w: WriteResult, queued: bool)
      modifies this`pending, this`fed
      ensures var r := Drain(Cutter(maxMessageSize), old(pending));
              && w == Outcome(r, failsAt, false)
              && Fed(old(fed), fed, old(pending), pending, r, failsAt)
              && (w.Wrote? ==> (queued <==> r.items != []))
    {
      ghost var cut;
      w, queued, cut := FeedLoop(failsAt);
      if w.FeedFailed? {
        FeedsUpTo(maxMessageSize, old(pending), pending, cut, old(fed));
      } else {
        FeedsAll(maxMessageSize, old(pending), pending, cut, old(fed), failsAt);
      }
    }

    method FeedLoop(failsAt: Option<nat>) returns (w: WriteResult, queued: bool, ghost cut: seq<seq<byte>>)
      modifies this`pending, this`fed
      ensures Cuts(maxMessageSize, old(pending), pending, cut)
      ensures if w.FeedFailed? then cut != [] && failsAt == Some(|cut| - 1) && fed == old(fed) + cut[..|cut| - 1]
              else
                && fed == old(fed) + cut && (queued <==> cut != []) && (failsAt.Some? ==> |cut| <= failsAt.value)
                && Cut(maxMessageSize, pending) == (if w.TooLong? then Malformed(w.error) else NeedMore) && !w.FlushFailed?
    {
      cut := [];
      var n := 0;
      while |pending| >= FIXED_HEADER_SIZE
        invariant fed == old(fed) + cut && n == |cut| && (failsAt.Some? ==> n <= failsAt.value)
        invariant Cuts(maxMessageSize, old(pending), pending, cut)
        decreases |pending|
      {
        ghost var b := pending;
        var v := CutNext();
        if v.Malformed? {
          return TooLong(v.error), n > 0, cut;
        }
        if v.NeedMore? {
          break;
        }
        NextCut(maxMessageSize, old(pending), b, cut);
        assert old(fed) + cut + [v.item] == old(fed) + (cut + [v.item]);
        cut := cut + [v.item];
        if failsAt == Some(n) {
          return FeedFailed, n > 0, cut;
        }
        fed := fed + [v.item];
        n := n + 1;
      }
      return Wrote, n > 0, cut;
    }

    /** Take the next whole packet off the pending bytes. */
    method CutNext() returns (v: Verdict<seq<byte>>)
      requires |pending| >= FIXED_HEADER_SIZE
      modifies this`pending
      ensures v == Cut(maxMessageSize, old(pending))
      ensures pending == if v.Decoded? then v.rest else old(pending)
    {
      var length := PacketCodec.Announced(pending);
      if length > maxMessageSize {
        return Malformed(MessageTooLong(length, maxMessageSize));
      }
      if |pending| < length {
        return NeedMore;
      }
      v := Decoded(pending[..length], pending[length..]);
      pending := pending[length..];
    }

    /** `read`: the next binary message's bytes go to `dst`, once it is known to be one packet. */
    method Read(dst: Buffer) returns (r: ReadResult)
      modifies this, dst
      ensures ReadGives(old(inbox), r, inbox)
      ensures (r, inbox) == ReadNext(old(inbox))
      ensures dst.readable == if r.GotBytes? then old(dst.readable) + r.data else old(dst.readable)
      ensures pending == old(pending) && fed == old(fed) && flushed == old(flushed)
    {
      ReadNextGives(inbox);
      while inbox != []
        invariant ReadNext(inbox) == ReadNext(old(inbox))
        invariant dst.readable == old(dst.readable)
        invariant pending == old(pending) && fed == old(fed) && flushed == old(flushed)
        decreases |inbox|
      {
        var message := inbox[0];
        inbox := inbox[1..];
        match message
        case Binary(data) =>
          var check := CheckOnePacket(data);
          if check.Some? {
            return Refused(check.value);
          }
          dst.WriteBytes(data);
          return GotBytes(data);
        case Text =>
          return Refused(TextMessage);
        case _ =>
      }
      return Ended;
    }
  }
}
