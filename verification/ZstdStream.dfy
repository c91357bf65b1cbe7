/**
 The zstd decompression loop over an arbitrary streaming decoder, and the chunk collector it fills.
 */
module ZstdStream {
  import opened Bytes
  import opened Wrappers
  import opened Streaming

  const MAX_CHUNK_SIZE := 64 * 1024
  const MIN_CHUNK_SIZE := 1024

  /** `workingChunkSize` */
  function ChunkSize(inputSize: nat): (n: nat)
    ensures MIN_CHUNK_SIZE <= n <= MAX_CHUNK_SIZE
  {
    var n := if inputSize < MIN_CHUNK_SIZE then MIN_CHUNK_SIZE else inputSize;
    if n > MAX_CHUNK_SIZE then MAX_CHUNK_SIZE else n
  }

  /** One `decompressStream` call: an error name or the remaining hint, and what was read and written. */
  datatype Reply = Reply(failed: bool, remaining: nat, consumed: nat, produced: seq<byte>)

  /** Any decoder: what it answers to the `n`th call, given the unread input and the room for output. */
  type Decoder = (nat, seq<byte>, nat) -> Reply

  /** It reads no more than it is given and writes no more than there is room for. */
  ghost predicate Lawful(d: Decoder) {
    forall n, pending, room :: d(n, pending, room).consumed <= |pending| && |d(n, pending, room).produced| <= room
  }

  datatype Failure = EmptyPayload | Library | TooLarge | Truncated | TrailingBytes

  /** `CounterWrapped`: the output size no longer fits an Int, and the loop is outside what is modelled. */
  datatype Outcome = Plain(bytes: seq<byte>) | Refused(why: Failure) | CounterWrapped

  function WrapInt(x: int): int {
    (x + 0x8000_0000) % 0x1_0000_0000 - 0x8000_0000
  }

  /** The output room offered: one byte more than may be kept, so that excess shows. */
  function Room(max: int, held: nat, chunk: nat): nat {
    var left := if max - held < chunk then max - held else chunk;
    if left + 1 < 0 then 0 else left + 1
  }

  /** The size check as written, in 32-bit arithmetic. */
  predicate Exceeds(held: nat, produced: nat, max: int) {
    WrapInt(held + produced) > max
  }

  /** The check is exact for every limit but the largest Int, whose successor wraps. */
  lemma LimitIsExact(held: nat, produced: nat, max: nat, chunk: nat)
    requires held <= max < MAX_ARRAY && produced <= Room(max, held, chunk)
    ensures Exceeds(held, produced, max) <==> held + produced > max
  {
  }

  /** For the largest Int, and for no other limit, some excess passes the check. */
  lemma LimitIsExactIff(max: nat, chunk: nat)
    requires max <= MAX_ARRAY && chunk >= 1
    ensures max < MAX_ARRAY <==>
            forall held: nat, produced: nat | held <= max && produced <= Room(max, held, chunk) ::
              Exceeds(held, produced, max) <==> held + produced > max
  {
    if max == MAX_ARRAY {
      assert Room(max, max, chunk) == 1 && !Exceeds(max, 1, max);
    }
  }

  /** The loop from its `n`th call on, with `offset` bytes read and `held` written. */
  ghost function Loop(d: Decoder, input: seq<byte>, max: nat, n: nat, offset: nat, held: seq<byte>): Outcome
    requires Lawful(d) && offset <= |input| && |held| <= max <= MAX_ARRAY
    decreases |input| - offset + max - |held|
  {
    var r := d(n, input[offset..], Room(max, |held|, ChunkSize(|input|)));
    if r.failed then Refused(Library)
    else if Exceeds(|held|, |r.produced|, max) then Refused(TooLarge)
    else if |held| + |r.produced| > max then CounterWrapped
    else if r.remaining != 0 then
      if r.consumed == 0 && r.produced == [] then Refused(Truncated)
      else Loop(d, input, max, n + 1, offset + r.consumed, held + r.produced)
    else if offset + r.consumed != |input| then Refused(TrailingBytes)
    else Plain(held + r.produced)
  }

  ghost function Decompressed(d: Decoder, input: seq<byte>, max: nat): Outcome
    requires Lawful(d) && max <= MAX_ARRAY
  {
    if input == [] then Refused(EmptyPayload) else Loop(d, input, max, 0, 0, [])
  }

  // ---- what the calls themselves did ----

  /** After the first `n` calls: how much was read and what was written. */
  datatype Progress = Progress(offset: nat, held: seq<byte>)

  ghost function Call(d: Decoder, input: seq<byte>, max: nat, n: nat, p: Progress): Reply {
    d(n, if p.offset <= |input| then input[p.offset..] else [], Room(max, |p.held|, ChunkSize(|input|)))
  }

  ghost function After(d: Decoder, input: seq<byte>, max: nat, n: nat): Progress {
    if n == 0 then Progress(0, [])
    else
      var p := After(d, input, max, n - 1);
      var r := Call(d, input, max, n - 1, p);
      Progress(p.offset + r.consumed, p.held + r.produced)
  }

  /** The `n`th call succeeded and kept the output within the limit. */
  ghost predicate Fine(d: Decoder, input: seq<byte>, max: nat, n: nat) {
    && !Call(d, input, max, n, After(d, input, max, n)).failed
    && |After(d, input, max, n + 1).held| <= max
  }

  /** It asked to be called again and had read or written something. */
  ghost predicate GoesOn(d: Decoder, input: seq<byte>, max: nat, n: nat) {
    var r := Call(d, input, max, n, After(d, input, max, n));
    r.remaining != 0 && (r.consumed > 0 || r.produced != [])
  }

  /** A complete decompression in `n` calls: each fine, each but the last going on, all input read. */
  ghost predicate Completes(d: Decoder, input: seq<byte>, max: nat, n: nat) {
    && n >= 1
    && (forall k | 0 <= k < n :: Fine(d, input, max, k))
    && (forall k | 0 <= k < n - 1 :: GoesOn(d, input, max, k))
    && Call(d, input, max, n - 1, After(d, input, max, n - 1)).remaining == 0
    && After(d, input, max, n).offset == |input|
  }

  /** The `n`th call is one at which the loop gives up for the reason `why`. */
  ghost predicate StopsFor(d: Decoder, input: seq<byte>, max: nat, n: nat, why: Failure) {
    var r, q := Call(d, input, max, n, After(d, input, max, n)), After(d, input, max, n + 1);
    match why
    case EmptyPayload => false
    case Library => r.failed
    case TooLarge => !r.failed && |q.held| > max
    case Truncated => Fine(d, input, max, n) && r.remaining != 0 && r.consumed == 0 && r.produced == []
    case TrailingBytes => Fine(d, input, max, n) && r.remaining == 0 && q.offset != |input|
  }

  /** `o` is what the calls from the `n`th on come to. */
  ghost predicate Follows(d: Decoder, input: seq<byte>, max: nat, n: nat, o: Outcome) {
    && !o.CounterWrapped?
    && (o.Plain? ==> |o.bytes| <= max && exists m :: m > n && Completes(d, input, max, m) && o.bytes == After(d, input, max, m).held)
    && (!o.Plain? ==> forall m | m > n :: !Completes(d, input, max, m))
    && (o.Refused? ==> exists m :: m >= n && StopsFor(d, input, max, m, o.why) && AllGoOn(d, input, max, m))
  }

  /** The loop after the first `n` calls, while they stay within the input and the limit. */
  ghost predicate InHand(d: Decoder, input: seq<byte>, max: nat, n: nat) {
    After(d, input, max, n).offset <= |input| && |After(d, input, max, n).held| <= max
  }

  ghost function LoopAfter(d: Decoder, input: seq<byte>, max: nat, n: nat): Outcome
    requires Lawful(d) && max < MAX_ARRAY && InHand(d, input, max, n)
  {
    Loop(d, input, max, n, After(d, input, max, n).offset, After(d, input, max, n).held)
  }

  /** One turn of the loop in terms of its call. */
  lemma LoopTurn(d: Decoder, input: seq<byte>, max: nat, n: nat)
    requires Lawful(d) && max < MAX_ARRAY && InHand(d, input, max, n)
    ensures var r, q := Call(d, input, max, n, After(d, input, max, n)), After(d, input, max, n + 1);
            if !Fine(d, input, max, n) then LoopAfter(d, input, max, n) == Refused(if r.failed then Library else TooLarge)
            else if r.remaining == 0 then
              LoopAfter(d, input, max, n) == if q.offset == |input| then Plain(q.held) else Refused(TrailingBytes)
            else if !GoesOn(d, input, max, n) then LoopAfter(d, input, max, n) == Refused(Truncated)
            else InHand(d, input, max, n + 1) && LoopAfter(d, input, max, n) == LoopAfter(d, input, max, n + 1)
  {
    var p := After(d, input, max, n);
    LimitIsExact(|p.held|, |Call(d, input, max, n, p).produced|, max, ChunkSize(|input|));
  }

  ghost predicate AllGoOn(d: Decoder, input: seq<byte>, max: nat, n: nat) {
    forall k | 0 <= k < n :: Fine(d, input, max, k) && GoesOn(d, input, max, k)
  }

  lemma OneMoreGoesOn(d: Decoder, input: seq<byte>, max: nat, n: nat)
    requires AllGoOn(d, input, max, n) && Fine(d, input, max, n) && GoesOn(d, input, max, n)
    ensures AllGoOn(d, input, max, n + 1)
    ensures var p, q := After(d, input, max, n), After(d, input, max, n + 1); q.offset > p.offset || |q.held| > |p.held|
    ensures After(d, input, max, n + 1).offset >= After(d, input, max, n).offset
    ensures |After(d, input, max, n + 1).held| >= |After(d, input, max, n).held|
  {
  }

  lemma FollowsEarlier(d: Decoder, input: seq<byte>, max: nat, n: nat, o: Outcome)
    requires Follows(d, input, max, n + 1, o) && GoesOn(d, input, max, n)
    ensures Follows(d, input, max, n, o)
  {
    NotWhileGoingOn(d, input, max, n);
  }

  lemma {:induction false} LoopFollowsCalls(d: Decoder, input: seq<byte>, max: nat, n: nat)
    requires Lawful(d) && max < MAX_ARRAY && InHand(d, input, max, n)
    requires AllGoOn(d, input, max, n)
    ensures Follows(d, input, max, n, LoopAfter(d, input, max, n))
    decreases |input| - After(d, input, max, n).offset + max - |After(d, input, max, n).held|
  {
    LoopTurn(d, input, max, n);
    var r := Call(d, input, max, n, After(d, input, max, n));
    if !Fine(d, input, max, n) || (r.remaining != 0 && !GoesOn(d, input, max, n)) {
      NoneBeyond(d, input, max, n);
      assert StopsFor(d, input, max, n, LoopAfter(d, input, max, n).why);
      return;
    }
    if r.remaining != 0 {
      OneMoreGoesOn(d, input, max, n);
      LoopFollowsCalls(d, input, max, n + 1);
      FollowsEarlier(d, input, max, n, LoopAfter(d, input, max, n + 1));
      return;
    }
    NoneAfterLast(d, input, max, n);
    assert LoopAfter(d, input, max, n).Refused? ==> StopsFor(d, input, max, n, TrailingBytes);
  }

  lemma NoneBeyond(d: Decoder, input: seq<byte>, max: nat, n: nat)
    requires !Fine(d, input, max, n)
             || (!GoesOn(d, input, max, n) && Call(d, input, max, n, After(d, input, max, n)).remaining != 0)
    ensures forall m | m > n :: !Completes(d, input, max, m)
  {
  }

  lemma NotWhileGoingOn(d: Decoder, input: seq<byte>, max: nat, n: nat)
    requires GoesOn(d, input, max, n)
    ensures !Completes(d, input, max, n + 1)
  {
  }

  lemma NoneAfterLast(d: Decoder, input: seq<byte>, max: nat, n: nat)
    requires Fine(d, input, max, n) && Call(d, input, max, n, After(d, input, max, n)).remaining == 0
    requires AllGoOn(d, input, max, n)
    ensures Completes(d, input, max, n + 1) <==> After(d, input, max, n + 1).offset == |input|
    ensures forall m | m > n + 1 :: !Completes(d, input, max, m)
  {
    assert !GoesOn(d, input, max, n);
  }

  /**
   For every lawful decoder the loop ends; it returns bytes exactly when there is input and some number of calls
   completes a decompression within the limit, and then it returns all that those calls wrote. Else it says which call
   stopped it, and why; no input at all is refused whatever the decoder.
   */
  lemma DecompressesIffComplete(d: Decoder, input: seq<byte>, max: nat)
    requires Lawful(d) && max < MAX_ARRAY
    ensures var o := Decompressed(d, input, max);
            && !o.CounterWrapped?
            && (input == [] <==> o == Refused(EmptyPayload))
            && (o.Plain? <==> input != [] && exists n :: Completes(d, input, max, n))
            && (o.Plain? ==> |o.bytes| <= max && exists n :: Completes(d, input, max, n) && o.bytes == After(d, input, max, n).held)
            && (o.Refused? && input != [] ==> exists n :: StopsFor(d, input, max, n, o.why) && AllGoOn(d, input, max, n))
  {
    if input != [] { LoopFollowsCalls(d, input, max, 0); }
  }

  /** A decoder that always fills the room it is given and always asks for more. */
  function Greedy(): Decoder {
    (n: nat, pending: seq<byte>, room: nat) => Reply(false, 1, 0, seq(room, _ => 0))
  }

  /** Under the largest limit such a decoder runs the loop past it. */
  lemma {:induction false} LargestLimitOverruns(input: seq<byte>, n: nat, held: seq<byte>)
    requires |held| <= MAX_ARRAY
    ensures Lawful(Greedy()) && Loop(Greedy(), input, MAX_ARRAY, n, 0, held) == CounterWrapped
    decreases MAX_ARRAY - |held|
  {
    var room := Room(MAX_ARRAY, |held|, ChunkSize(|input|));
    var more: seq<byte> := seq(room, _ => 0);
    assert Greedy()(n, input[0..], room) == Reply(false, 1, 0, more);
    if |held| + room <= MAX_ARRAY {
      LargestLimitOverruns(input, n + 1, held + more);
    }
  }

  /** `decompress` */
  method Decompress(d: Decoder, input: seq<byte>, max: nat) returns (r: Outcome)
    requires Lawful(d) && max <= MAX_ARRAY
    ensures r == Decompressed(d, input, max)
  {
    if |input| == 0 {
      return Refused(EmptyPayload);
    }
    var output := new ByteCollector();
    var inputOffset: nat, n: nat := 0, 0;
    while true
      invariant output.Valid() && fresh(output) && inputOffset <= |input| && output.size <= max
      invariant Decompressed(d, input, max) == Loop(d, input, max, n, inputOffset, Concat(output.chunks))
      decreases |input| - inputOffset + max - output.size
    {
      var end;
      inputOffset, end := Turn(d, input, max, n, inputOffset, output);
      if end.Some? {
        return end.value;
      }
      n := n + 1;
    }
  }

  /** One turn of the loop: its end, or the offset from which it goes on. */
  method Turn(d: Decoder, input: seq<byte>, max: nat, n: nat, offset: nat, output: ByteCollector)
    returns (next: nat, end: Option<Outcome>)
    requires Lawful(d) && max <= MAX_ARRAY && output.Valid() && offset <= |input| && output.size <= max
    modifies output
    ensures output.Valid() && next <= |input|
    ensures var was := Loop(d, input, max, n, offset, old(Concat(output.chunks)));
            if end.Some? then end.value == was
            else
              && output.size <= max && next + output.size > offset + old(output.size)
              && was == Loop(d, input, max, n + 1, next, Concat(output.chunks))
  {
    next := offset;
    var room := Room(max, output.size, ChunkSize(|input|));
    var reply := d(n, input[offset..], room);
    if reply.failed {
      return next, Some(Refused(Library));
    }
    if Exceeds(output.size, |reply.produced|, max) {
      return next, Some(Refused(TooLarge));
    }
    if output.size + |reply.produced| > max {
      return next, Some(CounterWrapped);
    }
    next := offset + reply.consumed;
    output.Append(reply.produced, |reply.produced|);
    assert reply.produced[..|reply.produced|] == reply.produced;
    if reply.remaining != 0 {
      return next, if reply.consumed == 0 && |reply.produced| == 0 then Some(Refused(Truncated)) else None;
    }
    if next != |input| {
      return next, Some(Refused(TrailingBytes));
    }
    var bytes := output.ToByteArray();
    return next, Some(Plain(bytes[..]));
  }

  /** Chunks that decoding produced, joined at the end. */
  class ByteCollector {
    var chunks: seq<seq<byte>>
    var size: nat

    ghost predicate Valid()
      reads this
    {
      size == |Concat(chunks)|
    }

    constructor ()
      ensures Valid() && Concat(chunks) == []
    {
      chunks, size := [], 0;
    }

    /** `append`: nothing is stored for an empty chunk. */
    method Append(source: seq<byte>, count: int)
      requires Valid() && count <= |source|
      modifies this
      ensures Valid() && Concat(chunks) == old(Concat(chunks)) + (if count <= 0 then [] else source[..count])
    {
      if count <= 0 {
        return;
      }
      ConcatAppend(chunks, [source[..count]]);
      assert Concat([source[..count]]) == source[..count] + [];
      chunks := chunks + [source[..count]];
      size := size + count;
    }

    /** `toByteArray` */
    method ToByteArray() returns (result: array<byte>)
      requires Valid()
      ensures fresh(result) && result[..] == Concat(chunks)
    {
      result := new byte[size](_ => 0);
      var offset := 0;
      for c := 0 to |chunks|
        invariant offset == |Concat(chunks[..c])| && offset + |Concat(chunks[c..])| == size
        invariant result[..offset] == Concat(chunks[..c])
      {
        NextChunk(chunks, c);
        CopyInto(chunks[c], result, offset);
        offset := offset + |chunks[c]|;
      }
      assert chunks[..|chunks|] == chunks;
      assert result[..offset] == result[..];
    }
  }

  /** The chunk goes into the array from `offset` on; what lies before stays. */
  method CopyInto(chunk: seq<byte>, result: array<byte>, offset: nat)
    requires offset + |chunk| <= result.Length
    modifies result
    ensures result[..offset + |chunk|] == old(result[..offset]) + chunk
  {
    for i := 0 to |chunk|
      invariant result[..offset + i] == old(result[..offset]) + chunk[..i]
    {
      result[offset + i] := chunk[i];
      assert chunk[..i + 1] == chunk[..i] + [chunk[i]];
      assert result[..offset + i + 1] == result[..offset + i] + [chunk[i]];
    }
    assert chunk[..|chunk|] == chunk;
  }

  lemma NextChunk(chunks: seq<seq<byte>>, c: nat)
    requires c < |chunks|
    ensures Concat(chunks[..c + 1]) == Concat(chunks[..c]) + chunks[c]
    ensures |Concat(chunks[c..])| == |chunks[c]| + |Concat(chunks[c + 1..])|
  {
    assert chunks[..c + 1] == chunks[..c] + [chunks[c]];
    ConcatAppend(chunks[..c], [chunks[c]]);
    assert Concat([chunks[c]]) == chunks[c] + [];
    assert chunks[c..][1..] == chunks[c + 1..];
  }
}
