/**
 Incremental decoding, for any decoder that looks only at the front of its buffer.

 A framed read loop appends each chunk it reads to a buffer and decodes until the decoder wants
 more bytes or refuses them. This module says when the chunks do not matter, and what a reader sees
 of a stream that was cut off anywhere.
 */
module Streaming {
  import opened Bytes
  import opened Wrappers

  datatype ProtocolError =
    | UnsupportedVersion(version: byte)
    | UnknownCompression(code: byte)
    | UnknownPacketType(code: byte)
    | PayloadTooLong(length: int, max: int)
    | FrameTooLong(length: int, max: int)
    | FrameTooShort(length: int)
    | FrameMismatch(length: int, packetLength: int)
    | IncompleteFrame
    | MessageTooLong(length: int, max: int)
    | MessageTooShort(length: int)
    | MessageMismatch(length: int, packetLength: int)
    | TextMessage

  /** What a decoder says of a buffer: `NeedMore` consumes nothing, `Decoded` leaves `rest`. */
  datatype Verdict<+T> =
    | NeedMore
    | Malformed(error: ProtocolError)
    | Decoded(item: T, rest: seq<byte>)

  /** Every decoded item takes at least one byte off the front. */
  ghost predicate Progresses<T(!new)>(d: seq<byte> -> Verdict<T>) {
    forall b :: d(b).Decoded? ==> |d(b).rest| < |b|
  }

  type Decoder<!T(!new)> = d: seq<byte> -> Verdict<T> | Progresses(d) witness (b: seq<byte>) => NeedMore

  /** Nothing is read from no bytes, and once a buffer has a verdict, more bytes do not change it. */
  ghost predicate Incremental<T(!new)>(d: Decoder<T>) {
    && d([]).NeedMore?
    && forall b, more: seq<byte> {:trigger d(b + more)} ::
         && (d(b).Malformed? ==> d(b + more) == d(b))
         && (d(b).Decoded? ==> d(b + more) == Decoded(d(b).item, d(b).rest + more))
  }

  /** A reader's state: what it has delivered, what it still buffers, and the error that ended it. */
  datatype Reader<T> = Reader(items: seq<T>, buffered: seq<byte>, error: Option<ProtocolError>)

  /** Decode everything `b` holds. */
  ghost function Drain<T(!new)>(d: Decoder<T>, b: seq<byte>): Reader<T>
    decreases |b|
  {
    match d(b)
    case NeedMore => Reader([], b, None)
    case Malformed(e) => Reader([], b, Some(e))
    case Decoded(x, rest) =>
      var r := Drain(d, rest);
      r.(items := [x] + r.items)
  }

  /** One turn of the read loop: append a chunk, then decode all there is. */
  ghost function Feed<T(!new)>(d: Decoder<T>, r: Reader<T>, chunk: seq<byte>): Reader<T>
  {
    if r.error.Some? then r
    else
      var r' := Drain(d, r.buffered + chunk);
      r'.(items := r.items + r'.items)
  }

  ghost function FeedAll<T(!new)>(d: Decoder<T>, r: Reader<T>, chunks: seq<seq<byte>>): Reader<T>
    decreases |chunks|
  {
    if chunks == [] then r else FeedAll(d, Feed(d, r, chunks[0]), chunks[1..])
  }

  function Concat(chunks: seq<seq<byte>>): seq<byte> {
    if chunks == [] then [] else chunks[0] + Concat(chunks[1..])
  }

  lemma {:induction false} ConcatAppend(a: seq<seq<byte>>, b: seq<seq<byte>>)
    ensures Concat(a + b) == Concat(a) + Concat(b)
  {
    if a == [] {
      assert a + b == b;
    } else {
      assert (a + b)[0] == a[0] && (a + b)[1..] == a[1..] + b;
      ConcatAppend(a[1..], b);
    }
  }

  /** What a reader delivered and where it stopped; equal readers agree on everything but the bytes behind an error. */
  ghost predicate SameOutcome<T>(r: Reader<T>, s: Reader<T>) {
    r.items == s.items && r.error == s.error && (r.error.None? ==> r.buffered == s.buffered)
  }

  /** Decoding in two goes gives what decoding in one go gives. */
  lemma {:induction false} DrainAppend<T(!new)>(d: Decoder<T>, b: seq<byte>, more: seq<byte>)
    requires Incremental(d)
    ensures SameOutcome(Feed(d, Drain(d, b), more), Drain(d, b + more))
    decreases |b|
  {
    match d(b)
    case NeedMore =>
    case Malformed(_) => assert d(b + more) == d(b);
    case Decoded(x, rest) =>
      assert d(b + more) == Decoded(x, rest + more);
      DrainAppend(d, rest, more);
      var r := Drain(d, rest);
      if r.error.None? {
        var r' := Drain(d, r.buffered + more);
        assert [x] + (r.items + r'.items) == ([x] + r.items) + r'.items;
      }
  }

  /** Feeding a stream chunk by chunk, however it is cut, delivers what decoding it whole delivers. */
  lemma {:induction false} ChunkingIrrelevantFrom<T(!new)>(d: Decoder<T>, b: seq<byte>, chunks: seq<seq<byte>>, r: Reader<T>)
    requires Incremental(d)
    requires SameOutcome(r, Drain(d, b))
    ensures SameOutcome(FeedAll(d, r, chunks), Drain(d, b + Concat(chunks)))
    decreases |chunks|
  {
    if chunks == [] {
      assert b + Concat(chunks) == b;
    } else {
      DrainAppend(d, b, chunks[0]);
      ChunkingIrrelevantFrom(d, b + chunks[0], chunks[1..], Feed(d, r, chunks[0]));
      assert (b + chunks[0]) + Concat(chunks[1..]) == b + Concat(chunks);
    }
  }

  lemma ChunkingIrrelevant<T(!new)>(d: Decoder<T>, chunks: seq<seq<byte>>)
    requires Incremental(d)
    ensures SameOutcome(FeedAll(d, Reader([], [], None), chunks), Drain(d, Concat(chunks)))
  {
    ChunkingIrrelevantFrom(d, [], chunks, Reader([], [], None));
    assert [] + Concat(chunks) == Concat(chunks);
  }

  /** `d` reads back each item of `xs` from its encoding `wire(x)`, whatever follows. */
  ghost predicate ReadsBack<T(!new)>(d: Decoder<T>, wire: T -> seq<byte>, xs: seq<T>) {
    forall x, rest | x in xs :: d(wire(x) + rest) == Decoded(x, rest)
  }

  ghost function WireAll<T>(wire: T -> seq<byte>, xs: seq<T>): seq<byte> {
    if xs == [] then [] else wire(xs[0]) + WireAll(wire, xs[1..])
  }

  lemma {:induction false} WireAllAppend<T>(wire: T -> seq<byte>, xs: seq<T>, ys: seq<T>)
    ensures WireAll(wire, xs + ys) == WireAll(wire, xs) + WireAll(wire, ys)
  {
    if xs == [] {
      assert xs + ys == ys;
    } else {
      assert (xs + ys)[0] == xs[0] && (xs + ys)[1..] == xs[1..] + ys;
      WireAllAppend(wire, xs[1..], ys);
    }
  }

  /** An encoding cut short is never an item and never an error. */
  lemma CutShortNeedsMore<T(!new)>(d: Decoder<T>, wire: T -> seq<byte>, x: T, b: seq<byte>)
    requires Incremental(d) && ReadsBack(d, wire, [x])
    requires b < wire(x)
    ensures d(b).NeedMore?
  {
    var more := wire(x)[|b|..];
    assert b + more == wire(x);
    assert wire(x) + [] == wire(x);
    assert d(wire(x) + []) == Decoded(x, []);
    assert d(b + more) == Decoded(x, []);
  }

  /** How many items of `xs` lie whole within the first `n` bytes of their stream. */
  ghost function WholeItems<T>(wire: T -> seq<byte>, xs: seq<T>, n: nat): (k: nat)
    ensures k <= |xs|
    decreases |xs|
  {
    if xs == [] || n < |wire(xs[0])| then 0
    else 1 + WholeItems(wire, xs[1..], n - |wire(xs[0])|)
  }

  /** The reader `r` has delivered the first `k` of `xs` and buffers the cut-off start of the next. */
  ghost predicate CutAfter<T>(wire: T -> seq<byte>, xs: seq<T>, k: nat, b: seq<byte>, r: Reader<T>)
    requires k <= |xs|
  {
    && r.error == None
    && r.items == xs[..k]
    && b == WireAll(wire, xs[..k]) + r.buffered
    && (if k < |xs| then r.buffered < wire(xs[k]) else r.buffered == [])
  }

  lemma CutAfterFirst<T>(wire: T -> seq<byte>, xs: seq<T>, k: nat, rest: seq<byte>, r: Reader<T>)
    requires xs != [] && k < |xs|
    requires CutAfter(wire, xs[1..], k, rest, r)
    ensures CutAfter(wire, xs, k + 1, wire(xs[0]) + rest, r.(items := [xs[0]] + r.items))
  {
    assert xs[..k + 1] == [xs[0]] + xs[1..][..k];
    assert xs[..k + 1][1..] == xs[1..][..k];
  }

  /**
   Any prefix of a stream of encodings decodes to exactly the items that lie whole within it, in
   order, without an error; what is left over is the cut-off start of the next encoding.
   */
  lemma {:induction false} PrefixDecodes<T(!new)>(d: Decoder<T>, wire: T -> seq<byte>, xs: seq<T>, b: seq<byte>)
    requires Incremental(d)
    requires ReadsBack(d, wire, xs)
    requires b <= WireAll(wire, xs)
    ensures CutAfter(wire, xs, WholeItems(wire, xs, |b|), b, Drain(d, b))
    decreases |xs|
  {
    if xs == [] {
      assert b == [];
    } else {
      var w, tail := wire(xs[0]), xs[1..];
      SplitPrefix(w, WireAll(wire, tail), b);
      if |b| < |w| {
        CutShortNeedsMore(d, wire, xs[0], b);
      } else {
        var rest := b[|w|..];
        PrefixDecodes(d, wire, tail, rest);
        CutAfterFirst(wire, xs, WholeItems(wire, tail, |rest|), rest, Drain(d, rest));
        assert d(w + rest) == Decoded(xs[0], rest);
      }
    }
  }

  lemma SplitPrefix(w: seq<byte>, t: seq<byte>, b: seq<byte>)
    requires b <= w + t
    ensures |b| < |w| ==> b < w
    ensures |b| >= |w| ==> b == w + b[|w|..] && b[|w|..] <= t
  {
    assert b == (w + t)[..|b|];
  }

  /** The whole stream decodes to all its items and leaves nothing over. */
  lemma WholeStreamDecodes<T(!new)>(d: Decoder<T>, wire: T -> seq<byte>, xs: seq<T>)
    requires Incremental(d)
    requires ReadsBack(d, wire, xs)
    ensures Drain(d, WireAll(wire, xs)) == Reader(xs, [], None)
  {
    PrefixDecodes(d, wire, xs, WireAll(wire, xs));
    AllWhole(wire, xs);
    assert xs[..|xs|] == xs;
  }

  lemma {:induction false} AllWhole<T>(wire: T -> seq<byte>, xs: seq<T>)
    ensures WholeItems(wire, xs, |WireAll(wire, xs)|) == |xs|
  {
    if xs != [] { AllWhole(wire, xs[1..]); }
  }
}
