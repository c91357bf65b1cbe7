/**
 The bench harness's log-linear latency histogram: 32 sub-buckets per power of two.
 */
module Histograms {
  import opened Bits

  const BUCKETS := 64 * 32
  const LONG_LIMIT: nat := 0x8000_0000_0000_0000

  /** `63 - countLeadingZeroBits`: the position of the highest set bit. */
  function Log2(v: nat): (e: nat)
    requires v >= 1
    ensures Pow2(e) <= v < Pow2(e + 1)
  {
    if v == 1 then 0 else
      var e := Log2(v / 2) + 1;
      assert Pow2(e) == 2 * Pow2(e - 1) && Pow2(e + 1) == 2 * Pow2(e);
      e
  }

  /** The bucket of a value; `and 31` keeps the five bits below the highest. */
  function Index(v: nat): nat
    requires v >= 1
  {
    if v < 32 then v
    else
      var e := Log2(v);
      Log2AtLeast(v, 5);
      e * 32 + Shr(v, e - 5) % 32
  }

  /**
   The buckets some value can fall into: 32 to 159 belong to exponents whose values have buckets of their own, and no
   positive Long has exponent 63.
   */
  predicate Usable(i: nat) {
    i < 32 || 160 <= i < 63 * 32
  }

  /** The Long that a sum or difference of two Longs comes to. */
  function ToLong(x: int): int {
    if x >= LONG_LIMIT then x - 2 * LONG_LIMIT else if x + LONG_LIMIT < 0 then x + 2 * LONG_LIMIT else x
  }

  /** The largest value of a bucket, in the arithmetic of the source. */
  function UpperBound(i: nat): int
    requires Usable(i)
  {
    if i < 32 then i
    else
      var e, sub := i / 32, i % 32;
      ToLong(ToLong(Or(Shl(1, e), Shl(sub, e - 5)) + Shl(1, e - 5)) - 1)
  }

  /** The largest value with exponent `e` and sub-bucket `sub`. */
  function BucketTop(e: nat, sub: nat): int
    requires e >= 5
  {
    Or(Shl(1, e), Shl(sub, e - 5)) + Shl(1, e - 5) - 1
  }

  lemma {:induction false} Log2AtLeast(v: nat, k: nat)
    requires v >= Pow2(k) && v >= 1
    ensures Log2(v) >= k
  {
    if Log2(v) < k { Pow2Monotone(Log2(v) + 1, k); }
  }

  lemma {:induction false} Log2Below(v: nat, k: nat)
    requires 1 <= v < Pow2(k)
    ensures Log2(v) < k
  {
    if Log2(v) >= k { Pow2Monotone(k, Log2(v)); }
  }

  lemma Log2Monotone(v: nat, w: nat)
    requires 1 <= v <= w
    ensures Log2(v) <= Log2(w)
  {
    Log2AtLeast(w, Log2(v));
  }

  lemma GapOfOne(a: nat, b: nat, m: nat)
    requires a < b
    ensures b * m >= a * m + m
  {
    var d := b - a - 1;
    assert b == a + 1 + d;
    assert b * m == a * m + m + d * m;
  }

  lemma AtMost(a: nat, b: nat, m: nat)
    requires a <= b
    ensures a * m <= b * m
  {
    if a < b { GapOfOne(a, b, m); }
  }

  lemma QuotientWithin(v: nat, width: nat, q: nat, lo: nat, hi: nat)
    requires q * width <= v < q * width + width && lo * width <= v < hi * width
    ensures lo <= q < hi
  {
    if q < lo {
      GapOfOne(q, lo, width);
      assert false;
    }
    if q >= hi {
      AtMost(hi, q, width);
      assert false;
    }
  }

  /** The exponent of a value of 32 or more, and the width of its sub-buckets. */
  lemma Exponent(v: nat) returns (e: nat, width: nat)
    requires v >= 32
    ensures e == Log2(v) && e >= 5 && width == Pow2(e - 5) && width >= 1
    ensures Pow2(e) == 32 * width && Pow2(e + 1) == 64 * width
  {
    assert Pow2(5) == 32;
    Log2AtLeast(v, 5);
    e := Log2(v);
    width := Pow2(e - 5);
    Pow2Adds(e - 5, 5);
    assert Pow2(e + 1) == 2 * Pow2(e);
  }

  lemma SubBucket(v: nat, k: nat, width: nat) returns (sub: nat)
    requires width == Pow2(k) && 32 * width <= v < 64 * width
    ensures sub < 32 && Shr(v, k) == 32 + sub
    ensures 32 * width + sub * width <= v < 32 * width + sub * width + width
  {
    ShrDivides(v, k);
    QuotientWithin(v, width, Shr(v, k), 32, 64);
    sub := Shr(v, k) - 32;
    Distributes(32, sub, width);
  }

  /** Where a value of 32 or more falls: in sub-bucket `sub` of its power of two. */
  lemma Decompose(v: nat) returns (e: nat, width: nat, sub: nat)
    requires v >= 32
    ensures e == Log2(v) && e >= 5 && width == Pow2(e - 5) && width >= 1
    ensures Pow2(e) == 32 * width && Pow2(e + 1) == 64 * width
    ensures sub < 32 && 32 * width + sub * width <= v < 32 * width + sub * width + width
    ensures Index(v) == e * 32 + sub
  {
    e, width := Exponent(v);
    sub := SubBucket(v, e - 5, width);
  }

  lemma Distributes(a: nat, b: nat, m: nat)
    ensures (a + b) * m == a * m + b * m
  {
  }

  lemma BucketTopIs(e: nat, width: nat, sub: nat)
    requires e >= 5 && width == Pow2(e - 5) && Pow2(e) == 32 * width && sub < 32
    ensures BucketTop(e, sub) == 32 * width + sub * width + width - 1
  {
    GapOfOne(sub, 32, width);
    OrIsSum(1, e, Shl(sub, e - 5));
  }

  lemma TopFits(e: nat, width: nat, sub: nat)
    requires 5 <= e <= 62 && width == Pow2(e - 5) && Pow2(e) == 32 * width && sub < 32
    ensures 32 * width + sub * width + width <= LONG_LIMIT
  {
    GapOfOne(sub, 32, width);
    Pow63();
    Pow2Monotone(e + 1, 63);
  }

  /** The sum leaves the Longs for the last bucket of all, and the difference brings it back. */
  lemma UpperBoundIs(e: nat, sub: nat)
    requires 5 <= e && sub < 32 && Usable(e * 32 + sub)
    ensures UpperBound(e * 32 + sub) == BucketTop(e, sub)
  {
    var i, width := e * 32 + sub, Pow2(e - 5);
    assert i / 32 == e && i % 32 == sub;
    Pow2Adds(5, e - 5);
    assert Pow2(5) == 32;
    BucketTopIs(e, width, sub);
    TopFits(e, width, sub);
  }

  /** Every 64-bit value has a usable bucket. */
  lemma IndexInRange(v: nat)
    requires 1 <= v < LONG_LIMIT
    ensures Usable(Index(v))
  {
    if v >= 32 {
      var e, width, sub := Decompose(v);
      Pow63();
      Log2Below(v, 63);
    }
  }

  lemma Pow63()
    ensures Pow2(63) == LONG_LIMIT
  {
    assert Pow2(7) == 128;
    Pow2Adds(7, 7);
    Pow2Adds(14, 7);
    Pow2Adds(21, 21);
    Pow2Adds(42, 21);
  }

  /** Larger values fall into the same or later buckets. */
  lemma IndexMonotone(v: nat, w: nat)
    requires 1 <= v <= w
    ensures Index(v) <= Index(w)
  {
    if w >= 32 {
      var e', width', sub' := Decompose(w);
      if v >= 32 {
        var e, width, sub := Decompose(v);
        Log2Monotone(v, w);
        if e == e' { SubMonotone(v - 32 * width, w - 32 * width, width, sub, sub'); }
      }
    }
  }

  lemma SubMonotone(v: nat, w: nat, width: nat, q: nat, q': nat)
    requires v <= w && q * width <= v && w < q' * width + width
    ensures q <= q'
  {
    if q > q' {
      GapOfOne(q', q, width);
      assert false;
    }
  }

  /** A bucket's upper bound is above each of its values by less than a thirty-second of it; below 64 it is the value. */
  lemma UpperBoundIsClose(v: nat)
    requires 1 <= v < LONG_LIMIT
    ensures Usable(Index(v))
    ensures v <= UpperBound(Index(v)) < LONG_LIMIT
    ensures 32 * (UpperBound(Index(v)) - v) < v
    ensures v < 64 ==> UpperBound(Index(v)) == v
  {
    IndexInRange(v);
    if v >= 32 {
      var e, width, sub := Decompose(v);
      UpperBoundIs(e, sub);
      BucketTopIs(e, width, sub);
      GapOfOne(sub, 32, width);
      Pow63();
      Log2Below(v, 63);
      Pow2Monotone(e + 1, 63);
      if v < 64 {
        assert Pow2(6) == 64;
        Log2Below(v, 6);
        assert width == Pow2(0);
      }
    }
  }

  /** The upper bound of a bucket is in the bucket, so it is the largest value there and every usable bucket has one. */
  lemma UpperBoundIsInBucket(i: nat)
    requires Usable(i) && i >= 1
    ensures 1 <= UpperBound(i) < LONG_LIMIT && Index(UpperBound(i)) == i
  {
    if i >= 32 {
      var e, sub := i / 32, i % 32;
      var width := Pow2(e - 5);
      Pow2Adds(5, e - 5);
      assert Pow2(5) == 32;
      UpperBoundIs(e, sub);
      BucketTopIs(e, width, sub);
      TopFits(e, width, sub);
      GapOfOne(sub, 32, width);
      TopIndex(e, width, sub, UpperBound(i));
    }
  }

  lemma TopIndex(e: nat, width: nat, sub: nat, v: nat)
    requires e >= 5 && width == Pow2(e - 5) && Pow2(e) == 32 * width && sub < 32
    requires v == 32 * width + sub * width + width - 1 && v < 64 * width
    ensures Index(v) == e * 32 + sub
  {
    TopExponent(e, width, v);
    var e', width', sub' := Decompose(v);
    OnlySub(v - 32 * width, width, sub, sub');
  }

  lemma TopExponent(e: nat, width: nat, v: nat)
    requires e >= 5 && width == Pow2(e - 5) && Pow2(e) == 32 * width && 32 * width <= v < 64 * width
    ensures v >= 32 && Log2(v) == e
  {
    Log2AtLeast(v, e);
    Log2Below(v, e + 1);
  }

  lemma OnlySub(v: nat, width: nat, q: nat, q': nat)
    requires q * width <= v < q * width + width && q' * width <= v < q' * width + width
    ensures q == q'
  {
    SubMonotone(v, v, width, q, q');
    SubMonotone(v, v, width, q', q);
  }

  // ---- ranks ----

  ghost function CountAtMost(values: seq<nat>, x: int): nat {
    if values == [] then 0
    else CountAtMost(values[..|values| - 1], x) + if values[|values| - 1] <= x then 1 else 0
  }

  /** `x` is the nearest-rank statistic: fewer than `rank` values are below it, at least `rank` are not above it. */
  ghost predicate IsRank(values: seq<nat>, rank: int, x: nat) {
    x in values && CountAtMost(values, x - 1) < rank <= CountAtMost(values, x)
  }

  /** The values recorded: at least 1, within a Long. */
  ghost predicate Recorded(values: seq<nat>) {
    forall j | 0 <= j < |values| :: 1 <= values[j] < LONG_LIMIT
  }

  lemma {:induction false} CountMonotone(values: seq<nat>, x: int, y: int)
    requires x <= y
    ensures CountAtMost(values, x) <= CountAtMost(values, y) <= |values|
    decreases |values|
  {
    if values != [] { CountMonotone(values[..|values| - 1], x, y); }
  }

  lemma {:induction false} CountGap(values: seq<nat>, x: nat)
    requires CountAtMost(values, x - 1) < CountAtMost(values, x)
    ensures x in values
    decreases |values|
  {
    if values[|values| - 1] != x {
      CountGap(values[..|values| - 1], x);
    }
  }

  lemma {:induction false} CountAll(values: seq<nat>, x: nat)
    requires forall j | 0 <= j < |values| :: values[j] <= x
    ensures CountAtMost(values, x) == |values|
    decreases |values|
  {
    if values != [] { CountAll(values[..|values| - 1], x); }
  }

  /** Every rank from 1 to the number of values has its statistic. */
  lemma {:induction false} RankExists(values: seq<nat>, rank: int, top: nat) returns (x: nat)
    requires 1 <= rank <= CountAtMost(values, top)
    ensures IsRank(values, rank, x)
    decreases top
  {
    if top > 0 && CountAtMost(values, top - 1) >= rank {
      x := RankExists(values, rank, top - 1);
    } else {
      if top == 0 { CountNone(values); }
      CountGap(values, top);
      x := top;
    }
  }

  lemma {:induction false} CountNone(values: seq<nat>)
    ensures CountAtMost(values, -1) == 0
  {
    if values != [] { CountNone(values[..|values| - 1]); }
  }

  /** There is only one. */
  lemma RankUnique(values: seq<nat>, rank: int, x: nat, y: nat)
    requires IsRank(values, rank, x) && IsRank(values, rank, y)
    ensures x == y
  {
    if x < y { CountMonotone(values, x, y - 1); }
    if y < x { CountMonotone(values, y, x - 1); }
  }

  /** Every rank up to the number of values is some value's. */
  lemma HasRank(values: seq<nat>, rank: int, max: nat)
    requires 1 <= rank <= |values| && forall j | 0 <= j < |values| :: values[j] <= max
    ensures exists x :: IsRank(values, rank, x)
  {
    CountAll(values, max);
    var x := RankExists(values, rank, max);
  }

  /** In a sorted list it is the element at that place. */
  lemma RankInSorted(values: seq<nat>, rank: int)
    requires forall i, j | 0 <= i < j < |values| :: values[i] <= values[j]
    requires 1 <= rank <= |values|
    ensures IsRank(values, rank, values[rank - 1])
  {
    var x := values[rank - 1];
    SortedCounts(values, x, rank - 1);
  }

  lemma {:induction false} SortedCounts(values: seq<nat>, x: nat, at: nat)
    requires forall i, j | 0 <= i < j < |values| :: values[i] <= values[j]
    requires at < |values| && values[at] == x
    ensures CountAtMost(values, x - 1) <= at < CountAtMost(values, x)
    decreases |values|
  {
    var n := |values| - 1;
    var front := values[..n];
    if at < n {
      SortedCounts(front, x, at);
    } else {
      CountAll(front, x);
      CountMonotone(front, x - 1, x);
    }
  }

  // ---- buckets ----

  /** How many values fall into a bucket before `i`. */
  ghost function CountBelow(values: seq<nat>, i: nat): nat
    requires Recorded(values)
  {
    if values == [] then 0
    else CountBelow(values[..|values| - 1], i) + if Index(values[|values| - 1]) < i then 1 else 0
  }

  /** How many fall into bucket `i`. */
  ghost function CountIn(values: seq<nat>, i: nat): nat
    requires Recorded(values)
  {
    if values == [] then 0
    else CountIn(values[..|values| - 1], i) + if Index(values[|values| - 1]) == i then 1 else 0
  }

  lemma {:induction false} BelowNext(values: seq<nat>, i: nat)
    requires Recorded(values)
    ensures CountBelow(values, i + 1) == CountBelow(values, i) + CountIn(values, i)
    decreases |values|
  {
    if values != [] { BelowNext(values[..|values| - 1], i); }
  }

  lemma {:induction false} BelowMonotone(values: seq<nat>, i: nat, j: nat)
    requires Recorded(values) && i <= j
    ensures CountBelow(values, i) <= CountBelow(values, j)
    decreases |values|
  {
    if values != [] { BelowMonotone(values[..|values| - 1], i, j); }
  }

  lemma {:induction false} BelowAll(values: seq<nat>)
    requires Recorded(values)
    ensures CountBelow(values, 0) == 0 && CountBelow(values, BUCKETS) == |values|
    decreases |values|
  {
    if values != [] {
      BelowAll(values[..|values| - 1]);
      IndexInRange(values[|values| - 1]);
    }
  }

  /** A bucket that is not empty is a usable one. */
  lemma {:induction false} NonEmptyIsUsable(values: seq<nat>, i: nat)
    requires Recorded(values) && CountIn(values, i) > 0
    ensures Usable(i)
    decreases |values|
  {
    var v := values[|values| - 1];
    if Index(v) == i { IndexInRange(v); } else { NonEmptyIsUsable(values[..|values| - 1], i); }
  }

  lemma {:induction false} BelowIsLess(values: seq<nat>, x: nat)
    requires Recorded(values) && x >= 1
    ensures CountBelow(values, Index(x)) <= CountAtMost(values, x - 1)
    ensures CountAtMost(values, x) <= CountBelow(values, Index(x) + 1)
    decreases |values|
  {
    if values != [] {
      var v := values[|values| - 1];
      BelowIsLess(values[..|values| - 1], x);
      if v <= x { IndexMonotone(v, x); } else { IndexMonotone(x, v); }
    }
  }

  /** The bucket at which the running count reaches a rank is the bucket of that rank's value. */
  lemma RankBucket(values: seq<nat>, rank: int, x: nat, i: nat)
    requires Recorded(values) && IsRank(values, rank, x)
    requires CountBelow(values, i) < rank <= CountBelow(values, i + 1)
    ensures i == Index(x)
  {
    BelowIsLess(values, x);
    if i < Index(x) { BelowMonotone(values, i + 1, Index(x)); }
    if Index(x) < i { BelowMonotone(values, Index(x) + 1, i); }
  }

  /** `r` reports the rank's value: not below it, above it by less than a thirty-second, exact below 64. */
  ghost predicate Reports(values: seq<nat>, rank: int, r: int) {
    forall x: nat | IsRank(values, rank, x) :: x <= r && 32 * (r - x) < x && (x < 64 ==> r == x)
  }

  /** The rank a percentage of `count` values comes to. */
  function NearestRank(p: real, count: nat): int {
    var x := p / 100.0 * count as real;
    -((-x).Floor)
  }

  /** It is the smallest whole number of values that makes up at least the percentage. */
  lemma NearestRankIs(p: real, count: nat, n: int)
    ensures n >= NearestRank(p, count) <==> n as real >= p / 100.0 * count as real
  {
    var x := p / 100.0 * count as real;
    assert (-x).Floor as real <= -x < (-x).Floor as real + 1.0;
  }

  class LatencyHistogram {
    const counts: array<nat>
    var count: nat
    var max: nat
    ghost var values: seq<nat>

    ghost predicate Valid()
      reads this, counts
    {
      && counts.Length == BUCKETS
      && Recorded(values)
      && count == |values|
      && (forall i | 0 <= i < BUCKETS :: counts[i] == CountIn(values, i))
      && (forall j | 0 <= j < |values| :: values[j] <= max)
      && (if values == [] then max == 0 else max in values)
    }

    constructor ()
      ensures Valid() && values == [] && fresh(counts)
    {
      counts := new nat[BUCKETS](_ => 0);
      count, max := 0, 0;
      values := [];
    }

    /** `record`: anything below 1 counts as 1. */
    method Record(ns: int)
      requires Valid() && ns < LONG_LIMIT
      modifies this, counts
      ensures Valid() && values == old(values) + [if ns < 1 then 1 else ns]
    {
      var v: nat := if ns < 1 then 1 else ns;
      ghost var was := values;
      IndexInRange(v);
      count := count + 1;
      if v > max {
        max := v;
      }
      counts[Index(v)] := counts[Index(v)] + 1;
      values := values + [v];
      assert values[..|was|] == was;
    }

    /** `percentile`, over exact arithmetic: what is reported for the rank the percentage comes to. */
    method Percentile(p: real) returns (r: nat)
      requires Valid()
      ensures count == 0 ==> r == 0
      ensures count > 0 ==> r <= max
      ensures var rank := NearestRank(p, count);
              && (1 <= rank <= count ==> Reports(values, rank, r) && exists x :: IsRank(values, rank, x))
              && (rank < 1 <= count ==> Reports(values, 1, r))
              && (rank > count > 0 ==> r == max)
    {
      var rank := NearestRank(p, count);
      r := AtRank(rank);
      if 1 <= rank <= count { HasRank(values, rank, max); }
    }

    method AtRank(rank: int) returns (r: nat)
      requires Valid()
      ensures count == 0 ==> r == 0
      ensures count > 0 && rank > count ==> r == max
      ensures count > 0 ==> r <= max
      ensures 1 <= rank <= count ==> Reports(values, rank, r)
      ensures rank < 1 <= count ==> Reports(values, 1, r)
    {
      if count == 0 {
        return 0;
      }
      var target := if rank < 1 then 1 else rank;
      var cum := 0;
      BelowAll(values);
      for i := 0 to BUCKETS
        invariant cum == CountBelow(values, i) < target
      {
        BelowNext(values, i);
        BelowMonotone(values, i + 1, BUCKETS);
        cum := cum + counts[i];
        if cum >= target {
          NonEmptyIsUsable(values, i);
          ReportedIsClose(values, target, i, max);
          r := if UpperBound(i) < max then UpperBound(i) else max;
          return;
        }
      }
      return max;
    }
  }

  /** What `percentile` reports from the bucket it stops at. */
  lemma ReportedIsClose(values: seq<nat>, rank: int, i: nat, max: nat)
    requires Recorded(values) && Usable(i) && CountBelow(values, i) < rank <= CountBelow(values, i + 1)
    requires forall j | 0 <= j < |values| :: values[j] <= max
    ensures UpperBound(i) >= 0
    ensures Reports(values, rank, if UpperBound(i) < max then UpperBound(i) else max)
  {
    forall x: nat | IsRank(values, rank, x)
      ensures x <= max && x <= UpperBound(i) && 32 * (UpperBound(i) - x) < x && (x < 64 ==> UpperBound(i) == x)
    {
      RankBucket(values, rank, x, i);
      UpperBoundIsClose(x);
    }
    UpperBoundNonNegative(i);
  }

  lemma UpperBoundNonNegative(i: nat)
    requires Usable(i)
    ensures UpperBound(i) >= 0
  {
    if i >= 1 { UpperBoundIsInBucket(i); }
  }
}
