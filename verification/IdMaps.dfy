/**
 The pending-request registry: open addressing, linear probing, backward-shift deletion.
 */
module IdMaps {
  import opened Bytes
  import opened Wrappers

  /** Fibonacci hashing: the 32-bit product, shifted right by 7 unsigned, masked to a power-of-two table. */
  function Slot(k: u32, cap: nat): (i: nat)
    requires cap > 0
    ensures i < cap
  {
    k as int * 0x9E37_79B9 % 0x1_0000_0000 / 0x80 % cap
  }

  function Next(i: nat, cap: nat): (j: nat)
    requires i < cap
    ensures j < cap
  {
    if i + 1 == cap then 0 else i + 1
  }

  /** How many steps a probe takes from `a` to `b`, wrapping at `cap`. */
  function Dist(a: nat, b: nat, cap: nat): (d: nat)
    requires a < cap && b < cap
    ensures d < cap
  {
    if a <= b then b - a else b + cap - a
  }

  datatype Table<+V> = Table(keys: seq<u32>, vals: seq<Option<V>>) {
    ghost predicate Shaped() {
      |keys| == |vals| && |keys| > 0
    }

    ghost predicate Live(i: nat) {
      i < |vals| && vals[i].Some?
    }

    /** Steps from the home slot of the key at `i` to `s`. */
    ghost function FromHome(i: nat, s: nat): nat
      requires Shaped() && i < |keys| && s < |keys|
    {
      Dist(Slot(keys[i], |keys|), s, |keys|)
    }
  }

  /** The live slots hold exactly the entries of `m`; `at` says where. */
  ghost predicate Holds<V>(t: Table<V>, m: map<u32, V>, at: map<u32, nat>) {
    && t.Shaped()
    && at.Keys == m.Keys
    && (forall k | k in m :: at[k] < |t.keys| && t.keys[at[k]] == k && t.vals[at[k]] == Some(m[k]))
    && (forall i | 0 <= i < |t.keys| && t.Live(i) :: t.keys[i] in m && at[t.keys[i]] == i)
  }

  /** Every live key is reached from its home slot through live slots. */
  ghost predicate Probeable<V>(t: Table<V>) {
    && t.Shaped()
    && forall i, s | 0 <= i < |t.keys| && 0 <= s < |t.keys| && t.Live(i) && t.FromHome(i, s) < t.FromHome(i, i) :: t.Live(s)
  }

  ghost predicate TableOk<V>(t: Table<V>, m: map<u32, V>, at: map<u32, nat>) {
    Holds(t, m, at) && Probeable(t)
  }

  /** The slots a probe for `k` passed before `i` are live and hold other keys. */
  ghost predicate Passed<V>(t: Table<V>, k: u32, i: nat) {
    && t.Shaped() && i < |t.keys|
    && forall s | 0 <= s < |t.keys| && Dist(Slot(k, |t.keys|), s, |t.keys|) < Dist(Slot(k, |t.keys|), i, |t.keys|) ::
         t.Live(s) && t.keys[s] != k
  }

  /** A probe that meets an empty slot has shown its key absent. */
  lemma EmptyMeansAbsent<V>(t: Table<V>, m: map<u32, V>, at: map<u32, nat>, k: u32, i: nat)
    requires TableOk(t, m, at) && Passed(t, k, i) && !t.Live(i)
    ensures k !in m
  {
    assert k in m ==> t.Live(at[k]);
  }

  /** A probe stops at the entry of its key, or shows that there is none. */
  lemma StoppedProbe<V>(t: Table<V>, m: map<u32, V>, at: map<u32, nat>, k: u32, i: nat)
    requires TableOk(t, m, at) && Passed(t, k, i) && (t.Live(i) ==> t.keys[i] == k)
    ensures t.vals[i] == if k in m then Some(m[k]) else None
  {
    if !t.Live(i) { EmptyMeansAbsent(t, m, at, k, i); }
  }

  lemma PassOne<V>(t: Table<V>, k: u32, i: nat, e: nat)
    requires Passed(t, k, i) && t.Live(i) && t.keys[i] != k
    requires e < |t.keys| && !t.Live(e) && Dist(Slot(k, |t.keys|), i, |t.keys|) <= Dist(Slot(k, |t.keys|), e, |t.keys|)
    ensures var h, cap := Slot(k, |t.keys|), |t.keys|;
            && Dist(h, Next(i, cap), cap) == Dist(h, i, cap) + 1 <= Dist(h, e, cap)
            && Passed(t, k, Next(i, cap))
  {
    var h, cap := Slot(k, |t.keys|), |t.keys|;
    assert i != e;
    forall s | 0 <= s < cap && Dist(h, s, cap) < Dist(h, Next(i, cap), cap) ensures t.Live(s) && t.keys[s] != k {
      if s != i { assert Dist(h, s, cap) < Dist(h, i, cap); }
    }
  }

  /** Filling the empty slot a probe for `k` ended on. */
  lemma InsertOk<V>(t: Table<V>, m: map<u32, V>, at: map<u32, nat>, k: u32, v: V, i: nat)
    requires TableOk(t, m, at) && Passed(t, k, i) && !t.Live(i)
    ensures k !in m
    ensures TableOk(Table(t.keys[i := k], t.vals[i := Some(v)]), m[k := v], at[k := i])
  {
    EmptyMeansAbsent(t, m, at, k, i);
    var t', cap := Table(t.keys[i := k], t.vals[i := Some(v)]), |t.keys|;
    forall p, s | 0 <= p < cap && 0 <= s < cap && t'.Live(p) && t'.FromHome(p, s) < t'.FromHome(p, p) ensures t'.Live(s) {
      if p != i { assert t.Live(p) && t.FromHome(p, s) < t.FromHome(p, p); }
    }
  }

  /** Overwriting the value of a key already there. */
  lemma OverwriteOk<V>(t: Table<V>, m: map<u32, V>, at: map<u32, nat>, k: u32, v: V, i: nat)
    requires TableOk(t, m, at) && t.Live(i) && t.keys[i] == k
    ensures k in m
    ensures TableOk(Table(t.keys, t.vals[i := Some(v)]), m[k := v], at)
  {
    var t', cap := Table(t.keys, t.vals[i := Some(v)]), |t.keys|;
    forall p, s | 0 <= p < cap && 0 <= s < cap && t'.Live(p) && t'.FromHome(p, s) < t'.FromHome(p, p) ensures t'.Live(s) {
      assert t.Live(p) && t.FromHome(p, s) < t.FromHome(p, p);
    }
  }

  // ---- a table with fewer entries than slots has an empty slot ----

  lemma {:induction false} DistinctKeys<V>(t: Table<V>, m: map<u32, V>, at: map<u32, nat>, n: nat) returns (ks: set<u32>)
    requires Holds(t, m, at) && n <= |t.keys| && forall i | 0 <= i < n :: t.Live(i)
    ensures ks <= m.Keys && |ks| == n && forall k | k in ks :: at[k] < n
    decreases n
  {
    if n == 0 {
      ks := {};
    } else {
      ks := DistinctKeys(t, m, at, n - 1);
      assert t.Live(n - 1);
      ks := ks + {t.keys[n - 1]};
    }
  }

  lemma {:induction false} SubsetSize(a: set<u32>, b: set<u32>)
    requires a <= b
    ensures |a| <= |b|
  {
    assert b == a + (b - a);
  }

  lemma EmptySlot<V>(t: Table<V>, m: map<u32, V>, at: map<u32, nat>) returns (e: nat)
    requires Holds(t, m, at) && |m| < |t.keys|
    ensures e < |t.keys| && !t.Live(e)
  {
    if i :| 0 <= i < |t.keys| && !t.Live(i) {
      e := i;
    } else {
      var ks := DistinctKeys(t, m, at, |t.keys|);
      SubsetSize(ks, m.Keys);
      assert false;
    }
  }

  // ---- backward-shift deletion ----

  /**
   The table while the cluster behind a removed entry is shifted: slot `i` is the hole, slots strictly between
   `i` and `j` are live, and only keys from `j` on may still need the hole to be reached.
   */
  ghost predicate Shifting<V>(t: Table<V>, m: map<u32, V>, at: map<u32, nat>, i: nat, j: nat) {
    && Holds(t, m, at)
    && i < |t.keys| && j < |t.keys| && i != j && !t.Live(i)
    && (forall s | 0 <= s < |t.keys| && 0 < Dist(i, s, |t.keys|) < Dist(i, j, |t.keys|) :: t.Live(s))
    && (forall p, s | 0 <= p < |t.keys| && 0 <= s < |t.keys| && t.Live(p) && t.FromHome(p, s) < t.FromHome(p, p) ::
          t.Live(s) || (s == i && Dist(i, p, |t.keys|) >= Dist(i, j, |t.keys|)))
  }

  /** Emptying a live slot opens the hole. */
  lemma ShiftingStarts<V>(t: Table<V>, m: map<u32, V>, at: map<u32, nat>, i: nat, e: nat)
    requires TableOk(t, m, at) && t.Live(i) && e < |t.keys| && !t.Live(e)
    ensures var k := t.keys[i]; Shifting(Table(t.keys, t.vals[i := None]), m - {k}, at - {k}, i, Next(i, |t.keys|))
  {
    var t', cap := Table(t.keys, t.vals[i := None]), |t.keys|;
    forall p, s | 0 <= p < cap && 0 <= s < cap && t'.Live(p) && t'.FromHome(p, s) < t'.FromHome(p, p)
      ensures t'.Live(s) || (s == i && Dist(i, p, cap) >= 1)
    {
      assert t.Live(p) && t.FromHome(p, s) < t.FromHome(p, p);
    }
  }

  lemma HoleFacts<V>(t: Table<V>, m: map<u32, V>, at: map<u32, nat>, i: nat, e: nat)
    requires Holds(t, m, at) && t.Live(i) && e < |t.keys| && !t.Live(e)
    ensures e != i && !Table(t.keys, t.vals[i := None]).Live(e)
  {
  }

  /** The source's test: is `home` cyclically within `(i, j]`? */
  predicate Between(i: nat, home: nat, j: nat, cap: nat) {
    if i <= j then i + 1 <= home <= j else (i + 1 <= home <= cap - 1) || home <= j
  }

  lemma BetweenIsCyclic(i: nat, home: nat, j: nat, cap: nat)
    requires i < cap && home < cap && j < cap && i != j
    ensures Between(i, home, j, cap) <==> 0 < Dist(i, home, cap) <= Dist(i, j, cap)
    ensures Between(i, home, j, cap) <==> !(Dist(home, i, cap) < Dist(home, j, cap))
  {
  }

  /** A key whose home lies past the hole stays. */
  lemma ShiftingSkips<V>(t: Table<V>, m: map<u32, V>, at: map<u32, nat>, i: nat, j: nat)
    requires Shifting(t, m, at, i, j) && t.Live(j) && Between(i, Slot(t.keys[j], |t.keys|), j, |t.keys|) && Next(j, |t.keys|) != i
    ensures Shifting(t, m, at, i, Next(j, |t.keys|))
  {
    var cap := |t.keys|;
    BetweenIsCyclic(i, Slot(t.keys[j], cap), j, cap);
    assert Dist(i, Next(j, cap), cap) == Dist(i, j, cap) + 1;
  }

  /** The entry of slot `j` moved into the hole at `i`. */
  ghost function Moved<V>(t: Table<V>, i: nat, j: nat): Table<V>
    requires t.Shaped() && i < |t.keys| && j < |t.keys|
  {
    Table(t.keys[i := t.keys[j]], t.vals[i := t.vals[j]][j := None])
  }

  /** A key the hole cuts off from its home moves into the hole: each entry is still reached, but for the new hole. */
  lemma MovedReached<V>(t: Table<V>, m: map<u32, V>, at: map<u32, nat>, i: nat, j: nat, p: nat, s: nat)
    requires Shifting(t, m, at, i, j) && t.Live(j) && !Between(i, Slot(t.keys[j], |t.keys|), j, |t.keys|)
    requires p < |t.keys| && s < |t.keys| && Moved(t, i, j).Live(p)
    requires Moved(t, i, j).FromHome(p, s) < Moved(t, i, j).FromHome(p, p)
    ensures Moved(t, i, j).Live(s) || (s == j && Dist(j, p, |t.keys|) >= 1)
  {
    BetweenIsCyclic(i, Slot(t.keys[j], |t.keys|), j, |t.keys|);
    if p == i {
      assert t.FromHome(j, s) < t.FromHome(j, j);
    } else {
      assert t.FromHome(p, s) < t.FromHome(p, p);
    }
  }

  lemma ShiftingMoves<V>(t: Table<V>, m: map<u32, V>, at: map<u32, nat>, i: nat, j: nat)
    requires Shifting(t, m, at, i, j) && t.Live(j) && !Between(i, Slot(t.keys[j], |t.keys|), j, |t.keys|)
    requires |t.keys| > 1
    ensures Shifting(Moved(t, i, j), m, at[t.keys[j] := i], j, Next(j, |t.keys|))
  {
    var t', cap := Moved(t, i, j), |t.keys|;
    forall p, s | 0 <= p < cap && 0 <= s < cap && t'.Live(p) && t'.FromHome(p, s) < t'.FromHome(p, p)
      ensures t'.Live(s) || (s == j && Dist(j, p, cap) >= 1)
    {
      MovedReached(t, m, at, i, j, p, s);
    }
  }

  /** At an empty slot the cluster ends: no key needs the hole, so the table is probeable again. */
  lemma ShiftingEnds<V>(t: Table<V>, m: map<u32, V>, at: map<u32, nat>, i: nat, j: nat)
    requires Shifting(t, m, at, i, j) && !t.Live(j)
    ensures TableOk(t, m, at)
  {
    var cap := |t.keys|;
    forall p, s | 0 <= p < cap && 0 <= s < cap && t.Live(p) && t.FromHome(p, s) < t.FromHome(p, p) ensures t.Live(s) {
      assert t.FromHome(p, j) < t.FromHome(p, p) ==> t.Live(j);
    }
  }

  // ---- counting ----

  ghost function LiveCount<V>(vals: seq<Option<V>>): nat {
    if vals == [] then 0 else LiveCount(vals[..|vals| - 1]) + if vals[|vals| - 1].Some? then 1 else 0
  }

  lemma {:induction false} LiveCountOfUpdate<V>(vals: seq<Option<V>>, i: nat, o: Option<V>)
    requires i < |vals|
    ensures LiveCount(vals[i := o]) == LiveCount(vals) + (if o.Some? then 1 else 0) - (if vals[i].Some? then 1 else 0)
    decreases |vals|
  {
    var n := |vals| - 1;
    if i < n {
      assert vals[i := o][..n] == vals[..n][i := o];
      LiveCountOfUpdate(vals[..n], i, o);
    } else {
      assert vals[i := o][..n] == vals[..n];
    }
  }

  lemma {:induction false} LiveBelow<V>(t: Table<V>, m: map<u32, V>, at: map<u32, nat>, n: nat)
    requires Holds(t, m, at) && n <= |t.vals|
    ensures LiveCount(t.vals[..n]) == |Below(m, at, n)|
    decreases n
  {
    if n == 0 {
      assert Below(m, at, 0) == map[];
    } else {
      LiveBelow(t, m, at, n - 1);
      assert t.vals[..n][..n - 1] == t.vals[..n - 1];
      BelowNext(t, m, at, n - 1);
      assert t.Live(n - 1) ==> t.keys[n - 1] !in Below(m, at, n - 1);
    }
  }

  /** As many slots are live as the map has keys. */
  lemma LiveIsSize<V>(t: Table<V>, m: map<u32, V>, at: map<u32, nat>)
    requires Holds(t, m, at)
    ensures LiveCount(t.vals) == |m|
  {
    LiveBelow(t, m, at, |t.vals|);
    assert t.vals[..|t.vals|] == t.vals;
    assert Below(m, at, |t.vals|) == m;
  }

  // ---- the map ----

  ghost predicate PowerOfTwo(n: nat) {
    n == 1 || (n > 0 && n % 2 == 0 && PowerOfTwo(n / 2))
  }

  datatype Op<V> = Put(k: u32, v: V) | Drop(k: u32) | Wipe

  ghost function Applied<V>(m: map<u32, V>, ops: seq<Op<V>>): map<u32, V> {
    if ops == [] then m
    else
      var before := Applied(m, ops[..|ops| - 1]);
      match ops[|ops| - 1]
      case Put(k, v) => before[k := v]
      case Drop(k) => before - {k}
      case Wipe => map[]
  }

  lemma AppliedOne<V>(m: map<u32, V>, ops: seq<Op<V>>, i: nat)
    requires i < |ops|
    ensures Applied(m, ops[..i + 1]) == Applied(Applied(m, ops[..i]), [ops[i]])
  {
    assert ops[..i + 1][..i] == ops[..i] && [ops[i]][..0] == [];
  }

  class IdMap<V> {
    var keys: array<u32>
    var vals: array<Option<V>>
    var size: nat
    /** The arrays' contents, the mathematical map they stand for, and the slot of each key. */
    ghost var table: Table<V>
    ghost var contents: map<u32, V>
    ghost var at: map<u32, nat>

    ghost predicate Mirrors()
      reads this, keys, vals
    {
      keys as object != vals as object && keys[..] == table.keys && vals[..] == table.vals
    }

    /** The table stands for `contents`, is at most half full and has a power of two of at least 16 slots. */
    ghost predicate Valid()
      reads this, keys, vals
    {
      && Mirrors()
      && TableOk(table, contents, at)
      && size == LiveCount(table.vals)
      && 2 * size <= keys.Length
      && keys.Length >= 16 && PowerOfTwo(keys.Length)
    }

    /** `size` is the number of keys. */
    lemma SizeIsCount()
      requires Valid()
      ensures size == |contents|
    {
      LiveIsSize(table, contents, at);
    }

    ghost predicate MustGrow()
      reads this
    {
      (size + 1) * 2 > keys.Length
    }

    constructor (initial: nat := 16)
      ensures Valid() && contents == map[] && fresh(keys) && fresh(vals)
      ensures keys.Length >= 2 * initial
    {
      var s := 16;
      assert PowerOfTwo(8) && PowerOfTwo(16);
      while s < initial * 2
        invariant s >= 16 && PowerOfTwo(s)
      {
        s := s * 2;
      }
      keys := new u32[s](_ => 0);
      vals := new Option<V>[s](_ => None);
      size := 0;
      new;
      table := Table(keys[..], vals[..]);
      contents := map[];
      at := map[];
      EmptyTableOk(table);
    }

    /** The probe loop of `set` and `remove`: the slot of `k`, or the empty slot that shows it absent. */
    method Probe(k: u32) returns (i: nat)
      requires Valid()
      ensures i < keys.Length && Passed(table, k, i)
      ensures vals[i].Some? ==> keys[i] == k
      ensures vals[i] == if k in contents then Some(contents[k]) else None
    {
      SizeIsCount();
      ghost var e := EmptySlot(table, contents, at);
      var cap := keys.Length;
      i := Slot(k, cap);
      while vals[i].Some? && keys[i] != k
        invariant i < cap && Passed(table, k, i)
        invariant Dist(Slot(k, cap), i, cap) <= Dist(Slot(k, cap), e, cap)
        decreases Dist(Slot(k, cap), e, cap) - Dist(Slot(k, cap), i, cap)
      {
        PassOne(table, k, i, e);
        i := Next(i, cap);
      }
      StoppedProbe(table, contents, at, k, i);
    }

    /** `set`: grows first when the table would be more than half full, even for a key already there. */
    method Set(k: u32, v: V)
      requires Valid()
      modifies this, keys, vals
      ensures Valid() && contents == old(contents)[k := v]
      ensures keys.Length == if old(MustGrow()) then 2 * old(keys.Length) else old(keys.Length)
      ensures (keys == old(keys) && vals == old(vals)) || (fresh(keys) && fresh(vals))
      decreases if (size + 1) * 2 > keys.Length then 3 else 0
    {
      if (size + 1) * 2 > keys.Length {
        Grow();
      }
      var i := Probe(k);
      if vals[i].Some? {
        Overwrite(k, v, i);
      } else {
        Insert(k, v, i);
      }
    }

    method Overwrite(k: u32, v: V, i: nat)
      requires Valid() && i < keys.Length && vals[i].Some? && keys[i] == k
      modifies this`table, this`contents, vals
      ensures Valid() && contents == old(contents)[k := v]
    {
      OverwriteOk(table, contents, at, k, v, i);
      LiveCountOfUpdate(table.vals, i, Some(v));
      vals[i] := Some(v);
      table := Table(table.keys, table.vals[i := Some(v)]);
      contents := contents[k := v];
    }

    method Insert(k: u32, v: V, i: nat)
      requires Valid() && !MustGrow() && i < keys.Length && vals[i].None? && Passed(table, k, i)
      modifies this`table, this`contents, this`at, this`size, keys, vals
      ensures Valid() && contents == old(contents)[k := v]
    {
      InsertOk(table, contents, at, k, v, i);
      LiveCountOfUpdate(table.vals, i, Some(v));
      keys[i] := k;
      vals[i] := Some(v);
      size := size + 1;
      table := Table(table.keys[i := k], table.vals[i := Some(v)]);
      contents := contents[k := v];
      at := at[k := i];
    }

    /** `remove`: null when absent, else the value, after shifting the cluster behind it. */
    method Remove(k: u32) returns (r: Option<V>)
      requires Valid()
      modifies this`size, this`table, this`contents, this`at, keys, vals
      ensures Valid() && contents == old(contents) - {k}
      ensures r == if k in old(contents) then Some(old(contents)[k]) else None
    {
      var i := Probe(k);
      r := vals[i];
      if r.Some? {
        SizeIsCount();
        ghost var e := EmptySlot(table, contents, at);
        RemoveOne(contents, k);
        RemoveAt(k, i, e);
        LiveIsSize(table, contents, at);
        return;
      }
      assert contents - {k} == contents;
    }

    method RemoveAt(k: u32, i: nat, ghost e: nat)
      requires Mirrors() && TableOk(table, contents, at) && size > 0 && keys.Length >= 16
      requires i < keys.Length && vals[i].Some? && keys[i] == k && e < keys.Length && !table.Live(e)
      modifies this`size, this`table, this`contents, this`at, keys, vals
      ensures Mirrors() && TableOk(table, contents, at)
      ensures size == old(size) - 1 && contents == old(contents) - {k}
    {
      assert table.keys[i] == k && table.Live(i);
      ghost var gap := Table(table.keys, table.vals[i := None]);
      ShiftingStarts(table, contents, at, i, e);
      HoleFacts(table, contents, at, i, e);
      OpenHole(i, gap, contents - {k}, at - {k});
      ShiftBack(i, e);
    }

    /** The entry is taken out and counted off; its slot is the hole. */
    method OpenHole(i: nat, ghost gap: Table<V>, ghost m: map<u32, V>, ghost places: map<u32, nat>)
      requires Mirrors() && i < vals.Length && size > 0 && gap == Table(table.keys, table.vals[i := None])
      modifies this`size, this`table, this`contents, this`at, vals
      ensures Mirrors() && size == old(size) - 1 && table == gap && contents == m && at == places
    {
      vals[i] := None;
      size := size - 1;
      table, contents, at := gap, m, places;
    }

    /** The loop that closes the hole left at `hole`. */
    method ShiftBack(hole: nat, ghost e: nat)
      requires Mirrors() && keys.Length >= 16 && hole < keys.Length
      requires Shifting(table, contents, at, hole, Next(hole, keys.Length))
      requires e < keys.Length && !table.Live(e) && e != hole
      modifies this`table, this`at, keys, vals
      ensures Mirrors() && TableOk(table, contents, at)
    {
      var cap := keys.Length;
      var i: nat := hole;
      var j: nat := Next(i, cap);
      while vals[j].Some?
        invariant Mirrors() && i < cap && j < cap && Shifting(table, contents, at, i, j)
        invariant !table.Live(e) && e != i && 0 < Dist(i, j, cap) <= Dist(i, e, cap)
        decreases Dist(j, e, cap)
      {
        var home := Slot(keys[j], cap);
        var between := if i <= j then i + 1 <= home <= j else (i + 1 <= home <= cap - 1) || home <= j;
        CloserTo(i, j, e, cap);
        if !between {
          MoveBack(i, j);
          i := j;
        } else {
          ShiftingSkips(table, contents, at, i, j);
        }
        j := Next(j, cap);
      }
      ShiftingEnds(table, contents, at, i, j);
    }

    method MoveEntry(i: nat, j: nat)
      requires keys as object != vals as object && keys.Length == vals.Length && i < keys.Length && j < keys.Length
      modifies keys, vals
      ensures keys[..] == old(keys[..])[i := old(keys[j])] && vals[..] == old(vals[..])[i := old(vals[j])][j := None]
    {
      keys[i] := keys[j];
      vals[i] := vals[j];
      vals[j] := None;
    }

    /** Move the entry at `j` into the hole at `i`. */
    method MoveBack(i: nat, j: nat)
      requires Mirrors() && keys.Length >= 16 && Shifting(table, contents, at, i, j) && vals[j].Some?
      requires !Between(i, Slot(keys[j], keys.Length), j, keys.Length)
      modifies this`table, this`at, keys, vals
      ensures Mirrors() && Shifting(table, contents, at, j, Next(j, keys.Length))
      ensures forall s | 0 <= s < keys.Length && s != i :: table.Live(s) ==> old(table).Live(s)
    {
      ghost var moved, places := Moved(table, i, j), at[keys[j] := i];
      ShiftingMoves(table, contents, at, i, j);
      MoveEntry(i, j);
      table, at := moved, places;
    }

    /** `clear` */
    method Clear()
      requires Valid()
      modifies this`size, this`table, this`contents, this`at, vals
      ensures Valid() && contents == map[]
    {
      for i := 0 to vals.Length
        invariant forall j | 0 <= j < i :: vals[j].None?
        invariant keys[..] == table.keys
      {
        vals[i] := None;
      }
      size := 0;
      table := Table(table.keys, vals[..]);
      contents := map[];
      at := map[];
      EmptyTableOk(table);
    }

    /** `forEachValue`: visits the value of every key once, in slot order; `ks` are the keys visited. */
    method Values() returns (vs: seq<V>, ghost ks: seq<u32>)
      requires Valid()
      ensures |vs| == size
      ensures |vs| == |ks| && (forall i | 0 <= i < |ks| :: ks[i] in contents && vs[i] == contents[ks[i]])
      ensures forall i, j | 0 <= i < j < |ks| :: ks[i] != ks[j]
      ensures forall k | k in contents :: k in ks
    {
      vs, ks := [], [];
      for i := 0 to vals.Length
        invariant |vs| == |ks|
        invariant forall j | 0 <= j < |ks| :: ks[j] in contents && vs[j] == contents[ks[j]] && at[ks[j]] < i
        invariant forall a, b | 0 <= a < b < |ks| :: ks[a] != ks[b]
        invariant forall k | k in contents && at[k] < i :: k in ks
      {
        if vals[i].Some? {
          assert table.Live(i);
          vs := vs + [vals[i].value];
          ks := ks + [keys[i]];
        }
      }
      Enumerated(contents, ks);
      SizeIsCount();
    }

    /** `grow`: rehashes into a table twice the size; none of the insertions grows it again. */
    /** An insertion while growing: the table, large enough for all of `m`, does not grow again. */
    method Reinsert(k: u32, v: V, ghost m: map<u32, V>)
      requires Valid() && |contents| + 1 <= |m| && 4 * |m| <= keys.Length
      modifies this, keys, vals
      ensures Valid() && contents == old(contents)[k := v]
      ensures keys.Length == old(keys.Length)
      ensures (keys == old(keys) && vals == old(vals)) || (fresh(keys) && fresh(vals))
      decreases 1
    {
      SizeIsCount();
      Set(k, v);
    }

    method Grow()
      requires Valid()
      modifies this
      ensures Valid() && contents == old(contents)
      ensures size == old(size) && keys.Length == 2 * old(keys.Length) && fresh(keys) && fresh(vals)
      decreases 2
    {
      SizeIsCount();
      var oldK, oldV := keys[..], vals[..];
      ghost var m, where, t := contents, at, table;
      var n := keys.Length;
      Reset(n * 2);
      for i := 0 to n
        invariant fresh(keys) && fresh(vals)
        invariant Valid() && keys.Length == 2 * n
        invariant contents == Below(m, where, i)
      {
        BelowNext(t, m, where, i);
        var v := oldV[i];
        if v.Some? {
          Reinsert(oldK[i], v.value, m);
        }
      }
      assert contents == m;
      SizeIsCount();
    }

    /** Any sequence of operations leaves the table standing for the map the operations describe. */
    method Perform(ops: seq<Op<V>>)
      requires Valid()
      modifies this, keys, vals
      ensures Valid() && contents == Applied(old(contents), ops)
    {
      for i := 0 to |ops|
        invariant Valid() && contents == Applied(old(contents), ops[..i])
        invariant (keys == old(keys) && vals == old(vals)) || (fresh(keys) && fresh(vals))
      {
        AppliedOne(old(contents), ops, i);
        Do(ops[i]);
      }
      assert ops[..|ops|] == ops;
    }

    method Do(op: Op<V>)
      requires Valid()
      modifies this, keys, vals
      ensures Valid() && contents == Applied(old(contents), [op])
      ensures (keys == old(keys) && vals == old(vals)) || (fresh(keys) && fresh(vals))
    {
      assert [op][..0] == [];
      match op
      case Put(k, v) =>
        Set(k, v);
        return;
      case Drop(k) =>
        var _ := Remove(k);
        return;
      case Wipe =>
        Clear();
        return;
    }

    /** Fresh, empty arrays of `n` slots. */
    method Reset(n: nat)
      requires n >= 16 && PowerOfTwo(n)
      modifies this
      ensures Valid() && contents == map[] && keys.Length == n && fresh(keys) && fresh(vals)
    {
      keys := new u32[n](_ => 0);
      vals := new Option<V>[n](_ => None);
      size := 0;
      table := Table(keys[..], vals[..]);
      contents := map[];
      at := map[];
      EmptyTableOk(table);
    }
  }

  /** Walking on from `j`, short of `e`, comes nearer to `e`, seen from `i` or from `j`. */
  lemma CloserTo(i: nat, j: nat, e: nat, cap: nat)
    requires i < cap && j < cap && e < cap && e != i && e != j && 0 < Dist(i, j, cap) <= Dist(i, e, cap)
    ensures Next(j, cap) != i && Next(j, cap) != j
    ensures Dist(i, Next(j, cap), cap) == Dist(i, j, cap) + 1 <= Dist(i, e, cap)
    ensures Dist(j, Next(j, cap), cap) == 1 <= Dist(j, e, cap)
    ensures Dist(Next(j, cap), e, cap) == Dist(j, e, cap) - 1
  {
  }

  lemma EmptyTableOk<V>(t: Table<V>)
    requires t.Shaped() && forall i | 0 <= i < |t.vals| :: t.vals[i].None?
    ensures TableOk(t, map[], map[]) && LiveCount(t.vals) == 0
  {
    LiveIsSize<V>(t, map[], map[]);
  }

  lemma RemoveOne<V>(m: map<u32, V>, k: u32)
    requires k in m
    ensures |m - {k}| == |m| - 1
  {
    assert (m - {k}).Keys == m.Keys - {k};
  }

  /** A list of all the keys, each once, is as long as the map. */
  lemma {:induction false} Enumerated<V>(m: map<u32, V>, ks: seq<u32>)
    requires forall k :: k in ks <==> k in m
    requires forall i, j | 0 <= i < j < |ks| :: ks[i] != ks[j]
    ensures |ks| == |m|
    decreases |ks|
  {
    if ks == [] {
      assert m == map[];
    } else {
      var n := |ks| - 1;
      assert ks == ks[..n] + [ks[n]];
      RemoveOne(m, ks[n]);
      Enumerated(m - {ks[n]}, ks[..n]);
    }
  }

  /** The entries in the first `n` slots. */
  ghost function Below<V>(m: map<u32, V>, at: map<u32, nat>, n: nat): map<u32, V>
    requires at.Keys == m.Keys
  {
    map k | k in m && at[k] < n :: m[k]
  }

  lemma BelowNext<V>(t: Table<V>, m: map<u32, V>, at: map<u32, nat>, i: nat)
    requires Holds(t, m, at) && i < |t.keys|
    ensures if t.Live(i) then
              && Below(m, at, i + 1) == Below(m, at, i)[t.keys[i] := t.vals[i].value]
              && |Below(m, at, i)| + 1 <= |m|
            else Below(m, at, i + 1) == Below(m, at, i)
  {
    if t.Live(i) {
      var k := t.keys[i];
      assert Below(m, at, i).Keys <= m.Keys - {k};
      SubsetSize(Below(m, at, i).Keys, m.Keys - {k});
      RemoveOne(m, k);
      assert (m - {k}).Keys == m.Keys - {k};
    }
  }
}
