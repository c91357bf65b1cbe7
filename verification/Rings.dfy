/**
 The FIFO ring under the send queue and the reactor queue.
 */
module Rings {
  import opened Wrappers

  /** The remainder by `n` of the sums the ring forms, which are less than `2 * n` (`WrapIsRemainder`). */
  function Wrap(x: nat, n: nat): (r: nat)
    requires 0 < n && x < 2 * n
    ensures r < n
  {
    if x < n then x else x - n
  }

  lemma WrapIsRemainder(x: nat, n: nat)
    requires 0 < n && x < 2 * n
    ensures Wrap(x, n) == x % n
  {
    var q := x / n;
    assert x == q * n + x % n;
    if q >= 2 {
      AtLeastTwice(q, n);
      assert false;
    }
  }

  lemma AtLeastTwice(q: nat, n: nat)
    requires q >= 2
    ensures q * n >= 2 * n
  {
  }

  /** How far slot `j` lies behind `head`. */
  function Offset(head: nat, j: nat, n: nat): (d: nat)
    requires head < n && j < n
    ensures d < n && Wrap(head + d, n) == j
  {
    if head <= j then j - head else j + n - head
  }

  lemma OffsetOfWrap(head: nat, d: nat, n: nat)
    requires head < n && d < n
    ensures Offset(head, Wrap(head + d, n), n) == d
  {
  }

  class Ring<T> {
    var items: array<Option<T>>
    var head: nat
    var size: nat
    ghost var contents: seq<T>

    /** The live window, from `head` on and wrapping, holds `contents`; every other slot is empty. */
    ghost predicate Valid()
      reads this, items
    {
      && items.Length >= 4 && head < items.Length && size <= items.Length
      && |contents| == size
      && forall j | 0 <= j < items.Length ::
           items[j] == if Offset(head, j, items.Length) < size then Some(contents[Offset(head, j, items.Length)]) else None
    }

    constructor (initial: int := 16)
      ensures Valid() && contents == [] && fresh(items)
      ensures items.Length == if initial < 4 then 4 else initial
    {
      items := new Option<T>[if initial < 4 then 4 else initial](_ => None);
      head, size := 0, 0;
      contents := [];
    }

    /** `addLast` */
    method AddLast(x: T)
      requires Valid()
      modifies this, items
      ensures Valid() && contents == old(contents) + [x]
      ensures items == old(items) || fresh(items)
    {
      if size == items.Length {
        Grow();
      }
      var n := items.Length;
      OffsetOfWrap(head, size, n);
      items[Wrap(head + size, n)] := Some(x);
      size := size + 1;
      contents := contents + [x];
    }

    /** `removeFirstOrNull` */
    method RemoveFirstOrNull() returns (x: Option<T>)
      requires Valid()
      modifies this`head, this`size, this`contents, items
      ensures Valid()
      ensures if old(contents) == [] then x == None && contents == [] else
                x == Some(old(contents)[0]) && contents == old(contents)[1..]
    {
      if size == 0 {
        return None;
      }
      assert Offset(head, head, items.Length) == 0;
      x := items[head];
      items[head] := None;
      head := Wrap(head + 1, items.Length);
      size := size - 1;
      contents := contents[1..];
    }

    /** `clear`: only the live slots need emptying. */
    method Clear()
      requires Valid()
      modifies this`head, this`size, this`contents, items
      ensures Valid() && contents == []
    {
      var n := items.Length;
      for i := 0 to size
        modifies items
        invariant forall j | 0 <= j < n ::
            items[j] == if i <= Offset(head, j, n) < size then Some(contents[Offset(head, j, n)]) else None
      {
        OffsetOfWrap(head, i, n);
        items[Wrap(head + i, n)] := None;
      }
      head, size := 0, 0;
      contents := [];
    }

    /** `grow`: unrolls the window to the front of an array twice as long. */
    method Grow()
      requires Valid()
      modifies this`items, this`head
      ensures Valid() && fresh(items) && items.Length == 2 * old(items.Length)
    {
      var n := items.Length;
      var bigger := new Option<T>[n * 2](_ => None);
      for i := 0 to size
        modifies bigger
        invariant forall j | 0 <= j < n * 2 :: bigger[j] == if j < i then Some(contents[j]) else None
      {
        OffsetOfWrap(head, i, n);
        bigger[i] := items[Wrap(head + i, n)];
      }
      items := bigger;
      head := 0;
    }
  }
}
