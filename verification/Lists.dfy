/**
 Waiter lists and queues of indices, without duplicates.
 */
module Lists {

  ghost predicate NoDup(s: seq<nat>) {
    forall i, j | 0 <= i < j < |s| :: s[i] != s[j]
  }

  /** The list without its first occurrence of `x`. */
  function Remove(s: seq<nat>, x: nat): seq<nat> {
    if s == [] then [] else if s[0] == x then s[1..] else [s[0]] + Remove(s[1..], x)
  }

  lemma {:induction false} Removed(s: seq<nat>, x: nat)
    ensures NoDup(s) ==> NoDup(Remove(s, x)) && forall y :: y in Remove(s, x) <==> y in s && y != x
    ensures x !in s ==> Remove(s, x) == s
  {
    if s != [] {
      assert s == [s[0]] + s[1..];
      Removed(s[1..], x);
      if s[0] != x && NoDup(s) { assert s[0] !in Remove(s[1..], x); }
    }
  }

  /** What is left after taking the first element. */
  lemma RestOf(s: seq<nat>)
    requires NoDup(s) && s != []
    ensures NoDup(s[1..]) && forall y :: y in s[1..] <==> y in s && y != s[0]
  {
    assert s == [s[0]] + s[1..];
  }
}
