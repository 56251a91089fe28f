/** Lists of addresses without repetition, and sums of multisets. */
module Sequences {
  ghost predicate NoDup(q: seq<nat>) { forall i, j | 0 <= i < j < |q| :: q[i] != q[j] }

  /** Neighbours in a list, where 0 is the null pointer. */
  function First(q: seq<nat>): nat { if q == [] then 0 else q[0] }

  function After(q: seq<nat>, i: nat): nat { if i + 1 < |q| then q[i + 1] else 0 }

  function Before(q: seq<nat>, i: nat): nat { if 0 < i <= |q| then q[i - 1] else 0 }

  /** The list without the first x. */
  function Remove(q: seq<nat>, x: nat): seq<nat> {
    if q == [] then [] else if q[0] == x then q[1..] else [q[0]] + Remove(q[1..], x)
  }

  lemma {:induction false} Removed(q: seq<nat>, x: nat)
    requires NoDup(q)
    ensures NoDup(Remove(q, x)) && forall y :: y in Remove(q, x) <==> y in q && y != x
  {
    if q != [] {
      assert NoDup(q[1..]);
      Removed(q[1..], x);
      assert q[0] !in q[1..];
      assert forall y :: y in q <==> y == q[0] || y in q[1..];
      if q[0] != x {
        var r := Remove(q[1..], x);
        assert q[0] !in r;
        assert forall y :: y in [q[0]] + r <==> y == q[0] || y in r;
      }
    }
  }

  lemma {:induction false} RemoveIndex(q: seq<nat>, i: nat)
    requires NoDup(q) && i < |q|
    ensures Remove(q, q[i]) == q[..i] + q[i + 1..]
  {
    if i > 0 {
      assert NoDup(q[1..]);
      RemoveIndex(q[1..], i - 1);
      assert [q[0]] + (q[1..][..i - 1] + q[1..][i..]) == q[..i] + q[i + 1..];
    }
  }

  lemma JoinNoDup(a: seq<nat>, b: seq<nat>)
    requires NoDup(a) && NoDup(b) && forall x | x in a :: x !in b
    ensures NoDup(a + b)
  {
    var c := a + b;
    forall i, j | 0 <= i < j < |c| ensures c[i] != c[j] {
      if i < |a| <= j { assert c[i] in a && c[j] in b; }
    }
  }

  lemma {:induction false} NoDupWithin(q: seq<nat>, r: seq<nat>)
    requires NoDup(q) && forall x | x in q :: x in r
    ensures |q| <= |r|
  {
    if q != [] {
      assert q[0] in r;
      var i: nat :| i < |r| && r[i] == q[0];
      var rest := r[..i] + r[i + 1..];
      forall x | x in q[1..] ensures x in rest {
        assert x in q && x != q[0];
        var j: nat :| j < |r| && r[j] == x;
        if j < i { assert rest[j] == x; } else { assert rest[j - 1] == x; }
      }
      assert NoDup(q[1..]);
      NoDupWithin(q[1..], rest);
    }
  }

  /** What is held and what was given back add up over two stretches of a run. */
  lemma AddUp(s: multiset<nat>, m: multiset<nat>, g: multiset<nat>, a: multiset<nat>, m': multiset<nat>, g': multiset<nat>, b: multiset<nat>)
    requires a + g == s + m && b + g' == a + m'
    ensures b + (g + g') == s + (m + m')
  {
    assert b + (g + g') == (b + g') + g;
    assert s + (m + m') == (s + m) + m';
    assert (a + m') + g == (a + g) + m';
  }
}
