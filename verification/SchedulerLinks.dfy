/** The intrusive lists behind the queues: a head and tail queue linked both ways, and
    the circular process ring. Address 0 is the null pointer. */
module SchedulerLinks {
  import opened Sequences

  type Links = map<nat, nat>

  function Last(q: seq<nat>): nat { if q == [] then 0 else q[|q| - 1] }

  ghost predicate NodeOk(next: Links, prev: Links, q: seq<nat>, i: nat)
    requires i < |q|
  {
    q[i] != 0 && q[i] in next && q[i] in prev && next[q[i]] == After(q, i) && prev[q[i]] == Before(q, i)
  }

  ghost predicate Fifo(next: Links, prev: Links, head: nat, tail: nat, q: seq<nat>) {
    head == First(q) && tail == Last(q) && NoDup(q) && forall i: nat {:trigger NodeOk(next, prev, q, i)} | i < |q| :: NodeOk(next, prev, q, i)
  }

  /** Links after p is appended behind tail. */
  function PushNext(next: Links, tail: nat, p: nat): Links { if tail == 0 then next[p := 0] else next[p := 0][tail := p] }

  lemma FifoPush(next: Links, prev: Links, head: nat, tail: nat, q: seq<nat>, p: nat)
    requires Fifo(next, prev, head, tail, q) && p != 0 && p !in q
    ensures (head == 0 <==> q == []) && (tail == 0 <==> q == [])
    ensures Fifo(PushNext(next, tail, p), prev[p := tail], if head == 0 then p else head, p, q + [p])
  {
    var n, v, r := PushNext(next, tail, p), prev[p := tail], q + [p];
    if q != [] { assert NodeOk(next, prev, q, 0) && NodeOk(next, prev, q, |q| - 1); }
    forall i: nat | i < |r| ensures NodeOk(n, v, r, i) {
      if i < |q| {
        assert NodeOk(next, prev, q, i);
        assert q[i] in q;
        if i < |q| - 1 { assert q[i] != q[|q| - 1]; }
      }
    }
  }

  /** A push on one queue leaves a queue with no common process as it was. */
  lemma FifoPushOther(next: Links, prev: Links, head: nat, tail: nat, q: seq<nat>, tail': nat, q': seq<nat>, p: nat)
    requires Fifo(next, prev, head, tail, q) && p !in q && tail' == Last(q') && forall x | x in q :: x !in q'
    ensures Fifo(PushNext(next, tail', p), prev[p := tail'], head, tail, q)
  {
    var n, v := PushNext(next, tail', p), prev[p := tail'];
    forall i: nat | i < |q| ensures NodeOk(n, v, q, i) {
      assert NodeOk(next, prev, q, i) && q[i] in q;
      if q' != [] { assert Last(q') in q'; }
    }
  }

  function PopNext(next: Links, p: nat): Links { next[p := 0] }
  function PopPrev(prev: Links, head: nat, p: nat): Links { (if head == 0 then prev else prev[head := 0])[p := 0] }

  lemma FifoPop(next: Links, prev: Links, head: nat, tail: nat, q: seq<nat>)
    requires Fifo(next, prev, head, tail, q) && q != []
    ensures head == q[0] && head != 0 && head in next && (next[head] == 0 <==> |q| == 1)
    ensures Fifo(PopNext(next, head), PopPrev(prev, next[head], head), next[head], if next[head] == 0 then 0 else tail, q[1..])
  {
    assert NodeOk(next, prev, q, 0);
    if |q| > 1 { assert NodeOk(next, prev, q, 1); }
    var n, v, r := PopNext(next, head), PopPrev(prev, next[head], head), q[1..];
    forall i: nat | i < |r| ensures NodeOk(n, v, r, i) {
      assert NodeOk(next, prev, q, i + 1);
      assert q[0] != q[i + 1] && (i > 0 ==> q[1] != q[i + 1]);
    }
  }

  lemma FifoPopOther(next: Links, prev: Links, q: seq<nat>, head': nat, tail': nat, q': seq<nat>, second: nat)
    requires Fifo(next, prev, head', tail', q') && q != [] && second == After(q, 0) && forall x | x in q :: x !in q'
    ensures Fifo(PopNext(next, q[0]), PopPrev(prev, second, q[0]), head', tail', q')
  {
    var n, v := PopNext(next, q[0]), PopPrev(prev, second, q[0]);
    assert q[0] in q && (|q| > 1 ==> q[1] in q);
    forall i: nat | i < |q'| ensures NodeOk(n, v, q', i) { assert NodeOk(next, prev, q', i) && q'[i] in q'; }
  }

  // ----- A queue being emptied from the front: only the forward links matter

  ghost predicate Forward(next: Links, head: nat, q: seq<nat>) {
    && head == First(q) && NoDup(q)
    && forall i: nat {:trigger q[i]} | i < |q| :: q[i] != 0 && q[i] in next && next[q[i]] == After(q, i)
  }

  lemma FifoForward(next: Links, prev: Links, head: nat, tail: nat, q: seq<nat>)
    requires Fifo(next, prev, head, tail, q)
    ensures Forward(next, head, q)
  {
    forall i: nat | i < |q| ensures q[i] != 0 && q[i] in next && next[q[i]] == After(q, i) { assert NodeOk(next, prev, q, i); }
  }

  lemma ForwardStep(next: Links, head: nat, q: seq<nat>, tail': nat, q': seq<nat>)
    requires Forward(next, head, q) && q != [] && tail' == Last(q') && forall x | x in q :: x !in q'
    ensures head == q[0] && head != 0 && head in next && Forward(PushNext(next, tail', head), next[head], q[1..])
  {
    var n, r := PushNext(next, tail', head), q[1..];
    if q' != [] { assert Last(q') in q'; }
    forall i: nat | i < |r| ensures r[i] != 0 && r[i] in n && n[r[i]] == After(r, i) {
      assert r[i] == q[i + 1] && q[0] != q[i + 1] && q[i + 1] in q;
    }
    if |q| > 1 { assert q[1] != 0; }
  }

  // ----- The ring

  function Succ(q: seq<nat>, i: nat): nat
    requires i < |q|
  {
    if i + 1 < |q| then q[i + 1] else q[0]
  }

  function Pred(q: seq<nat>, i: nat): nat
    requires i < |q|
  {
    if i > 0 then q[i - 1] else q[|q| - 1]
  }

  ghost predicate RingNode(next: Links, prev: Links, q: seq<nat>, i: nat)
    requires i < |q|
  {
    q[i] != 0 && q[i] in next && q[i] in prev && next[q[i]] == Succ(q, i) && prev[q[i]] == Pred(q, i)
  }

  ghost predicate Ring(next: Links, prev: Links, head: nat, q: seq<nat>) {
    head == First(q) && NoDup(q) && forall i: nat {:trigger RingNode(next, prev, q, i)} | i < |q| :: RingNode(next, prev, q, i)
  }

  lemma RingAppend(next: Links, prev: Links, head: nat, q: seq<nat>, p: nat)
    requires Ring(next, prev, head, q) && p != 0 && p !in q
    ensures head == 0 <==> q == []
    ensures q == [] ==> Ring(next[p := p], prev[p := p], p, [p])
    ensures q != [] ==>
      && head in prev && prev[head] in next
      && Ring(next[p := head][prev[head] := p], prev[p := prev[head]][head := p], head, q + [p])
  {
    if q == [] {
      assert RingNode(next[p := p], prev[p := p], [p], 0);
    } else {
      assert RingNode(next, prev, q, 0) && RingNode(next, prev, q, |q| - 1);
      var n, v, r := next[p := head][prev[head] := p], prev[p := prev[head]][head := p], q + [p];
      forall i: nat | i < |r| ensures RingNode(n, v, r, i) {
        if i < |q| {
          assert RingNode(next, prev, q, i) && q[i] in q;
          if i < |q| - 1 { assert q[i] != q[|q| - 1]; }
          if i > 0 { assert q[0] != q[i]; }
        }
      }
    }
  }

  /** Unlinking a node closes the ring behind it; the head moves on if it was the node. */
  lemma RingUnlink(next: Links, prev: Links, head: nat, q: seq<nat>, i: nat)
    requires Ring(next, prev, head, q) && i < |q|
    ensures q[i] != 0 && q[i] in next && q[i] in prev && prev[q[i]] in next && next[q[i]] in prev
    ensures Ring(next[prev[q[i]] := next[q[i]]], prev[next[q[i]] := prev[q[i]]],
      if head != q[i] then head else if next[q[i]] != q[i] then next[q[i]] else 0, q[..i] + q[i + 1..])
  {
    var b, a := Pred(q, i), Succ(q, i);
    assert RingNode(next, prev, q, i);
    assert RingNode(next, prev, q, if i > 0 then i - 1 else |q| - 1) && RingNode(next, prev, q, if i + 1 < |q| then i + 1 else 0);
    var n, v, r := next[b := a], prev[a := b], q[..i] + q[i + 1..];
    forall j: nat | j < |r| ensures RingNode(n, v, r, j) {
      var k := if j < i then j else j + 1;
      assert r[j] == q[k] && RingNode(next, prev, q, k);
      UnlinkNeighbours(q, i, j);
    }
  }

  lemma UnlinkNeighbours(q: seq<nat>, i: nat, j: nat)
    requires NoDup(q) && i < |q| && j < |q| - 1
    ensures var r, k := q[..i] + q[i + 1..], if j < i then j else j + 1;
      && Succ(r, j) == (if q[k] == Pred(q, i) then Succ(q, i) else Succ(q, k))
      && Pred(r, j) == (if q[k] == Succ(q, i) then Pred(q, i) else Pred(q, k))
  {
    var r, k := q[..i] + q[i + 1..], if j < i then j else j + 1;
    assert |q| >= 2;
    assert q[k] == Pred(q, i) <==> k == (if i > 0 then i - 1 else |q| - 1);
    assert q[k] == Succ(q, i) <==> k == (if i + 1 < |q| then i + 1 else 0);
  }
}
