/** Whole forks and teardowns of an address space, as closed forms over the leaf
    table.  `cut` is how far the walk over the user half has come, so that the
    loops in `PageTables` can be compared with them page by page. */
module ForkAndDestroy {
  import opened Types
  import opened CopyOnWrite

  /** The frames space r holds references on, below page `cut`. */
  ghost function FramesBelow(s: State, r: Space, cut: nat): set<Frame> {
    set k | k in s.leaves && k.0 == r && k.1 < cut && !s.leaves[k].nopmm :: s.leaves[k].frame
  }

  /** Pages below `cut` that the fork manages to map in the child. */
  ghost predicate Copied(s: State, src: Space, cut: nat, fails: set<VPage>, v: VPage) {
    (src, v) in s.leaves && v < cut && v !in fails
  }

  ghost function ClonedLeaves(s: State, src: Space, dst: Space, cut: nat, fails: set<VPage>): map<Key, Pte> {
    map k: Key | k in s.leaves.Keys + (set l | l in s.leaves && l.0 == src :: (dst, l.1))
            && (k in s.leaves || (k.0 == dst && Copied(s, src, cut, fails, k.1)))
      :: if k.0 == dst && Copied(s, src, cut, fails, k.1) then Downgrade(s.leaves[(src, k.1)])
         else if k.0 == src && k.1 < cut then Downgrade(s.leaves[k])
         else s.leaves[k]
  }

  /** The fork loop after every page below `cut`: child pages in `fails` could not be mapped. */
  ghost function CloneTo(s: State, src: Space, dst: Space, cut: nat, fails: set<VPage>): State {
    s.(leaves := ClonedLeaves(s, src, dst, cut, fails),
       refs := seq(|s.refs|, f requires 0 <= f < |s.refs| =>
         if f in FramesBelow(s, src, cut) then (s.refs[f] + 1) % (MAX_REFS + 1) else s.refs[f]))
  }

  ghost predicate CloneOk(s: State, src: Space, dst: Space) {
    && Inv(s) && src != dst && src in s.spaces && dst in s.spaces
    && (forall k | k in s.leaves :: k.0 != dst)
  }

  /** No count of a frame src maps is about to wrap. */
  ghost predicate RoomToClone(s: State, src: Space) {
    forall v | (src, v) in s.leaves :: Room(s, src, v)
  }

  lemma NotBelow(s: State, r: Space, v: VPage)
    requires Inv(s) && (r, v) in s.leaves && !s.leaves[(r, v)].nopmm
    ensures s.leaves[(r, v)].frame !in FramesBelow(s, r, v)
    ensures FramesBelow(s, r, v + 1) == FramesBelow(s, r, v) + {s.leaves[(r, v)].frame}
  {
    var f := s.leaves[(r, v)].frame;
    forall k | k in s.leaves && k.0 == r && !s.leaves[k].nopmm && s.leaves[k].frame == f ensures k.1 == v {
      assert PairOk(s, k, (r, v));
    }
    assert (r, v) in s.leaves;
    forall g | g in FramesBelow(s, r, v + 1) ensures g in FramesBelow(s, r, v) + {f} {
      var k :| k in s.leaves && k.0 == r && k.1 < v + 1 && !s.leaves[k].nopmm && s.leaves[k].frame == g;
      assert k.1 == v ==> k == (r, v);
    }
  }

  lemma BelowSkips(s: State, r: Space, a: nat, b: nat)
    requires a <= b && forall k | k in s.leaves && k.0 == r && !s.leaves[k].nopmm :: k.1 < a || b <= k.1
    ensures FramesBelow(s, r, a) == FramesBelow(s, r, b)
  {
  }

  // ----- Fork, page by page

  lemma CloneStart(s: State, src: Space, dst: Space, fails: set<VPage>)
    ensures CloneTo(s, src, dst, 0, fails) == s
  {
    assert ClonedLeaves(s, src, dst, 0, fails) == s.leaves;
    assert CloneTo(s, src, dst, 0, fails).refs == s.refs;
  }

  lemma CloneSkips(s: State, src: Space, dst: Space, a: nat, b: nat, fails: set<VPage>)
    requires CloneOk(s, src, dst) && a <= b
    requires forall v | a <= v < b :: (src, v) !in s.leaves
    ensures CloneTo(s, src, dst, a, fails) == CloneTo(s, src, dst, b, fails)
  {
    forall k | k in s.leaves && k.0 == src ensures k.1 < a || b <= k.1 { assert k == (src, k.1); }
    BelowSkips(s, src, a, b);
    assert ClonedLeaves(s, src, dst, a, fails) == ClonedLeaves(s, src, dst, b, fails);
  }

  lemma CloneIgnoresLaterFailures(s: State, src: Space, dst: Space, cut: nat, fails: set<VPage>)
    ensures CloneTo(s, src, dst, cut, fails + {cut}) == CloneTo(s, src, dst, cut, fails)
  {
    assert ClonedLeaves(s, src, dst, cut, fails + {cut}) == ClonedLeaves(s, src, dst, cut, fails);
  }

  lemma ClonedLeavesAdvance(s: State, src: Space, dst: Space, v: VPage, fails: set<VPage>)
    requires src != dst && (src, v) in s.leaves && forall k | k in s.leaves :: k.0 != dst
    ensures var p, m := Downgrade(s.leaves[(src, v)]), ClonedLeaves(s, src, dst, v, fails);
      ClonedLeaves(s, src, dst, v + 1, fails) ==
      if v in fails then m[(src, v) := p] else m[(src, v) := p][(dst, v) := p]
  {
    var p, m := Downgrade(s.leaves[(src, v)]), ClonedLeaves(s, src, dst, v, fails);
    var w := if v in fails then m[(src, v) := p] else m[(src, v) := p][(dst, v) := p];
    var u := ClonedLeaves(s, src, dst, v + 1, fails);
    forall k: Key ensures k in u <==> k in w {
      assert k == (k.0, k.1);
    }
    forall k: Key | k in u ensures u[k] == w[k] {
      assert k == (k.0, k.1);
    }
  }

  lemma BelowAdvances(s: State, r: Space, v: VPage)
    requires Inv(s) && (r, v) in s.leaves
    ensures EntryOk(s, (r, v))
    ensures var p := s.leaves[(r, v)];
      if p.nopmm then FramesBelow(s, r, v + 1) == FramesBelow(s, r, v)
      else p.frame !in FramesBelow(s, r, v) && FramesBelow(s, r, v + 1) == FramesBelow(s, r, v) + {p.frame}
  {
    assert EntryOk(s, (r, v));
    if s.leaves[(r, v)].nopmm {
      assert forall k: Key | k in s.leaves && k.0 == r && k.1 == v :: k == (r, v);
    } else {
      NotBelow(s, r, v);
    }
  }

  /** The closed form moves on by exactly one step of the fork loop. */
  lemma CloneAdvances(s: State, src: Space, dst: Space, v: VPage, fails: set<VPage>)
    requires CloneOk(s, src, dst) && (src, v) in s.leaves
    ensures EntryOk(s, (src, v))
    ensures var t := CloneTo(s, src, dst, v, fails);
      && |t.refs| == |s.refs| && ShareOk(t, src, dst, v) && t.leaves[(src, v)] == s.leaves[(src, v)]
      && (!s.leaves[(src, v)].nopmm ==> t.refs[s.leaves[(src, v)].frame] == s.refs[s.leaves[(src, v)].frame])
      && CloneTo(s, src, dst, v + 1, fails) == Share(t, src, dst, v, v !in fails)
  {
    BelowAdvances(s, src, v);
    ClonedLeavesAdvance(s, src, dst, v, fails);
    var t := CloneTo(s, src, dst, v, fails);
    assert t.leaves[(src, v)] == s.leaves[(src, v)];
    assert CloneTo(s, src, dst, v + 1, fails).refs == Share(t, src, dst, v, v !in fails).refs;
  }

  lemma {:induction false} CloneKeepsInv(s: State, src: Space, dst: Space, cut: nat, fails: set<VPage>)
    requires CloneOk(s, src, dst) && RoomToClone(s, src)
    ensures Inv(CloneTo(s, src, dst, cut, fails))
  {
    hide Inv;
    if cut == 0 {
      CloneStart(s, src, dst, fails);
    } else {
      CloneKeepsInv(s, src, dst, cut - 1, fails);
      if (src, cut - 1) in s.leaves {
        CloneAdvances(s, src, dst, cut - 1, fails);
        assert Room(s, src, cut - 1);
        ShareKeepsInvIffRoom(CloneTo(s, src, dst, cut - 1, fails), src, dst, cut - 1, cut - 1 !in fails);
      } else {
        CloneSkips(s, src, dst, cut - 1, cut, fails);
      }
    }
  }

  /** Frames referenced by the fork although the child could not map them. */
  ghost function Leaked(s: State, src: Space, cut: nat, fails: set<VPage>): set<Frame> {
    set k | k in s.leaves && k.0 == src && k.1 < cut && k.1 in fails && !s.leaves[k].nopmm :: s.leaves[k].frame
  }

  lemma LeakedAdvances(s: State, src: Space, v: VPage, fails: set<VPage>)
    requires Inv(s) && (src, v) in s.leaves
    ensures var p := s.leaves[(src, v)];
      if !p.nopmm && v in fails
      then p.frame !in Leaked(s, src, v, fails) && Leaked(s, src, v + 1, fails) == Leaked(s, src, v, fails) + {p.frame}
      else Leaked(s, src, v + 1, fails) == Leaked(s, src, v, fails)
  {
    BelowAdvances(s, src, v);
    assert forall k: Key | k in s.leaves && k.0 == src && k.1 == v :: k == (src, v);
    assert Leaked(s, src, v, fails) <= FramesBelow(s, src, v);
    assert (src, v).0 == src && (src, v).1 == v;
  }

  lemma ShareExtra(s: State, src: Space, dst: Space, v: VPage, ok: bool, f: Frame)
    requires Inv(s) && ShareOk(s, src, dst, v) && Room(s, src, v) && f < |s.refs|
    ensures EntryOk(s, (src, v))
    ensures Extra(Share(s, src, dst, v, ok), f) ==
      Extra(s, f) + if !ok && !s.leaves[(src, v)].nopmm && s.leaves[(src, v)].frame == f then 1 else 0
  {
    ShareCounts(s, src, dst, v, ok, f);
    assert Mappers(s, f) == Mappers(s, f);
  }

  /** Conservation: a fork leaves the unaccounted references alone, except that
      each page it fails to map leaks exactly one. */
  lemma {:induction false} CloneExtra(s: State, src: Space, dst: Space, cut: nat, fails: set<VPage>, f: Frame)
    requires CloneOk(s, src, dst) && RoomToClone(s, src) && f < |s.refs|
    ensures Extra(CloneTo(s, src, dst, cut, fails), f) == Extra(s, f) + if f in Leaked(s, src, cut, fails) then 1 else 0
  {
    hide CloneTo, Mappers, PairOk, EntryOk;
    if cut == 0 {
      CloneStart(s, src, dst, fails);
    } else {
      var v := cut - 1;
      CloneExtra(s, src, dst, v, fails, f);
      CloneKeepsInv(s, src, dst, v, fails);
      if (src, v) in s.leaves {
        CloneAdvances(s, src, dst, v, fails);
        LeakedAdvances(s, src, v, fails);
        assert Room(s, src, v);
        var t := CloneTo(s, src, dst, v, fails);
        assert |t.refs| == |s.refs| && Room(t, src, v);
        ShareExtra(t, src, dst, v, v !in fails, f);
      } else {
        CloneSkips(s, src, dst, v, cut, fails);
        assert forall k: Key | k in s.leaves && k.0 == src :: k == (src, k.1);
        assert Leaked(s, src, cut, fails) == Leaked(s, src, v, fails);
      }
    }
  }

  // ----- Teardown, page by page

  ghost function DestroyTo(s: State, r: Space, cut: nat): State {
    s.(leaves := map k | k in s.leaves && !(k.0 == r && k.1 < cut) :: s.leaves[k],
       refs := seq(|s.refs|, f requires 0 <= f < |s.refs| =>
         if f in FramesBelow(s, r, cut) && s.refs[f] > 0 then s.refs[f] - 1 else s.refs[f]))
  }

  lemma DestroyStart(s: State, r: Space)
    ensures DestroyTo(s, r, 0) == s
  {
    assert DestroyTo(s, r, 0).leaves == s.leaves;
    assert DestroyTo(s, r, 0).refs == s.refs;
  }

  lemma DestroyAdvances(s: State, r: Space, v: VPage)
    requires Inv(s)
    ensures DestroyTo(s, r, v + 1) == Unmap(DestroyTo(s, r, v), (r, v))
  {
    RefsPositive(s, (r, v));
    assert forall k | k in s.leaves && k.0 == r && k.1 == v :: k == (r, v);
    if (r, v) in s.leaves && !s.leaves[(r, v)].nopmm {
      NotBelow(s, r, v);
    } else {
      assert FramesBelow(s, r, v) == FramesBelow(s, r, v + 1);
    }
    var t, u := Unmap(DestroyTo(s, r, v), (r, v)), DestroyTo(s, r, v + 1);
    forall k ensures (k in u.leaves <==> k in t.leaves) && (k in u.leaves ==> u.leaves[k] == t.leaves[k]) {
      assert k == (k.0, k.1);
    }
    assert u.leaves == t.leaves;
    assert u.refs == t.refs;
  }

  /** Teardown keeps the invariant and conserves the unaccounted references. */
  lemma {:induction false} DestroyKeepsInv(s: State, r: Space, cut: nat)
    requires Inv(s)
    ensures Inv(DestroyTo(s, r, cut))
    ensures forall f | 0 <= f < |s.refs| :: Extra(DestroyTo(s, r, cut), f) == Extra(s, f)
  {
    if cut == 0 {
      DestroyStart(s, r);
    } else {
      DestroyKeepsInv(s, r, cut - 1);
      DestroyAdvances(s, r, cut - 1);
      UnmapKeepsInv(DestroyTo(s, r, cut - 1), (r, cut - 1));
    }
  }

  // ----- The whole operations

  /** fork: a new space and every page of the user half. */
  ghost function Clone(s: State, src: Space, dst: Space, fails: set<VPage>): State {
    CloneTo(Create(s, dst), src, dst, USER_PAGES, fails)
  }

  ghost function Destroy(s: State, r: Space): State {
    var t := DestroyTo(s, r, USER_PAGES);
    t.(spaces := t.spaces - {r})
  }

  ghost predicate Forkable(s: State, src: Space, dst: Space) {
    Inv(s) && src in s.spaces && dst !in s.spaces && RoomToClone(s, src)
  }

  lemma ForkStarts(s: State, src: Space, dst: Space)
    requires Forkable(s, src, dst)
    ensures CloneOk(Create(s, dst), src, dst) && RoomToClone(Create(s, dst), src)
  {
    var t := Create(s, dst);
    forall g ensures Mappers(t, g) == Mappers(s, g) {}
    forall k | k in t.leaves ensures EntryOk(t, k) && k.0 != dst { assert EntryOk(s, k); }
    forall k, l | k in t.leaves && l in t.leaves ensures PairOk(t, k, l) { assert PairOk(s, k, l); }
    forall v | (src, v) in t.leaves ensures Room(t, src, v) { assert Room(s, src, v); }
  }

  lemma ForkKeepsInv(s: State, src: Space, dst: Space, fails: set<VPage>)
    requires Forkable(s, src, dst)
    ensures Inv(Clone(s, src, dst, fails))
  {
    ForkStarts(s, src, dst);
    CloneKeepsInv(Create(s, dst), src, dst, USER_PAGES, fails);
  }

  lemma TeardownKeepsInv(s: State, r: Space)
    requires Inv(s)
    ensures Inv(Destroy(s, r))
    ensures forall k | k in Destroy(s, r).leaves :: k.0 != r
  {
    DestroyKeepsInv(s, r, USER_PAGES);
    var t, u := DestroyTo(s, r, USER_PAGES), Destroy(s, r);
    forall g ensures Mappers(t, g) == Mappers(u, g) {}
    forall k | k in u.leaves ensures k.0 != r && EntryOk(u, k) { assert EntryOk(t, k) && EntryOk(s, k); }
    forall k, l | k in u.leaves && l in u.leaves ensures PairOk(u, k, l) { assert PairOk(t, k, l); }
  }

  lemma ChildFrames(s: State, src: Space, dst: Space)
    requires Forkable(s, src, dst)
    ensures FramesBelow(Clone(s, src, dst, {}), dst, USER_PAGES) == FramesBelow(s, src, USER_PAGES)
    ensures FramesBelow(Create(s, dst), src, USER_PAGES) == FramesBelow(s, src, USER_PAGES)
  {
    var c := Clone(s, src, dst, {});
    forall k: Key | k in s.leaves ensures k.0 != dst && k.1 < USER_PAGES && k == (k.0, k.1) { assert EntryOk(s, k); }
    forall k: Key | k in c.leaves && k.0 == dst
      ensures (src, k.1) in s.leaves && c.leaves[k] == Downgrade(s.leaves[(src, k.1)]) {}
    forall k: Key | k in s.leaves && k.0 == src
      ensures (dst, k.1) in c.leaves && c.leaves[(dst, k.1)] == Downgrade(s.leaves[k]) {}
  }

  /** Forking and then destroying the child restores every count; the parent's
      entries change only from writable to copy-on-write. */
  lemma DestroyUndoesFork(s: State, src: Space, dst: Space)
    requires Forkable(s, src, dst)
    ensures var t := Destroy(Clone(s, src, dst, {}), dst);
      && t.refs == s.refs && t.spaces == s.spaces && t.data == s.data
      && t.leaves.Keys == s.leaves.Keys
      && forall k | k in s.leaves :: t.leaves[k] == if k.0 == src then Downgrade(s.leaves[k]) else s.leaves[k]
  {
    ChildFrames(s, src, dst);
    var t := Destroy(Clone(s, src, dst, {}), dst);
    forall f | 0 <= f < |s.refs| && f in FramesBelow(s, src, USER_PAGES) ensures s.refs[f] < MAX_REFS {
      var k :| k in s.leaves && k.0 == src && !s.leaves[k].nopmm && s.leaves[k].frame == f;
      assert k == (src, k.1) && Room(s, src, k.1);
    }
    assert t.refs == s.refs;
    forall k: Key | k in s.leaves ensures k.0 != dst && k.1 < USER_PAGES { assert EntryOk(s, k); }
    forall k: Key ensures k in t.leaves <==> k in s.leaves {}
  }
}
