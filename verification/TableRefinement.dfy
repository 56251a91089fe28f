/** From tables in memory back to what processes see: the operations on four-level
    tables agree with eager fork, whatever table pages they took or gave back. */
module TableRefinement {
  import opened CopyOnWrite
  import opened ForkAndDestroy
  import opened ForkRefinement
  import opened Growth
  import opened TableShape
  import opened TableTeardown
  import EagerFork

  lemma GrownAgrees(s: State, t: State, taken: set<Frame>, e: Eager)
    requires Inv(s) && Grown(s, t, taken)
    ensures Agree(s, e) <==> Agree(t, e)
  {
    forall f | f in taken ensures forall k | k in s.leaves :: s.leaves[k].frame != f { FreeIsUnmapped(s, f); }
    assert forall f | f in taken :: f !in s.device by {
      forall f | f in taken ensures f !in s.device { assert Free(s, f); }
    }
    forall k | k in s.leaves ensures Matches(s, e, k) <==> Matches(t, e, k) { assert EntryOk(s, k); }
    assert Agree(s, e) ==> forall k | k in s.leaves :: Matches(s, e, k);
    assert Agree(t, e) ==> forall k | k in t.leaves :: Matches(t, e, k);
  }

  /** Forking tables in memory looks like copying every private page at once. */
  lemma ForkedTablesAgree(w: World, x: World, src: Space, dst: Space, e: Eager)
    requires Forkable(Abs(w), src, dst) && Agree(Abs(w), e)
    requires Grown(Clone(Abs(w), src, dst, {}), Abs(x), NewTables(w.at, x.at))
    ensures Agree(Abs(x), EagerFork.Fork(e, src, dst))
  {
    hide Abs, Clone, Grown, NewTables, Agree, Inv;
    CloneAgrees(Abs(w), e, src, dst);
    ForkKeepsInv(Abs(w), src, dst, {});
    GrownAgrees(Clone(Abs(w), src, dst, {}), Abs(x), NewTables(w.at, x.at), EagerFork.Fork(e, src, dst));
  }

  /** Tearing tables down in memory removes that process and nothing else. */
  lemma DestroyedTablesAgree(w: World, r: Space, e: Eager)
    requires Ready(w, r) && |w.refs| == |w.bits| && Agree(Abs(w), e)
    ensures Agree(Abs(Gone(w, r)), EagerFork.Exit(e, r))
  {
    hide Abs, Gone, Destroy, Grown, Agree, Inv, TablesOf;
    DestroyAgrees(Abs(w), e, r);
    GoneIsDestroy(w, r);
    DestroyLeavesInv(w, r);
    GrownAgrees(Abs(Gone(w, r)), Destroy(Abs(w), r), TablesOf(w, r), EagerFork.Exit(e, r));
  }
}
