/** Growth of a state by frames the kernel took for table pages. */
module Growth {
  import opened CopyOnWrite
  import opened ForkAndDestroy
  import opened PageTree
  import opened TableShape

  /** t is s after the kernel took the frames in `taken` for itself. */
  ghost predicate Grown(s: State, t: State, taken: set<Frame>) {
    && t.spaces == s.spaces && t.leaves == s.leaves && t.device == s.device
    && |t.refs| == |s.refs| && |t.data| == |s.data|
    && (forall f | f in taken :: Free(s, f) && t.refs[f] == 1)
    && (forall f {:trigger t.refs[f]} | 0 <= f < |s.refs| && f !in taken :: t.refs[f] == s.refs[f])
    && (forall f {:trigger t.data[f]} | 0 <= f < |s.data| && f !in taken :: t.data[f] == s.data[f])
  }

  /** The allocator has nothing left. */
  ghost predicate Exhausted(s: State) {
    forall f :: !Free(s, f)
  }

  lemma GrownSelf(s: State)
    ensures Grown(s, s, {})
  {
  }

  lemma GrownTrans(s: State, t: State, u: State, a: set<Frame>, b: set<Frame>)
    requires Grown(s, t, a) && Grown(t, u, b)
    ensures Grown(s, u, a + b)
  {
  }

  lemma GrownTake(s: State, f: Frame, content: Bytes)
    requires Free(s, f)
    ensures Grown(s, Take(s, f, content), {f})
  {
  }

  lemma GrownSetLeaf(s: State, t: State, taken: set<Frame>, k: Key, e: Entry)
    requires Grown(s, t, taken)
    ensures Grown(SetLeaf(s, k, e), SetLeaf(t, k, e), taken)
  {
  }

  lemma GrownKeepsInv(s: State, t: State, taken: set<Frame>)
    requires Inv(s) && Grown(s, t, taken)
    ensures Inv(t)
  {
    forall f | f in taken ensures Mappers(s, f) == {} && forall k | k in s.leaves :: s.leaves[k].frame != f {
      FreeIsUnmapped(s, f);
    }
    forall g ensures Mappers(t, g) == Mappers(s, g) {}
    forall k | k in t.leaves ensures EntryOk(t, k) { assert EntryOk(s, k); }
    forall k, l | k in t.leaves && l in t.leaves ensures PairOk(t, k, l) { assert PairOk(s, k, l); }
  }

  lemma GrownShare(s: State, t: State, taken: set<Frame>, src: Space, dst: Space, v: VPage, ok: bool)
    requires Inv(s) && Grown(s, t, taken) && ShareOk(s, src, dst, v)
    ensures EntryOk(s, (src, v))
    ensures Grown(Share(s, src, dst, v, ok), Share(t, src, dst, v, ok), taken)
  {
    assert EntryOk(s, (src, v));
    forall f | f in taken ensures s.leaves[(src, v)].frame != f { FreeIsUnmapped(s, f); }
  }

  /** The tables of b that are not in a. */
  ghost function NewTables(a: Tree, b: Tree): set<Frame> {
    set p | p in b && p !in a :: b[p]
  }

  /** b has every table of a, and the others belong to address space r. */
  ghost predicate Extends(a: Tree, b: Tree, r: Frame) {
    && (forall p | p in a :: p in b && b[p] == a[p])
    && (forall p | p in b && p !in a :: p.root == r)
  }

  lemma ExtendsTrans(a: Tree, b: Tree, c: Tree, r: Frame)
    requires Extends(a, b, r) && Extends(b, c, r)
    ensures Extends(a, c, r) && NewTables(a, c) == NewTables(a, b) + NewTables(b, c)
  {
    forall f | f in NewTables(a, b) ensures f in NewTables(a, c) {
      var p :| p in b && p !in a && b[p] == f;
      assert p in c && c[p] == f;
    }
    forall f | f in NewTables(b, c) ensures f in NewTables(a, c) {
      var p :| p in c && p !in b && c[p] == f;
      assert p !in a;
    }
  }
}
