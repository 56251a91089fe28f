/** Teardown of an address space: which frames the nested loops release, and why
    each of them is released exactly once. */
module TableTeardown {
  import opened Types
  import opened CopyOnWrite
  import opened ForkAndDestroy
  import opened PageTree
  import opened TableShape
  import opened Growth
  import opened TableSteps
  import opened TableFork

  /** First page below table q. */
  function Start(q: Pos): nat { q.prefix * Span(q.level) }

  /** Table pages of address space r, below `level`, that begin in [lo, hi). */
  ghost function TablesIn(w: World, r: Frame, level: nat, lo: nat, hi: nat): set<Frame> {
    set q | q in w.at && q.root == r && q.level < level && lo <= Start(q) < hi :: w.at[q]
  }

  /** Frames referenced by the leaves of r in [lo, hi). */
  ghost function FramesIn(w: World, r: Frame, lo: nat, hi: nat): set<Frame> {
    set k | k in Abs(w).leaves && k.0 == r && lo <= k.1 < hi && !Abs(w).leaves[k].nopmm :: Abs(w).leaves[k].frame
  }

  /** Everything the loops below `level` release for the pages in [lo, hi). */
  ghost function Released(w: World, r: Frame, level: nat, lo: nat, hi: nat): set<Frame> {
    TablesIn(w, r, level, lo, hi) + FramesIn(w, r, lo, hi)
  }

  /** w after one reference has been dropped on each frame of `done`. */
  ghost function After(w: World, done: set<Frame>): World
    requires |w.refs| == |w.bits|
  {
    w.(refs := seq(|w.refs|, g requires 0 <= g < |w.refs| => if g in done && w.refs[g] > 0 then w.refs[g] - 1 else w.refs[g]),
       bits := seq(|w.bits|, g requires 0 <= g < |w.bits| => if g in done then w.refs[g] > 1 else w.bits[g]))
  }

  lemma AfterNone(w: World)
    requires |w.refs| == |w.bits|
    ensures After(w, {}) == w
  {
    assert After(w, {}).refs == w.refs && After(w, {}).bits == w.bits;
  }

  lemma AfterOneMore(w: World, done: set<Frame>, f: Frame)
    requires |w.refs| == |w.bits| && f < |w.refs| && f !in done && w.refs[f] > 0
    ensures After(w, done).refs[f] == w.refs[f] && After(w, done).bits[f] == w.bits[f]
    ensures After(w, done + {f}) == AfterFree(After(w, done), f)
  {
    var x, y := After(w, done + {f}), AfterFree(After(w, done), f);
    assert x.refs == y.refs && x.bits == y.bits;
  }

  // ----- The released frames are distinct

  ghost predicate Ready(w: World, r: Frame) {
    ShapeOk(w) && Inv(Abs(w)) && Root(r) in w.at
  }

  lemma TablesDisjoint(w: World, q: Pos, r: Frame, lo: nat, hi: nat)
    requires ShapeOk(w) && q in w.at
    ensures w.at[q] !in FramesIn(w, r, lo, hi)
  {
    hide Leaves, Contents;
    assert PosOk(w.mem, w.at, q);
    forall k | k in Abs(w).leaves ensures Abs(w).leaves[k].frame != w.at[q] {
      assert LeafHeld(w, Leaves(w.mem, w.at)[k]);
    }
  }

  lemma FramesDisjoint(w: World, r: Frame, lo: nat, mid: nat, hi: nat)
    requires Inv(Abs(w))
    ensures FramesIn(w, r, lo, mid) !! FramesIn(w, r, mid, hi)
  {
    hide Abs;
    var s := Abs(w);
    forall k, l | k in s.leaves && l in s.leaves && k.0 == r && l.0 == r && k.1 < mid <= l.1
                  && !s.leaves[k].nopmm && !s.leaves[l].nopmm
      ensures s.leaves[k].frame != s.leaves[l].frame
    {
      assert PairOk(s, k, l);
    }
  }

  lemma ReleasedSplits(w: World, r: Frame, level: nat, lo: nat, mid: nat, hi: nat)
    requires lo <= mid <= hi
    ensures Released(w, r, level, lo, hi) == Released(w, r, level, lo, mid) + Released(w, r, level, mid, hi)
  {
    hide Abs, Start;
  }

  lemma ReleasedDisjoint(w: World, r: Frame, level: nat, lo: nat, mid: nat, hi: nat)
    requires ShapeOk(w) && Inv(Abs(w))
    ensures Released(w, r, level, lo, mid) !! Released(w, r, level, mid, hi)
  {
    hide Abs, FramesIn, Start, Inv, TableHeld, LeafHeld, BitOk;
    FramesDisjoint(w, r, lo, mid, hi);
    forall q | q in w.at
      ensures w.at[q] !in FramesIn(w, r, lo, mid) && w.at[q] !in FramesIn(w, r, mid, hi)
    {
      TablesDisjoint(w, q, r, lo, mid);
      TablesDisjoint(w, q, r, mid, hi);
    }
    forall p, q | p in w.at && q in w.at && w.at[p] == w.at[q] ensures p == q { assert Distinct(w.at, p, q); }
  }

  /** A table is released after everything below it, and counts once. */
  lemma ReleasedTable(w: World, p: Pos)
    requires ShapeOk(w) && Inv(Abs(w)) && p in w.at && p.level < 3
    ensures PosOk(w.mem, w.at, p)
    ensures w.at[p] !in Released(w, p.root, p.level, Start(p), Start(p) + Span(p.level))
    ensures Released(w, p.root, p.level + 1, Start(p), Start(p) + Span(p.level)) ==
      Released(w, p.root, p.level, Start(p), Start(p) + Span(p.level)) + {w.at[p]}
  {
    hide Abs, FramesIn, Inv, TableHeld, LeafHeld, BitOk, Span;
    assert PosOk(w.mem, w.at, p);
    var lo, hi := Start(p), Start(p) + Span(p.level);
    TablesDisjoint(w, p, p.root, lo, hi);
    forall q | q in w.at && w.at[p] == w.at[q] ensures p == q { assert Distinct(w.at, p, q); }
    SpanPositive(p.level);
    forall q | q in w.at && q.root == p.root && q.level == p.level && lo <= Start(q) < hi ensures q == p {
      SameLevelApart(p, q);
    }
  }

  lemma SpanPositive(level: nat)
    ensures Span(level) > 0
  {
  }

  lemma SameLevelApart(p: Pos, q: Pos)
    requires p.level == q.level && Start(p) <= Start(q) < Start(p) + Span(p.level)
    ensures p.prefix == q.prefix
  {
  }

  /** Below a missing table there is nothing to release. */
  lemma NothingReleased(w: World, r: Frame, level: nat, c: nat)
    requires ShapeOk(w) && level < 3 && c < TablesAt(level) && Pos(r, level, c) !in w.at
    ensures Released(w, r, level + 1, c * Span(level), (c + 1) * Span(level)) == {}
  {
    hide Leaves, Prefix, TablesAt, TableHeld, LeafHeld, BitOk, Span, Contents;
    var lo, hi := c * Span(level), (c + 1) * Span(level);
    SpanBounds(level, c);
    forall k | k in Abs(w).leaves && k.0 == r && lo <= k.1 < hi ensures false {
      SpanIsPath(level, c, k.1);
      MissingTable(w.mem, w.at, r, level, k.1);
    }
    forall q | q in w.at && q.root == r && q.level <= level && lo <= Start(q) < hi ensures false {
      PathUp(w, q, level);
      SpanIsPath(level, c, Start(q));
    }
  }

  /** Every table above a table exists. */
  lemma PathUp(w: World, q: Pos, level: nat)
    requires ShapeOk(w) && q in w.at && q.level <= level < 3
    ensures OnPath(q.root, level, Start(q)) in w.at
    decreases level - q.level
  {
    hide Leaves, TableHeld, LeafHeld, BitOk;
    assert PosOk(w.mem, w.at, q);
    if q.level == level {
      SpanIsPath(level, q.prefix, Start(q));
    } else {
      PathUp(w, Parent(q), level);
      SameAncestor(q, level);
    }
  }

  lemma SameAncestor(q: Pos, level: nat)
    requires q.level < level < 3
    ensures Prefix(Start(Parent(q)), level) == Prefix(Start(q), level)
  {
    var a := q.prefix / 512;
    assert a * 512 <= q.prefix < (a + 1) * 512;
    if q.level == 0 && level == 1 {
      SpanIsPath(1, a, Start(q));
      SpanIsPath(1, a, Start(Parent(q)));
    } else if q.level == 1 {
      SpanIsPath(2, a, Start(q));
      SpanIsPath(2, a, Start(Parent(q)));
    } else {
      SpanIsPath(2, a / 512, Start(q));
      SpanIsPath(2, a / 512, Start(Parent(q)));
    }
  }

  // ----- The end of a teardown

  lemma ForgetKeepsTable(w: World, r: Frame, p: Pos)
    requires ShapeOk(w) && p in Without(w.at, r)
    ensures PosOk(w.mem, Without(w.at, r), p) && TableHeld(w.(at := Without(w.at, r)), p)
  {
    hide Leaves, LinkOk;
    assert PosOk(w.mem, w.at, p);
    assert TableHeld(w, p);
  }

  /** Forgetting an address space leaves its table pages merely allocated. */
  lemma ForgetKeepsShape(w: World, r: Frame)
    requires ShapeOk(w)
    ensures ShapeOk(w.(at := Without(w.at, r)))
  {
    hide Leaves, TreeOk;
    RemoveRoot(w.mem, w.at, r);
    var y := w.(at := Without(w.at, r));
    forall p | p in y.at ensures PosOk(y.mem, y.at, p) && TableHeld(y, p) { ForgetKeepsTable(w, r, p); }
    forall k | k in Leaves(y.mem, y.at) ensures LeafHeld(y, Leaves(y.mem, y.at)[k]) {
      assert LeafHeld(w, Leaves(w.mem, w.at)[k]);
    }
    forall g: nat | g < |y.refs| ensures BitOk(y, g) { assert BitOk(w, g); }
  }

  lemma ForgetIsFilter(w: World, r: Frame)
    requires ShapeOk(w)
    ensures var y := Abs(w.(at := Without(w.at, r)));
      && y.spaces == Abs(w).spaces - {r} && y.refs == w.refs && y.data == Abs(w).data && y.device == w.device
      && y.leaves == map k | k in Abs(w).leaves && k.0 != r :: Abs(w).leaves[k]
  {
    hide Leaves, TreeOk, Roots, Contents, Without;
    RemoveRoot(w.mem, w.at, r);
  }

  /** The table pages of address space r. */
  ghost function TablesOf(w: World, r: Frame): set<Frame> {
    NewTables(Without(w.at, r), w.at)
  }

  lemma AllTables(w: World, r: Frame)
    requires ShapeOk(w) && Root(r) in w.at
    ensures TablesIn(w, r, 3, 0, USER_PAGES) + {r} == TablesOf(w, r)
    ensures FramesIn(w, r, 0, USER_PAGES) == FramesBelow(Abs(w), r, USER_PAGES)
  {
    hide Abs, TableHeld, LeafHeld, BitOk, Span, TablesAt;
    assert PosOk(w.mem, w.at, Root(r));
    forall q | q in w.at && q.root == r ensures q.level < 3 ==> Start(q) < USER_PAGES {
      assert PosOk(w.mem, w.at, q);
      if q.level < 3 {
        SpanBounds(q.level, q.prefix);
        SpanPositive(q.level);
      }
    }
    forall q | q in w.at && q.root == r && q.level == 3 ensures q == Root(r) {
      assert PosOk(w.mem, w.at, q);
      OnlyRoot(q);
    }
    assert Root(r) in w.at && Root(r) !in Without(w.at, r);
    forall q | q in w.at ensures q in Without(w.at, r) <==> q.root != r {}
    forall g | g in TablesOf(w, r) ensures g in TablesIn(w, r, 3, 0, USER_PAGES) + {r} {
      var q :| q in w.at && q !in Without(w.at, r) && w.at[q] == g;
      assert PosOk(w.mem, w.at, q);
    }
  }

  lemma OnlyRoot(q: Pos)
    requires q.level == 3 && q.prefix < TablesAt(3)
    ensures q == Root(q.root)
  {
  }

  ghost function Gone(w: World, r: Frame): World
    requires |w.refs| == |w.bits|
  {
    After(w, Released(w, r, 3, 0, USER_PAGES) + {r}).(at := Without(w.at, r))
  }

  lemma GoneCounts(w: World, r: Frame)
    requires Ready(w, r) && |w.refs| == |w.bits|
    ensures var x, d := Gone(w, r), Destroy(Abs(w), r);
      && |x.refs| == |d.refs| == |w.refs| && (forall g | g in TablesOf(w, r) :: g < |w.refs|)
      && forall g | 0 <= g < |w.refs| ::
        if g in TablesOf(w, r) then x.refs[g] == 0 && d.refs[g] == 1 && w.refs[g] == 1 && g >= 1 && g !in w.device
        else x.refs[g] == d.refs[g]
  {
    hide Leaves, Roots, Contents, PairOk, EntryOk, Mappers, LeafHeld, BitOk;
    AllTables(w, r);
    forall g | g in TablesOf(w, r) ensures g < |w.refs| && w.refs[g] == 1 && g >= 1 && g !in w.device && g !in FramesBelow(Abs(w), r, USER_PAGES) {
      var q :| q in w.at && q.root == r && w.at[q] == g;
      assert PosOk(w.mem, w.at, q) && TableHeld(w, q);
      TablesDisjoint(w, q, r, 0, USER_PAGES);
    }
  }

  lemma GoneKeepsShape(w: World, r: Frame)
    requires Ready(w, r) && |w.refs| == |w.bits|
    ensures ShapeOk(Gone(w, r))
  {
    hide Leaves, Roots, Contents, TreeOk, PairOk, EntryOk, Mappers, Released, PosOk;
    var y, x, d := w.(at := Without(w.at, r)), Gone(w, r), Destroy(Abs(w), r);
    ForgetKeepsShape(w, r);
    ForgetIsFilter(w, r);
    GoneCounts(w, r);
    GoneBits(w, r);
    OthersStay(w, r);
    TeardownKeepsInv(Abs(w), r);
    forall k | k in Abs(y).leaves && !Abs(y).leaves[k].nopmm && Abs(y).leaves[k].frame < |x.refs|
      ensures x.refs[Abs(y).leaves[k].frame] >= 1
    {
      RefsPositive(d, k);
    }
    assert x == y.(refs := x.refs, bits := x.bits);
    CountsKeepShape(y, x.refs, x.bits);
  }

  lemma OthersStay(w: World, r: Frame)
    requires Ready(w, r) && |w.refs| == |w.bits|
    ensures forall p | p in Without(w.at, r) :: w.at[p] < |w.refs| && Gone(w, r).refs[w.at[p]] == 1
    ensures forall k | k in Abs(w).leaves && k.0 != r && !Abs(w).leaves[k].nopmm :: Abs(w).leaves[k].frame !in TablesOf(w, r)
  {
    hide Leaves, Roots, Contents, PairOk, EntryOk, Mappers, BitOk;
    AllTables(w, r);
    forall p | p in Without(w.at, r) ensures w.at[p] < |w.refs| && Gone(w, r).refs[w.at[p]] == 1 {
      assert PosOk(w.mem, w.at, p) && TableHeld(w, p);
      TablesDisjoint(w, p, r, 0, USER_PAGES);
      forall q | q in w.at && w.at[q] == w.at[p] ensures q == p { assert Distinct(w.at, p, q); }
    }
    forall k | k in Abs(w).leaves && k.0 != r && !Abs(w).leaves[k].nopmm ensures Abs(w).leaves[k].frame !in TablesOf(w, r) {
      assert LeafHeld(w, Leaves(w.mem, w.at)[k]);
      DataIsNoTable(w, Abs(w).leaves[k].frame);
    }
  }

  lemma GoneBits(w: World, r: Frame)
    requires Ready(w, r) && |w.refs| == |w.bits|
    ensures Gone(w, r).bits[0] && forall g: nat | g < |w.refs| :: BitOk(Gone(w, r), g)
  {
    hide Leaves, Roots, Contents, PairOk, EntryOk, Mappers, Start, Span;
    AllTables(w, r);
    forall g | g in Released(w, r, 3, 0, USER_PAGES) + {r} ensures 1 <= g < |w.refs| && g !in w.device && w.refs[g] >= 1 {
      if g in TablesOf(w, r) {
        var q :| q in w.at && q.root == r && w.at[q] == g;
        assert PosOk(w.mem, w.at, q) && TableHeld(w, q);
      } else {
        var k :| k in Abs(w).leaves && k.0 == r && !Abs(w).leaves[k].nopmm && Abs(w).leaves[k].frame == g;
        assert LeafHeld(w, Leaves(w.mem, w.at)[k]);
      }
    }
    forall g: nat | g < |w.refs| ensures BitOk(Gone(w, r), g) { assert BitOk(w, g); }
  }

  /** The loops have computed the flat teardown, and the table pages are free. */
  lemma GoneIsDestroy(w: World, r: Frame)
    requires Ready(w, r) && |w.refs| == |w.bits|
    ensures Grown(Abs(Gone(w, r)), Destroy(Abs(w), r), TablesOf(w, r))
  {
    hide Leaves, Roots, TreeOk, PairOk, Mappers, Released, PosOk;
    GoneCounts(w, r);
    ForgetIsFilter(w, r);
    forall k | k in Abs(w).leaves ensures k.1 < USER_PAGES { assert EntryOk(Abs(w), k); }
    assert Abs(Gone(w, r)).leaves == Destroy(Abs(w), r).leaves;
  }

  // ----- One more leaf, one more table

  lemma ReleasedNone(w: World, r: Frame, level: nat, lo: nat)
    ensures Released(w, r, level, lo, lo) == {}
  {
  }

  lemma AfterSame(w: World, done: set<Frame>)
    requires |w.refs| == |w.bits|
    ensures After(w, done).mem == w.mem && After(w, done).at == w.at && After(w, done).device == w.device
    ensures |After(w, done).refs| == |w.refs| && |After(w, done).bits| == |w.bits|
  {
  }

  /** Page v adds its own frame, which nothing before or after it releases. */
  lemma ReleasedLeaf(w: World, r: Frame, lo: nat, v: VPage, hi: nat)
    requires Ready(w, r) && lo <= v < hi
    ensures (r, v) in Abs(w).leaves && !Abs(w).leaves[(r, v)].nopmm ==>
      && var f := Abs(w).leaves[(r, v)].frame;
      && 0 < f < |w.refs| && w.refs[f] > 0
      && f !in Released(w, r, 0, lo, v) && f in Released(w, r, 0, lo, hi)
      && Released(w, r, 0, lo, v + 1) == Released(w, r, 0, lo, v) + {f}
    ensures (r, v) !in Abs(w).leaves || Abs(w).leaves[(r, v)].nopmm ==> Released(w, r, 0, lo, v + 1) == Released(w, r, 0, lo, v)
  {
    hide Leaves, Roots, TreeOk, Mappers, PosOk, Contents;
    var s := Abs(w);
    assert forall k: Key | k in s.leaves && k.0 == r && k.1 == v :: k == (r, v);
    if (r, v) in s.leaves && !s.leaves[(r, v)].nopmm {
      RefsPositive(s, (r, v));
      forall k | k in s.leaves && k.0 == r && !s.leaves[k].nopmm && s.leaves[k].frame == s.leaves[(r, v)].frame ensures k.1 == v {
        assert PairOk(s, k, (r, v));
      }
    }
  }

  /** Releasing what lies below a table, and then the table, is releasing the
      next stretch of the level above; nothing in it was released before. */
  lemma ReleasedChild(w: World, c: Pos, lo: nat, hi: nat, done: set<Frame>)
    requires Ready(w, c.root) && c in w.at && c.level < 3
    requires lo <= Start(c) && Start(c) + Span(c.level) <= hi && done !! Released(w, c.root, c.level + 1, lo, hi)
    ensures var a, b, before := Start(c), Start(c) + Span(c.level), done + Released(w, c.root, c.level + 1, lo, Start(c));
      && before !! Released(w, c.root, c.level, a, b)
      && w.at[c] !in before + Released(w, c.root, c.level, a, b)
      && before + Released(w, c.root, c.level, a, b) + {w.at[c]} == done + Released(w, c.root, c.level + 1, lo, b)
      && 0 < w.at[c] < |w.refs| == |w.bits| && w.refs[w.at[c]] > 0 && w.bits[w.at[c]]
  {
    hide Released, Abs, Inv, Start, Span;
    var a, b, r, l := Start(c), Start(c) + Span(c.level), c.root, c.level + 1;
    ReleasedTable(w, c);
    ReleasedDisjoint(w, r, l, lo, a, b);
    ReleasedSplits(w, r, l, lo, a, b);
    ReleasedSplits(w, r, l, lo, b, hi);
    assert TableHeld(w, c) && BitOk(w, w.at[c]);
  }

  /** A missing table adds nothing. */
  lemma ReleasedSkip(w: World, r: Frame, level: nat, c: nat, lo: nat)
    requires ShapeOk(w) && level < 3 && c < TablesAt(level) && Pos(r, level, c) !in w.at && lo <= c * Span(level)
    ensures Released(w, r, level + 1, lo, (c + 1) * Span(level)) == Released(w, r, level + 1, lo, c * Span(level))
  {
    hide Released, Abs, ShapeOk, TablesAt;
    NothingReleased(w, r, level, c);
    ReleasedSplits(w, r, level + 1, lo, c * Span(level), (c + 1) * Span(level));
  }

  lemma RootRelease(w: World, r: Frame)
    requires Ready(w, r)
    ensures w.at[Root(r)] == r && r !in Released(w, r, 3, 0, USER_PAGES)
    ensures 0 < r < |w.refs| == |w.bits| && w.refs[r] > 0 && w.bits[r]
  {
    hide Abs, Inv, FramesIn, Span;
    assert PosOk(w.mem, w.at, Root(r)) && TableHeld(w, Root(r)) && BitOk(w, r);
    TablesDisjoint(w, Root(r), r, 0, USER_PAGES);
    forall q | q in w.at && w.at[q] == r ensures q == Root(r) { assert Distinct(w.at, Root(r), q); }
  }

  lemma WholeSpan()
    ensures 0 * 512 * Span(2) == 0 && (0 * 512 + Slots(3)) * Span(2) == USER_PAGES
  {
  }

  /** Giving back frames that nothing maps keeps the invariant. */
  lemma ShrunkKeepsInv(s: State, t: State, taken: set<Frame>)
    requires Inv(t) && Grown(s, t, taken) && (forall k | k in t.leaves :: t.leaves[k].frame !in taken)
    ensures Inv(s)
  {
    forall g ensures Mappers(t, g) == Mappers(s, g) {}
    forall f | f in taken ensures Mappers(s, f) == {} {}
    forall k | k in s.leaves ensures EntryOk(s, k) { assert EntryOk(t, k); }
    forall k, l | k in s.leaves && l in s.leaves ensures PairOk(s, k, l) { assert PairOk(t, k, l); }
  }

  lemma LeavesAvoidTables(w: World, r: Frame)
    requires ShapeOk(w)
    ensures forall k | k in Abs(w).leaves :: Abs(w).leaves[k].frame !in TablesOf(w, r)
  {
    hide Leaves, Roots, Contents, BitOk, TreeOk, TableHeld;
    forall k | k in Abs(w).leaves ensures Abs(w).leaves[k].frame !in TablesOf(w, r) {
      assert LeafHeld(w, Leaves(w.mem, w.at)[k]);
      DataIsNoTable(w, Abs(w).leaves[k].frame);
    }
  }

  lemma DestroyLeavesInv(w: World, r: Frame)
    requires Ready(w, r) && |w.refs| == |w.bits|
    requires Grown(Abs(Gone(w, r)), Destroy(Abs(w), r), TablesOf(w, r))
    ensures Inv(Abs(Gone(w, r)))
  {
    hide Abs, Gone, TablesOf, Inv, Grown, FramesBelow;
    TeardownKeepsInv(Abs(w), r);
    LeavesAvoidTables(w, r);
    var x, d := Abs(Gone(w, r)), Destroy(Abs(w), r);
    ShrunkKeepsInv(x, d, TablesOf(w, r));
  }

  // ----- Fork followed by teardown of the child

  lemma OnlyTheChildIsNew(w: World, x: World, dst: Frame)
    requires ShapeOk(w) && Extends(w.at, x.at, dst) && dst !in Abs(w).spaces
    ensures Without(x.at, dst) == w.at && TablesOf(x, dst) == NewTables(w.at, x.at)
  {
    hide Leaves, TableHeld, LeafHeld, BitOk;
    forall p | p in w.at ensures p.root != dst {
      assert PosOk(w.mem, w.at, p);
      assert Root(p.root) in w.at;
    }
  }

  lemma CountsCancel(c: State, x: State, y: State, dst: Space, taken: set<Frame>)
    requires Grown(c, x, taken) && Grown(y, Destroy(x, dst), taken)
    ensures y.refs == Destroy(c, dst).refs && y.leaves == Destroy(c, dst).leaves
  {
    assert FramesBelow(x, dst, USER_PAGES) == FramesBelow(c, dst, USER_PAGES);
    forall g | 0 <= g < |y.refs| ensures y.refs[g] == Destroy(c, dst).refs[g] {
      if g in taken {
        assert Free(y, g) && Free(c, g);
      } else {
        assert Destroy(x, dst).refs[g] == y.refs[g] && x.refs[g] == c.refs[g];
      }
    }
  }

  /** Destroying the forked table restores every reference count and every bitmap
      bit, and the tables of every other address space; the parent's entries
      change only from writable to copy-on-write. */
  lemma TeardownUndoesFork(w: World, x: World, src: Frame, dst: Frame)
    requires ShapeOk(w) && Forkable(Abs(w), src, dst) && Ready(x, dst) && |x.refs| == |x.bits|
    requires Extends(w.at, x.at, dst) && Grown(Clone(Abs(w), src, dst, {}), Abs(x), NewTables(w.at, x.at))
    requires x.device == w.device
    ensures var y := Gone(x, dst);
      && y.refs == w.refs && y.bits == w.bits && y.at == w.at
      && Abs(y).leaves.Keys == Abs(w).leaves.Keys
      && forall k | k in Abs(w).leaves :: Abs(y).leaves[k] == if k.0 == src then Downgrade(Abs(w).leaves[k]) else Abs(w).leaves[k]
  {
    hide Leaves, Roots, Contents, TreeOk, Inv, Clone, Released, After, Grown, Destroy, NewTables, TablesOf;
    var y, c := Gone(x, dst), Clone(Abs(w), src, dst, {});
    OnlyTheChildIsNew(w, x, dst);
    DestroyUndoesFork(Abs(w), src, dst);
    GoneIsDestroy(x, dst);
    CountsCancel(c, Abs(x), Abs(y), dst, TablesOf(x, dst));
    GoneBits(x, dst);
    AfterSame(x, Released(x, dst, 3, 0, USER_PAGES) + {dst});
    assert y.refs == w.refs;
    forall g: nat | g < |w.refs| ensures y.bits[g] == w.bits[g] { assert BitOk(y, g) && BitOk(w, g); }
  }
}
