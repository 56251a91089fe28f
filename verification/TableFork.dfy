/** The fork loop over four-level tables, compared with the flat fork. */
module TableFork {
  import opened Types
  import opened CopyOnWrite
  import opened ForkAndDestroy
  import opened PageTree
  import opened TableShape
  import opened Growth
  import opened TableSteps
  import opened FrameBudget

  /** x is how far a fork that began in state s with tables `at` has come when
      every page below v is done. */
  ghost predicate Cloning(s: State, at: Tree, x: World, src: Space, dst: Space, v: nat, fails: set<VPage>) {
    && CloneOk(s, src, dst) && RoomToClone(s, src)
    && ShapeOk(x) && Extends(at, x.at, dst)
    && Grown(CloneTo(s, src, dst, v, fails), Abs(x), NewTables(at, x.at))
    && (fails != {} ==> Exhausted(Abs(x)))
    && (forall u | u in fails :: u < v && (src, u) in s.leaves)
  }

  // ----- Arithmetic of the nested loops

  /** The pages spanned by table c of a level are those whose path goes through it. */
  lemma SpanIsPath(level: nat, c: nat, v: VPage)
    requires level < 3 && c * Span(level) <= v < (c + 1) * Span(level)
    ensures Prefix(v, level) == c
  {
    if level == 0 {
    } else if level == 1 {
      assert c * 512 <= v / 512 < (c + 1) * 512;
    } else {
      assert c * 262144 <= v / 512 < (c + 1) * 262144;
      assert c * 512 <= v / 512 / 512 < (c + 1) * 512;
    }
  }

  lemma SpanBounds(level: nat, c: nat)
    requires level < 3 && c < TablesAt(level)
    ensures (c + 1) * Span(level) <= USER_PAGES
  {
  }

  lemma ChildSpan(level: nat, c: nat)
    requires 0 < level <= 3
    ensures (c * 512) * Span(level - 1) == c * Span(level)
    ensures (c * 512 + 512) * Span(level - 1) == (c + 1) * Span(level)
  {
  }

  lemma ChildRange(level: nat, prefix: nat, i: nat)
    requires 0 < level <= 3 && i < Slots(level)
    ensures var c, n := prefix * 512 + i, Span(level - 1);
      prefix * 512 * n <= c * n < (c + 1) * n == c * n + n <= (prefix * 512 + Slots(level)) * n
  {
  }

  lemma ChildAt(level: nat, c: nat)
    requires 0 < level <= 3
    ensures PageAt(level - 1, c * 512) == PageAt(level, c) && PageAt(level - 1, c * 512 + 512) == PageAt(level, c + 1)
  {
    ChildSpan(level, c);
  }

  lemma PageTableAt(c: nat)
    ensures PageAt(0, c) == c * 512 && PageAt(0, c + 1) == (c + 1) * 512
  {
  }

  lemma PageTableSpan(c: nat)
    ensures c * Span(0) == c * 512 && (c + 1) * Span(0) == (c + 1) * 512
  {
  }

  lemma ChildBounds(p: Pos, i: nat)
    requires 0 < p.level <= 3 && p.prefix < TablesAt(p.level) && i < Slots(p.level)
    ensures Child(p, i).prefix < TablesAt(p.level - 1)
  {
  }

  // ----- One page

  /** The parent's half of one fork step: downgrade the entry, count the frame. */
  ghost function AfterCount(w: World, src: Frame, v: VPage): World
    requires PosOk(w.mem, w.at, OnPath(src, 0, v)) && (src, v) in Abs(w).leaves
    requires !Abs(w).leaves[(src, v)].nopmm ==> Abs(w).leaves[(src, v)].frame < |w.refs| == |w.bits|
  {
    var p := Downgrade(Abs(w).leaves[(src, v)]);
    var x := AfterLeaf(w, src, v, Present(p));
    if p.nopmm then x else x.(refs := x.refs[p.frame := (x.refs[p.frame] + 1) % (MAX_REFS + 1)])
  }

  lemma CountKeepsShapeAndMeaning(w: World, src: Frame, dst: Frame, v: VPage, ok: bool)
    requires ShapeOk(w) && Inv(Abs(w)) && ShareOk(Abs(w), src, dst, v) && Room(Abs(w), src, v)
    requires OnPath(src, 0, v) in w.at
    ensures PosOk(w.mem, w.at, OnPath(src, 0, v)) && EntryOk(Abs(w), (src, v)) && Abs(w).refs == w.refs
    ensures !Abs(w).leaves[(src, v)].nopmm ==> Abs(w).leaves[(src, v)].frame < |w.refs| == |w.bits|
    ensures var p, x := Downgrade(Abs(w).leaves[(src, v)]), AfterCount(w, src, v);
      && ShapeOk(x) && LeafHeld(x, p) && x.at == w.at
      && (if ok then SetLeaf(Abs(x), (dst, v), Present(p)) else Abs(x)) == Share(Abs(w), src, dst, v, ok)
  {
    hide Prefix, PosOk, WithLeaf, ShapeOk, PairOk, Mappers, Leaves, TreeOk, Contents;
    ReadLeaf(w, src, v);
    assert EntryOk(Abs(w), (src, v));
    var p := Downgrade(Abs(w).leaves[(src, v)]);
    var y := AfterLeaf(w, src, v, Present(p));
    LeafKeepsShape(w, src, v, Present(p));
    LeafIsSetLeaf(w, src, v, Present(p));
    LeafContents(w, src, v, Present(p));
    if !p.nopmm {
      CountKeepsShape(y, p.frame, y.refs[p.frame] + 1);
      assert y.bits[p.frame := true] == y.bits;
    }
  }

  lemma ClonedKeys(s: State, src: Space, dst: Space, v: VPage, fails: set<VPage>, u: VPage)
    requires CloneOk(s, src, dst) && forall f | f in fails :: f < v
    ensures (src, u) in CloneTo(s, src, dst, v, fails).leaves <==> (src, u) in s.leaves
    ensures v <= u ==> (dst, u) !in CloneTo(s, src, dst, v, fails).leaves
  {
    hide Inv;
  }

  /** Between two pages the machine is ready for the next fork step. */
  lemma CloneReady(s: State, at: Tree, w: World, src: Space, dst: Space, v: VPage, fails: set<VPage>)
    requires Cloning(s, at, w, src, dst, v, fails)
    ensures Inv(Abs(w))
    ensures forall u: VPage :: (src, u) in Abs(w).leaves <==> (src, u) in s.leaves
    ensures (src, v) in s.leaves ==>
      ShareOk(Abs(w), src, dst, v) && Room(Abs(w), src, v) && ShareOk(CloneTo(s, src, dst, v, fails), src, dst, v)
  {
    hide ShapeOk, Inv, CloneTo, Extends, Abs, NewTables, EntryOk, Free;
    var c := CloneTo(s, src, dst, v, fails);
    CloneKeepsInv(s, src, dst, v, fails);
    GrownKeepsInv(c, Abs(w), NewTables(at, w.at));
    forall u: VPage ensures (src, u) in Abs(w).leaves <==> (src, u) in s.leaves { ClonedKeys(s, src, dst, v, fails, u); }
    if (src, v) in s.leaves {
      CloneAdvances(s, src, dst, v, fails);
      assert Room(s, src, v);
      RoomGrows(c, Abs(w), NewTables(at, w.at), src, v);
    }
  }

  lemma RoomGrows(s: State, t: State, taken: set<Frame>, src: Space, v: VPage)
    requires Inv(s) && Grown(s, t, taken) && Room(s, src, v)
    ensures Room(t, src, v)
  {
    if (src, v) in s.leaves {
      RefsPositive(s, (src, v));
    }
  }

  lemma ExhaustedGrows(s: State, t: State, taken: set<Frame>)
    requires Exhausted(s) && Grown(s, t, taken)
    ensures Exhausted(t)
  {
    forall f ensures !Free(t, f) { assert !Free(s, f); }
  }

  lemma ShareKeepsExhausted(s: State, src: Space, dst: Space, v: VPage, ok: bool)
    requires Exhausted(s) && Inv(s) && ShareOk(s, src, dst, v)
    ensures EntryOk(s, (src, v))
    ensures Exhausted(Share(s, src, dst, v, ok)) || !Room(s, src, v)
  {
    RefsPositive(s, (src, v));
    var t := Share(s, src, dst, v, ok);
    forall f ensures Room(s, src, v) ==> !Free(t, f) { assert !Free(s, f); }
  }

  /** One page of the fork loop is one step of the flat fork. */
  lemma CloneStep(s: State, at: Tree, w: World, y: World, x: World, src: Space, dst: Space, v: VPage, fails: set<VPage>, ok: bool)
    requires Cloning(s, at, w, src, dst, v, fails) && (src, v) in s.leaves
    requires (src, v) in Abs(w).leaves && OnPath(src, 0, v) in w.at && PosOk(w.mem, w.at, OnPath(src, 0, v))
    requires !Abs(w).leaves[(src, v)].nopmm ==> Abs(w).leaves[(src, v)].frame < |w.refs| == |w.bits|
    requires y == AfterCount(w, src, v)
    requires Mapped(y, x, dst, v, Downgrade(Abs(w).leaves[(src, v)]), ok) && (!ok ==> Exhausted(Abs(x)))
    ensures Cloning(s, at, x, src, dst, v + 1, if ok then fails else fails + {v})
  {
    hide ShapeOk, Inv, CloneTo, Extends, Grown, Abs, NewTables, EntryOk, Free, Exhausted, AfterCount, PosOk, Prefix, RoomToClone, StillHeld;
    var c := CloneTo(s, src, dst, v, fails);
    CloneReady(s, at, w, src, dst, v, fails);
    CountKeepsShapeAndMeaning(w, src, dst, v, ok);
    CloneAdvances(s, src, dst, v, fails);
    CloneKeepsInv(s, src, dst, v, fails);
    GrownShare(c, Abs(w), NewTables(at, w.at), src, dst, v, ok);
    ExtendsTrans(at, w.at, x.at, dst);
    var t := Share(Abs(w), src, dst, v, ok);
    GrownTrans(Share(c, src, dst, v, ok), t, Abs(x), NewTables(at, w.at), NewTables(w.at, x.at));
    if fails != {} {
      ShareKeepsExhausted(Abs(w), src, dst, v, ok);
      ExhaustedGrows(t, Abs(x), NewTables(w.at, x.at));
    }
    if !ok {
      CloneIgnoresLaterFailures(s, src, dst, v, fails);
      CloneAdvances(s, src, dst, v, fails + {v});
    }
  }

  lemma SkipMissing(s: State, at: Tree, x: World, src: Space, dst: Space, level: nat, c: nat, fails: set<VPage>)
    requires level < 3 && c < TablesAt(level) && Pos(src, level, c) !in x.at
    requires Cloning(s, at, x, src, dst, PageAt(level, c), fails)
    ensures PageAt(level, c) <= PageAt(level, c + 1)
    ensures forall v: VPage | PageAt(level, c) <= v < PageAt(level, c + 1) :: (src, v) !in s.leaves
  {
    hide Inv, CloneTo, Extends, Grown, NewTables, Free, Exhausted, Leaves, TreeOk, Prefix, RoomToClone;
    SpanBounds(level, c);
    CloneReady(s, at, x, src, dst, PageAt(level, c), fails);
    forall v: VPage | PageAt(level, c) <= v < PageAt(level, c + 1) ensures (src, v) !in s.leaves {
      SpanIsPath(level, c, v);
      MissingTable(x.mem, x.at, src, level, v);
    }
  }

  /** A missing table lets the loop jump over everything below it. */
  lemma CloneJumps(s: State, at: Tree, x: World, src: Space, dst: Space, level: nat, c: nat, fails: set<VPage>)
    requires level < 3 && c < TablesAt(level) && Pos(src, level, c) !in x.at
    requires Cloning(s, at, x, src, dst, PageAt(level, c), fails)
    ensures Cloning(s, at, x, src, dst, PageAt(level, c + 1), fails)
  {
    hide Inv, CloneTo, Extends, Grown, NewTables, ShapeOk, Exhausted, RoomToClone;
    SkipMissing(s, at, x, src, dst, level, c, fails);
    CloneSkips(s, src, dst, PageAt(level, c), PageAt(level, c + 1), fails);
  }

  lemma BudgetJumps(s: State, at: Tree, free: nat, x: World, src: Space, dst: Space, level: nat, c: nat, fails: set<VPage>)
    requires level < 3 && c < TablesAt(level) && Pos(src, level, c) !in x.at
    requires Cloning(s, at, x, src, dst, PageAt(level, c), fails) && CloneBudget(at, free, s, x, src, dst, PageAt(level, c), fails)
    ensures CloneBudget(at, free, s, x, src, dst, PageAt(level, c + 1), fails)
  {
    hide Cloning, CloneBudget;
    SkipMissing(s, at, x, src, dst, level, c, fails);
    BudgetSkip(at, free, s, x, src, dst, PageAt(level, c), PageAt(level, c + 1), fails);
  }

  /** What a fork in progress says about the next page. */
  lemma CloneParts(s: State, at: Tree, w: World, src: Space, dst: Space, v: VPage, fails: set<VPage>)
    requires Cloning(s, at, w, src, dst, v, fails)
    ensures ShapeOk(w) && Inv(Abs(w)) && Abs(w).refs == w.refs && Extends(at, w.at, dst) && src != dst
    ensures fails != {} ==> Exhausted(Abs(w))
    ensures forall u | u in fails :: (src, u) in s.leaves
    ensures (src, v) in Abs(w).leaves <==> (src, v) in s.leaves
    ensures (src, v) in s.leaves ==> ShareOk(Abs(w), src, dst, v) && Room(Abs(w), src, v)
  {
    hide ShapeOk, Inv, CloneTo, Grown, NewTables, RoomToClone;
    CloneReady(s, at, w, src, dst, v, fails);
  }

  lemma CloneNothing(s: State, at: Tree, w: World, src: Space, dst: Space, v: VPage, fails: set<VPage>)
    requires Cloning(s, at, w, src, dst, v, fails) && (src, v) !in s.leaves
    ensures Cloning(s, at, w, src, dst, v + 1, fails)
  {
    hide ShapeOk, Inv, CloneTo, Grown, NewTables, RoomToClone, Abs;
    CloneSkips(s, src, dst, v, v + 1, fails);
  }

  lemma RewriteSame(w: World, r: Frame, v: VPage)
    requires PosOk(w.mem, w.at, OnPath(r, 0, v))
    ensures AfterLeaf(w, r, v, w.mem[w.at[OnPath(r, 0, v)]].entries[v % 512]) == w
  {
    var f := w.at[OnPath(r, 0, v)];
    assert w.mem[f].entries == w.mem[f].entries[v % 512 := w.mem[f].entries[v % 512]];
  }

  // ----- The beginning and the end of a fork

  lemma NewRootExtends(w: World, f: Frame)
    requires ShapeOk(w) && f < |w.bits| && !w.bits[f] && |w.refs| == |w.bits| <= |w.mem|
    ensures Extends(w.at, AfterRoot(w, f).at, f) && NewTables(w.at, AfterRoot(w, f).at) == {f}
    ensures Grown(Create(Abs(w), f), Abs(AfterRoot(w, f)), {f})
  {
    hide ShapeOk, Leaves, Contents;
    RootKeepsShape(w, f);
    var x := AfterRoot(w, f);
    assert Root(f) in x.at && x.at[Root(f)] == f;
  }

  lemma CloneBegins(w: World, src: Frame, f: Frame)
    requires ShapeOk(w) && f < |w.bits| && !w.bits[f] && |w.refs| == |w.bits| <= |w.mem|
    requires Root(src) in w.at && Inv(Abs(w)) && RoomToClone(Abs(w), src)
    ensures var x := AfterRoot(w, f); Cloning(Abs(x), x.at, x, src, f, 0, {})
    ensures Forkable(Abs(w), src, f)
  {
    hide ShapeOk, Leaves, Contents, Inv, Grown, Extends, NewTables, CloneTo;
    RootKeepsShape(w, f);
    var x, s := AfterRoot(w, f), Abs(w);
    ExtendedSelf(x, f);
    assert src in s.spaces;
    TakeKeepsInv(s, f, []);
    NewSpaceKeepsInv(Take(s, f, []), f);
    CloneStart(Abs(x), src, f, {});
    UsedSpaces(Abs(w), f);
    forall v | (src, v) in Abs(x).leaves ensures Room(Abs(x), src, v) {
      assert Room(s, src, v);
    }
  }

  lemma UsedSpaces(s: State, f: Frame)
    requires Inv(s) && f !in s.spaces
    ensures forall k | k in s.leaves :: k.0 != f
  {
    forall k | k in s.leaves ensures k.0 != f { assert EntryOk(s, k); }
  }

  lemma GrownClone(s: State, t: State, taken: set<Frame>, src: Space, dst: Space, v: nat, fails: set<VPage>)
    requires Inv(s) && Grown(s, t, taken)
    ensures Grown(CloneTo(s, src, dst, v, fails), CloneTo(t, src, dst, v, fails), taken)
  {
    hide Mappers, PairOk, EntryOk;
    forall f | f in taken ensures f !in FramesBelow(s, src, v) { FreeIsUnmapped(s, f); }
    assert FramesBelow(s, src, v) == FramesBelow(t, src, v);
    assert ClonedLeaves(s, src, dst, v, fails) == ClonedLeaves(t, src, dst, v, fails);
  }

  /** The fork loop has computed the flat fork of the state it started from. */
  lemma CloneEnds(w: World, x: World, src: Frame, f: Frame, fails: set<VPage>)
    requires ShapeOk(w) && f < |w.bits| && !w.bits[f] && |w.refs| == |w.bits| <= |w.mem| && Inv(Abs(w))
    requires Cloning(Abs(AfterRoot(w, f)), AfterRoot(w, f).at, x, src, f, USER_PAGES, fails)
    ensures Grown(Clone(Abs(w), src, f, fails), Abs(x), NewTables(w.at, x.at))
    ensures Extends(w.at, x.at, f)
    ensures forall u | u in fails :: (src, u) in Abs(w).leaves
  {
    hide ShapeOk, Inv, Grown, Extends, NewTables, CloneTo, Abs, AfterRoot;
    RootKeepsShape(w, f);
    var y, c := AfterRoot(w, f), Create(Abs(w), f);
    NewRootExtends(w, f);
    NewSpaceKeepsInv(Abs(w), f);
    GrownClone(c, Abs(y), {f}, src, f, USER_PAGES, fails);
    ExtendsTrans(w.at, y.at, x.at, f);
    GrownTrans(CloneTo(c, src, f, USER_PAGES, fails), CloneTo(Abs(y), src, f, USER_PAGES, fails), Abs(x), {f}, NewTables(y.at, x.at));
  }

  lemma NewRootBudget(w: World, src: Frame, f: Frame)
    requires ShapeOk(w) && f < |w.bits| && !w.bits[f] && |w.refs| == |w.bits| <= |w.mem|
    ensures var x := AfterRoot(w, f);
      Clear(x.bits) == Clear(w.bits) - 1 && CloneBudget(x.at, Clear(x.bits), Abs(x), x, src, f, 0, {})
  {
    hide Leaves, Abs, Clear, CloneBudget;
    RootKeepsShape(w, f);
    ClearTaken(w.bits, f);
    var x := AfterRoot(w, f);
    forall p | p in w.at ensures p.root != f { assert PosOk(w.mem, w.at, p); }
    BudgetStarts(x.at, Abs(x), x, src, f);
  }

  lemma BudgetEnds(w: World, x: World, src: Frame, f: Frame, fails: set<VPage>)
    requires ShapeOk(w) && f < |w.bits| && !w.bits[f] && |w.refs| == |w.bits| <= |w.mem|
    requires var y := AfterRoot(w, f);
      Clear(y.bits) == Clear(w.bits) - 1 && CloneBudget(y.at, Clear(y.bits), Abs(y), x, src, f, USER_PAGES, fails)
    ensures fails == Unserved(w, src)
    ensures fails == {} <==> Clear(w.bits) >= 1 + |AboveLeaves(w, src)|
    ensures fails == {} ==> Clear(x.bits) == Clear(w.bits) - 1 - |AboveLeaves(w, src)|
  {
    hide Clear, Abs, Paths, ShapeOk, AfterRoot;
    RootKeepsShape(w, f);
    var y := AfterRoot(w, f);
    assert forall u: nat :: PagesBelow(Abs(y), src, u) == PagesBelow(Abs(w), src, u);
    SamePaths(src, f, PagesBelow(Abs(w), src, USER_PAGES));
    forall cut: nat ensures |Paths(src, PagesBelow(Abs(w), src, cut))| == |Paths(f, PagesBelow(Abs(w), src, cut))| {
      SamePaths(src, f, PagesBelow(Abs(w), src, cut));
    }
    assert Unserved(w, src) == Unfit(Abs(y), src, f, Clear(y.bits), USER_PAGES);
  }

  /** A mapped page has every table on its walk. */
  lemma LeafHasTables(w: World, r: Space, v: VPage)
    requires ShapeOk(w) && (r, v) in Abs(w).leaves && v < USER_PAGES
    ensures Path(r, v) <= w.at.Keys && Missing(w.at, r, v) == 0
  {
    hide ShapeOk, Abs, Prefix;
    ReadLeaf(w, r, v);
    PathPresent(w, r, v);
    assert Path(r, v) - w.at.Keys == {};
  }

  /** What AboveLeaves counts: the tables of r below its PML4 on the walk to some page. */
  lemma AboveAreTables(w: World, r: Space, p: Pos)
    requires ShapeOk(w) && Inv(Abs(w))
    ensures p in AboveLeaves(w, r) <==> p in w.at && p.root == r && p.level < 3 && exists v: VPage :: (r, v) in Abs(w).leaves && p == OnPath(r, p.level, v)
  {
    hide ShapeOk, Abs, Prefix, Inv;
    var vs := PagesBelow(Abs(w), r, USER_PAGES);
    if p in Paths(r, vs) {
      var v, l :| v in vs && l in {0, 1, 2} && p == OnPath(r, l, v);
      var k :| k in Abs(w).leaves && k.0 == r && k.1 < USER_PAGES && k.1 == v;
      assert k == (r, v);
      LeafHasTables(w, r, v);
      assert p in Path(r, v);
    }
    if v: VPage :| p.level < 3 && (r, v) in Abs(w).leaves && p == OnPath(r, p.level, v) {
      RefsPositive(Abs(w), (r, v));
      assert v in vs;
    }
  }
}
