/** Machines with a handful of frames on which an operation does less than it seems to. */
module SmallMachines {
  import opened Types
  import opened CopyOnWrite
  import opened ForkAndDestroy
  import opened PageTree
  import opened TableShape
  import opened Growth
  import opened TableSteps
  import opened TableFork
  import opened FrameBudget
  import opened PageAllocator
  import opened PageTables
  import opened MemoryCalls
  import opened ElfLoader

  lemma FirstBit(k: nat)
    requires k < 8
    ensures BitOn(1, k) <==> k == 0
    ensures !BitOn(0, k)
  {
  }

  lemma {:induction false} ClearFrom(bits: seq<bool>)
    requires |bits| > 0 && bits[0] && forall f | 1 <= f < |bits| :: !bits[f]
    ensures Clear(bits) == |bits| - 1
    decreases |bits|
  {
    if |bits| == 1 {
      ClearNone(bits);
    } else {
      var n := |bits| - 1;
      ClearFrom(bits[..n]);
      assert ClearBits(bits) == ClearBits(bits[..n]) + {n};
    }
  }

  /** A machine with the given number of frames, all free but frame 0. */
  method PowerOn(frames: nat) returns (vmm: Vmm)
    requires 1 < frames
    ensures fresh(vmm) && fresh(vmm.pmm) && fresh(vmm.pmm.bitmap) && fresh(vmm.pmm.refcounts)
    ensures vmm.Shape() && Inv(vmm.State()) && vmm.at == map[] && vmm.Frames() == frames - 1
    ensures vmm.State().leaves == map[]
  {
    hide Inv, ShapeOk, Abs, BitOn, HintedScan, FirstFree, HintOk;
    var bitmap := new bv8[frames / 8 + 1](i => if i == 0 then 1 else 0);
    var counts := new nat[frames](i => if i == 0 then 1 else 0);
    forall i: nat | i < frames ensures BitOn(bitmap[i / 8], i % 8) <==> i == 0 { FirstBit(i % 8); }
    assert BitOn(bitmap[0 / 8], 0 % 8);
    var pmm := new Pmm(bitmap, counts);
    forall i | 0 <= i < frames ensures pmm.Bits()[i] <==> i == 0 {}
    ClearFrom(pmm.Bits());
    vmm := new Vmm(pmm, seq(frames, i => Data([])), seq(256, i => Empty), {});
  }

  /** The same machine with one empty address space. */
  method Boot(frames: nat) returns (vmm: Vmm, root: Frame)
    requires 1 < frames
    ensures fresh(vmm) && fresh(vmm.pmm) && fresh(vmm.pmm.bitmap) && fresh(vmm.pmm.refcounts)
    ensures vmm.Shape() && Inv(vmm.State()) && vmm.at.Keys == {Root(root)} && vmm.Frames() == frames - 2
    ensures vmm.State().leaves == map[]
  {
    hide Inv, ShapeOk, Abs, Clear, AfterRoot, Pmm.Valid, Pmm.Bits;
    vmm := PowerOn(frames);
    ghost var w := vmm.Snapshot();
    var r := vmm.NewUserPagetable();
    if r.None? { assert false; }
    root := r.value;
    EmptySpace(w, root);
  }

  lemma EmptySpace(w: World, f: Frame)
    requires ShapeOk(w) && f < |w.bits| && !w.bits[f] && |w.refs| == |w.bits| <= |w.mem| && w.at == map[] && Abs(w).leaves == map[] && Inv(Abs(w))
    ensures var x := AfterRoot(w, f);
      Inv(Abs(x)) && x.at.Keys == {Root(f)} && Clear(x.bits) == Clear(w.bits) - 1 && Abs(x).leaves == map[]
  {
    hide Inv, ShapeOk, Leaves, Clear;
    RootKeepsShape(w, f);
    ClearTaken(w.bits, f);
    TakeKeepsInv(Abs(w), f, []);
    NewSpaceKeepsInv(Take(Abs(w), f, []), f);
  }

  /** In an empty address space a page needs three tables besides its own frame. */
  lemma FirstPageNeeds(at: Tree, r: Space, v: VPage)
    requires at.Keys == {Root(r)}
    ensures Missing(at, r, v) == 3 && Need(at, r, [v]) == 4 && Need(at, r, []) == 0 && [v][..0] == []
  {
    MissingIs(at, r, v);
    NeedNone(at, r);
    NeedOneMore(at, at, r, [], v);
    assert [] + [v] == [v];
  }

  /** One free frame: mmap of one byte reports success, and the page is not mapped. */
  method MmapLosesPage() returns (vmm: Vmm, root: Frame, base: Option<nat>)
    ensures vmm.Shape() && base == Some(MMAP_BASE) && (root, MMAP_BASE / PAGE_SIZE) !in vmm.State().leaves
  {
    hide Inv, ShapeOk, Abs, Need, Missing, Clear, Pmm.Valid;
    vmm, root := Boot(3);
    FirstPageNeeds(vmm.at, root, MMAP_BASE / PAGE_SIZE);
    assert Range(MMAP_BASE / PAGE_SIZE, 1) == [MMAP_BASE / PAGE_SIZE];
    var next;
    base, next := Mmap(vmm, root, MMAP_BASE, 1, true, true, false, Attr(true, false, true));
  }

  /** One free frame: a one-page program loads successfully, and its page is not mapped. */
  method LoadLosesPage() returns (vmm: Vmm, root: Frame, ok: bool)
    ensures vmm.Shape() && ok && (root, 0x400) !in vmm.State().leaves
  {
    hide Inv, ShapeOk, Abs, Need, Missing, Clear, Placed, PlanOk, Pmm.Valid;
    vmm, root := Boot(3);
    var g := Segment(true, false, true, 0, 0x400000, 1, 1);
    FirstPageNeeds(vmm.at, root, 0x400);
    OnePage(g);
    var entry, brk;
    ok, entry, brk := ElfLoad(vmm, root, [7], Header(ELF_MAGIC, 2, 1, 2, 0x400000), [g]);
  }

  lemma OnePage(g: Segment)
    requires g == Segment(true, false, true, 0, 0x400000, 1, 1)
    ensures SegmentOk([7], g) && Plan([g]) == [Placement(0x400, g)] && PagesOf(Plan([g])) == [0x400]
  {
    assert FirstPage(g) == 0x400 && PastPage(g) == 0x401;
    assert [g][..0] == [];
    assert Plan([g]) == [] + SegmentPlan(g);
  }

  /** One mapped page and one free frame: the clone has a PML4 and nothing else, and the
      page's frame keeps a second reference that no entry accounts for. */
  method CloneLeaks() returns (vmm: Vmm, src: Frame, dst: Option<Frame>, ghost f: Frame)
    ensures vmm.Shape() && dst.Some? && (dst.value, 0) !in vmm.State().leaves
    ensures (src, 0) in vmm.State().leaves && vmm.State().leaves[(src, 0)].frame == f < |vmm.State().refs|
    ensures vmm.State().refs[f] == 2 && Mappers(vmm.State(), f) == {(src, 0)}
  {
    hide Inv, ShapeOk, Abs, Need, Missing, Clear, Grown, Clone, Leaked, MapFresh, NewTables, RoomToClone, AboveLeaves, Mappers, Pmm.Valid;
    vmm, src := Boot(7);
    ghost var s := vmm.State();
    FirstPageNeeds(vmm.at, src, 0);
    ghost var at0 := vmm.at;
    var r, p := vmm.MapFilledPage(src, 0, ZeroPage(), true, false, Attr(true, false, true));
    f := p.frame;
    RootStays(at0, vmm.at, src);
    ghost var t, w := vmm.State(), vmm.Snapshot();
    OnePageMapped(s, t, src, p, NewTables(at0, vmm.at));
    OnePageAbove(w, src);
    ghost var at1 := vmm.at;
    ghost var fails;
    dst, fails := vmm.CloneUserPagetable(src);
    OnePageCloned(t, vmm.State(), src, dst.value, fails, f, NewTables(at1, vmm.at));
  }

  lemma OnePageMapped(s: State, t: State, src: Space, p: Pte, taken: set<Frame>)
    requires Inv(s) && s.leaves == map[] && FreshOk(s, (src, 0), p, ZeroPage()) && Grown(MapFresh(s, (src, 0), p, ZeroPage(), true), t, taken)
    ensures t.leaves == map[(src, 0) := p] && p.frame < |t.refs| && t.refs[p.frame] == 1 && !p.nopmm
    ensures RoomToClone(t, src) && Mappers(t, p.frame) == {(src, 0)}
  {
    var m := MapFresh(s, (src, 0), p, ZeroPage(), true);
    assert m.leaves == map[(src, 0) := p];
    assert p.frame !in taken;
    assert t.refs[p.frame] == m.refs[p.frame];
  }

  lemma OnePageAbove(w: World, src: Space)
    requires Abs(w).leaves.Keys == {(src, 0)}
    ensures |AboveLeaves(w, src)| == 3
  {
    var vs := PagesBelow(Abs(w), src, USER_PAGES);
    assert (src, 0) in Abs(w).leaves && (src, 0).1 == 0;
    assert vs == {} + {0};
    PathsAdd(src, {}, 0);
    assert Paths(src, {}) == {};
    assert {} + Path(src, 0) == Path(src, 0);
    var none: Tree := map[];
    MissingIs(none, src, 0);
    assert Path(src, 0) - none.Keys == Path(src, 0);
  }

  lemma OnePageCloned(t: State, u: State, src: Space, dst: Space, fails: set<VPage>, f: Frame, taken: set<Frame>)
    requires Forkable(t, src, dst) && Grown(Clone(t, src, dst, fails), u, taken)
    requires t.leaves.Keys == {(src, 0)} && t.leaves[(src, 0)].frame == f && !t.leaves[(src, 0)].nopmm && f < |t.refs| && t.refs[f] == 1
    requires fails != {} && (forall v | v in fails :: (src, v) in t.leaves) && Mappers(t, f) == {(src, 0)}
    ensures (dst, 0) !in u.leaves && (src, 0) in u.leaves && u.leaves[(src, 0)].frame == f < |u.refs|
    ensures u.refs[f] == 2 && Mappers(u, f) == {(src, 0)}
  {
    hide Inv;
    var v :| v in fails;
    assert (src, v) in t.leaves && v == 0;
    var c := Clone(t, src, dst, fails);
    assert (src, 0) in t.leaves && (src, 0) in Create(t, dst).leaves;
    SpaceIsNew(t, src, dst);
    assert f in FramesBelow(Create(t, dst), src, USER_PAGES);
    assert c.refs[f] == 2;
    assert f !in taken;
    assert u.refs[f] == c.refs[f];
    assert c.leaves.Keys == {(src, 0)};
  }

  lemma SpaceIsNew(t: State, src: Space, dst: Space)
    requires Forkable(t, src, dst)
    ensures src != dst && (dst, 0) !in t.leaves
  {
    if (dst, 0) in t.leaves { RefsPositive(t, (dst, 0)); }
  }

  const HEAP: nat := 0x10000

  lemma AtMostFour(at: Tree, r: Space, v: VPage)
    ensures Need(at, r, [v]) <= 4
  {
    NeedNone(at, r);
    NeedOneMore(at, at, r, [], v);
    MissingIs(at, r, v);
    assert [] + [v] == [v];
  }

  /** The break goes up a page, down and up again.  The byte stored in the page is gone,
      and the page's frame keeps a reference that no entry accounts for. */
  method BreakLeaks() returns (vmm: Vmm, root: Frame, breaks: seq<nat>, ghost before: byte, ghost f: Frame)
    ensures vmm.Shape() && breaks == [HEAP + 1, HEAP, HEAP + 1] && before == 7
    ensures (root, HEAP / PAGE_SIZE) in vmm.State().leaves && Zeroed(vmm.State(), (root, HEAP / PAGE_SIZE), true, false, Attr(true, false, true))
    ensures f < |vmm.State().refs| && Extra(vmm.State(), f) >= 1
  {
    hide Inv, ShapeOk, Abs, Need, Outside, OnlyTakes, NewFrames, Clear, Extra, Top, Poke, Pmm.Valid;
    vmm, root := Boot(10);
    ghost var k := (root, HEAP / PAGE_SIZE);
    Tops();
    AtMostFour(vmm.at, root, HEAP / PAGE_SIZE);
    var up := Brk(vmm, root, HEAP, HEAP, HEAP + 1);
    ghost var s := vmm.State();
    assert Zeroed(s, k, true, false, Attr(true, false, true));
    f := s.leaves[k].frame;
    var done := vmm.StoreIfAllowed(root, HEAP, 7);
    ghost var t := vmm.State();
    Poked(s, t, k, f, 7);
    before := t.data[f][0];
    var down := Brk(vmm, root, HEAP, HEAP + 1, HEAP);
    AtMostFour(vmm.at, root, HEAP / PAGE_SIZE);
    var again := Brk(vmm, root, HEAP, HEAP, HEAP + 1);
    breaks := [up, down, again];
    RemapLeaks(t, vmm.State(), root, HEAP / PAGE_SIZE, HEAP / PAGE_SIZE + 1, k);
  }

  lemma Tops()
    ensures Top(HEAP) == HEAP / PAGE_SIZE && Top(HEAP + 1) == HEAP / PAGE_SIZE + 1
    ensures Range(HEAP / PAGE_SIZE, 1) == [HEAP / PAGE_SIZE] && [HEAP / PAGE_SIZE][..0] == []
  {
  }

  lemma Poked(s: State, t: State, k: Key, f: Frame, b: byte)
    requires Inv(s) && Zeroed(s, k, true, false, Attr(true, false, true)) && f == s.leaves[k].frame
    requires Stores(s, k) && t == Poke(s, f, 0, b)
    ensures Inv(t) && t.leaves == s.leaves && !t.leaves[k].nopmm && f < |t.data| && |t.data[f]| > 0 && t.data[f][0] == b
  {
    PokeKeepsInv(s, f, 0, b);
  }
}
