/** Single writes to page tables, with everything they preserve. */
module TableSteps {
  import opened Types
  import opened CopyOnWrite
  import opened PageTree
  import opened TableShape
  import opened Growth

  /** Leaf frames held in w are held in x as well. */
  ghost predicate StillHeld(w: World, x: World) {
    forall q | LeafHeld(w, q) :: LeafHeld(x, q)
  }

  /** What slot i of table p holds. */
  lemma ReadSlot(w: World, p: Pos, i: nat)
    requires ShapeOk(w) && p in w.at && i < Slots(p.level)
    ensures PosOk(w.mem, w.at, p) && |w.refs| == |w.bits| <= |w.mem|
    ensures w.at[p] < |w.mem| && w.mem[w.at[p]].Table? && |w.mem[w.at[p]].entries| == 512
    ensures p.level > 0 ==> var e := w.mem[w.at[p]].entries[i];
      (e.Present? <==> Child(p, i) in w.at) && (e.Present? ==> e.pte.frame == w.at[Child(p, i)])
  {
    assert PosOk(w.mem, w.at, p);
    if p.level > 0 { assert LinkOk(w.mem, w.at, p, i); }
  }

  lemma SizesOk(w: World)
    requires ShapeOk(w)
    ensures 0 < |w.refs| == |w.bits| <= |w.mem| && w.bits[0] && |w.kernelHalf| == 256
  {
  }

  lemma NoClearBit(w: World)
    requires ShapeOk(w) && forall f | 0 <= f < |w.bits| :: w.bits[f]
    ensures Exhausted(Abs(w))
  {
    hide Abs, TreeOk, Free;
    forall f ensures !Free(Abs(w), f) { FreeIsClear(w, f); }
  }

  lemma RootFrame(w: World, r: Frame)
    requires ShapeOk(w) && Root(r) in w.at
    ensures w.at[Root(r)] == r
  {
    assert PosOk(w.mem, w.at, Root(r));
  }

  /** A page table implies the tables above it. */
  lemma PathPresent(w: World, r: Frame, v: VPage)
    requires ShapeOk(w) && v < USER_PAGES && OnPath(r, 0, v) in w.at
    ensures OnPath(r, 1, v) in w.at && OnPath(r, 2, v) in w.at
  {
    hide Prefix, Leaves;
    PathStep(r, v * 4096, 1);
    PathStep(r, v * 4096, 2);
    assert PosOk(w.mem, w.at, OnPath(r, 0, v));
    assert PosOk(w.mem, w.at, OnPath(r, 1, v));
  }

  /** x is w with table pages added in address space r. */
  ghost predicate Extended(w: World, x: World, r: Frame) {
    && ShapeOk(x) && StillHeld(w, x)
    && Extends(w.at, x.at, r) && Grown(Abs(w), Abs(x), NewTables(w.at, x.at))
  }

  lemma ExtendedSelf(w: World, r: Frame)
    requires ShapeOk(w)
    ensures Extended(w, w, r)
  {
    hide Abs, ShapeOk, LeafHeld;
    assert NewTables(w.at, w.at) == {};
    GrownSelf(Abs(w));
  }

  lemma ExtendedTrans(w: World, x: World, y: World, r: Frame)
    requires Extended(w, x, r) && Extended(x, y, r)
    ensures Extended(w, y, r)
  {
    hide Abs, ShapeOk, LeafHeld, Grown, Extends, NewTables;
    ExtendsTrans(w.at, x.at, y.at, r);
    GrownTrans(Abs(w), Abs(x), Abs(y), NewTables(w.at, x.at), NewTables(x.at, y.at));
  }

  /** A new table page below slot i of p. */
  lemma TableExtends(w: World, p: Pos, i: nat, f: Frame)
    requires ShapeOk(w) && PosOk(w.mem, w.at, p) && p.level > 0 && i < Slots(p.level) && Child(p, i) !in w.at
    requires f < |w.bits| && !w.bits[f]
    ensures f != w.at[p]
    ensures Extended(w, AfterTable(w, p, i, f), p.root)
  {
    hide Abs, Leaves, TreeOk;
    ClearBitIsFree(w, f);
    TableKeepsShape(w, p, i, f);
    TableIsTake(w, p, i, f);
    TableContents(w, p, i, f);
    GrownTake(Abs(w), f, []);
    var w' := AfterTable(w, p, i, f);
    assert NewTables(w.at, w'.at) == {f} by {
      assert Child(p, i) in w'.at && w'.at[Child(p, i)] == f;
    }
  }

  /** x is w after an attempt to map page v of address space r: the leaf is set
      if it succeeded, and table pages may have been added either way. */
  ghost predicate Mapped(w: World, x: World, r: Frame, v: VPage, pte: Pte, ok: bool) {
    && ShapeOk(x) && StillHeld(w, x) && Extends(w.at, x.at, r)
    && Grown(if ok then SetLeaf(Abs(w), (r, v), Present(pte)) else Abs(w), Abs(x), NewTables(w.at, x.at))
  }

  lemma LeafStillHeld(w: World, r: Frame, v: VPage, e: Entry)
    requires PosOk(w.mem, w.at, OnPath(r, 0, v))
    ensures StillHeld(w, AfterLeaf(w, r, v, e))
  {
    hide Prefix;
    LeafContents(w, r, v, e);
  }

  /** A leaf entry in memory is the entry of the leaf table. */
  lemma ReadLeaf(w: World, r: Frame, v: VPage)
    requires ShapeOk(w)
    ensures var p, k := OnPath(r, 0, v), (r, v);
      if p !in w.at then k !in Abs(w).leaves
      else
        && PosOk(w.mem, w.at, p) && w.at[p] < |w.mem| && w.mem[w.at[p]].Table? && |w.mem[w.at[p]].entries| == 512
        && var e := w.mem[w.at[p]].entries[v % 512];
           && (k in Abs(w).leaves <==> e.Present?)
           && (e.Present? ==> Abs(w).leaves[k] == e.pte && LeafHeld(w, e.pte))
           && (e.Present? && !e.pte.nopmm ==> e.pte.frame < |w.refs| == |w.bits| && w.bits[e.pte.frame])
  {
    hide Leaves, Prefix;
    LeavesAt(w.mem, w.at, r, v);
    var p := OnPath(r, 0, v);
    if p in w.at { assert PosOk(w.mem, w.at, p); }
    if (r, v) in Leaves(w.mem, w.at) {
      var q := Leaves(w.mem, w.at)[(r, v)];
      assert LeafHeld(w, q);
      if !q.nopmm { assert BitOk(w, q.frame); }
    }
  }

  /** What the counts are after pmm_free_page(f). */
  function AfterFree(w: World, f: Frame): World
    requires f < |w.refs| == |w.bits| && w.refs[f] > 0
  {
    w.(refs := w.refs[f := w.refs[f] - 1], bits := w.bits[f := w.refs[f] - 1 > 0])
  }

  /** A leaf that held the last reference leaves its frame unmapped. */
  lemma FreeKeepsShape(w: World, f: Frame)
    requires ShapeOk(w) && 0 < f < |w.refs| && w.mem[f].Data? && f !in w.device && w.refs[f] > |Mappers(Abs(w), f)|
    ensures ShapeOk(AfterFree(w, f)) && Abs(AfterFree(w, f)) == Drop(Abs(w), f)
  {
    hide Leaves, TreeOk;
    var s := Abs(w);
    if w.refs[f] == 1 {
      forall k | k in s.leaves && !s.leaves[k].nopmm ensures s.leaves[k].frame != f {
        assert s.leaves[k].frame == f ==> k in Mappers(s, f);
      }
    }
    CountKeepsShape(w, f, w.refs[f] - 1);
  }

  ghost function AfterUnmap(w: World, r: Frame, v: VPage): World
    requires ShapeOk(w) && OnPath(r, 0, v) in w.at && (r, v) in Abs(w).leaves && Inv(Abs(w))
  {
    ReadLeaf(w, r, v);
    RefsPositive(Abs(w), (r, v));
    var p := Abs(w).leaves[(r, v)];
    var x := AfterLeaf(w, r, v, Empty);
    if p.nopmm then x else AfterFree(x, p.frame)
  }

  lemma UnmapKeepsShape(w: World, r: Frame, v: VPage)
    requires ShapeOk(w) && OnPath(r, 0, v) in w.at && (r, v) in Abs(w).leaves && Inv(Abs(w))
    ensures ShapeOk(AfterUnmap(w, r, v))
    ensures Inv(Unmap(Abs(w), (r, v))) && Abs(AfterUnmap(w, r, v)) == Unmap(Abs(w), (r, v))
  {
    hide Prefix, PosOk, WithLeaf, ShapeOk, EntryOk, PairOk, Leaves, Contents;
    ReadLeaf(w, r, v);
    UnmapKeepsInv(Abs(w), (r, v));
    RefsPositive(Abs(w), (r, v));
    var p, x := Abs(w).leaves[(r, v)], AfterLeaf(w, r, v, Empty);
    LeafKeepsShape(w, r, v, Empty);
    LeafIsSetLeaf(w, r, v, Empty);
    LeafContents(w, r, v, Empty);
    if !p.nopmm {
      MappersAfterRemove(Abs(w), Abs(x), (r, v), p.frame);
      FreeKeepsShape(x, p.frame);
    }
  }

  /** The fault handler's copy: allocate, copy, remap, drop the old frame. */
  ghost function AfterCopy(w: World, r: Frame, v: VPage, f: Frame): World
    requires ShapeOk(w) && OnPath(r, 0, v) in w.at && NeedsCopy(Abs(w), (r, v)) && Inv(Abs(w))
    requires f < |w.bits| && !w.bits[f]
  {
    ReadLeaf(w, r, v);
    RefsPositive(Abs(w), (r, v));
    ClearBitIsFree(w, f);
    var p := Abs(w).leaves[(r, v)];
    var x := AfterAlloc(w, f, w.mem[p.frame].bytes);
    AllocKeepsTables(w, f, w.mem[p.frame].bytes);
    AfterFree(AfterLeaf(x, r, v, Present(p.(frame := f, writable := true, cow := false))), p.frame)
  }

  lemma CopyFields(w: World, r: Frame, v: VPage, f: Frame)
    requires ShapeOk(w) && OnPath(r, 0, v) in w.at && NeedsCopy(Abs(w), (r, v)) && Inv(Abs(w))
    requires f < |w.bits| && !w.bits[f]
    ensures PosOk(w.mem, w.at, OnPath(r, 0, v)) && (r, v) in Abs(w).leaves
    ensures var p, pt, x := Abs(w).leaves[(r, v)], w.at[OnPath(r, 0, v)], AfterCopy(w, r, v, f);
      && f < |w.mem| && p.frame < |w.mem| && w.mem[p.frame].Data? && f != pt && f != p.frame && pt != p.frame
      && p.frame < |w.refs| == |w.bits| && w.refs[p.frame] > 1
      && x.mem == w.mem[f := Data(w.mem[p.frame].bytes)][pt := Table(
           w.mem[pt].entries[v % 512 := Present(p.(frame := f, writable := true, cow := false))])]
      && x.refs == w.refs[f := 1][p.frame := w.refs[p.frame] - 1]
      && x.bits == w.bits[f := true]
      && x.at == w.at && x.device == w.device && x.kernelHalf == w.kernelHalf
  {
    hide Prefix, Inv, Leaves, TreeOk, Contents;
    ReadLeaf(w, r, v);
    CowHeld(w, r, v);
    ClearBitIsFree(w, f);
  }

  lemma CopyKeepsShape(w: World, r: Frame, v: VPage, f: Frame)
    requires ShapeOk(w) && OnPath(r, 0, v) in w.at && NeedsCopy(Abs(w), (r, v)) && Inv(Abs(w))
    requires f < |w.bits| && !w.bits[f]
    ensures ShapeOk(AfterCopy(w, r, v, f))
    ensures Fault(Abs(w), (r, v), Some(f)) == (Abs(AfterCopy(w, r, v, f)), true)
  {
    hide Prefix, PosOk, WithLeaf, ShapeOk, EntryOk, PairOk, Leaves, TreeOk;
    ReadLeaf(w, r, v);
    CowHeld(w, r, v);
    RefsPositive(Abs(w), (r, v));
    ClearBitIsFree(w, f);
    var s, k := Abs(w), (r, v);
    var p := s.leaves[k];
    var q, content := p.(frame := f, writable := true, cow := false), w.mem[p.frame].bytes;
    var x := AfterAlloc(w, f, content);
    AllocKeepsShape(w, f, content);
    AllocKeepsTables(w, f, content);
    var y := AfterLeaf(x, r, v, Present(q));
    LeafKeepsShape(x, r, v, Present(q));
    LeafIsSetLeaf(x, r, v, Present(q));
    LeafContents(x, r, v, Present(q));
    MappersAfterSet(s, Abs(y), k, q, p.frame);
    assert Mappers(Abs(y), p.frame) + {k} == Mappers(s, p.frame);
    FreeKeepsShape(y, p.frame);
  }

  lemma CowHeld(w: World, r: Frame, v: VPage)
    requires ShapeOk(w) && (r, v) in Abs(w).leaves && Abs(w).leaves[(r, v)].cow && Inv(Abs(w))
    ensures var f := Abs(w).leaves[(r, v)].frame;
      && CowEntry(Abs(w), (r, v)) && 0 < f < |w.refs| == |w.bits| <= |w.mem| && w.refs[f] > 0 && w.bits[f]
      && w.mem[f].Data? && |w.mem[f].bytes| == PAGE_SIZE && !Abs(w).leaves[(r, v)].nopmm
      && (NeedsCopy(Abs(w), (r, v)) <==> w.refs[f] != 1)
      && (w.refs[f] != 1 ==> Fault(Abs(w), (r, v), None) == (Abs(w), false))
  {
    hide Leaves, TreeOk, Mappers;
    RefsPositive(Abs(w), (r, v));
    var f := Abs(w).leaves[(r, v)].frame;
    assert EntryOk(Abs(w), (r, v)) && LeafHeld(w, Leaves(w.mem, w.at)[(r, v)]);
    assert BitOk(w, f);
  }

  /** The sole owner reclaims write access in place. */
  lemma ReclaimKeepsShape(w: World, r: Frame, v: VPage)
    requires ShapeOk(w) && OnPath(r, 0, v) in w.at && CowEntry(Abs(w), (r, v)) && Inv(Abs(w))
    requires w.refs[Abs(w).leaves[(r, v)].frame] == 1
    ensures PosOk(w.mem, w.at, OnPath(r, 0, v))
    ensures var x := AfterLeaf(w, r, v, Present(Abs(w).leaves[(r, v)].(writable := true, cow := false)));
      ShapeOk(x) && Fault(Abs(w), (r, v), None) == (Abs(x), true)
  {
    hide Prefix, PosOk, WithLeaf, ShapeOk, Inv, Leaves, TreeOk;
    ReadLeaf(w, r, v);
    var e := Present(Abs(w).leaves[(r, v)].(writable := true, cow := false));
    LeafKeepsShape(w, r, v, e);
    LeafIsSetLeaf(w, r, v, e);
  }

  lemma FinishMap(w: World, x: World, r: Frame, v: VPage, pte: Pte)
    requires Extended(w, x, r) && PosOk(x.mem, x.at, OnPath(r, 0, v)) && LeafHeld(w, pte)
    ensures Mapped(w, AfterLeaf(x, r, v, Present(pte)), r, v, pte, true)
  {
    hide Abs, ShapeOk, Grown, Prefix, PosOk, WithLeaf, SetLeaf;
    LeafStillHeld(x, r, v, Present(pte));
    LeafKeepsShape(x, r, v, Present(pte));
    LeafIsSetLeaf(x, r, v, Present(pte));
    GrownSetLeaf(Abs(w), Abs(x), NewTables(w.at, x.at), (r, v), Present(pte));
  }

  // ----- A fresh page

  function ZeroPage(): (b: Bytes)
    ensures |b| == PAGE_SIZE
  {
    seq(PAGE_SIZE, i => 0)
  }

  lemma FreshPage(w: World, r: Frame, v: VPage, p: Pte, content: Bytes)
    requires ShapeOk(w) && Inv(Abs(w)) && Root(r) in w.at && v < USER_PAGES && p.frame < |w.bits| && !w.bits[p.frame]
    requires !p.nopmm && !p.cow && |content| == PAGE_SIZE && |w.refs| == |w.bits| <= |w.mem|
    ensures FreshOk(Abs(w), (r, v), p, content)
    ensures var x := AfterAlloc(w, p.frame, content); ShapeOk(x) && LeafHeld(x, p) && x.at == w.at
  {
    hide Leaves, TreeOk, Inv, Contents;
    ClearBitIsFree(w, p.frame);
    AllocKeepsShape(w, p.frame, content);
  }

  lemma FreshPageMapped(w: World, y: World, r: Frame, v: VPage, p: Pte, content: Bytes, ok: bool)
    requires ShapeOk(w) && Inv(Abs(w)) && p.frame < |w.bits| && !w.bits[p.frame] && |w.refs| == |w.bits| <= |w.mem|
    requires FreshOk(Abs(w), (r, v), p, content)
    requires Mapped(AfterAlloc(w, p.frame, content), y, r, v, p, ok)
    ensures Grown(MapFresh(Abs(w), (r, v), p, content, ok), Abs(y), NewTables(w.at, y.at)) && Inv(Abs(y))
  {
    hide Leaves, TreeOk, Inv, Grown, Contents, ShapeOk, StillHeld, Abs;
    AllocKeepsShape(w, p.frame, content);
    MapFreshKeepsInv(Abs(w), (r, v), p, content, ok);
    GrownKeepsInv(MapFresh(Abs(w), (r, v), p, content, ok), Abs(y), NewTables(w.at, y.at));
  }
}
