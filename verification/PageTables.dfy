/** The page-table operations of the kernel, on physical memory. */
module PageTables {
  import opened Types
  import opened CopyOnWrite
  import opened ForkAndDestroy
  import opened ForkRefinement
  import opened PageTree
  import opened TableShape
  import opened Growth
  import opened FrameBudget
  import opened TableSteps
  import opened TableFork
  import opened TableTeardown
  import opened PageAllocator

  class Vmm {
    const pmm: Pmm
    const kernelHalf: seq<Entry>
    ghost const device: set<Frame>
    var mem: Mem
    ghost var at: Tree

    ghost function Snapshot(): World
      requires pmm.refcounts.Length <= 8 * pmm.bitmap.Length
      reads this, pmm, pmm.bitmap, pmm.refcounts
    {
      World(mem, at, pmm.refcounts[..], pmm.Bits(), device, kernelHalf)
    }

    ghost predicate Shape()
      reads this, pmm, pmm.bitmap, pmm.refcounts
    {
      pmm.Valid() && ShapeOk(Snapshot())
    }

    ghost function State(): CopyOnWrite.State
      requires pmm.refcounts.Length <= 8 * pmm.bitmap.Length
      reads this, pmm, pmm.bitmap, pmm.refcounts
    {
      Abs(Snapshot())
    }

    /** Frames the allocator can still hand out. */
    ghost function Frames(): nat
      requires pmm.refcounts.Length <= 8 * pmm.bitmap.Length
      reads this, pmm, pmm.bitmap, pmm.refcounts
    {
      Clear(Snapshot().bits)
    }

    /** No user address space yet; every taken page is counted or reserved. */
    constructor (pmm: Pmm, mem: Mem, kernelHalf: seq<Entry>, ghost device: set<Frame>)
      requires pmm.Valid() && pmm.refcounts.Length <= |mem| && |kernelHalf| == 256
      requires forall f | 0 <= f < pmm.refcounts.Length :: pmm.Bits()[f] <==> pmm.refcounts[f] > 0 || f in device
      ensures Shape() && Inv(State()) && this.pmm == pmm
      ensures State().spaces == {} && State().leaves == map[] && at == map[] && Snapshot().bits == pmm.Bits()
    {
      this.pmm, this.mem, this.kernelHalf, this.device, this.at := pmm, mem, kernelHalf, device, map[];
      new;
      forall f: nat | f < |Snapshot().refs| ensures BitOk(Snapshot(), f) {}
      assert Leaves(mem, at) == map[];
      forall f: nat ensures Mappers(State(), f) == {} {}
    }

    method GetNextLevel(table: Frame, i: nat, ghost p: Pos) returns (r: Option<Frame>)
      requires Shape() && p in at && at[p] == table && p.level > 0 && i < Slots(p.level)
      modifies this, pmm, pmm.bitmap, pmm.refcounts
      ensures Shape() && Extended(old(Snapshot()), Snapshot(), p.root)
      ensures r.Some? ==> Child(p, i) in at && at[Child(p, i)] == r.value
      ensures r.None? ==> Exhausted(State())
      ensures r.Some? <==> Child(p, i) in old(at) || old(Frames()) > 0
      ensures r.Some? ==> at.Keys == old(at).Keys + {Child(p, i)} && Frames() == old(Frames()) - One(Child(p, i) !in old(at))
      ensures r.None? ==> at == old(at) && Frames() == 0
    {
      hide ShapeOk, StillHeld, Grown, Extends, Abs, PosOk, Exhausted, Clear, HintedScan, FirstFree, HintOk, BitOn, Pmm.Valid, Pmm.Bits, Pmm.Test;
      ghost var w := Snapshot();
      ReadSlot(w, p, i);
      ExtendedSelf(w, p.root);
      ClearNone(w.bits);
      var e := mem[table].entries[i];
      if e.Present? {
        return Some(e.pte.frame);
      }
      var a := pmm.AllocPage();
      if a.None? {
        assert Snapshot() == w;
        NoClearBit(w);
        return None;
      }
      var f := a.value;
      TableExtends(w, p, i, f);
      ClearTaken(w.bits, f);
      mem := mem[f := BlankTable()];
      mem := mem[table := Table(mem[table].entries[i := DirEntry(f)])];
      at := at[Child(p, i) := f];
      assert Snapshot() == AfterTable(w, p, i, f);
      return Some(f);
    }

    /** Walks to the page table for vaddr, making the tables that are missing. */
    method MakeTables(root: Frame, vaddr: nat) returns (pt: Option<Frame>)
      requires Shape() && Root(root) in at && vaddr / PAGE_SIZE < USER_PAGES
      modifies this, pmm, pmm.bitmap, pmm.refcounts
      ensures Shape() && Extended(old(Snapshot()), Snapshot(), root)
      ensures pt.Some? ==> OnPath(root, 0, vaddr / PAGE_SIZE) in at && at[OnPath(root, 0, vaddr / PAGE_SIZE)] == pt.value
      ensures pt.None? ==> Exhausted(State())
      ensures pt.Some? <==> old(Frames()) >= Missing(old(at), root, vaddr / PAGE_SIZE)
      ensures pt.Some? ==> at.Keys == old(at).Keys + Path(root, vaddr / PAGE_SIZE)
      ensures pt.None? ==> NoLeafTables(old(at), at)
      ensures Frames() == if pt.Some? then old(Frames()) - Missing(old(at), root, vaddr / PAGE_SIZE) else 0
    {
      hide ShapeOk, StillHeld, Grown, Extends, Abs, PosOk, Prefix, Index, Exhausted, Clear, Missing, Extended, HintedScan, FirstFree, HintOk, BitOn, Pmm.Valid, Pmm.Bits, Pmm.Test;
      ghost var w := Snapshot();
      ghost var v := vaddr / PAGE_SIZE;
      PathStep(root, vaddr, 3);
      PathStep(root, vaddr, 2);
      PathStep(root, vaddr, 1);
      RootFrame(w, root);
      MissingIs(at, root, v);
      var pdpt := GetNextLevel(root, Index(vaddr, 3), OnPath(root, 3, v));
      if pdpt.None? { return None; }
      ghost var x := Snapshot();
      var pd := GetNextLevel(pdpt.value, Index(vaddr, 2), OnPath(root, 2, v));
      ExtendedTrans(w, x, Snapshot(), root);
      if pd.None? { return None; }
      x := Snapshot();
      pt := GetNextLevel(pd.value, Index(vaddr, 1), OnPath(root, 1, v));
      ExtendedTrans(w, x, Snapshot(), root);
    }

    /** Maps a page; returns without mapping it if a table page cannot be had. */
    method MapPage(root: Frame, vaddr: nat, pte: Pte) returns (ok: bool)
      requires Shape() && Root(root) in at && vaddr / PAGE_SIZE < USER_PAGES && LeafHeld(Snapshot(), pte)
      modifies this, pmm, pmm.bitmap, pmm.refcounts
      ensures Shape() && Mapped(old(Snapshot()), Snapshot(), root, vaddr / PAGE_SIZE, pte, ok)
      ensures !ok ==> Exhausted(State())
      ensures ok <==> old(Frames()) >= Missing(old(at), root, vaddr / PAGE_SIZE)
      ensures ok ==> at.Keys == old(at).Keys + Path(root, vaddr / PAGE_SIZE)
      ensures !ok ==> NoLeafTables(old(at), at)
      ensures Frames() == if ok then old(Frames()) - Missing(old(at), root, vaddr / PAGE_SIZE) else 0
    {
      hide ShapeOk, StillHeld, Grown, Extends, Abs, PosOk, LeafHeld, Prefix, Index, Exhausted, Clear, Missing, Path, HintedScan, FirstFree, HintOk, BitOn, Pmm.Valid, Pmm.Bits, Pmm.Test;
      ghost var w := Snapshot();
      ghost var v := vaddr / PAGE_SIZE;
      var pt := MakeTables(root, vaddr);
      if pt.None? { return false; }
      ghost var x := Snapshot();
      PathStep(root, vaddr, 1);
      ReadSlot(x, OnPath(root, 0, v), v % 512);
      FinishMap(w, x, root, v, pte);
      mem := mem[pt.value := Table(mem[pt.value].entries[Index(vaddr, 0) := Present(pte)])];
      assert Snapshot() == AfterLeaf(x, root, v, Present(pte));
      return true;
    }

    /** Walks to the page table for vaddr, without allocating. */
    method FindTable(root: Frame, vaddr: nat) returns (r: Option<Frame>)
      requires Shape() && Root(root) in at && vaddr / PAGE_SIZE < USER_PAGES
      ensures r.Some? <==> OnPath(root, 0, vaddr / PAGE_SIZE) in at
      ensures r.Some? ==> r.value == at[OnPath(root, 0, vaddr / PAGE_SIZE)]
    {
      hide ShapeOk, Abs, PosOk, LeafHeld, Prefix, Index, Exhausted, HintedScan, FirstFree, HintOk, BitOn, Pmm.Valid, Pmm.Bits, Pmm.Test;
      ghost var w := Snapshot();
      ghost var v := vaddr / PAGE_SIZE;
      PathStep(root, vaddr, 3);
      PathStep(root, vaddr, 2);
      PathStep(root, vaddr, 1);
      RootFrame(w, root);
      if OnPath(root, 0, v) in at { PathPresent(w, root, v); }
      ReadSlot(w, OnPath(root, 3, v), Index(vaddr, 3));
      var e3 := mem[root].entries[Index(vaddr, 3)];
      if e3.Empty? { return None; }
      ReadSlot(w, OnPath(root, 2, v), Index(vaddr, 2));
      var e2 := mem[e3.pte.frame].entries[Index(vaddr, 2)];
      if e2.Empty? { return None; }
      ReadSlot(w, OnPath(root, 1, v), Index(vaddr, 1));
      var e1 := mem[e2.pte.frame].entries[Index(vaddr, 1)];
      if e1.Empty? { return None; }
      return Some(e1.pte.frame);
    }

    method UnmapPage(root: Frame, vaddr: nat)
      requires Shape() && Inv(State()) && Root(root) in at && vaddr / PAGE_SIZE < USER_PAGES
      modifies this, pmm, pmm.bitmap, pmm.refcounts
      ensures Shape() && at == old(at)
      ensures State() == Unmap(old(State()), (root, vaddr / PAGE_SIZE)) && Inv(State())
    {
      hide ShapeOk, Inv, PosOk, Prefix, Abs, Exhausted, HintedScan, FirstFree, HintOk, BitOn, Pmm.Valid, Pmm.Bits, Pmm.Test;
      ghost var w := Snapshot();
      ghost var v := vaddr / PAGE_SIZE;
      UnmapKeepsInv(Abs(w), (root, v));
      var pt := FindTable(root, vaddr);
      ReadLeaf(w, root, v);
      if pt.None? { return; }
      var e := mem[pt.value].entries[Index(vaddr, 0)];
      if e.Empty? { return; }
      UnmapKeepsShape(w, root, v);
      mem := mem[pt.value := Table(mem[pt.value].entries[Index(vaddr, 0) := Empty])];
      if !e.pte.nopmm {
        pmm.FreePage(e.pte.frame);
      }
      assert Snapshot() == AfterUnmap(w, root, v);
    }

    /** The copying half of the fault handler. */
    method CopyPage(root: Frame, vaddr: nat, pt: Frame, p: Pte) returns (handled: bool, ghost spare: Option<Frame>)
      requires Shape() && Inv(State()) && vaddr / PAGE_SIZE < USER_PAGES
      requires OnPath(root, 0, vaddr / PAGE_SIZE) in at && at[OnPath(root, 0, vaddr / PAGE_SIZE)] == pt
      requires NeedsCopy(State(), (root, vaddr / PAGE_SIZE)) && State().leaves[(root, vaddr / PAGE_SIZE)] == p
      modifies this, pmm, pmm.bitmap, pmm.refcounts
      ensures Shape() && at == old(at) && Inv(State())
      ensures (State(), handled) == Fault(old(State()), (root, vaddr / PAGE_SIZE), spare)
      ensures if old(Frames()) > 0 then handled && spare.Some? && Free(old(State()), spare.value) else !handled
    {
      hide ShapeOk, Inv, PosOk, Prefix, Abs, LeafHeld, Fault, AfterCopy, Clear, HintedScan, FirstFree, HintOk, BitOn, Pmm.Valid, Pmm.Bits, Pmm.Test;
      ghost var w := Snapshot();
      ghost var v := vaddr / PAGE_SIZE;
      ReadLeaf(w, root, v);
      CowHeld(w, root, v);
      ClearNone(w.bits);
      var a := pmm.AllocPage();
      if a.None? {
        assert Snapshot() == w;
        return false, None;
      }
      var f := a.value;
      spare := Some(f);
      CopyKeepsShape(w, root, v, f);
      CopyFields(w, root, v, f);
      FaultKeepsInv(Abs(w), (root, v), spare);
      ClearBitIsFree(w, f);
      mem := mem[f := Data(mem[p.frame].bytes)];
      mem := mem[pt := Table(mem[pt].entries[Index(vaddr, 0) := Present(p.(frame := f, writable := true, cow := false))])];
      pmm.FreePage(p.frame);
      assert Snapshot() == AfterCopy(w, root, v, f);
      handled := true;
    }

    /** Resolves a write fault; true if the faulting store should be retried. */
    method HandleCowFault(root: Frame, vaddr: nat) returns (handled: bool, ghost spare: Option<Frame>)
      requires Shape() && Inv(State()) && Root(root) in at && vaddr / PAGE_SIZE < USER_PAGES
      modifies this, pmm, pmm.bitmap, pmm.refcounts
      ensures Shape() && at == old(at) && Inv(State())
      ensures (State(), handled) == Fault(old(State()), (root, vaddr / PAGE_SIZE), spare)
      ensures NeedsCopy(old(State()), (root, vaddr / PAGE_SIZE)) ==>
        if old(Frames()) > 0 then handled && spare.Some? && Free(old(State()), spare.value) else !handled
    {
      hide ShapeOk, Inv, PosOk, Prefix, Abs, LeafHeld, Clear, HintedScan, FirstFree, HintOk, BitOn, Pmm.Valid, Pmm.Bits, Pmm.Test;
      ghost var w := Snapshot();
      ghost var v := vaddr / PAGE_SIZE;
      var pt := FindTable(root, vaddr);
      ReadLeaf(w, root, v);
      FaultKeepsInv(Abs(w), (root, v), None);
      if pt.None? { return false, None; }
      var e := mem[pt.value].entries[Index(vaddr, 0)];
      if e.Empty? || !e.pte.cow { return false, None; }
      var p := e.pte;
      CowHeld(w, root, v);
      if pmm.RefCount(p.frame) == 1 {
        ReclaimKeepsShape(w, root, v);
        mem := mem[pt.value := Table(mem[pt.value].entries[Index(vaddr, 0) := Present(p.(writable := true, cow := false))])];
        assert Snapshot() == AfterLeaf(w, root, v, Present(p.(writable := true, cow := false)));
        return true, None;
      }
      handled, spare := CopyPage(root, vaddr, pt.value, p);
    }

    /** An empty user half below a copy of the kernel half. */
    method NewUserPagetable() returns (r: Option<Frame>)
      requires Shape()
      modifies this, pmm, pmm.bitmap, pmm.refcounts
      ensures Shape()
      ensures r.None? <==> old(Frames()) == 0
      ensures r.None? ==> Snapshot() == old(Snapshot()) && Exhausted(State())
      ensures r.Some? ==> r.value < |old(Snapshot()).bits| && !old(Snapshot()).bits[r.value]
      ensures r.Some? ==> |old(Snapshot()).refs| == |old(Snapshot()).bits| <= |old(mem)| && Snapshot() == AfterRoot(old(Snapshot()), r.value)
    {
      hide ShapeOk, Abs, Exhausted, Clear, HintedScan, FirstFree, HintOk, BitOn, Pmm.Valid, Pmm.Bits, Pmm.Test;
      ghost var w := Snapshot();
      SizesOk(w);
      ClearNone(w.bits);
      var a := pmm.AllocPage();
      if a.None? {
        assert Snapshot() == w;
        NoClearBit(w);
        return None;
      }
      var f := a.value;
      RootKeepsShape(w, f);
      mem := mem[f := Table(seq(256, i => Empty) + kernelHalf)];
      at := at[Root(f) := f];
      assert Snapshot() == AfterRoot(w, f);
      return Some(f);
    }

    /** One iteration of the innermost fork loop, at the four loop indices. */
    method ShareEntry(src: Frame, dst: Frame, pt: Frame, i3: nat, i2: nat, i1: nat, i0: nat,
                      ghost s: CopyOnWrite.State, ghost at0: Tree, ghost free: nat, ghost fails0: set<VPage>)
      returns (ghost fails: set<VPage>)
      requires Shape() && i3 < 256 && i2 < 512 && i1 < 512 && i0 < 512 && Root(dst) in at
      requires Pos(src, 0, TableAt(i3, i2, i1)) in at && at[Pos(src, 0, TableAt(i3, i2, i1))] == pt
      requires Cloning(s, at0, Snapshot(), src, dst, TableAt(i3, i2, i1) * 512 + i0, fails0)
      requires CloneBudget(at0, free, s, Snapshot(), src, dst, TableAt(i3, i2, i1) * 512 + i0, fails0)
      modifies this, pmm, pmm.bitmap, pmm.refcounts
      ensures Shape() && Extends(old(at), at, dst)
      ensures Cloning(s, at0, Snapshot(), src, dst, TableAt(i3, i2, i1) * 512 + i0 + 1, fails)
      ensures CloneBudget(at0, free, s, Snapshot(), src, dst, TableAt(i3, i2, i1) * 512 + i0 + 1, fails)
    {
      hide ShapeOk, Inv, PosOk, Prefix, Abs, LeafHeld, Cloning, CloneBudget, StillHeld, Grown, Exhausted, Clear, Missing, Path, Recompose, TableAt, HintedScan, FirstFree, HintOk, BitOn, Pmm.Valid, Pmm.Bits, Pmm.Test;
      ghost var w := Snapshot();
      ghost var v := TableAt(i3, i2, i1) * 512 + i0;
      var vaddr := Recompose(i3, i2, i1, i0);
      RecomposedPage(src, i3, i2, i1, i0);
      CloneParts(s, at0, w, src, dst, v, fails0);
      ReadLeaf(w, src, v);
      var e := mem[pt].entries[i0];
      fails := fails0;
      if e.Empty? {
        CloneNothing(s, at0, w, src, dst, v, fails0);
        BudgetSkip(at0, free, s, w, src, dst, v, v + 1, fails0);
        return;
      }
      CountKeepsShapeAndMeaning(w, src, dst, v, true);
      RewriteSame(w, src, v);
      var p := e.pte;
      if p.writable && !p.shared && !p.nopmm {
        p := p.(writable := false, cow := true);
        mem := mem[pt := Table(mem[pt].entries[i0 := Present(p)])];
      }
      if !p.nopmm {
        pmm.RefInc(p.frame);
      }
      ghost var y := Snapshot();
      assert y == AfterCount(w, src, v);
      BudgetFrame(at0, free, s, w, y, src, dst, v, fails0);
      var ok := MapPage(dst, vaddr, p);
      CloneStep(s, at0, w, y, Snapshot(), src, dst, v, fails0, ok);
      BudgetStep(at0, free, s, y, Snapshot(), src, dst, v, fails0, ok);
      if !ok { fails := fails0 + {v}; }
    }

    /** The innermost fork loop, over one page table. */
    method ClonePageTable(src: Frame, dst: Frame, pt: Frame, i3: nat, i2: nat, i1: nat,
                          ghost s: CopyOnWrite.State, ghost at0: Tree, ghost free: nat, ghost fails0: set<VPage>)
      returns (ghost fails: set<VPage>)
      requires Shape() && i3 < 256 && i2 < 512 && i1 < 512 && Root(dst) in at
      requires Pos(src, 0, TableAt(i3, i2, i1)) in at && at[Pos(src, 0, TableAt(i3, i2, i1))] == pt
      requires Cloning(s, at0, Snapshot(), src, dst, TableAt(i3, i2, i1) * 512, fails0)
      requires CloneBudget(at0, free, s, Snapshot(), src, dst, TableAt(i3, i2, i1) * 512, fails0)
      modifies this, pmm, pmm.bitmap, pmm.refcounts
      ensures Shape() && Extends(old(at), at, dst)
      ensures Cloning(s, at0, Snapshot(), src, dst, (TableAt(i3, i2, i1) + 1) * 512, fails)
      ensures CloneBudget(at0, free, s, Snapshot(), src, dst, (TableAt(i3, i2, i1) + 1) * 512, fails)
    {
      hide ShapeOk, Cloning, CloneBudget, NewTables, TableAt, HintedScan, FirstFree, HintOk, BitOn, Pmm.Valid, Pmm.Bits, Pmm.Test;
      fails := fails0;
      ghost var at1, q := at, TableAt(i3, i2, i1);
      for i0 := 0 to 512
        invariant Shape() && Extends(at1, at, dst)
        invariant Cloning(s, at0, Snapshot(), src, dst, q * 512 + i0, fails)
        invariant CloneBudget(at0, free, s, Snapshot(), src, dst, q * 512 + i0, fails)
      {
        ghost var at2 := at;
        fails := ShareEntry(src, dst, pt, i3, i2, i1, i0, s, at0, free, fails);
        ExtendsTrans(at1, at2, at, dst);
      }
    }

    /** The three outer fork loops: the same loop over a PML4, PDPT or PD.  idx holds the
        indices of the loops around it. */
    method CloneDirectory(level: nat, src: Frame, dst: Frame, table: Frame, idx: seq<nat>, ghost p: Pos,
                          ghost s: CopyOnWrite.State, ghost at0: Tree, ghost free: nat, ghost fails0: set<VPage>)
      returns (ghost fails: set<VPage>)
      requires Shape() && 0 < level <= 3 && Indices(idx, 3 - level) && p == Pos(src, level, PrefixOf(idx)) && p.prefix < TablesAt(level)
      requires p in at && at[p] == table && Root(dst) in at
      requires Cloning(s, at0, Snapshot(), src, dst, PageAt(level, p.prefix), fails0)
      requires CloneBudget(at0, free, s, Snapshot(), src, dst, PageAt(level, p.prefix), fails0)
      modifies this, pmm, pmm.bitmap, pmm.refcounts
      ensures Shape() && Extends(old(at), at, dst)
      ensures Cloning(s, at0, Snapshot(), src, dst, PageAt(level - 1, p.prefix * 512 + Slots(level)), fails)
      ensures CloneBudget(at0, free, s, Snapshot(), src, dst, PageAt(level - 1, p.prefix * 512 + Slots(level)), fails)
      decreases level
    {
      hide ShapeOk, Cloning, CloneBudget, NewTables, PageAt, PosOk, TablesAt, TableAt, PrefixOf, Indices, HintedScan, FirstFree, HintOk, BitOn, Pmm.Valid, Pmm.Bits, Pmm.Test;
      fails := fails0;
      ghost var at1 := at;
      ChildAt(level, p.prefix);
      for i := 0 to Slots(level)
        invariant Shape() && Extends(at1, at, dst)
        invariant Cloning(s, at0, Snapshot(), src, dst, PageAt(level - 1, p.prefix * 512 + i), fails)
        invariant CloneBudget(at0, free, s, Snapshot(), src, dst, PageAt(level - 1, p.prefix * 512 + i), fails)
      {
        ghost var at2, c := at, p.prefix * 512 + i;
        ReadSlot(Snapshot(), p, i);
        ChildBounds(p, i);
        IndicesGrow(idx, level, i);
        var e := mem[table].entries[i];
        if e.Present? {
          if level == 1 {
            PageTableAt(c);
            fails := ClonePageTable(src, dst, e.pte.frame, idx[0], idx[1], i, s, at0, free, fails);
          } else {
            fails := CloneDirectory(level - 1, src, dst, e.pte.frame, idx + [i], Child(p, i), s, at0, free, fails);
            ChildAt(level - 1, c);
          }
        } else {
          BudgetJumps(s, at0, free, Snapshot(), src, dst, level - 1, c, fails);
          CloneJumps(s, at0, Snapshot(), src, dst, level - 1, c, fails);
        }
        ExtendsTrans(at1, at2, at, dst);
      }
    }

    /** Fork: `fails` are the pages whose table pages could not be allocated, which the
        number of free frames decides.  None fails exactly when there was a frame for the
        PML4 and one for each table above a page. */
    method CloneUserPagetable(src: Frame) returns (dst: Option<Frame>, ghost fails: set<VPage>)
      requires Shape() && Inv(State()) && Root(src) in at && RoomToClone(State(), src)
      modifies this, pmm, pmm.bitmap, pmm.refcounts
      ensures Shape() && Inv(State())
      ensures dst.None? <==> old(Frames()) == 0
      ensures dst.None? ==> State() == old(State()) && at == old(at) && Exhausted(State())
      ensures dst.Some? ==> Forkable(old(State()), src, dst.value) && Extends(old(at), at, dst.value)
      ensures dst.Some? ==> Root(dst.value) in at
      ensures dst.Some? ==> Grown(Clone(old(State()), src, dst.value, fails), State(), NewTables(old(at), at))
      ensures fails != {} ==> Exhausted(State())
      ensures forall u | u in fails :: (src, u) in old(State()).leaves
      ensures dst.Some? ==> fails == Unserved(old(Snapshot()), src)
      ensures dst.Some? ==> (fails == {} <==> old(Frames()) >= 1 + |AboveLeaves(old(Snapshot()), src)|)
      ensures fails == {} && dst.Some? ==> Frames() == old(Frames()) - 1 - |AboveLeaves(old(Snapshot()), src)|
    {
      hide ShapeOk, Inv, Clone, Cloning, CloneBudget, Grown, NewTables, Abs, RoomToClone, Exhausted, PosOk, Forkable, Clear, AboveLeaves, Unserved, HintedScan, FirstFree, HintOk, BitOn, Pmm.Valid, Pmm.Bits, Pmm.Test;
      ghost var w := Snapshot();
      ClearNone(w.bits);
      dst := NewUserPagetable();
      fails := {};
      if dst.None? { return; }
      var f := dst.value;
      CloneBegins(w, src, f);
      ghost var y := Snapshot();
      RootFrame(w, src);
      assert at[Root(src)] == src;
      NewRootBudget(w, src, f);
      NoIndices();
      fails := CloneDirectory(3, src, f, src, [], Root(src), Abs(y), y.at, Clear(y.bits), {});
      CloneEnds(w, Snapshot(), src, f, fails);
      CloneParts(Abs(y), y.at, Snapshot(), src, f, USER_PAGES, fails);
      BudgetEnds(w, Snapshot(), src, f, fails);
    }

    /** Drops one reference of a teardown in progress. */
    method Release(f: Frame, ghost w: World, ghost done: set<Frame>)
      requires pmm.Valid() && |w.refs| == |w.bits| && Snapshot() == After(w, done)
      requires f !in done && 0 < f < |w.refs| && w.refs[f] > 0 && w.bits[f]
      modifies pmm, pmm.bitmap, pmm.refcounts
      ensures pmm.Valid() && Snapshot() == After(w, done + {f})
    {
      hide After, HintedScan, FirstFree, HintOk, BitOn, Pmm.Valid, Pmm.Bits, Pmm.Test;
      AfterSame(w, done);
      AfterOneMore(w, done, f);
      pmm.FreePage(f);
      assert Snapshot() == AfterFree(After(w, done), f);
    }

    /** The innermost teardown loop: drop the frames one page table maps. */
    method ReleasePageTable(r: Frame, pt: Frame, ghost q: nat, ghost w: World, ghost done: set<Frame>)
      requires pmm.Valid() && Ready(w, r) && |w.refs| == |w.bits| && Snapshot() == After(w, done)
      requires q < TablesAt(0) && Pos(r, 0, q) in at && at[Pos(r, 0, q)] == pt
      requires done !! Released(w, r, 0, q * 512, (q + 1) * 512)
      modifies pmm, pmm.bitmap, pmm.refcounts
      ensures pmm.Valid() && Snapshot() == After(w, done + Released(w, r, 0, q * 512, (q + 1) * 512))
    {
      hide ShapeOk, Inv, Released, After, Abs, PosOk, LeafHeld, HintedScan, FirstFree, HintOk, BitOn, Pmm.Valid, Pmm.Bits, Pmm.Test;
      ReleasedNone(w, r, 0, q * 512);
      assert done + {} == done;
      for i := 0 to 512
        invariant pmm.Valid() && Snapshot() == After(w, done + Released(w, r, 0, q * 512, q * 512 + i))
      {
        ghost var v := q * 512 + i;
        ghost var before := done + Released(w, r, 0, q * 512, v);
        AfterSame(w, before);
        ReadLeaf(w, r, v);
        ReleasedLeaf(w, r, q * 512, v, (q + 1) * 512);
        var e := mem[pt].entries[i];
        if e.Present? && !e.pte.nopmm {
          Release(e.pte.frame, w, before);
          assert before + {e.pte.frame} == done + Released(w, r, 0, q * 512, v + 1);
        } else {
          assert before == done + Released(w, r, 0, q * 512, v + 1);
        }
      }
    }

    /** The three outer teardown loops: release each child, then its table page. */
    method ReleaseDirectory(level: nat, r: Frame, table: Frame, ghost p: Pos, ghost w: World, ghost done: set<Frame>)
      requires pmm.Valid() && Ready(w, r) && |w.refs| == |w.bits| && Snapshot() == After(w, done)
      requires 0 < level <= 3 && p == Pos(r, level, p.prefix) && p.prefix < TablesAt(level) && p in at && at[p] == table
      requires done !! Released(w, r, level, p.prefix * 512 * Span(level - 1), (p.prefix * 512 + Slots(level)) * Span(level - 1))
      modifies pmm, pmm.bitmap, pmm.refcounts
      ensures pmm.Valid()
      ensures Snapshot() == After(w, done +
        Released(w, r, level, p.prefix * 512 * Span(level - 1), (p.prefix * 512 + Slots(level)) * Span(level - 1)))
      decreases level
    {
      hide ShapeOk, Inv, Released, After, Abs, PosOk, LeafHeld, Span, TablesAt, HintedScan, FirstFree, HintOk, BitOn, Pmm.Valid, Pmm.Bits, Pmm.Test;
      ghost var lo, hi := p.prefix * 512 * Span(level - 1), (p.prefix * 512 + Slots(level)) * Span(level - 1);
      ReleasedNone(w, r, level, lo);
      assert done + {} == done;
      for i := 0 to Slots(level)
        invariant pmm.Valid() && Snapshot() == After(w, done + Released(w, r, level, lo, (p.prefix * 512 + i) * Span(level - 1)))
      {
        ghost var c := p.prefix * 512 + i;
        ghost var before := done + Released(w, r, level, lo, c * Span(level - 1));
        AfterSame(w, before);
        ReadSlot(w, p, i);
        ChildBounds(p, i);
        ChildRange(level, p.prefix, i);
        var e := mem[table].entries[i];
        if e.Present? {
          ReleasedChild(w, Child(p, i), lo, hi, done);
          if level == 1 {
            PageTableSpan(c);
            ReleasePageTable(r, e.pte.frame, c, w, before);
          } else {
            ChildSpan(level - 1, c);
            ReleaseDirectory(level - 1, r, e.pte.frame, Child(p, i), w, before);
          }
          ghost var below := before + Released(w, r, level - 1, c * Span(level - 1), (c + 1) * Span(level - 1));
          Release(e.pte.frame, w, below);
        } else {
          ReleasedSkip(w, r, level - 1, c, lo);
        }
        assert (p.prefix * 512 + (i + 1)) == c + 1;
      }
    }

    /** Frees every frame of a user half and its table pages, then the PML4. */
    method DestroyUserPagetable(r: Frame)
      requires Shape() && Inv(State()) && Root(r) in at
      modifies this, pmm, pmm.bitmap, pmm.refcounts
      ensures Shape() && Inv(State()) && at == Without(old(at), r)
      ensures |old(Snapshot()).refs| == |old(Snapshot()).bits| && Snapshot() == Gone(old(Snapshot()), r)
      ensures Grown(State(), Destroy(old(State()), r), TablesOf(old(Snapshot()), r))
    {
      hide ShapeOk, Inv, Released, After, Abs, PosOk, Destroy, Grown, TablesOf, Span, HintedScan, FirstFree, HintOk, BitOn, Pmm.Valid, Pmm.Bits, Pmm.Test;
      ghost var w := Snapshot();
      SizesOk(w);
      AfterNone(w);
      RootFrame(w, r);
      RootRelease(w, r);
      WholeSpan();
      ReleaseDirectory(3, r, r, Root(r), w, {});
      ghost var all := Released(w, r, 3, 0, USER_PAGES);
      assert {} + all == all;
      Release(r, w, all);
      at := Without(at, r);
      AfterSame(w, all + {r});
      assert Snapshot() == Gone(w, r);
      GoneKeepsShape(w, r);
      GoneIsDestroy(w, r);
      DestroyLeavesInv(w, r);
    }

    /** The MMU's part of a user store: allowed only through a present, user,
        writable entry. */
    method StoreIfAllowed(root: Frame, vaddr: nat, b: byte) returns (done: bool)
      requires Shape() && Inv(State()) && Root(root) in at && vaddr / PAGE_SIZE < USER_PAGES
      modifies this
      ensures Shape() && at == old(at) && Frames() == old(Frames())
      ensures done == Stores(old(State()), (root, vaddr / PAGE_SIZE))
      ensures !done ==> State() == old(State())
      ensures done ==> State() == Poke(old(State()), old(State()).leaves[(root, vaddr / PAGE_SIZE)].frame, vaddr % PAGE_SIZE, b)
    {
      hide ShapeOk, Inv, PosOk, Prefix, Contents, Leaves, Roots, HintedScan, FirstFree, HintOk, BitOn, Pmm.Valid, Pmm.Bits, Pmm.Test;
      ghost var w := Snapshot();
      ghost var v := vaddr / PAGE_SIZE;
      var pt := FindTable(root, vaddr);
      ReadLeaf(w, root, v);
      if pt.None? { return false; }
      var e := mem[pt.value].entries[Index(vaddr, 0)];
      if e.Empty? || !e.pte.writable || !e.pte.attr.user { return false; }
      ghost var content := w.mem[e.pte.frame].bytes[vaddr % PAGE_SIZE := b];
      StoreKeepsShape(w, e.pte.frame, content);
      StoreIsStore(w, e.pte.frame, content);
      ContentsAt(w.mem, e.pte.frame);
      mem := mem[e.pte.frame := Data(mem[e.pte.frame].bytes[vaddr % PAGE_SIZE := b])];
      assert Snapshot() == w.(mem := w.mem[e.pte.frame := Data(content)]);
      return true;
    }

    /** A store by user code, with the write-fault handler behind it; false means
        the process is killed. */
    method UserStore(root: Frame, vaddr: nat, b: byte) returns (done: bool, ghost spare: Option<Frame>)
      requires Shape() && Inv(State()) && Root(root) in at && vaddr / PAGE_SIZE < USER_PAGES
      modifies this, pmm, pmm.bitmap, pmm.refcounts
      ensures Shape() && Inv(State()) && at == old(at)
      ensures (State(), done) == Write(old(State()), (root, vaddr / PAGE_SIZE), vaddr % PAGE_SIZE, b, spare)
      ensures Served(old(State()), (root, vaddr / PAGE_SIZE), spare) || old(Frames()) == 0
    {
      hide ShapeOk, Inv, Abs, Fault, Poke, NeedsCopy, Clear, HintedScan, FirstFree, HintOk, BitOn, Pmm.Valid, Pmm.Bits, Pmm.Test;
      ghost var s := State();
      done := StoreIfAllowed(root, vaddr, b);
      spare := None;
      if !done {
        var handled;
        handled, spare := HandleCowFault(root, vaddr);
        if handled {
          done := StoreIfAllowed(root, vaddr, b);
        }
      }
      WriteKeepsInv(s, (root, vaddr / PAGE_SIZE), vaddr % PAGE_SIZE, b, spare);
    }

    /** The body of the mmap, brk and ELF loops: allocate, fill and map one page.
        None: no frame; Some(false): a frame, but no table page for it. */
    method MapFilledPage(root: Frame, vaddr: nat, bytes: Bytes, writable: bool, shared: bool, attr: Attr) returns (r: Option<bool>, ghost p: Pte)
      requires Shape() && Inv(State()) && Root(root) in at && vaddr / PAGE_SIZE < USER_PAGES && |bytes| == PAGE_SIZE
      modifies this, pmm, pmm.bitmap, pmm.refcounts
      ensures Shape() && Inv(State()) && Extends(old(at), at, root)
      ensures r.None? ==> State() == old(State()) && at == old(at) && Exhausted(State())
      ensures r == Some(false) ==> Exhausted(State())
      ensures r.Some? ==> FreshOk(old(State()), (root, vaddr / PAGE_SIZE), p, bytes)
      ensures r.Some? ==> p == Pte(p.frame, writable, false, shared, false, attr)
      ensures r.Some? ==>
        Grown(MapFresh(old(State()), (root, vaddr / PAGE_SIZE), p, bytes, r.value), State(), NewTables(old(at), at))
      ensures r.None? <==> old(Frames()) == 0
      ensures r == Some(true) <==> old(Frames()) >= 1 + Missing(old(at), root, vaddr / PAGE_SIZE)
      ensures r == Some(true) ==> at.Keys == old(at).Keys + Path(root, vaddr / PAGE_SIZE)
      ensures Frames() == if r == Some(true) then old(Frames()) - 1 - Missing(old(at), root, vaddr / PAGE_SIZE) else 0
    {
      hide ShapeOk, Inv, Abs, LeafHeld, Grown, Exhausted, NewTables, StillHeld, Clear, Missing, Path, HintedScan, FirstFree, HintOk, BitOn, Pmm.Valid, Pmm.Bits, Pmm.Test;
      ghost var w := Snapshot();
      SizesOk(w);
      ClearNone(w.bits);
      p := Pte(0, writable, false, shared, false, attr);
      var a := pmm.AllocPage();
      if a.None? {
        assert Snapshot() == w;
        NoClearBit(w);
        return None, p;
      }
      var q := Pte(a.value, writable, false, shared, false, attr);
      p := q;
      ClearTaken(w.bits, q.frame);
      mem := mem[q.frame := Data(bytes)];
      ghost var x := Snapshot();
      assert x == AfterAlloc(w, q.frame, bytes);
      FreshPage(w, root, vaddr / PAGE_SIZE, q, bytes);
      var ok := MapPage(root, vaddr, q);
      FreshPageMapped(w, Snapshot(), root, vaddr / PAGE_SIZE, q, bytes, ok);
      return Some(ok), p;
    }
  }
}
