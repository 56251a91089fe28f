/** How the page tables in memory, the reference counts and the allocation bitmap
    hang together, and how single updates keep it so. */
module TableShape {
  import opened Types
  import opened CopyOnWrite
  import opened PageTree

  /** Everything a page-table operation can look at. */
  datatype World = World(mem: Mem, at: Tree, refs: seq<nat>, bits: seq<bool>, device: set<Frame>, kernelHalf: seq<Entry>)

  /** The frame behind a leaf is a data page that somebody holds. */
  ghost predicate LeafHeld(w: World, p: Pte) {
    && p.frame < |w.mem| && w.mem[p.frame].Data? && |w.mem[p.frame].bytes| == PAGE_SIZE
    && if p.nopmm then p.frame in w.device
       else 1 <= p.frame < |w.refs| && w.refs[p.frame] >= 1 && p.frame !in w.device
  }

  /** A table page has exactly one reference, and a PML4 carries the kernel half. */
  ghost predicate TableHeld(w: World, p: Pos)
    requires PosOk(w.mem, w.at, p)
  {
    && 1 <= w.at[p] < |w.refs| && w.refs[w.at[p]] == 1 && w.at[p] !in w.device
    && (p.level == 3 ==> w.mem[w.at[p]].entries[256..] == w.kernelHalf)
  }

  ghost predicate BitOk(w: World, f: Frame)
    requires f < |w.refs| == |w.bits|
  {
    w.bits[f] <==> w.refs[f] > 0 || f in w.device
  }

  ghost predicate ShapeOk(w: World) {
    && TreeOk(w.mem, w.at) && 0 < |w.refs| == |w.bits| <= |w.mem| && w.bits[0] && |w.kernelHalf| == 256
    && (forall p {:trigger TableHeld(w, p)} | p in w.at :: PosOk(w.mem, w.at, p) && TableHeld(w, p))
    && (forall k {:trigger Leaves(w.mem, w.at)[k]} | k in Leaves(w.mem, w.at) :: LeafHeld(w, Leaves(w.mem, w.at)[k]))
    && (forall f: nat {:trigger BitOk(w, f)} | f < |w.refs| :: BitOk(w, f))
  }

  ghost function Contents(mem: Mem): (c: seq<Bytes>)
    ensures |c| == |mem|
  {
    seq(|mem|, f requires 0 <= f < |mem| => if mem[f].Data? then mem[f].bytes else [])
  }

  lemma ContentsAt(mem: Mem, f: Frame)
    requires f < |mem| && mem[f].Data?
    ensures Contents(mem)[f] == mem[f].bytes
  {
  }

  /** The flat state the tables stand for. */
  ghost function Abs(w: World): State {
    State(Roots(w.at), Leaves(w.mem, w.at), w.refs, Contents(w.mem), w.device)
  }

  // ----- Frames in and out of use

  lemma ClearBitIsFree(w: World, f: Frame)
    requires ShapeOk(w) && f < |w.bits| && !w.bits[f]
    ensures Free(Abs(w), f) && !IsTable(w.at, f) && w.refs[f] == 0 && f !in w.device
    ensures forall k | k in Leaves(w.mem, w.at) :: Leaves(w.mem, w.at)[k].frame != f
  {
    assert BitOk(w, f);
    forall p | p in w.at ensures w.at[p] != f { assert PosOk(w.mem, w.at, p) && TableHeld(w, p); }
    forall k | k in Leaves(w.mem, w.at) ensures Leaves(w.mem, w.at)[k].frame != f {
      assert LeafHeld(w, Leaves(w.mem, w.at)[k]);
    }
  }

  lemma FreeIsClear(w: World, f: Frame)
    requires ShapeOk(w)
    ensures Free(Abs(w), f) ==> f < |w.bits| && !w.bits[f]
  {
    if Free(Abs(w), f) { assert BitOk(w, f); }
  }

  /** Allocate a frame and fill it with data. */
  function AfterAlloc(w: World, f: Frame, content: Bytes): World
    requires f < |w.refs| == |w.bits| <= |w.mem|
  {
    w.(mem := w.mem[f := Data(content)], refs := w.refs[f := 1], bits := w.bits[f := true])
  }

  lemma AllocKeepsTables(w: World, f: Frame, content: Bytes)
    requires ShapeOk(w) && f < |w.bits| && !w.bits[f]
    ensures var w' := AfterAlloc(w, f, content);
      && TreeOk(w'.mem, w'.at) && Leaves(w'.mem, w'.at) == Leaves(w.mem, w.at)
      && forall p | p in w'.at :: PosOk(w'.mem, w'.at, p) && TableHeld(w', p)
  {
    hide Leaves, BitOk, LeafHeld;
    ClearBitIsFree(w, f);
    var w' := AfterAlloc(w, f, content);
    WriteDataKeeps(w.mem, w.at, f, Data(content));
    forall p | p in w'.at ensures PosOk(w'.mem, w'.at, p) && TableHeld(w', p) {
      assert PosOk(w'.mem, w'.at, p) && PosOk(w.mem, w.at, p) && TableHeld(w, p);
    }
  }

  lemma AllocKeepsShape(w: World, f: Frame, content: Bytes)
    requires ShapeOk(w) && f < |w.bits| && !w.bits[f] && |content| == PAGE_SIZE
    ensures ShapeOk(AfterAlloc(w, f, content))
    ensures Free(Abs(w), f) && Abs(AfterAlloc(w, f, content)) == Take(Abs(w), f, content)
  {
    hide Leaves, TreeOk, PosOk, TableHeld;
    ClearBitIsFree(w, f);
    AllocKeepsTables(w, f, content);
    var w' := AfterAlloc(w, f, content);
    forall k | k in Leaves(w'.mem, w'.at) ensures LeafHeld(w', Leaves(w'.mem, w'.at)[k]) {
      assert LeafHeld(w, Leaves(w.mem, w.at)[k]);
    }
    forall g: nat | g < |w'.refs| ensures BitOk(w', g) { assert BitOk(w, g); }
    assert Contents(w'.mem) == Contents(w.mem)[f := content];
  }

  /** Allocate a frame as a blank table below slot i of p. */
  ghost function AfterTable(w: World, p: Pos, i: nat, f: Frame): World
    requires PosOk(w.mem, w.at, p) && p.level > 0 && i < 512 && f < |w.refs| == |w.bits| <= |w.mem|
  {
    w.(mem := WithTable(w.mem, w.at, p, i, f), at := w.at[Child(p, i) := f],
       refs := w.refs[f := 1], bits := w.bits[f := true])
  }

  lemma TableKeepsTables(w: World, p: Pos, i: nat, f: Frame)
    requires ShapeOk(w) && PosOk(w.mem, w.at, p) && p.level > 0 && i < Slots(p.level) && Child(p, i) !in w.at
    requires f < |w.bits| && !w.bits[f]
    ensures forall q | q in AfterTable(w, p, i, f).at ::
      PosOk(AfterTable(w, p, i, f).mem, AfterTable(w, p, i, f).at, q) && TableHeld(AfterTable(w, p, i, f), q)
  {
    hide Leaves, BitOk, LeafHeld, IsTable;
    ClearBitIsFree(w, f);
    AddTablePositions(w.mem, w.at, p, i, f);
    var w' := AfterTable(w, p, i, f);
    forall q | q in w'.at ensures PosOk(w'.mem, w'.at, q) && TableHeld(w', q) {
      if q != Child(p, i) { assert PosOk(w.mem, w.at, q) && TableHeld(w, q); }
    }
  }

  lemma TableContents(w: World, p: Pos, i: nat, f: Frame)
    requires PosOk(w.mem, w.at, p) && p.level > 0 && i < 512 && f < |w.refs| == |w.bits| <= |w.mem|
    ensures Contents(AfterTable(w, p, i, f).mem) == Contents(w.mem)[f := []]
    ensures |AfterTable(w, p, i, f).mem| == |w.mem|
    ensures forall g | 0 <= g < |w.mem| && w.mem[g].Data? && g != f :: AfterTable(w, p, i, f).mem[g] == w.mem[g]
  {
    assert Contents(AfterTable(w, p, i, f).mem) == Contents(w.mem)[f := []];
  }

  lemma TableKeepsShape(w: World, p: Pos, i: nat, f: Frame)
    requires ShapeOk(w) && PosOk(w.mem, w.at, p) && p.level > 0 && i < Slots(p.level) && Child(p, i) !in w.at
    requires f < |w.bits| && !w.bits[f]
    ensures ShapeOk(AfterTable(w, p, i, f))
  {
    hide Leaves, TreeOk, TableHeld, Roots, IsTable, PosOk, WithTable, Contents;
    ClearBitIsFree(w, f);
    TableKeepsTables(w, p, i, f);
    AddTable(w.mem, w.at, p, i, f);
    TableContents(w, p, i, f);
    var w' := AfterTable(w, p, i, f);
    forall k | k in Leaves(w'.mem, w'.at) ensures LeafHeld(w', Leaves(w'.mem, w'.at)[k]) {
      assert LeafHeld(w, Leaves(w.mem, w.at)[k]);
    }
    forall g: nat | g < |w'.refs| ensures BitOk(w', g) { assert BitOk(w, g); }
  }

  /** To the leaf table a new table page is just a frame the kernel took. */
  lemma TableIsTake(w: World, p: Pos, i: nat, f: Frame)
    requires ShapeOk(w) && PosOk(w.mem, w.at, p) && p.level > 0 && i < Slots(p.level) && Child(p, i) !in w.at
    requires f < |w.bits| && !w.bits[f]
    ensures Free(Abs(w), f) && Abs(AfterTable(w, p, i, f)) == Take(Abs(w), f, [])
  {
    hide Leaves, TreeOk, TableHeld, Roots, IsTable, PosOk, WithTable, Contents;
    ClearBitIsFree(w, f);
    AddTable(w.mem, w.at, p, i, f);
    TableContents(w, p, i, f);
  }

  /** Allocate a frame as the PML4 of a new address space. */
  function AfterRoot(w: World, f: Frame): World
    requires f < |w.refs| == |w.bits| <= |w.mem|
  {
    w.(mem := w.mem[f := Table(seq(256, i => Empty) + w.kernelHalf)], at := w.at[Root(f) := f],
       refs := w.refs[f := 1], bits := w.bits[f := true])
  }

  lemma RootKeepsShape(w: World, f: Frame)
    requires ShapeOk(w) && f < |w.bits| && !w.bits[f]
    ensures ShapeOk(AfterRoot(w, f))
    ensures Root(f) !in w.at && Free(Abs(w), f) && f !in Abs(w).spaces
    ensures Abs(AfterRoot(w, f)) == Create(Take(Abs(w), f, []), f)
  {
    hide Leaves;
    ClearBitIsFree(w, f);
    var w' := AfterRoot(w, f);
    AddRoot(w.mem, w.at, f, w'.mem[f]);
    forall q | q in w.at ensures q.root != f { assert PosOk(w.mem, w.at, q); }
    forall q | q in w'.at ensures PosOk(w'.mem, w'.at, q) && TableHeld(w', q) {
      assert PosOk(w'.mem, w'.at, q);
      if q in w.at { assert PosOk(w.mem, w.at, q) && TableHeld(w, q); }
    }
    forall k | k in Leaves(w'.mem, w'.at) ensures LeafHeld(w', Leaves(w'.mem, w'.at)[k]) {
      assert LeafHeld(w, Leaves(w.mem, w.at)[k]);
    }
    forall g: nat | g < |w'.refs| ensures BitOk(w', g) { assert BitOk(w, g); }
    assert Contents(w'.mem) == Contents(w.mem)[f := []];
  }

  // ----- Leaf entries and counts

  ghost function AfterLeaf(w: World, r: Frame, v: VPage, e: Entry): World
    requires PosOk(w.mem, w.at, OnPath(r, 0, v))
  {
    w.(mem := WithLeaf(w.mem, w.at, r, v, e))
  }

  ghost function SetLeaf(s: State, k: Key, e: Entry): State {
    s.(leaves := if e.Present? then s.leaves[k := e.pte] else s.leaves - {k})
  }

  lemma LeafContents(w: World, r: Frame, v: VPage, e: Entry)
    requires PosOk(w.mem, w.at, OnPath(r, 0, v))
    ensures Contents(AfterLeaf(w, r, v, e).mem) == Contents(w.mem)
    ensures |AfterLeaf(w, r, v, e).mem| == |w.mem|
    ensures forall g | 0 <= g < |w.mem| && w.mem[g].Data? :: AfterLeaf(w, r, v, e).mem[g] == w.mem[g]
  {
  }

  lemma LeafKeepsTables(w: World, r: Frame, v: VPage, e: Entry)
    requires ShapeOk(w) && PosOk(w.mem, w.at, OnPath(r, 0, v))
    ensures var w' := AfterLeaf(w, r, v, e);
      TreeOk(w'.mem, w'.at) && forall q | q in w'.at :: PosOk(w'.mem, w'.at, q) && TableHeld(w', q)
  {
    hide Leaves, LeafHeld, Prefix, BitOk, WithLeaf;
    var w' := AfterLeaf(w, r, v, e);
    SetLeafTree(w.mem, w.at, r, v, e);
    forall q | q in w'.at ensures PosOk(w'.mem, w'.at, q) && TableHeld(w', q) {
      assert PosOk(w'.mem, w'.at, q) && PosOk(w.mem, w.at, q) && TableHeld(w, q);
    }
  }

  lemma LeafKeepsShape(w: World, r: Frame, v: VPage, e: Entry)
    requires ShapeOk(w) && PosOk(w.mem, w.at, OnPath(r, 0, v)) && (e.Present? ==> LeafHeld(w, e.pte))
    ensures ShapeOk(AfterLeaf(w, r, v, e))
  {
    hide Leaves, TreeOk, TableHeld, Roots, PosOk, WithLeaf, Contents, Prefix;
    var w' := AfterLeaf(w, r, v, e);
    SetLeafEntry(w.mem, w.at, r, v, e);
    LeafKeepsTables(w, r, v, e);
    LeafContents(w, r, v, e);
    forall k | k in Leaves(w'.mem, w'.at) ensures LeafHeld(w', Leaves(w'.mem, w'.at)[k]) {
      if k in Leaves(w.mem, w.at) && k != (r, v) { assert LeafHeld(w, Leaves(w.mem, w.at)[k]); }
    }
    forall g: nat | g < |w'.refs| ensures BitOk(w', g) { assert BitOk(w, g); }
  }

  lemma LeafIsSetLeaf(w: World, r: Frame, v: VPage, e: Entry)
    requires ShapeOk(w) && PosOk(w.mem, w.at, OnPath(r, 0, v))
    ensures Abs(AfterLeaf(w, r, v, e)) == SetLeaf(Abs(w), (r, v), e)
  {
    hide Leaves, TreeOk, TableHeld, Roots, PosOk, WithLeaf, Contents, Prefix;
    SetLeafEntry(w.mem, w.at, r, v, e);
    LeafContents(w, r, v, e);
  }

  /** Counts changed, memory untouched. */
  lemma CountsKeepShape(w: World, refs: seq<nat>, bits: seq<bool>)
    requires ShapeOk(w) && |refs| == |bits| == |w.refs| && bits[0]
    requires forall p | p in w.at && w.at[p] < |refs| :: refs[w.at[p]] == 1
    requires forall k | k in Leaves(w.mem, w.at) && !Leaves(w.mem, w.at)[k].nopmm && Leaves(w.mem, w.at)[k].frame < |refs| ::
      refs[Leaves(w.mem, w.at)[k].frame] >= 1
    requires forall f: nat | f < |refs| :: BitOk(w.(refs := refs, bits := bits), f)
    ensures ShapeOk(w.(refs := refs, bits := bits))
  {
    hide Leaves;
    var w' := w.(refs := refs, bits := bits);
    forall q | q in w'.at ensures PosOk(w'.mem, w'.at, q) && TableHeld(w', q) {
      assert PosOk(w.mem, w.at, q) && TableHeld(w, q);
    }
    forall k | k in Leaves(w'.mem, w'.at) ensures LeafHeld(w', Leaves(w'.mem, w'.at)[k]) {
      assert LeafHeld(w, Leaves(w.mem, w.at)[k]);
    }
  }

  lemma DataIsNoTable(w: World, f: Frame)
    requires ShapeOk(w) && f < |w.mem| && w.mem[f].Data?
    ensures forall p | p in w.at :: w.at[p] != f
  {
    forall p | p in w.at ensures w.at[p] != f { assert PosOk(w.mem, w.at, p); }
  }

  lemma TablesHeldOnce(w: World)
    requires ShapeOk(w)
    ensures forall p | p in w.at :: w.at[p] < |w.refs| && w.refs[w.at[p]] == 1
  {
    forall p | p in w.at ensures w.at[p] < |w.refs| && w.refs[w.at[p]] == 1 {
      assert PosOk(w.mem, w.at, p) && TableHeld(w, p);
    }
  }

  /** One more or one less reference on a data frame. */
  lemma CountKeepsShape(w: World, f: Frame, n: nat)
    requires ShapeOk(w) && 0 < f < |w.refs| && w.mem[f].Data? && f !in w.device
    requires n == 0 ==> forall k | k in Leaves(w.mem, w.at) :: Leaves(w.mem, w.at)[k].nopmm || Leaves(w.mem, w.at)[k].frame != f
    ensures ShapeOk(w.(refs := w.refs[f := n], bits := w.bits[f := n > 0]))
  {
    hide Leaves, TreeOk;
    DataIsNoTable(w, f);
    TablesHeldOnce(w);
    forall k | k in Leaves(w.mem, w.at) ensures LeafHeld(w, Leaves(w.mem, w.at)[k]) {}
    var w' := w.(refs := w.refs[f := n], bits := w.bits[f := n > 0]);
    forall g: nat | g < |w.refs| ensures BitOk(w', g) { assert BitOk(w, g); }
    CountsKeepShape(w, w.refs[f := n], w.bits[f := n > 0]);
  }

  lemma StoreKeepsTables(w: World, f: Frame, content: Bytes)
    requires ShapeOk(w) && f < |w.mem| && w.mem[f].Data?
    ensures var w' := w.(mem := w.mem[f := Data(content)]);
      && TreeOk(w'.mem, w'.at) && Leaves(w'.mem, w'.at) == Leaves(w.mem, w.at)
      && forall q | q in w'.at :: PosOk(w'.mem, w'.at, q) && TableHeld(w', q)
  {
    hide Leaves, LeafHeld, BitOk;
    FreshIsNoTable(w.mem, w.at, f);
    WriteDataKeeps(w.mem, w.at, f, Data(content));
    var w' := w.(mem := w.mem[f := Data(content)]);
    forall q | q in w'.at ensures PosOk(w'.mem, w'.at, q) && TableHeld(w', q) {
      assert PosOk(w'.mem, w'.at, q) && PosOk(w.mem, w.at, q) && TableHeld(w, q);
    }
  }

  /** Storing bytes in a data page. */
  lemma StoreKeepsShape(w: World, f: Frame, content: Bytes)
    requires ShapeOk(w) && f < |w.mem| && w.mem[f].Data? && |content| == PAGE_SIZE
    ensures ShapeOk(w.(mem := w.mem[f := Data(content)]))
  {
    hide Leaves, TreeOk, TableHeld, PosOk;
    StoreKeepsTables(w, f, content);
    var w' := w.(mem := w.mem[f := Data(content)]);
    forall k | k in Leaves(w'.mem, w'.at) ensures LeafHeld(w', Leaves(w'.mem, w'.at)[k]) {
      assert LeafHeld(w, Leaves(w.mem, w.at)[k]);
    }
    forall g: nat | g < |w'.refs| ensures BitOk(w', g) { assert BitOk(w, g); }
  }

  lemma StoreIsStore(w: World, f: Frame, content: Bytes)
    requires ShapeOk(w) && f < |w.mem| && w.mem[f].Data?
    ensures Abs(w.(mem := w.mem[f := Data(content)])) == Abs(w).(data := Abs(w).data[f := content])
  {
    hide Leaves, TreeOk, TableHeld, PosOk, Roots;
    StoreKeepsTables(w, f, content);
    assert Contents(w.mem[f := Data(content)]) == Contents(w.mem)[f := content];
  }
}
