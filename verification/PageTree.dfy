/** Four-level page tables laid out in physical memory (section 4.5 of Intel SDM
    Vol. 3A), and the leaf table they stand for.

    `at` is the ghost map from a position in the tree (which address space, which
    level, which part of it) to the frame holding that table. */
module PageTree {
  import opened CopyOnWrite

  datatype Entry = Empty | Present(pte: Pte)
  datatype Page = Data(bytes: Bytes) | Table(entries: seq<Entry>)

  /** A table: level 3 is the PML4, level 0 the page table.  `prefix` is the
      virtual page number divided by the pages one such table spans. */
  datatype Pos = Pos(root: Frame, level: nat, prefix: nat)

  type Mem = seq<Page>
  type Tree = map<Pos, Frame>

  // ----- Arithmetic of the walk

  /** Pages spanned by one table of this level. */
  function Span(level: nat): nat {
    if level == 0 then 512 else if level == 1 then 262144 else if level == 2 then 134217728 else 68719476736
  }

  /** The first page below table c of a level. */
  function PageAt(level: nat, c: nat): nat { c * Span(level) }

  /** Slots of a table that belong to the user half. */
  function Slots(level: nat): nat { if level == 3 then 256 else 512 }

  function Child(p: Pos, i: nat): Pos
    requires p.level > 0
  {
    Pos(p.root, p.level - 1, p.prefix * 512 + i)
  }

  function Parent(p: Pos): Pos { Pos(p.root, p.level + 1, p.prefix / 512) }

  function Root(r: Frame): Pos { Pos(r, 3, 0) }

  /** v >> (9 * (level + 1)) */
  function Prefix(v: VPage, level: nat): nat {
    if level == 0 then v / 512
    else if level == 1 then v / 512 / 512
    else if level == 2 then v / 512 / 512 / 512
    else v / 512 / 512 / 512 / 512
  }

  /** The table of this level on the walk to page v. */
  function OnPath(r: Frame, level: nat, v: VPage): Pos { Pos(r, level, Prefix(v, level)) }

  /** (vaddr >> (12 + 9 * level)) & 0x1FF */
  function Index(vaddr: nat, level: nat): (i: nat)
    ensures i < 512
  {
    if level == 0 then vaddr / 4096 % 512 else Prefix(vaddr / 4096, level - 1) % 512
  }

  /** (i3 << 39) | (i2 << 30) | (i1 << 21) | (i0 << 12) */
  function Recompose(i3: nat, i2: nat, i1: nat, i0: nat): nat {
    (((i3 * 512 + i2) * 512 + i1) * 512 + i0) * 4096
  }

  /** The number of the page table that three indices select. */
  function TableAt(i3: nat, i2: nat, i1: nat): nat { (i3 * 512 + i2) * 512 + i1 }

  /** The indices of the loops around a table. */
  predicate Indices(idx: seq<nat>, n: nat) { |idx| == n && forall k | 0 <= k < n :: idx[k] < 512 && (k == 0 ==> idx[k] < 256) }

  /** The table they lead to. */
  function PrefixOf(idx: seq<nat>): nat {
    if |idx| == 0 then 0 else if |idx| == 1 then idx[0] else if |idx| == 2 then idx[0] * 512 + idx[1]
    else TableAt(idx[0], idx[1], idx[2])
  }

  lemma NoIndices()
    ensures Indices([], 0) && PrefixOf([]) == 0
  {
  }

  lemma IndicesGrow(idx: seq<nat>, level: nat, i: nat)
    requires 0 < level <= 3 && Indices(idx, 3 - level) && i < Slots(level)
    ensures Indices(idx + [i], 4 - level) && PrefixOf(idx + [i]) == PrefixOf(idx) * 512 + i
    ensures level == 1 ==> |idx| == 2 && idx[0] < 256 && idx[1] < 512 && TableAt(idx[0], idx[1], i) == PrefixOf(idx) * 512 + i
  {
  }

  /** Decomposing an address and recomposing it are inverse to each other. */
  lemma IndexInvertsRecompose(i3: nat, i2: nat, i1: nat, i0: nat)
    requires i3 < 512 && i2 < 512 && i1 < 512 && i0 < 512
    ensures var a := Recompose(i3, i2, i1, i0);
      Index(a, 3) == i3 && Index(a, 2) == i2 && Index(a, 1) == i1 && Index(a, 0) == i0
  {
    var v := ((i3 * 512 + i2) * 512 + i1) * 512 + i0;
    assert v / 512 == (i3 * 512 + i2) * 512 + i1;
    assert v / 512 / 512 == i3 * 512 + i2;
  }

  lemma RecomposeInvertsIndex(vaddr: nat)
    requires vaddr < 281474976710656
    ensures Recompose(Index(vaddr, 3), Index(vaddr, 2), Index(vaddr, 1), Index(vaddr, 0)) == vaddr / 4096 * 4096
  {
    var v := vaddr / 4096;
    assert v / 512 < 134217728;
    assert v / 512 / 512 / 512 < 512;
  }

  /** The loop indices of page table q find, through the recomposed address, exactly the
      page they stand for: entry i0 of q, on the walk that MapPage takes. */
  lemma RecomposedPage(r: Frame, i3: nat, i2: nat, i1: nat, i0: nat)
    requires i3 < 256 && i2 < 512 && i1 < 512 && i0 < 512
    ensures var a, v := Recompose(i3, i2, i1, i0), TableAt(i3, i2, i1) * 512 + i0;
      && a / 4096 == v < USER_PAGES && v % 512 == i0 && OnPath(r, 0, v) == Pos(r, 0, TableAt(i3, i2, i1))
      && Index(a, 3) == i3 && Index(a, 2) == i2 && Index(a, 1) == i1 && Index(a, 0) == i0
  {
    hide Index;
    IndexInvertsRecompose(i3, i2, i1, i0);
    assert TableAt(i3, i2, i1) < 256 * 512 * 512;
  }

  /** The index at each level leads from a table on the path to the next one. */
  lemma PathStep(r: Frame, vaddr: nat, level: nat)
    requires 0 < level <= 3 && vaddr / 4096 < USER_PAGES
    ensures Index(vaddr, level) < Slots(level)
    ensures Child(OnPath(r, level, vaddr / 4096), Index(vaddr, level)) == OnPath(r, level - 1, vaddr / 4096)
    ensures OnPath(r, 3, vaddr / 4096) == Root(r) && Index(vaddr, 0) == vaddr / 4096 % 512
    ensures Parent(OnPath(r, level - 1, vaddr / 4096)) == OnPath(r, level, vaddr / 4096)
  {
    var v := vaddr / 4096;
    assert v / 512 < 256 * 512 * 512;
    assert v / 512 / 512 < 256 * 512;
    assert v / 512 / 512 / 512 < 256;
  }

  // ----- Shape of the tables in memory

  /** Tables of this level in one user half. */
  function TablesAt(level: nat): nat {
    if level == 0 then 67108864 else if level == 1 then 131072 else if level == 2 then 256 else 1
  }

  /** A table is a page of 512 entries, its address space is known by its root,
      and the table above it exists. */
  ghost predicate PosOk(mem: Mem, at: Tree, p: Pos) {
    && p in at && p.level <= 3 && p.prefix < TablesAt(p.level)
    && at[p] < |mem| && mem[at[p]].Table? && |mem[at[p]].entries| == 512
    && Root(p.root) in at && at[Root(p.root)] == p.root
    && (p.level < 3 ==> Parent(p) in at)
  }

  /** An entry of an upper table is present exactly when the table below exists,
      and then points to it. */
  ghost predicate LinkOk(mem: Mem, at: Tree, p: Pos, i: nat)
    requires PosOk(mem, at, p) && p.level > 0 && i < 512
  {
    var e := mem[at[p]].entries[i];
    (e.Present? <==> Child(p, i) in at) && (e.Present? ==> e.pte.frame == at[Child(p, i)])
  }

  ghost predicate Distinct(at: Tree, p: Pos, q: Pos)
    requires p in at && q in at
  {
    at[p] == at[q] ==> p == q
  }

  /** Every address space is a tree: no table page is reached twice. */
  ghost predicate TreeOk(mem: Mem, at: Tree) {
    && (forall p {:trigger PosOk(mem, at, p)} | p in at :: PosOk(mem, at, p))
    && (forall p, i: nat {:trigger LinkOk(mem, at, p, i)} | p in at && p.level > 0 && i < Slots(p.level) ::
          PosOk(mem, at, p) && LinkOk(mem, at, p, i))
    && (forall p, q {:trigger Distinct(at, p, q)} | p in at && q in at :: Distinct(at, p, q))
  }

  // ----- The leaf table

  ghost function Leaf(mem: Mem, at: Tree, r: Frame, v: VPage): Entry {
    var p := OnPath(r, 0, v);
    if PosOk(mem, at, p) then mem[at[p]].entries[v % 512] else Empty
  }

  /** The key of slot i of a page table. */
  function SlotKey(p: Pos, i: nat): Key { (p.root, p.prefix * 512 + i) }

  ghost function Leaves(mem: Mem, at: Tree): map<Key, Pte> {
    map k: Key | k in (set p, i: nat | p in at && i < 512 :: SlotKey(p, i)) && Leaf(mem, at, k.0, k.1).Present?
      :: Leaf(mem, at, k.0, k.1).pte
  }

  lemma LeavesAt(mem: Mem, at: Tree, r: Frame, v: VPage)
    ensures (r, v) in Leaves(mem, at) <==> Leaf(mem, at, r, v).Present?
    ensures (r, v) in Leaves(mem, at) ==> Leaves(mem, at)[(r, v)] == Leaf(mem, at, r, v).pte
  {
    var p := OnPath(r, 0, v);
    if PosOk(mem, at, p) {
      assert p in at && v % 512 < 512 && SlotKey(p, v % 512) == (r, v);
    }
  }

  ghost function Roots(at: Tree): set<Frame> {
    set p | p in at && p.level == 3 :: p.root
  }

  /** Two memories with the same leaf at every page have the same leaf table. */
  lemma SameLeaves(mem: Mem, at: Tree, mem': Mem, at': Tree)
    requires forall r, v :: Leaf(mem, at, r, v) == Leaf(mem', at', r, v)
    ensures Leaves(mem, at) == Leaves(mem', at')
  {
    hide Leaf, Leaves;
    forall k: Key
      ensures k in Leaves(mem, at) <==> k in Leaves(mem', at')
      ensures k in Leaves(mem, at) ==> Leaves(mem, at)[k] == Leaves(mem', at')[k]
    {
      assert k == (k.0, k.1);
      LeavesAt(mem, at, k.0, k.1);
      LeavesAt(mem', at', k.0, k.1);
    }
  }

  /** The leaf table is determined by its leaves. */
  lemma LeavesAre(mem: Mem, at: Tree, m: map<Key, Pte>)
    requires forall r: Frame, v: VPage {:trigger Leaf(mem, at, r, v)} ::
      Leaf(mem, at, r, v) == if (r, v) in m then Present(m[(r, v)]) else Empty
    ensures Leaves(mem, at) == m
  {
    hide Leaf, Leaves;
    forall k: Key
      ensures k in Leaves(mem, at) <==> k in m
      ensures k in Leaves(mem, at) ==> Leaves(mem, at)[k] == m[k]
    {
      assert k == (k.0, k.1);
      LeavesAt(mem, at, k.0, k.1);
    }
  }

  // ----- Changing one page of memory

  function DirEntry(f: Frame): Entry {
    Present(Pte(f, true, false, false, false, Attr(true, false, false)))
  }

  function BlankTable(): Page { Table(seq(512, i => Empty)) }

  ghost predicate IsTable(at: Tree, f: Frame) {
    exists p :: p in at && at[p] == f
  }

  /** Writing a data page changes neither the tables nor the leaf table. */
  lemma WriteDataKeeps(mem: Mem, at: Tree, f: Frame, page: Page)
    requires TreeOk(mem, at) && f < |mem| && !IsTable(at, f)
    ensures TreeOk(mem[f := page], at)
    ensures Leaves(mem[f := page], at) == Leaves(mem, at)
  {
    var mem' := mem[f := page];
    forall p | p in at ensures PosOk(mem', at, p) && mem'[at[p]] == mem[at[p]] { assert PosOk(mem, at, p); }
    forall p, i: nat | p in at && p.level > 0 && i < Slots(p.level) ensures LinkOk(mem', at, p, i) {
      assert PosOk(mem, at, p) && LinkOk(mem, at, p, i);
    }
    forall p, q | p in at && q in at ensures Distinct(at, p, q) {}
    SameLeaves(mem, at, mem', at);
  }

  ghost function WithLeaf(mem: Mem, at: Tree, r: Frame, v: VPage, e: Entry): Mem
    requires PosOk(mem, at, OnPath(r, 0, v))
  {
    var f := at[OnPath(r, 0, v)];
    mem[f := Table(mem[f].entries[v % 512 := e])]
  }

  lemma SetLeafTree(mem: Mem, at: Tree, r: Frame, v: VPage, e: Entry)
    requires TreeOk(mem, at) && PosOk(mem, at, OnPath(r, 0, v))
    ensures TreeOk(WithLeaf(mem, at, r, v, e), at)
    ensures forall q | q in at && q != OnPath(r, 0, v) ::
      at[q] < |mem| && WithLeaf(mem, at, r, v, e)[at[q]] == mem[at[q]]
  {
    hide Prefix;
    var p, mem' := OnPath(r, 0, v), WithLeaf(mem, at, r, v, e);
    forall q | q in at ensures PosOk(mem', at, q) && (q != p ==> mem'[at[q]] == mem[at[q]]) {
      assert PosOk(mem, at, q) && Distinct(at, p, q);
    }
    forall q, i: nat | q in at && q.level > 0 && i < Slots(q.level) ensures LinkOk(mem', at, q, i) {
      assert PosOk(mem, at, q) && LinkOk(mem, at, q, i);
    }
  }

  lemma SetLeafAt(mem: Mem, at: Tree, r: Frame, v: VPage, e: Entry, s: Frame, w: VPage)
    requires TreeOk(mem, at) && PosOk(mem, at, OnPath(r, 0, v))
    ensures Leaf(WithLeaf(mem, at, r, v, e), at, s, w) == if (s, w) == (r, v) then e else Leaf(mem, at, s, w)
  {
    SetLeafTree(mem, at, r, v, e);
    var q := OnPath(s, 0, w);
    if q in at { assert PosOk(mem, at, q) && PosOk(WithLeaf(mem, at, r, v, e), at, q); }
    if q == OnPath(r, 0, v) && w % 512 == v % 512 { assert w == v; }
  }

  /** Rewriting one leaf entry changes exactly that leaf. */
  lemma SetLeafEntry(mem: Mem, at: Tree, r: Frame, v: VPage, e: Entry)
    requires TreeOk(mem, at) && PosOk(mem, at, OnPath(r, 0, v))
    ensures TreeOk(WithLeaf(mem, at, r, v, e), at)
    ensures Leaves(WithLeaf(mem, at, r, v, e), at) ==
      if e.Present? then Leaves(mem, at)[(r, v) := e.pte] else Leaves(mem, at) - {(r, v)}
  {
    SetLeafTree(mem, at, r, v, e);
    hide Leaf, Leaves, WithLeaf, TreeOk, PosOk;
    var mem' := WithLeaf(mem, at, r, v, e);
    var m := if e.Present? then Leaves(mem, at)[(r, v) := e.pte] else Leaves(mem, at) - {(r, v)};
    forall s: Frame, w: VPage ensures Leaf(mem', at, s, w) == if (s, w) in m then Present(m[(s, w)]) else Empty {
      SetLeafAt(mem, at, r, v, e, s, w);
      LeavesAt(mem, at, s, w);
    }
    LeavesAre(mem', at, m);
  }

  lemma FreshIsNoTable(mem: Mem, at: Tree, f: Frame)
    requires TreeOk(mem, at) && f < |mem| && mem[f].Data?
    ensures !IsTable(at, f)
  {
    forall p | p in at ensures at[p] != f { assert PosOk(mem, at, p); }
  }

  ghost function WithTable(mem: Mem, at: Tree, p: Pos, i: nat, f: Frame): Mem
    requires PosOk(mem, at, p) && i < 512 && f < |mem|
  {
    mem[f := BlankTable()][at[p] := Table(mem[at[p]].entries[i := DirEntry(f)])]
  }

  ghost predicate CanAdd(mem: Mem, at: Tree, p: Pos, i: nat, f: Frame) {
    && TreeOk(mem, at) && PosOk(mem, at, p) && p.level > 0 && i < Slots(p.level)
    && Child(p, i) !in at && f < |mem| && !IsTable(at, f)
  }

  lemma AddTablePositions(mem: Mem, at: Tree, p: Pos, i: nat, f: Frame)
    requires CanAdd(mem, at, p, i, f)
    ensures var mem', at' := WithTable(mem, at, p, i, f), at[Child(p, i) := f];
      && (forall q | q in at' :: PosOk(mem', at', q))
      && (forall q | q in at && q != p :: at[q] < |mem| && mem'[at[q]] == mem[at[q]])
  {
    var c, mem' := Child(p, i), WithTable(mem, at, p, i, f);
    var at' := at[c := f];
    assert Parent(c) == p;
    forall q | q in at'
      ensures PosOk(mem', at', q) && (q != p && q != c ==> mem'[at'[q]] == mem[at[q]])
    {
      if q != c { assert PosOk(mem, at, q) && Distinct(at, p, q); }
    }
  }

  lemma ChildrenDiffer(p: Pos, i: nat, q: Pos, j: nat)
    requires p.level > 0 && q.level > 0 && i < 512 && j < 512 && Child(p, i) == Child(q, j)
    ensures p == q && i == j
  {
  }

  lemma ParentPresent(mem: Mem, at: Tree, c: Pos, j: nat)
    requires TreeOk(mem, at) && 0 < c.level <= 3 && j < 512
    ensures Child(c, j) in at ==> c in at
  {
    assert Parent(Child(c, j)) == c;
    assert Child(c, j) in at ==> PosOk(mem, at, Child(c, j));
  }

  lemma AddTableTree(mem: Mem, at: Tree, p: Pos, i: nat, f: Frame)
    requires CanAdd(mem, at, p, i, f)
    ensures TreeOk(WithTable(mem, at, p, i, f), at[Child(p, i) := f])
  {
    AddTablePositions(mem, at, p, i, f);
    var c, mem' := Child(p, i), WithTable(mem, at, p, i, f);
    var at' := at[c := f];
    forall q, j: nat | q in at' && q.level > 0 && j < Slots(q.level) ensures LinkOk(mem', at', q, j) {
      assert PosOk(mem', at', q);
      if q == c {
        ParentPresent(mem, at, c, j);
      } else {
        assert PosOk(mem, at, q) && LinkOk(mem, at, q, j);
        if Child(q, j) == c { ChildrenDiffer(p, i, q, j); }
      }
    }
    forall q, q' | q in at' && q' in at' ensures Distinct(at', q, q') {
      if q != c && q' != c { assert Distinct(at, q, q'); }
    }
  }

  /** Hanging a blank table below slot i of table p adds no leaf. */
  lemma AddTable(mem: Mem, at: Tree, p: Pos, i: nat, f: Frame)
    requires CanAdd(mem, at, p, i, f)
    ensures TreeOk(WithTable(mem, at, p, i, f), at[Child(p, i) := f])
    ensures Leaves(WithTable(mem, at, p, i, f), at[Child(p, i) := f]) == Leaves(mem, at)
    ensures Roots(at[Child(p, i) := f]) == Roots(at)
  {
    AddTableTree(mem, at, p, i, f);
    AddTablePositions(mem, at, p, i, f);
    var mem', at' := WithTable(mem, at, p, i, f), at[Child(p, i) := f];
    forall r: Frame, v: VPage ensures Leaf(mem', at', r, v) == Leaf(mem, at, r, v) {
      var q := OnPath(r, 0, v);
      if q in at { assert PosOk(mem, at, q); }
    }
    SameLeaves(mem, at, mem', at');
  }

  /** A page of 512 entries whose user half is empty. */
  ghost predicate BlankRoot(page: Page) {
    page.Table? && |page.entries| == 512 && forall i | 0 <= i < 256 :: page.entries[i] == Empty
  }

  lemma AddRoot(mem: Mem, at: Tree, f: Frame, page: Page)
    requires TreeOk(mem, at) && f < |mem| && !IsTable(at, f) && BlankRoot(page)
    ensures Root(f) !in at
    ensures var mem', at' := mem[f := page], at[Root(f) := f];
      TreeOk(mem', at') && Leaves(mem', at') == Leaves(mem, at) && Roots(at') == Roots(at) + {f}
  {
    var c := Root(f);
    var mem', at' := mem[f := page], at[c := f];
    forall q | q in at ensures q.root != f && PosOk(mem, at, q) && mem'[at[q]] == mem[at[q]] {
      assert PosOk(mem, at, q);
    }
    forall q | q in at' ensures PosOk(mem', at', q) {}
    forall q, j: nat | q in at' && q.level > 0 && j < Slots(q.level) ensures LinkOk(mem', at', q, j) {
      if q != c { assert PosOk(mem, at, q) && LinkOk(mem, at, q, j); }
    }
    forall q, q' | q in at' && q' in at' ensures Distinct(at', q, q') {
      if q != c && q' != c { assert Distinct(at, q, q'); }
    }
    forall r: Frame, v: VPage ensures Leaf(mem', at', r, v) == Leaf(mem, at, r, v) {}
    SameLeaves(mem, at, mem', at');
  }

  /** The tables left when address space r is gone. */
  ghost function Without(at: Tree, r: Frame): Tree {
    map p | p in at && p.root != r :: at[p]
  }

  lemma RemoveRootTree(mem: Mem, at: Tree, r: Frame)
    requires TreeOk(mem, at)
    ensures TreeOk(mem, Without(at, r)) && Roots(Without(at, r)) == Roots(at) - {r}
    ensures forall s: Frame, v: VPage :: Leaf(mem, Without(at, r), s, v) == if s == r then Empty else Leaf(mem, at, s, v)
  {
    var at' := Without(at, r);
    forall p | p in at' ensures PosOk(mem, at', p) { assert PosOk(mem, at, p); }
    forall p, i: nat | p in at' && p.level > 0 && i < Slots(p.level) ensures LinkOk(mem, at', p, i) {
      assert PosOk(mem, at, p) && LinkOk(mem, at, p, i);
    }
    forall p, q | p in at' && q in at' ensures Distinct(at', p, q) { assert Distinct(at, p, q); }
    forall x ensures x in Roots(at') <==> x in Roots(at) - {r} {
      if x in Roots(at) - {r} { assert exists p :: p in at && p.level == 3 && p.root == x && p in at'; }
    }
  }

  lemma RemoveRoot(mem: Mem, at: Tree, r: Frame)
    requires TreeOk(mem, at)
    ensures TreeOk(mem, Without(at, r)) && Roots(Without(at, r)) == Roots(at) - {r}
    ensures Leaves(mem, Without(at, r)) == map k | k in Leaves(mem, at) && k.0 != r :: Leaves(mem, at)[k]
  {
    RemoveRootTree(mem, at, r);
    hide Leaf, Leaves, Without, TreeOk;
    var at', m := Without(at, r), map k | k in Leaves(mem, at) && k.0 != r :: Leaves(mem, at)[k];
    forall s: Frame, v: VPage ensures Leaf(mem, at', s, v) == if (s, v) in m then Present(m[(s, v)]) else Empty {
      LeavesAt(mem, at, s, v);
    }
    LeavesAre(mem, at', m);
  }

  /** A missing table means that nothing is mapped in the range it would span. */
  lemma MissingTable(mem: Mem, at: Tree, r: Frame, level: nat, v: VPage)
    requires TreeOk(mem, at) && level <= 3 && v < USER_PAGES && OnPath(r, level, v) !in at
    ensures (r, v) !in Leaves(mem, at)
  {
    LeavesAt(mem, at, r, v);
    hide Leaves, Prefix;
    if OnPath(r, 0, v) in at {
      PathStep(r, v * 4096, 1);
      PathStep(r, v * 4096, 2);
      PathStep(r, v * 4096, 3);
      assert PosOk(mem, at, OnPath(r, 0, v));
      assert PosOk(mem, at, OnPath(r, 1, v));
      assert PosOk(mem, at, OnPath(r, 2, v));
    }
  }
}
