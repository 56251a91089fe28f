/** How many frames an operation on page tables needs, and how many are left. */
module FrameBudget {
  import opened CopyOnWrite
  import opened PageTree
  import opened TableShape

  // ----- Frames left

  ghost function ClearBits(bits: seq<bool>): set<nat> { set f | 0 <= f < |bits| && !bits[f] }

  /** Frames the allocator can still hand out. */
  ghost function Clear(bits: seq<bool>): nat { |ClearBits(bits)| }

  lemma ClearTaken(bits: seq<bool>, f: nat)
    requires f < |bits| && !bits[f]
    ensures Clear(bits[f := true]) == Clear(bits) - 1
  {
    assert ClearBits(bits[f := true]) == ClearBits(bits) - {f};
  }

  lemma ClearNone(bits: seq<bool>)
    ensures Clear(bits) == 0 <==> forall f | 0 <= f < |bits| :: bits[f]
  {
    if f :| 0 <= f < |bits| && !bits[f] { assert f in ClearBits(bits); } else { assert ClearBits(bits) == {}; }
  }

  // ----- Tables on the way to a page

  /** The tables below the PML4 on the walk to page v. */
  ghost function Path(r: Space, v: VPage): set<Pos> { {OnPath(r, 2, v), OnPath(r, 1, v), OnPath(r, 0, v)} }

  ghost function Paths(r: Space, vs: set<VPage>): set<Pos> {
    set v, l | v in vs && l in {0, 1, 2} :: OnPath(r, l, v)
  }

  /** Table pages a mapping of page v has to allocate. */
  ghost function Missing(at: Tree, r: Space, v: VPage): nat { |Path(r, v) - at.Keys| }

  function One(b: bool): nat { if b then 1 else 0 }

  lemma MissingIs(at: Tree, r: Space, v: VPage)
    ensures Missing(at, r, v) == One(OnPath(r, 2, v) !in at) + One(OnPath(r, 1, v) !in at) + One(OnPath(r, 0, v) !in at)
  {
    hide OnPath;
    Levels(r, v);
    ThreeLess(OnPath(r, 2, v), OnPath(r, 1, v), OnPath(r, 0, v), at.Keys);
  }

  lemma TwoLess(a: Pos, b: Pos, k: set<Pos>)
    requires a != b
    ensures |{a, b} - k| == One(a !in k) + One(b !in k)
  {
    OneLess({a}, b, k);
    assert {a} + {b} == {a, b};
    assert {a} - k == if a in k then {} else {a};
  }

  lemma ThreeLess(a: Pos, b: Pos, c: Pos, k: set<Pos>)
    requires a != b && b != c && a != c
    ensures |{a, b, c} - k| == One(a !in k) + One(b !in k) + One(c !in k)
  {
    TwoLess(a, b, k);
    OneLess({a, b}, c, k);
    assert {a, b} + {c} == {a, b, c};
  }

  lemma Levels(r: Space, v: VPage)
    ensures OnPath(r, 2, v) != OnPath(r, 1, v) && OnPath(r, 1, v) != OnPath(r, 0, v) && OnPath(r, 2, v) != OnPath(r, 0, v)
  {
  }

  lemma OneLess(s: set<Pos>, a: Pos, k: set<Pos>)
    requires a !in s
    ensures |(s + {a}) - k| == |s - k| + One(a !in k)
  {
    assert (s + {a}) - k == if a in k then s - k else (s - k) + {a};
  }

  lemma PathsAdd(r: Space, vs: set<VPage>, v: VPage)
    ensures Paths(r, vs + {v}) == Paths(r, vs) + Path(r, v)
  {
    forall p | p in Path(r, v) ensures p in Paths(r, vs + {v}) {
      var l :| l in {0, 1, 2} && p == OnPath(r, l, v);
      assert v in vs + {v};
    }
    forall p | p in Paths(r, vs) ensures p in Paths(r, vs + {v}) {
      var u, l :| u in vs && l in {0, 1, 2} && p == OnPath(r, l, u);
      assert u in vs + {v};
    }
    forall p | p in Paths(r, vs + {v}) ensures p in Paths(r, vs) + Path(r, v) {
      var u, l :| u in vs + {v} && l in {0, 1, 2} && p == OnPath(r, l, u);
    }
  }

  // ----- Mapping new pages one after the other

  ghost function Elems(vs: seq<VPage>): set<VPage> { set v | v in vs }

  /** Frames for new pages vs and for every table on their walks that is not there yet. */
  ghost function Need(at: Tree, r: Space, vs: seq<VPage>): nat { |vs| + |Paths(r, Elems(vs)) - at.Keys| }

  lemma NeedNone(at: Tree, r: Space)
    ensures Need(at, r, []) == 0 && Paths(r, Elems([])) == {}
  {
    assert Elems([]) == {};
    assert Paths(r, {}) == {};
  }

  /** b has the tables of a and those on the walks to vs: one more page needs itself and
      what b still misses on its walk. */
  lemma NeedOneMore(a: Tree, b: Tree, r: Space, vs: seq<VPage>, v: VPage)
    requires b.Keys == a.Keys + Paths(r, Elems(vs))
    ensures Need(a, r, vs + [v]) == Need(a, r, vs) + 1 + Missing(b, r, v)
    ensures a.Keys + Paths(r, Elems(vs + [v])) == b.Keys + Path(r, v)
  {
    hide OnPath, Path, Paths;
    assert Elems(vs + [v]) == Elems(vs) + {v};
    PathsAdd(r, Elems(vs), v);
    MoreTables(a.Keys, b.Keys, Paths(r, Elems(vs)), Path(r, v));
  }

  lemma MoreTables(k: set<Pos>, b: set<Pos>, x: set<Pos>, y: set<Pos>)
    requires b == k + x
    ensures |(x + y) - k| == |x - k| + |y - b| && k + (x + y) == b + y
  {
    SplitCount(x, y, k);
  }

  lemma SplitCount(x: set<Pos>, y: set<Pos>, k: set<Pos>)
    ensures |(x + y) - k| == |x - k| + |y - (k + x)|
  {
    assert (x + y) - k == (x - k) + (y - (k + x));
    assert (x - k) !! (y - (k + x));
  }

  lemma NeedGrows(a: Tree, r: Space, vs: seq<VPage>, ws: seq<VPage>)
    requires vs <= ws
    ensures Need(a, r, vs) + (|ws| - |vs|) <= Need(a, r, ws)
  {
    var x, y := Paths(r, Elems(vs)) - a.Keys, Paths(r, Elems(ws)) - a.Keys;
    assert forall v | v in vs :: v in ws;
    assert x <= y;
    assert |y - x| == |y| - |x|;
  }

  /** Whether new pages vs fit into the free frames: whole; all but the last, whose own
      frame is there but whose tables are not; or not even that. */
  datatype Fit = Whole | LastMissing | Short

  ghost function FitOf(at: Tree, free: nat, r: Space, vs: seq<VPage>): Fit {
    if free >= Need(at, r, vs) then Whole
    else if vs != [] && free >= Need(at, r, vs[..|vs| - 1]) + 1 then LastMissing else Short
  }

  /** How mapping vs one after the other stands: all of them mapped, or the last one left
      without its tables and no frame remaining. */
  ghost predicate Progress(at0: Tree, free: nat, at: Tree, left: nat, r: Space, vs: seq<VPage>, lost: bool) {
    if !lost
    then at.Keys == at0.Keys + Paths(r, Elems(vs)) && left + Need(at0, r, vs) == free
    else vs != [] && left == 0 && Need(at0, r, vs[..|vs| - 1]) + 1 <= free < Need(at0, r, vs)
  }

  lemma ProgressStarts(at0: Tree, free: nat, r: Space)
    ensures Progress(at0, free, at0, free, r, [], false)
  {
    NeedNone(at0, r);
  }

  lemma ProgressStep(at0: Tree, free: nat, at: Tree, left: nat, at': Tree, left': nat, r: Space, vs: seq<VPage>, v: VPage, ok: bool)
    requires Progress(at0, free, at, left, r, vs, false) && left > 0
    requires ok <==> left >= 1 + Missing(at, r, v)
    requires ok ==> at'.Keys == at.Keys + Path(r, v)
    requires left' == if ok then left - 1 - Missing(at, r, v) else 0
    ensures Progress(at0, free, at', left', r, vs + [v], !ok)
  {
    hide Need, Missing, Path, Paths;
    NeedOneMore(at0, at, r, vs, v);
    assert (vs + [v])[..|vs|] == vs;
  }

  /** With no frame left before the last page, even all but the last did not fit. */
  lemma ProgressStops(at0: Tree, free: nat, at: Tree, left: nat, r: Space, vs: seq<VPage>, lost: bool, ws: seq<VPage>)
    requires Progress(at0, free, at, left, r, vs, lost) && vs < ws
    ensures left == 0 ==> FitOf(at0, free, r, ws) == Short
    ensures left > 0 ==> !lost
  {
    hide Need;
    var ls := ws[..|ws| - 1];
    assert vs <= ls <= ws;
    NeedGrows(at0, r, vs, ls);
    NeedGrows(at0, r, ls, ws);
  }

  lemma ProgressEnds(at0: Tree, free: nat, at: Tree, left: nat, r: Space, vs: seq<VPage>, lost: bool)
    requires Progress(at0, free, at, left, r, vs, lost)
    ensures FitOf(at0, free, r, vs) == if lost then LastMissing else Whole
    ensures left == if lost then 0 else free - Need(at0, r, vs)
  {
  }

  // ----- Cloning an address space

  /** Pages of an address space below page cut. */
  ghost function PagesBelow(s: State, r: Space, cut: nat): set<VPage> { set k | k in s.leaves && k.0 == r && k.1 < cut :: k.1 }

  /** The tables of an address space, below its PML4, that lie above a present page. */
  ghost function AboveLeaves(w: World, r: Space): set<Pos> {
    Paths(r, PagesBelow(Abs(w), r, USER_PAGES))
  }

  /** The same tables under another root are as many. */
  lemma {:induction false} SamePaths(r: Space, q: Space, vs: set<VPage>)
    ensures |Paths(r, vs)| == |Paths(q, vs)|
  {
    MovedPaths(r, q, vs);
    MovedPaths(q, r, vs);
    SameCount(Paths(r, vs), Paths(q, vs), q);
    SameCount(Paths(q, vs), Paths(r, vs), r);
  }

  lemma MovedPaths(r: Space, q: Space, vs: set<VPage>)
    ensures forall p | p in Paths(r, vs) :: p.root == r && Moved(p, q) in Paths(q, vs)
  {
    forall p | p in Paths(r, vs) ensures p.root == r && Moved(p, q) in Paths(q, vs) {
      var v, l :| v in vs && l in {0, 1, 2} && p == OnPath(r, l, v);
      assert Moved(p, q) == OnPath(q, l, v);
    }
  }

  ghost function Moved(p: Pos, q: Space): Pos { Pos(q, p.level, p.prefix) }

  lemma {:induction false} SameCount(a: set<Pos>, b: set<Pos>, q: Space)
    requires (forall p | p in a :: Moved(p, q) in b) && (forall p, o | p in a && o in a :: p.root == o.root)
    ensures |a| <= |b|
  {
    if a != {} {
      var p :| p in a;
      forall o | o in a - {p} ensures Moved(o, q) in b - {Moved(p, q)} {}
      SameCount(a - {p}, b - {Moved(p, q)}, q);
    }
  }

  /** No table of address space r but its PML4. */
  ghost predicate Bare(at: Tree, r: Space) { forall p | p in at && p.root == r :: p.level == 3 }

  /** Pages of src below v whose tables, with those of the pages before them, are too many. */
  ghost function Unfit(s: State, src: Space, dst: Space, free: nat, v: nat): set<VPage> {
    set u | u in PagesBelow(s, src, v) && free < |Paths(dst, PagesBelow(s, src, u + 1))|
  }

  /** The pages a fork of src cannot map: the free frames, one of them for the PML4, run
      out before their tables are made. */
  ghost function Unserved(w: World, src: Space): set<VPage> {
    set u | u in PagesBelow(Abs(w), src, USER_PAGES) && Clear(w.bits) < 1 + |Paths(src, PagesBelow(Abs(w), src, u + 1))|
  }

  /** No page table was added. */
  ghost predicate NoLeafTables(a: Tree, b: Tree) { forall p | p in b && p !in a :: p.level > 0 }

  /** Every page table of r comes before the pages in us. */
  ghost predicate TablesBefore(at: Tree, r: Space, us: set<VPage>) {
    forall p, u | p in at && p.root == r && p.level == 0 && u in us :: p.prefix < u / 512
  }

  /** How a clone that began with tables at0 and `free` frames stands when every page of
      src below v is done: while nothing failed it has exactly the tables it needs, and
      once a page failed no later one fits. */
  ghost predicate CloneBudget(at0: Tree, free: nat, s: State, x: World, src: Space, dst: Space, v: nat, fails: set<VPage>) {
    var need := Paths(dst, PagesBelow(s, src, v));
    && Bare(at0, dst) && fails == Unfit(s, src, dst, free, v)
    && if fails == {} then x.at.Keys == at0.Keys + need && Clear(x.bits) + |need| == free
       else free < |need| && Clear(x.bits) == 0 && TablesBefore(x.at, dst, fails)
  }

  lemma BareApart(at: Tree, r: Space, vs: set<VPage>)
    requires Bare(at, r)
    ensures at.Keys !! Paths(r, vs)
  {
    forall p | p in Paths(r, vs) ensures p !in at {
      var v, l :| v in vs && l in {0, 1, 2} && p == OnPath(r, l, v);
    }
  }

  lemma BudgetStarts(at: Tree, s: State, x: World, src: Space, dst: Space)
    requires Bare(at, dst) && x.at == at
    ensures CloneBudget(at, Clear(x.bits), s, x, src, dst, 0, {})
  {
    assert PagesBelow(s, src, 0) == {};
    assert Paths(dst, {}) == {};
    assert Unfit(s, src, dst, Clear(x.bits), 0) == {};
  }

  lemma UnfitAdd(s: State, src: Space, dst: Space, free: nat, v: VPage)
    requires (src, v) in s.leaves
    ensures Unfit(s, src, dst, free, v + 1) == Unfit(s, src, dst, free, v) + if free < |Paths(dst, PagesBelow(s, src, v + 1))| then {v} else {}
    ensures forall u | u in Unfit(s, src, dst, free, v) :: u < v
  {
    PagesAdd(s, src, v);
  }

  /** A page needs no table when another page of the same page table is served. */
  lemma SameTable(at: Tree, r: Space, vs: set<VPage>, u: VPage, v: VPage)
    requires u in vs && u / 512 == v / 512 && Paths(r, vs) <= at.Keys
    ensures Missing(at, r, v) == 0
  {
    assert OnPath(r, 0, v) == OnPath(r, 0, u) && OnPath(r, 1, v) == OnPath(r, 1, u) && OnPath(r, 2, v) == OnPath(r, 2, u);
    assert Path(r, v) <= Paths(r, vs);
    assert Path(r, v) - at.Keys == {};
  }

  /** When a page does not fit although everything before it did, no page table from its
      own on is there. */
  lemma FirstFailure(at0: Tree, at: Tree, at': Tree, s: State, src: Space, dst: Space, v: VPage)
    requires Bare(at0, dst) && at.Keys == at0.Keys + Paths(dst, PagesBelow(s, src, v)) && Missing(at, dst, v) > 0 && NoLeafTables(at, at')
    ensures TablesBefore(at', dst, {v})
  {
    forall p | p in at' && p.root == dst && p.level == 0 ensures p.prefix < v / 512 {
      assert p in at && p in Paths(dst, PagesBelow(s, src, v));
      var u, l :| u in PagesBelow(s, src, v) && l in {0, 1, 2} && p == OnPath(dst, l, u);
      assert u < v && p.prefix == u / 512;
      if u / 512 == v / 512 { SameTable(at, dst, PagesBelow(s, src, v), u, v); }
    }
  }

  /** After a failure no later page finds its page table. */
  lemma LaterFailure(at: Tree, at': Tree, dst: Space, us: set<VPage>, v: VPage)
    requires TablesBefore(at, dst, us) && us != {} && (forall u | u in us :: u < v) && NoLeafTables(at, at')
    ensures Missing(at, dst, v) > 0 && TablesBefore(at', dst, us + {v})
  {
    var u :| u in us;
    var p := OnPath(dst, 0, v);
    if p in at { assert false; }
    assert p in Path(dst, v) - at.Keys;
    forall q, x | q in at' && q.root == dst && q.level == 0 && x in us + {v} ensures q.prefix < x / 512 {
      assert q in at && q.prefix < u / 512;
    }
  }

  lemma PagesAdd(s: State, src: Space, v: VPage)
    ensures PagesBelow(s, src, v + 1) == PagesBelow(s, src, v) + if (src, v) in s.leaves then {v} else {}
  {
    var a, b := PagesBelow(s, src, v), PagesBelow(s, src, v + 1);
    forall u | u in b ensures u in a || (u == v && (src, v) in s.leaves) {
      var k :| k in s.leaves && k.0 == src && k.1 < v + 1 && k.1 == u;
      assert k == (src, u);
    }
    if (src, v) in s.leaves { assert (src, v).0 == src && (src, v).1 == v; }
  }

  lemma PagesSkip(s: State, src: Space, a: nat, b: nat)
    requires a <= b && forall v: VPage | a <= v < b :: (src, v) !in s.leaves
    ensures PagesBelow(s, src, a) == PagesBelow(s, src, b)
  {
    forall k: Key | k in s.leaves && k.0 == src ensures k.1 < b <==> k.1 < a { assert k == (src, k.1); }
  }

  /** One more page of the clone that fits. */
  lemma BudgetFits(at0: Tree, free: nat, s: State, w: World, x: World, src: Space, dst: Space, v: VPage)
    requires CloneBudget(at0, free, s, w, src, dst, v, {}) && (src, v) in s.leaves && Clear(w.bits) >= Missing(w.at, dst, v)
    requires x.at.Keys == w.at.Keys + Path(dst, v) && Clear(x.bits) == Clear(w.bits) - Missing(w.at, dst, v)
    ensures CloneBudget(at0, free, s, x, src, dst, v + 1, {})
  {
    hide Clear, Paths, Path, OnPath, Bare, PagesBelow, Unfit, TablesBefore;
    UnfitAdd(s, src, dst, free, v);
    PagesAdd(s, src, v);
    PathsAdd(dst, PagesBelow(s, src, v), v);
    BareApart(at0, dst, PagesBelow(s, src, v) + {v});
    AddApart(at0.Keys, Paths(dst, PagesBelow(s, src, v)), Path(dst, v));
  }

  /** One more page that does not fit. */
  lemma BudgetFails(at0: Tree, free: nat, s: State, w: World, x: World, src: Space, dst: Space, v: VPage, fails: set<VPage>)
    requires CloneBudget(at0, free, s, w, src, dst, v, fails) && (src, v) in s.leaves && Clear(w.bits) < Missing(w.at, dst, v)
    requires NoLeafTables(w.at, x.at) && Clear(x.bits) == 0
    ensures CloneBudget(at0, free, s, x, src, dst, v + 1, fails + {v})
  {
    hide Clear, Paths, Path, OnPath, Bare, PagesBelow, Unfit, TablesBefore, NoLeafTables;
    UnfitAdd(s, src, dst, free, v);
    PagesAdd(s, src, v);
    PathsAdd(dst, PagesBelow(s, src, v), v);
    BareApart(at0, dst, PagesBelow(s, src, v) + {v});
    AddApart(at0.Keys, Paths(dst, PagesBelow(s, src, v)), Path(dst, v));
    if fails != {} {
      LaterFailure(w.at, x.at, dst, fails, v);
    } else {
      FirstFailure(at0, w.at, x.at, s, src, dst, v);
      assert fails + {v} == {v};
    }
  }

  /** Mapping one more page of the clone. */
  lemma BudgetStep(at0: Tree, free: nat, s: State, w: World, x: World, src: Space, dst: Space, v: VPage, fails: set<VPage>, ok: bool)
    requires CloneBudget(at0, free, s, w, src, dst, v, fails) && (src, v) in s.leaves
    requires ok <==> Clear(w.bits) >= Missing(w.at, dst, v)
    requires ok ==> x.at.Keys == w.at.Keys + Path(dst, v) && Clear(x.bits) == Clear(w.bits) - Missing(w.at, dst, v)
    requires !ok ==> NoLeafTables(w.at, x.at) && Clear(x.bits) == 0
    ensures CloneBudget(at0, free, s, x, src, dst, v + 1, if ok then fails else fails + {v})
  {
    hide Clear, Path, Missing, Bare, NoLeafTables, CloneBudget;
    if !ok {
      BudgetFails(at0, free, s, w, x, src, dst, v, fails);
    } else {
      NoneLater(at0, free, s, w, src, dst, v, fails);
      BudgetFits(at0, free, s, w, x, src, dst, v);
    }
  }

  /** A page that fits comes after none that did not. */
  lemma NoneLater(at0: Tree, free: nat, s: State, w: World, src: Space, dst: Space, v: VPage, fails: set<VPage>)
    requires CloneBudget(at0, free, s, w, src, dst, v, fails) && Clear(w.bits) >= Missing(w.at, dst, v)
    ensures fails == {}
  {
    hide Clear, Paths, Path, OnPath, Bare, TablesBefore, NoLeafTables;
    if fails != {} {
      NoLeafSelf(w.at);
      LaterFailure(w.at, w.at, dst, fails, v);
    }
  }

  lemma NoLeafSelf(at: Tree)
    ensures NoLeafTables(at, at)
  {
  }

  lemma AddApart(k: set<Pos>, a: set<Pos>, b: set<Pos>)
    requires k !! (a + b)
    ensures |a + b| == |a| + |b - (k + a)| && k + (a + b) == (k + a) + b && |a + b| >= |a|
  {
    SplitCount(a, b, {});
    assert a - {} == a && (a + b) - {} == a + b && b - ({} + a) == b - (k + a);
  }

  lemma BudgetSkip(at0: Tree, free: nat, s: State, x: World, src: Space, dst: Space, a: nat, b: nat, fails: set<VPage>)
    requires CloneBudget(at0, free, s, x, src, dst, a, fails) && a <= b && forall v: VPage | a <= v < b :: (src, v) !in s.leaves
    ensures CloneBudget(at0, free, s, x, src, dst, b, fails)
  {
    PagesSkip(s, src, a, b);
    assert Unfit(s, src, dst, free, a) == Unfit(s, src, dst, free, b);
  }

  /** The reference count of frames does not matter, nor does what the tables hold. */
  lemma BudgetFrame(at0: Tree, free: nat, s: State, w: World, x: World, src: Space, dst: Space, v: nat, fails: set<VPage>)
    requires CloneBudget(at0, free, s, w, src, dst, v, fails) && x.at == w.at && x.bits == w.bits
    ensures CloneBudget(at0, free, s, x, src, dst, v, fails)
  {
  }
}
