/** Runs of calls on four-level tables in memory.  What a call does when memory is short
    follows from the number of free frames before it. */
module TableRuns {
  import opened Types
  import opened CopyOnWrite
  import opened ForkAndDestroy
  import opened ForkRefinement
  import opened ForkRuns
  import opened FrameLedger
  import opened PageTree
  import opened TableShape
  import opened Growth
  import opened FrameBudget
  import opened TableSteps
  import opened TableFork
  import opened TableTeardown
  import opened TableRefinement
  import opened PageAllocator
  import opened PageTables
  import EagerFork

  datatype Call =
    | SysCreate
    | SysMap(r: Space, v: VPage, content: Bytes, writable: bool, shared: bool, attr: Attr)
    | SysUnmap(r: Space, v: VPage)
    | SysFork(src: Space)
    | SysStore(r: Space, v: VPage, off: nat, b: byte)
    | SysDestroy(r: Space)

  /** The frame a call got from the allocator: a PML4, a page, or the copy of a page. */
  type Answer = Option<Frame>

  ghost predicate WorldOk(w: World) { ShapeOk(w) && Inv(Abs(w)) && |w.refs| == |w.bits| <= |w.mem| }

  /** What callers see to. */
  ghost predicate Callable(w: World, c: Call) {
    match c
    case SysCreate => true
    case SysMap(r, v, content, _, _, _) => Root(r) in w.at && v < USER_PAGES && |content| == PAGE_SIZE
    case SysUnmap(r, v) => Root(r) in w.at && v < USER_PAGES
    case SysFork(src) => Root(src) in w.at && RoomToClone(Abs(w), src)
    case SysStore(r, v, off, _) => Root(r) in w.at && v < USER_PAGES && off < PAGE_SIZE
    case SysDestroy(r) => Root(r) in w.at
  }

  /** Is there enough memory for the whole call? */
  ghost predicate Fits(w: World, c: Call) {
    match c
    case SysCreate => Clear(w.bits) >= 1
    case SysMap(r, v, _, _, _, _) => Clear(w.bits) >= 1 + Missing(w.at, r, v)
    case SysFork(src) => Clear(w.bits) >= 1 + |AboveLeaves(w, src)|
    case SysStore(r, v, _, _) => !Stores(Abs(w), (r, v)) && NeedsCopy(Abs(w), (r, v)) ==> Clear(w.bits) >= 1
    case _ => true
  }

  /** The call as an event of the flat machine; None if it did nothing. */
  ghost function EventOf(w: World, c: Call, a: Answer): Option<Event> {
    match c
    case SysCreate => if a.None? then None else Some(NewSpace(a.value))
    case SysMap(r, v, content, writable, shared, attr) =>
      if a.None? then None
      else Some(MapPage((r, v), Pte(a.value, writable, false, shared, false, attr), content, Fits(w, c)))
    case SysUnmap(r, v) => Some(UnmapPage((r, v)))
    case SysFork(src) => if a.None? then None else Some(ForkSpace(src, a.value, Unserved(w, src)))
    case SysStore(r, v, off, b) => Some(UserWrite((r, v), off, b, a))
    case SysDestroy(r) => Some(DestroySpace(r))
  }

  /** A call takes w to x. */
  ghost predicate Does(w: World, c: Call, a: Answer, x: World) {
    && WorldOk(w) && Callable(w, c) && WorldOk(x)
    && (c.SysCreate? || c.SysMap? || c.SysFork? ==> (a.None? <==> Clear(w.bits) == 0))
    && (c.SysStore? ==> Served(Abs(w), (c.r, c.v), a) || Clear(w.bits) == 0)
    && var ev := EventOf(w, c, a);
       if ev.None? then Abs(x) == Abs(w) && x.at == w.at
       else if c.SysDestroy? then x == Gone(w, c.r)
       else
         && Enabled(Abs(w), ev.value) && (forall p | p in w.at :: p in x.at && x.at[p] == w.at[p])
         && Grown(ForkRuns.Step(Abs(w), ev.value).0, Abs(x), NewTables(w.at, x.at))
  }

  // ----- Runs look like eager fork

  /** One step of the reference machine; a call that did nothing is no step. */
  ghost function Reference(e: Eager, w: World, c: Call, a: Answer): (Eager, bool) {
    var ev := EventOf(w, c, a);
    if ev.None? then (e, true) else EagerStep(e, ev.value)
  }

  /** What the caller is told: was the store allowed? */
  ghost function Told(w: World, c: Call, a: Answer): bool {
    if c.SysStore? && c.off < PAGE_SIZE then Write(Abs(w), (c.r, c.v), c.off, c.b, a).1 else true
  }

  lemma DoesAgrees(w: World, c: Call, a: Answer, x: World, e: Eager)
    requires Does(w, c, a, x) && Fits(w, c) && Agree(Abs(w), e)
    ensures Agree(Abs(x), Reference(e, w, c, a).0) && Told(w, c, a) == Reference(e, w, c, a).1
  {
    hide Abs, Inv, ShapeOk, Grown, NewTables, Agree, Gone, Clear, Missing, Unserved, AboveLeaves, ForkRuns.Step, EagerStep, Enabled;
    var ev := EventOf(w, c, a);
    if ev.Some? {
      EventSucceeds(w, c, a);
      if c.SysDestroy? {
        DestroyedTablesAgree(w, c.r, e);
        EagerStepIs(e, ev.value);
      } else {
        StepAgrees(Abs(w), e, ev.value);
        StepKeepsInv(Abs(w), ev.value);
        GrownAgrees(ForkRuns.Step(Abs(w), ev.value).0, Abs(x), NewTables(w.at, x.at), EagerStep(e, ev.value).0);
        ToldIs(w, c, a);
      }
    }
  }

  lemma EagerStepIs(e: Eager, ev: Event)
    requires ev.DestroySpace?
    ensures EagerStep(e, ev) == (EagerFork.Exit(e, ev.r), true)
  {
  }

  lemma ToldIs(w: World, c: Call, a: Answer)
    requires EventOf(w, c, a).Some? && Inv(Abs(w)) && Enabled(Abs(w), EventOf(w, c, a).value)
    ensures Told(w, c, a) == ForkRuns.Step(Abs(w), EventOf(w, c, a).value).1
  {
    hide Abs, Inv, Clone, ForkAndDestroy.Destroy, Fits, Unserved;
  }

  /** With enough memory, every allocation of the flat event succeeds. */
  lemma EventSucceeds(w: World, c: Call, a: Answer)
    requires WorldOk(w) && Fits(w, c) && EventOf(w, c, a).Some?
    requires c.SysStore? ==> Served(Abs(w), (c.r, c.v), a) || Clear(w.bits) == 0
    ensures Succeeds(Abs(w), EventOf(w, c, a).value)
  {
    hide Abs, Inv, ShapeOk, Clear, Missing, Unserved, AboveLeaves, NeedsCopy, Stores;
    if c.SysFork? { AllServed(w, c.src); }
  }

  /** With a frame for every table, fork leaves out no page. */
  lemma AllServed(w: World, src: Space)
    requires Clear(w.bits) >= 1 + |AboveLeaves(w, src)|
    ensures Unserved(w, src) == {}
  {
    hide Abs, Clear;
    forall u | u in PagesBelow(Abs(w), src, USER_PAGES)
      ensures |Paths(src, PagesBelow(Abs(w), src, u + 1))| <= |AboveLeaves(w, src)|
    {
      assert PagesBelow(Abs(w), src, u + 1) <= PagesBelow(Abs(w), src, USER_PAGES);
      FewerPaths(src, PagesBelow(Abs(w), src, u + 1), PagesBelow(Abs(w), src, USER_PAGES));
    }
  }

  lemma FewerPaths(r: Space, us: set<VPage>, vs: set<VPage>)
    requires us <= vs
    ensures |Paths(r, us)| <= |Paths(r, vs)|
  {
    assert Paths(r, us) <= Paths(r, vs);
    SplitCount(Paths(r, us), Paths(r, vs), {});
    assert Paths(r, us) + Paths(r, vs) == Paths(r, vs) && Paths(r, vs) - {} == Paths(r, vs) && Paths(r, us) - {} == Paths(r, us);
  }

  /** A call with its answer and the world it leads to. */
  datatype Move = Move(call: Call, answer: Answer, after: World)

  ghost predicate Legal(w: World, ms: seq<Move>)
    decreases |ms|
  {
    ms == [] || (Does(w, ms[0].call, ms[0].answer, ms[0].after) && Legal(ms[0].after, ms[1..]))
  }

  ghost predicate AllFit(w: World, ms: seq<Move>)
    decreases |ms|
  {
    ms == [] || (Fits(w, ms[0].call) && AllFit(ms[0].after, ms[1..]))
  }

  ghost function Final(w: World, ms: seq<Move>): World {
    if ms == [] then w else ms[|ms| - 1].after
  }

  ghost function Answers(w: World, ms: seq<Move>): seq<bool>
    decreases |ms|
  {
    if ms == [] then [] else [Told(w, ms[0].call, ms[0].answer)] + Answers(ms[0].after, ms[1..])
  }

  ghost function ReferenceRun(e: Eager, w: World, ms: seq<Move>): (Eager, seq<bool>)
    decreases |ms|
  {
    if ms == [] then (e, [])
    else
      var a := Reference(e, w, ms[0].call, ms[0].answer);
      var b := ReferenceRun(a.0, ms[0].after, ms[1..]);
      (b.0, [a.1] + b.1)
  }

  /** Over every run of calls on tables in memory that has the frames it needs, each
      process reads what it would read if fork copied every private page at once. */
  lemma {:induction false} TablesAreEagerFork(w: World, e: Eager, ms: seq<Move>)
    requires WorldOk(w) && Agree(Abs(w), e) && Legal(w, ms) && AllFit(w, ms)
    ensures WorldOk(Final(w, ms)) && Agree(Abs(Final(w, ms)), ReferenceRun(e, w, ms).0)
    ensures Answers(w, ms) == ReferenceRun(e, w, ms).1
    ensures forall k :: Read(Abs(Final(w, ms)), k) == EagerFork.Read(ReferenceRun(e, w, ms).0, k)
    decreases |ms|
  {
    hide Abs, Agree, Told, Reference, Fits, Read, EagerFork.Read, ShapeOk, Inv;
    if ms == [] {
      forall k ensures Read(Abs(w), k) == EagerFork.Read(e, k) { AgreeReads(Abs(w), e, k); }
    } else {
      var m := ms[0];
      DoesAgrees(w, m.call, m.answer, m.after, e);
      DoesOk(w, m.call, m.answer, m.after);
      TablesAreEagerFork(m.after, Reference(e, w, m.call, m.answer).0, ms[1..]);
      assert Final(w, ms) == Final(m.after, ms[1..]);
    }
  }

  lemma DoesOk(w: World, c: Call, a: Answer, x: World)
    requires Does(w, c, a, x)
    ensures WorldOk(x)
  {
  }

  // ----- What a run loses

  ghost function TableFrames(at: Tree): set<Frame> { set p | p in at :: at[p] }

  /** References on f that are neither an entry's nor a table page's. */
  ghost function Lost(w: World, f: Frame): int
    requires f < |w.refs|
  {
    Extra(Abs(w), f) - One(f in TableFrames(w.at))
  }

  /** A call that will lose no reference: it does nothing for want of any frame, or every
      page it maps gets its tables and overwrites no page. */
  ghost predicate LossFree(w: World, c: Call) {
    match c
    case SysMap(r, v, _, _, _, _) =>
      Clear(w.bits) == 0 || (Fits(w, c) && ((r, v) in Abs(w).leaves ==> Abs(w).leaves[(r, v)].nopmm))
    case SysFork(src) => Clear(w.bits) == 0 || forall u | u in Unserved(w, src) && (src, u) in Abs(w).leaves :: Abs(w).leaves[(src, u)].nopmm
    case _ => true
  }

  lemma GrownExtra(s: State, t: State, taken: set<Frame>, f: Frame)
    requires Inv(s) && Grown(s, t, taken) && f < |s.refs|
    ensures Extra(t, f) == Extra(s, f) + One(f in taken)
  {
    assert Mappers(t, f) == Mappers(s, f);
    if f in taken { assert Free(s, f); }
  }

  /** New tables are on frames that were no tables. */
  lemma TablesAdd(a: Tree, x: World, f: Frame)
    requires ShapeOk(x) && forall p | p in a :: p in x.at && x.at[p] == a[p]
    ensures One(f in TableFrames(x.at)) == One(f in TableFrames(a)) + One(f in NewTables(a, x.at))
  {
    hide LeafHeld, TableHeld, BitOk, Leaves, LinkOk, PosOk;
    if f in TableFrames(x.at) {
      var p :| p in x.at && x.at[p] == f;
      if p in a { assert a[p] == f; } else { assert f in NewTables(a, x.at); }
    }
    if f in TableFrames(a) {
      var p :| p in a && a[p] == f;
      forall q | q in x.at && q !in a ensures x.at[q] != f { assert Distinct(x.at, p, q); }
      assert p in x.at && x.at[p] == f;
    }
  }

  lemma RefsAre(w: World)
    ensures Abs(w).refs == w.refs
  {
  }

  lemma GrownLedger(w: World, x: World, ev: Event, f: Frame)
    requires WorldOk(w) && WorldOk(x) && f < |w.refs| && Enabled(Abs(w), ev)
    requires forall p | p in w.at :: p in x.at && x.at[p] == w.at[p]
    requires Grown(ForkRuns.Step(Abs(w), ev).0, Abs(x), NewTables(w.at, x.at))
    ensures |x.refs| == |w.refs| && Lost(x, f) == Lost(w, f) + Unaccounted(Abs(w), ev, f)
  {
    hide Abs, Inv, ShapeOk, NewTables, ForkRuns.Step, Enabled, TableFrames, Extra, Unaccounted;
    RefsAre(w);
    RefsAre(x);
    var s := ForkRuns.Step(Abs(w), ev).0;
    StepKeepsInv(Abs(w), ev);
    StepLedger(Abs(w), ev, f);
    GrownExtra(s, Abs(x), NewTables(w.at, x.at), f);
    TablesAdd(w.at, x, f);
  }

  /** A teardown gives back exactly its tables' references. */
  lemma DestroyedLedger(w: World, r: Space, f: Frame)
    requires WorldOk(w) && Root(r) in w.at && WorldOk(Gone(w, r)) && f < |w.refs|
    ensures |Gone(w, r).refs| == |w.refs| && Lost(Gone(w, r), f) == Lost(w, f)
  {
    hide Abs, Inv, ShapeOk, Gone, NewTables, TableFrames, Extra, Destroy;
    var x := Gone(w, r);
    RefsAre(w);
    RefsAre(x);
    GoneIsDestroy(w, r);
    DestroyLedger(Abs(w), r, f);
    GrownExtra(Abs(x), Destroy(Abs(w), r), TablesOf(w, r), f);
    GoneTree(w, r);
    TablesAdd(x.at, w, f);
  }

  lemma GoneTree(w: World, r: Space)
    requires |w.refs| == |w.bits|
    ensures Gone(w, r).at == Without(w.at, r) && forall p | p in Without(w.at, r) :: p in w.at && w.at[p] == Without(w.at, r)[p]
  {
  }

  /** A call adds its event's unaccounted references to the losses. */
  lemma DoesLedger(w: World, c: Call, a: Answer, x: World, f: Frame)
    requires Does(w, c, a, x) && f < |w.refs|
    ensures |x.refs| == |w.refs|
    ensures var ev := EventOf(w, c, a); Lost(x, f) == Lost(w, f) + if ev.None? then 0 else Unaccounted(Abs(w), ev.value, f)
  {
    hide Abs, Inv, ShapeOk, Grown, NewTables, Gone, Clear, Fits, Unserved, ForkRuns.Step, Enabled, TableFrames, Extra;
    RefsAre(w);
    RefsAre(x);
    var ev := EventOf(w, c, a);
    if ev.Some? {
      if c.SysDestroy? { DestroyedLedger(w, c.r, f); } else { GrownLedger(w, x, ev.value, f); }
    }
  }

  /** A call loses a reference of some frame exactly when it is not loss-free. */
  lemma DoesLoses(w: World, c: Call, a: Answer, x: World)
    requires Does(w, c, a, x)
    ensures |x.refs| == |w.refs| && forall f: Frame | f < |w.refs| :: Lost(x, f) >= Lost(w, f)
    ensures LossFree(w, c) <==> forall f: Frame | f < |w.refs| :: Lost(x, f) == Lost(w, f)
  {
    hide Abs, Inv, ShapeOk, Grown, NewTables, Gone, Clear, Fits, Unserved, ForkRuns.Step, Lost, Unaccounted;
    var ev := EventOf(w, c, a);
    forall f: Frame | f < |w.refs| ensures |x.refs| == |w.refs| && Lost(x, f) == Lost(w, f) + if ev.None? then 0 else Unaccounted(Abs(w), ev.value, f) {
      DoesLedger(w, c, a, x, f);
    }
    assert |w.refs| > 0 by { SizesOk(w); }
    assert 0 < |w.refs| ==> |x.refs| == |w.refs| by { DoesLedger(w, c, a, x, 0); }
    if ev.Some? {
      RefsAre(w);
      DestroyEnabled(w, c, a);
      LossShows(Abs(w), ev.value);
      LossFreeIs(w, c, a);
      if !LossFree(w, c) {
        var f: Frame :| f < |Abs(w).refs| && Unaccounted(Abs(w), ev.value, f) == 1;
        assert Lost(x, f) != Lost(w, f);
      }
    }
  }

  lemma DestroyEnabled(w: World, c: Call, a: Answer)
    ensures c.SysDestroy? && EventOf(w, c, a).Some? ==> Enabled(Abs(w), EventOf(w, c, a).value)
  {
  }

  lemma LossFreeIs(w: World, c: Call, a: Answer)
    requires EventOf(w, c, a).Some? && (c.SysMap? || c.SysFork? ==> Clear(w.bits) > 0)
    ensures LossFree(w, c) <==> Lossless(Abs(w), EventOf(w, c, a).value)
  {
    hide Abs, Clear, Fits, Unserved;
    if c.SysFork? {
      forall k: Key | k in Abs(w).leaves && k.0 == c.src ensures k == (c.src, k.1) {}
    }
  }

  ghost predicate AllLossFree(w: World, ms: seq<Move>)
    decreases |ms|
  {
    ms == [] || (LossFree(w, ms[0].call) && AllLossFree(ms[0].after, ms[1..]))
  }

  ghost predicate NothingLost(w: World, x: World) {
    |x.refs| == |w.refs| && forall f: Frame | f < |w.refs| :: Lost(x, f) == Lost(w, f)
  }

  lemma {:induction false} LossesGrow(w: World, ms: seq<Move>, f: Frame)
    requires Legal(w, ms) && f < |w.refs|
    ensures |Final(w, ms).refs| == |w.refs| && Lost(Final(w, ms), f) >= Lost(w, f)
    decreases |ms|
  {
    hide Does, Lost, LossFree;
    if ms != [] {
      var m := ms[0];
      DoesLoses(w, m.call, m.answer, m.after);
      LossesGrow(m.after, ms[1..], f);
      assert Final(w, ms) == Final(m.after, ms[1..]);
    }
  }

  /** A run loses no reference on any frame if and only if every call of it had, before
      it was made, the frames it needs, or none at all, and mapped over no page. */
  lemma {:induction false} NothingLostIffLossFree(w: World, ms: seq<Move>)
    requires Legal(w, ms)
    ensures NothingLost(w, Final(w, ms)) <==> AllLossFree(w, ms)
    decreases |ms|
  {
    hide Does, Lost, LossFree;
    if ms != [] {
      var m := ms[0];
      var x := m.after;
      DoesLoses(w, m.call, m.answer, x);
      assert Final(w, ms) == Final(x, ms[1..]);
      if LossFree(w, m.call) {
        NothingLostIffLossFree(x, ms[1..]);
      } else {
        var f: Frame :| f < |w.refs| && Lost(x, f) != Lost(w, f);
        LossesGrow(x, ms[1..], f);
      }
    }
  }

  // ----- The kernel's operations make these runs

  method PerformCreate(vmm: Vmm) returns (ghost a: Answer)
    requires vmm.Shape() && Inv(vmm.State())
    modifies vmm, vmm.pmm, vmm.pmm.bitmap, vmm.pmm.refcounts
    ensures vmm.Shape() && Inv(vmm.State()) && Does(old(vmm.Snapshot()), SysCreate, a, vmm.Snapshot())
  {
    hide Abs, Inv, ShapeOk, Grown, NewTables, Clear, Exhausted, AfterRoot, Pmm.Valid;
    ghost var w := vmm.Snapshot();
    SizesOk(w);
    var r := vmm.NewUserPagetable();
    a := r;
    if r.Some? { CreateDoes(w, r.value); }
    SizesOk(vmm.Snapshot());
  }

  lemma CreateDoes(w: World, f: Frame)
    requires WorldOk(w) && f < |w.bits| && !w.bits[f]
    ensures var x := AfterRoot(w, f);
      && Inv(Abs(x)) && Enabled(Abs(w), NewSpace(f)) && (forall p | p in w.at :: p in x.at && x.at[p] == w.at[p])
      && Grown(ForkRuns.Step(Abs(w), NewSpace(f)).0, Abs(x), NewTables(w.at, x.at))
  {
    hide Inv, ShapeOk, Grown, NewTables;
    var x := AfterRoot(w, f);
    RootKeepsShape(w, f);
    NewRootExtends(w, f);
    NewSpaceKeepsInv(Abs(w), f);
    GrownKeepsInv(Create(Abs(w), f), Abs(x), {f});
  }

  method PerformMap(vmm: Vmm, c: Call) returns (ghost a: Answer)
    requires vmm.Shape() && Inv(vmm.State()) && c.SysMap? && Callable(vmm.Snapshot(), c)
    modifies vmm, vmm.pmm, vmm.pmm.bitmap, vmm.pmm.refcounts
    ensures vmm.Shape() && Inv(vmm.State()) && Does(old(vmm.Snapshot()), c, a, vmm.Snapshot())
  {
    hide Abs, Inv, ShapeOk, Grown, NewTables, Clear, Missing, Exhausted, FreshOk, MapFresh, Pmm.Valid;
    ghost var w := vmm.Snapshot();
    SizesOk(w);
    assert c.v * PAGE_SIZE / PAGE_SIZE == c.v;
    var r, p := vmm.MapFilledPage(c.r, c.v * PAGE_SIZE, c.content, c.writable, c.shared, c.attr);
    a := if r.None? then None else Some(p.frame);
    SizesOk(vmm.Snapshot());
  }

  method PerformFork(vmm: Vmm, src: Frame) returns (ghost a: Answer)
    requires vmm.Shape() && Inv(vmm.State()) && Callable(vmm.Snapshot(), SysFork(src))
    modifies vmm, vmm.pmm, vmm.pmm.bitmap, vmm.pmm.refcounts
    ensures vmm.Shape() && Inv(vmm.State()) && Does(old(vmm.Snapshot()), SysFork(src), a, vmm.Snapshot())
  {
    hide Abs, Inv, ShapeOk, Grown, NewTables, Clear, Unserved, AboveLeaves, Clone, Exhausted, RoomToClone, Pmm.Valid;
    ghost var w := vmm.Snapshot();
    SizesOk(w);
    var dst, fails := vmm.CloneUserPagetable(src);
    a := dst;
    SizesOk(vmm.Snapshot());
  }

  method PerformStore(vmm: Vmm, c: Call) returns (ghost a: Answer)
    requires vmm.Shape() && Inv(vmm.State()) && c.SysStore? && Callable(vmm.Snapshot(), c)
    modifies vmm, vmm.pmm, vmm.pmm.bitmap, vmm.pmm.refcounts
    ensures vmm.Shape() && Inv(vmm.State()) && Does(old(vmm.Snapshot()), c, a, vmm.Snapshot())
  {
    hide Abs, Inv, ShapeOk, Grown, NewTables, Clear, Write, Served, Pmm.Valid;
    ghost var w := vmm.Snapshot();
    SizesOk(w);
    assert (c.v * PAGE_SIZE + c.off) / PAGE_SIZE == c.v && (c.v * PAGE_SIZE + c.off) % PAGE_SIZE == c.off;
    var done, spare := vmm.UserStore(c.r, c.v * PAGE_SIZE + c.off, c.b);
    a := spare;
    StepSame(w, vmm.Snapshot(), UserWrite((c.r, c.v), c.off, c.b, a));
    SizesOk(vmm.Snapshot());
  }

  /** A step without table pages. */
  lemma StepSame(w: World, x: World, ev: Event)
    requires Inv(Abs(w)) && Enabled(Abs(w), ev) && x.at == w.at && Abs(x) == ForkRuns.Step(Abs(w), ev).0
    ensures Grown(ForkRuns.Step(Abs(w), ev).0, Abs(x), NewTables(w.at, x.at))
  {
    hide Abs, Inv, ForkRuns.Step;
    assert NewTables(w.at, x.at) == {};
    GrownSelf(Abs(x));
  }

  /** Each call, carried out on the tables in memory, is a step of the run. */
  method Perform(vmm: Vmm, c: Call) returns (ghost a: Answer)
    requires vmm.Shape() && Inv(vmm.State()) && Callable(vmm.Snapshot(), c)
    modifies vmm, vmm.pmm, vmm.pmm.bitmap, vmm.pmm.refcounts
    ensures vmm.Shape() && Inv(vmm.State()) && Does(old(vmm.Snapshot()), c, a, vmm.Snapshot())
  {
    hide Abs, Inv, ShapeOk, Grown, NewTables, Gone, Clear, Missing, Unserved, AboveLeaves, Clone, Destroy, Unmap, Write, Exhausted, RoomToClone, Pmm.Valid;
    ghost var w := vmm.Snapshot();
    SizesOk(w);
    a := None;
    match c {
      case SysCreate => a := PerformCreate(vmm);
      case SysMap(r, v, content, writable, shared, attr) => a := PerformMap(vmm, c);
      case SysUnmap(r, v) =>
        vmm.UnmapPage(r, v * PAGE_SIZE);
        StepSame(w, vmm.Snapshot(), UnmapPage((r, v)));
      case SysFork(src) => a := PerformFork(vmm, src);
      case SysStore(r, v, off, b) => a := PerformStore(vmm, c);
      case SysDestroy(r) => vmm.DestroyUserPagetable(r);
    }
    SizesOk(vmm.Snapshot());
  }
}
