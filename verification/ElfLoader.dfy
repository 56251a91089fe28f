/** Loading an ELF image page by page into a page table, against the byte-level meaning
    of its segments. */
module ElfLoader {
  import opened Types
  import opened CopyOnWrite
  import opened PageTree
  import opened TableShape
  import opened Growth
  import opened FrameBudget
  import opened PageAllocator
  import opened PageTables
  import opened MemoryCalls

  const ELF_MAGIC: nat := 0x464C457F

  /** The header fields elf_load looks at. */
  datatype Header = Header(magic: nat, class_: nat, data: nat, kind: nat, entry: nat)

  datatype Segment = Segment(load: bool, writable: bool, executable: bool, offset: nat, vaddr: nat, filesz: nat, memsz: nat)

  predicate Accepted(h: Header) { h.magic == ELF_MAGIC && h.class_ == 2 && h.data == 1 && h.kind == 2 }

  function AlignDown(a: nat): nat { a / PAGE_SIZE * PAGE_SIZE }
  function AlignUp(a: nat): nat { (a + PAGE_SIZE - 1) % WORD / PAGE_SIZE * PAGE_SIZE }

  function Start(g: Segment): nat { AlignDown(g.vaddr) }
  function End(g: Segment): nat { AlignUp((g.vaddr + g.memsz) % WORD) }

  function FirstPage(g: Segment): VPage { Start(g) / PAGE_SIZE }
  function PastPage(g: Segment): VPage { End(g) / PAGE_SIZE }
  function Count(g: Segment): nat { if FirstPage(g) < PastPage(g) then PastPage(g) - FirstPage(g) else 0 }

  /** 64-bit fields, a file image that is inside the file, and pages in the user half. */
  predicate SegmentOk(file: seq<byte>, g: Segment) {
    && g.vaddr < WORD && g.filesz < WORD && g.memsz < WORD
    && (g.load ==> g.offset + g.filesz <= |file| && PastPage(g) <= USER_PAGES)
  }

  ghost predicate AllOk(file: seq<byte>, segs: seq<Segment>) { forall i: nat {:trigger segs[i]} | i < |segs| :: SegmentOk(file, segs[i]) }

  predicate Covers(g: Segment, v: VPage) { g.load && FirstPage(g) <= v < PastPage(g) }

  /** The byte a segment puts at address a: file bytes, then zeros. */
  function ByteAt(file: seq<byte>, g: Segment, a: nat): byte
    requires SegmentOk(file, g) && g.load
  {
    if g.vaddr <= a < (g.vaddr + g.filesz) % WORD then file[g.offset + (a - g.vaddr)] else 0
  }

  function Image(file: seq<byte>, g: Segment, v: VPage): (r: Bytes)
    requires SegmentOk(file, g) && g.load
    ensures |r| == PAGE_SIZE && forall i: nat | i < PAGE_SIZE :: r[i] == ByteAt(file, g, v * PAGE_SIZE + i)
  {
    seq(PAGE_SIZE, i requires 0 <= i => ByteAt(file, g, v * PAGE_SIZE + i))
  }

  function Rights(g: Segment): Attr { Attr(true, false, !g.executable) }

  // ----- The pages a file asks for, in loading order

  datatype Placement = Placement(page: VPage, seg: Segment)

  function SegmentPlan(g: Segment): (r: seq<Placement>)
    ensures |r| == if g.load then Count(g) else 0
    ensures forall i | 0 <= i < |r| :: r[i] == Placement(FirstPage(g) + i, g) && Covers(g, r[i].page)
  {
    if g.load then seq(Count(g), i requires 0 <= i => Placement(FirstPage(g) + i, g)) else []
  }

  function Plan(segs: seq<Segment>): (r: seq<Placement>)
    ensures forall i | 0 <= i < |r| :: r[i].seg in segs && Covers(r[i].seg, r[i].page)
  {
    if segs == [] then [] else Plan(segs[..|segs| - 1]) + SegmentPlan(segs[|segs| - 1])
  }

  function PagesOf(plan: seq<Placement>): (r: seq<VPage>)
    ensures |r| == |plan| && forall i | 0 <= i < |plan| :: r[i] == plan[i].page
  {
    seq(|plan|, i requires 0 <= i < |plan| => plan[i].page)
  }

  /** The segment that was placed at page v last. */
  function At(plan: seq<Placement>, v: VPage): (r: Option<Segment>)
    ensures r.Some? ==> Placement(v, r.value) in plan
    ensures r.None? ==> forall i | 0 <= i < |plan| :: plan[i].page != v
  {
    if plan == [] then None
    else if plan[|plan| - 1].page == v then Some(plan[|plan| - 1].seg) else At(plan[..|plan| - 1], v)
  }

  ghost predicate PlanOk(file: seq<byte>, plan: seq<Placement>) {
    forall i: nat {:trigger plan[i]} | i < |plan| :: SegmentOk(file, plan[i].seg) && plan[i].seg.load && plan[i].page < USER_PAGES
  }

  /** Page k holds the image of the last segment placed there; others are as before. */
  ghost predicate PlacedAt(s: State, t: State, root: Space, file: seq<byte>, plan: seq<Placement>, k: Key)
    requires PlanOk(file, plan)
  {
    var g := At(plan, k.1);
    if k.0 == root && g.Some?
    then SegmentOk(file, g.value) && g.value.load && Filled(t, k, Image(file, g.value, k.1), g.value.writable, false, Rights(g.value))
    else Same(s, t, k)
  }

  ghost predicate Placed(s: State, t: State, root: Space, file: seq<byte>, plan: seq<Placement>)
    requires PlanOk(file, plan)
  {
    forall k: Key {:trigger PlacedAt(s, t, root, file, plan, k)} :: PlacedAt(s, t, root, file, plan, k)
  }

  lemma PlacedNone(s: State, root: Space, file: seq<byte>)
    requires Inv(s)
    ensures Placed(s, s, root, file, [])
  {
    forall k: Key ensures PlacedAt(s, s, root, file, [], k) { RefsPositive(s, k); }
  }

  lemma PlacedOneMore(s: State, t: State, u: State, root: Space, file: seq<byte>, plan: seq<Placement>, x: Placement)
    requires PlanOk(file, plan) && Placed(s, t, root, file, plan) && SegmentOk(file, x.seg) && x.seg.load && x.page < USER_PAGES
    requires Outside(t, u, root, x.page, x.page + 1)
    requires Filled(u, (root, x.page), Image(file, x.seg, x.page), x.seg.writable, false, Rights(x.seg))
    ensures PlanOk(file, plan + [x]) && Placed(s, u, root, file, plan + [x])
  {
    hide Image, Covers;
    var more := plan + [x];
    assert more[..|plan|] == plan;
    forall k: Key ensures PlacedAt(s, u, root, file, more, k) {
      assert PlacedAt(s, t, root, file, plan, k);
      if k != (root, x.page) { assert Same(t, u, k); }
    }
  }

  lemma PlacedSame(s: State, t: State, u: State, root: Space, file: seq<byte>, plan: seq<Placement>)
    requires PlanOk(file, plan) && Placed(s, t, root, file, plan) && forall k: Key {:trigger Same(t, u, k)} :: Same(t, u, k)
    ensures Placed(s, u, root, file, plan)
  {
    hide Image, Covers;
    forall k: Key ensures PlacedAt(s, u, root, file, plan, k) {
      assert PlacedAt(s, t, root, file, plan, k) && Same(t, u, k);
    }
  }

  /** What of a plan is in place when its last page may have been lost. */
  function Kept(plan: seq<Placement>, lost: bool): seq<Placement> { if lost && plan != [] then plan[..|plan| - 1] else plan }

  /** How far a load that began in state s with tables at0 and `free` frames has come. */
  ghost predicate Loading(s: State, at0: Tree, free: nat, vmm: State, at: Tree, left: nat, root: Space, file: seq<byte>, plan: seq<Placement>, lost: bool) {
    && PlanOk(file, plan) && Progress(at0, free, at, left, root, PagesOf(plan), lost)
    && (lost ==> plan != [] && (root, plan[|plan| - 1].page) !in vmm.leaves)
    && PlanOk(file, Kept(plan, lost)) && Placed(s, vmm, root, file, Kept(plan, lost))
  }

  // ----- The loader

  /** One page: zeroed, then the part of the file image that falls in it. */
  method FillPage(file: seq<byte>, g: Segment, v: VPage) returns (bytes: Bytes)
    requires SegmentOk(file, g) && g.load && Covers(g, v)
    ensures bytes == Image(file, g, v)
  {
    hide Covers;
    var virt := new byte[PAGE_SIZE](_ => 0);
    var page := v * PAGE_SIZE;
    var pageEnd := page + PAGE_SIZE;
    var fileStart, fileEnd := g.vaddr, (g.vaddr + g.filesz) % WORD;
    var copyStart := if page > fileStart then page else fileStart;
    var copyEnd := if pageEnd < fileEnd then pageEnd else fileEnd;
    if copyStart < copyEnd {
      var n, from, to := copyEnd - copyStart, g.offset + (copyStart - fileStart), copyStart - page;
      FileRange(file, g, copyStart, copyEnd);
      var i := 0;
      while i < n
        invariant 0 <= i <= n
        invariant forall j | 0 <= j < PAGE_SIZE :: virt[j] == if to <= j < to + i then file[from + (j - to)] else 0
      {
        virt[to + i] := file[from + i];
        i := i + 1;
      }
    }
    bytes := virt[..];
    assert forall j | 0 <= j < PAGE_SIZE :: bytes[j] == ByteAt(file, g, page + j);
  }

  lemma FileRange(file: seq<byte>, g: Segment, lo: nat, hi: nat)
    requires SegmentOk(file, g) && g.load && g.vaddr <= lo < hi <= (g.vaddr + g.filesz) % WORD
    ensures g.offset + (lo - g.vaddr) + (hi - lo) <= |file| && (g.vaddr + g.filesz) % WORD == g.vaddr + g.filesz
  {
  }

  /** One page of a segment: false when no frame is left. */
  method LoadPage(vmm: Vmm, root: Frame, file: seq<byte>, g: Segment, v: VPage, ghost s: State, ghost at0: Tree, ghost free: nat,
                  ghost plan: seq<Placement>, ghost lost0: bool) returns (ok: bool, ghost lost: bool)
    requires vmm.Shape() && Inv(vmm.State()) && Root(root) in vmm.at && SegmentOk(file, g) && Covers(g, v)
    requires Loading(s, at0, free, vmm.State(), vmm.at, vmm.Frames(), root, file, plan, lost0)
    modifies vmm, vmm.pmm, vmm.pmm.bitmap, vmm.pmm.refcounts
    ensures vmm.Shape() && Inv(vmm.State()) && Root(root) in vmm.at
    ensures ok <==> old(vmm.Frames()) > 0
    ensures ok ==> Loading(s, at0, free, vmm.State(), vmm.at, vmm.Frames(), root, file, plan + [Placement(v, g)], lost)
  {
    hide Inv, Abs, ShapeOk, Outside, Filled, Exhausted, Grown, MapFresh, Progress, Need, Missing, Path, Clear, Same, Image, Placed, PlanOk, Pmm.Valid;
    ghost var w, t := vmm.Snapshot(), vmm.State();
    ghost var x := Placement(v, g);
    LoadingParts(s, at0, free, t, vmm.at, vmm.Frames(), root, file, plan, lost0, x);
    var bytes := FillPage(file, g, v);
    var r, p := vmm.MapFilledPage(root, v * PAGE_SIZE, bytes, g.writable, false, Rights(g));
    RootStays(w.at, vmm.at, root);
    if r.None? { return false, lost0; }
    PlaceOne(t, vmm.State(), root, v, p, bytes, r.value, NewTables(w.at, vmm.at));
    ProgressStep(at0, free, w.at, Clear(w.bits), vmm.at, vmm.Frames(), root, PagesOf(plan), v, r.value);
    MapOutcome(w, vmm.State(), root, v, p, bytes, r.value);
    if r.value {
      PlacedOneMore(s, t, vmm.State(), root, file, plan, x);
    } else {
      NothingPlaced(s, t, vmm.State(), root, file, plan, v);
    }
    LoadingStep(s, at0, free, vmm.State(), vmm.at, vmm.Frames(), root, file, plan, x, !r.value);
    return true, !r.value;
  }

  lemma LoadingParts(s: State, at0: Tree, free: nat, t: State, at: Tree, left: nat, root: Space, file: seq<byte>, plan: seq<Placement>, lost: bool, x: Placement)
    requires Loading(s, at0, free, t, at, left, root, file, plan, lost) && SegmentOk(file, x.seg) && Covers(x.seg, x.page)
    ensures x.page < USER_PAGES && x.seg.load && PlanOk(file, plan)
    ensures left > 0 ==> !lost && Progress(at0, free, at, left, root, PagesOf(plan), false) && Placed(s, t, root, file, plan)
  {
    hide Placed, Need;
  }

  lemma NothingPlaced(s: State, t: State, u: State, root: Space, file: seq<byte>, plan: seq<Placement>, v: VPage)
    requires PlanOk(file, plan) && Placed(s, t, root, file, plan) && Outside(t, u, root, v, v + 1) && Same(t, u, (root, v))
    ensures Placed(s, u, root, file, plan)
  {
    hide Same, Placed;
    forall k: Key ensures Same(t, u, k) { if InRange(k, root, v, v + 1) { assert k == (root, v); } }
    PlacedSame(s, t, u, root, file, plan);
  }

  lemma LoadingStep(s: State, at0: Tree, free: nat, t: State, at: Tree, left: nat, root: Space, file: seq<byte>, plan: seq<Placement>, x: Placement, lost: bool)
    requires PlanOk(file, plan) && SegmentOk(file, x.seg) && x.seg.load && x.page < USER_PAGES
    requires Progress(at0, free, at, left, root, PagesOf(plan) + [x.page], lost)
    requires lost ==> (root, x.page) !in t.leaves && Placed(s, t, root, file, plan)
    requires !lost ==> PlanOk(file, plan + [x]) && Placed(s, t, root, file, plan + [x])
    ensures Loading(s, at0, free, t, at, left, root, file, plan + [x], lost)
  {
    hide Placed, Progress;
    assert PagesOf(plan + [x]) == PagesOf(plan) + [x.page];
    assert (plan + [x])[..|plan|] == plan;
  }

  /** The page loop of one segment: false when a page found no frame. */
  method LoadSegment(vmm: Vmm, root: Frame, file: seq<byte>, g: Segment, ghost s: State, ghost at0: Tree, ghost free: nat,
                     ghost plan: seq<Placement>, ghost lost0: bool) returns (ok: bool, ghost lost: bool)
    requires vmm.Shape() && Inv(vmm.State()) && Root(root) in vmm.at && SegmentOk(file, g) && g.load
    requires Loading(s, at0, free, vmm.State(), vmm.at, vmm.Frames(), root, file, plan, lost0)
    modifies vmm, vmm.pmm, vmm.pmm.bitmap, vmm.pmm.refcounts
    ensures vmm.Shape() && Inv(vmm.State()) && Root(root) in vmm.at
    ensures ok ==> Loading(s, at0, free, vmm.State(), vmm.at, vmm.Frames(), root, file, plan + SegmentPlan(g), lost)
    ensures !ok ==> FitOf(at0, free, root, PagesOf(plan + SegmentPlan(g))) == Short
  {
    hide Inv, Abs, ShapeOk, Loading, FitOf, Clear, Pmm.Valid;
    var page := Start(g);
    lost := lost0;
    ghost var k := 0;
    SegmentPages(g);
    assert plan + SegmentPlan(g)[..0] == plan;
    while page < End(g)
      invariant k <= Count(g) && page == (FirstPage(g) + k) * PAGE_SIZE && (page >= End(g) ==> k == Count(g))
      invariant vmm.Shape() && Inv(vmm.State()) && Root(root) in vmm.at
      invariant Loading(s, at0, free, vmm.State(), vmm.at, vmm.Frames(), root, file, plan + SegmentPlan(g)[..k], lost)
      decreases Count(g) - k
    {
      ghost var done := plan + SegmentPlan(g)[..k];
      PageOfSegment(g, k);
      LoadingStops(s, at0, free, vmm.State(), vmm.at, vmm.Frames(), root, file, done, lost, plan + SegmentPlan(g));
      var fine;
      fine, lost := LoadPage(vmm, root, file, g, page / PAGE_SIZE, s, at0, free, done, lost);
      if !fine { return false, lost; }
      assert done + [Placement(FirstPage(g) + k, g)] == plan + SegmentPlan(g)[..k + 1];
      page := page + PAGE_SIZE;
      k := k + 1;
    }
    assert SegmentPlan(g)[..k] == SegmentPlan(g);
    ok := true;
  }

  lemma SegmentPages(g: Segment)
    ensures Start(g) == FirstPage(g) * PAGE_SIZE && End(g) == PastPage(g) * PAGE_SIZE
  {
  }

  lemma PageOfSegment(g: Segment, k: nat)
    requires g.load && (FirstPage(g) + k) * PAGE_SIZE < End(g)
    ensures k < Count(g) && Covers(g, FirstPage(g) + k) && (FirstPage(g) + k) * PAGE_SIZE / PAGE_SIZE == FirstPage(g) + k
    ensures (FirstPage(g) + k + 1) * PAGE_SIZE >= End(g) ==> k + 1 == Count(g)
  {
    hide FirstPage, PastPage, End;
    SegmentPages(g);
  }

  lemma LoadingStops(s: State, at0: Tree, free: nat, t: State, at: Tree, left: nat, root: Space, file: seq<byte>, done: seq<Placement>, lost: bool, plan: seq<Placement>)
    requires Loading(s, at0, free, t, at, left, root, file, done, lost) && done < plan
    ensures left == 0 ==> FitOf(at0, free, root, PagesOf(plan)) == Short
  {
    hide Placed, Progress, FitOf;
    assert PagesOf(done) < PagesOf(plan);
    ProgressStops(at0, free, at, left, root, PagesOf(done), lost, PagesOf(plan));
  }

  /** The highest page-aligned end of a loaded segment. */
  function Break(segs: seq<Segment>): (r: nat)
    ensures forall i: nat | i < |segs| && segs[i].load :: End(segs[i]) <= r
    ensures r == 0 || exists i: nat :: i < |segs| && segs[i].load && End(segs[i]) == r
  {
    if segs == [] then 0
    else
      var g, r := segs[|segs| - 1], Break(segs[..|segs| - 1]);
      if g.load && End(g) > r then End(g) else r
  }

  /** elf_load: false is the error return; then the caller tears the table down.  It succeeds
      exactly when the header is accepted and the pages fit, be it without the last one. */
  method ElfLoad(vmm: Vmm, root: Frame, file: seq<byte>, h: Header, segs: seq<Segment>) returns (ok: bool, entry: nat, brk: nat)
    requires vmm.Shape() && Inv(vmm.State()) && Root(root) in vmm.at && AllOk(file, segs)
    modifies vmm, vmm.pmm, vmm.pmm.bitmap, vmm.pmm.refcounts
    ensures vmm.Shape() && Inv(vmm.State()) && Root(root) in vmm.at
    ensures !Accepted(h) ==> !ok && vmm.State() == old(vmm.State())
    ensures Accepted(h) ==>
      var fit := FitOf(old(vmm.at), old(vmm.Frames()), root, PagesOf(Plan(segs)));
      && (ok <==> fit != Short)
      && (ok ==> entry == h.entry && brk == Break(segs))
      && (fit == Whole ==> PlanOk(file, Plan(segs)) && Placed(old(vmm.State()), vmm.State(), root, file, Plan(segs)))
      && (fit == LastMissing ==> LoadedButLast(old(vmm.State()), vmm.State(), root, file, Plan(segs)))
  {
    hide Inv, Abs, ShapeOk, Loading, FitOf, Clear, Placed, LoadedButLast, PlanOk, Break, End, Plan, SegmentPlan, PagesOf, SegmentOk, Covers, Pmm.Valid;
    if !Accepted(h) { return false, 0, 0; }
    var highest := 0;
    var i := 0;
    ghost var s, at0, free, lost := vmm.State(), vmm.at, vmm.Frames(), false;
    LoadingStarts(s, at0, free, root, file);
    assert segs[..0] == [];
    NoBreak();
    while i < |segs|
      invariant i <= |segs| && highest == Break(segs[..i])
      invariant vmm.Shape() && Inv(vmm.State()) && Root(root) in vmm.at
      invariant Loading(s, at0, free, vmm.State(), vmm.at, vmm.Frames(), root, file, Plan(segs[..i]), lost)
    {
      var g := segs[i];
      PlanStep(segs, i);
      if g.load {
        var fine;
        fine, lost := LoadSegment(vmm, root, file, g, s, at0, free, Plan(segs[..i]), lost);
        if !fine {
          ShortStays(at0, free, root, PagesOf(Plan(segs[..i + 1])), PagesOf(Plan(segs)));
          return false, 0, 0;
        }
        if End(g) > highest { highest := End(g); }
      }
      i := i + 1;
    }
    assert segs[..|segs|] == segs;
    LoadingEnds(s, at0, free, vmm.State(), vmm.at, vmm.Frames(), root, file, Plan(segs), lost);
    return true, h.entry, highest;
  }

  /** Everything is in place except the last page, which is not mapped at all. */
  ghost predicate LoadedButLast(s: State, t: State, root: Space, file: seq<byte>, plan: seq<Placement>) {
    && plan != [] && PlanOk(file, plan[..|plan| - 1]) && Placed(s, t, root, file, plan[..|plan| - 1])
    && (root, plan[|plan| - 1].page) !in t.leaves
  }

  lemma LoadingStarts(s: State, at0: Tree, free: nat, root: Space, file: seq<byte>)
    requires Inv(s)
    ensures Loading(s, at0, free, s, at0, free, root, file, [], false)
  {
    hide Inv, Placed, Progress;
    PlacedNone(s, root, file);
    ProgressStarts(at0, free, root);
    assert PagesOf([]) == [];
  }

  lemma LoadingEnds(s: State, at0: Tree, free: nat, t: State, at: Tree, left: nat, root: Space, file: seq<byte>, plan: seq<Placement>, lost: bool)
    requires Loading(s, at0, free, t, at, left, root, file, plan, lost)
    ensures FitOf(at0, free, root, PagesOf(plan)) == if lost then LastMissing else Whole
    ensures lost ==> LoadedButLast(s, t, root, file, plan)
    ensures !lost ==> PlanOk(file, plan) && Placed(s, t, root, file, plan)
  {
    hide Placed, Progress, FitOf;
    ProgressEnds(at0, free, at, left, root, PagesOf(plan), lost);
  }

  lemma PlanStep(segs: seq<Segment>, i: nat)
    requires i < |segs|
    ensures Plan(segs[..i + 1]) == Plan(segs[..i]) + SegmentPlan(segs[i])
    ensures !segs[i].load ==> Plan(segs[..i + 1]) == Plan(segs[..i])
    ensures Break(segs[..i + 1]) == if segs[i].load && End(segs[i]) > Break(segs[..i]) then End(segs[i]) else Break(segs[..i])
    ensures PagesOf(Plan(segs[..i + 1])) <= PagesOf(Plan(segs))
  {
    assert segs[..i + 1][..i] == segs[..i];
    PlanGrows(segs, i + 1);
  }

  lemma NoBreak()
    ensures Break([]) == 0 && Plan([]) == []
  {
  }

  lemma {:induction false} PlanGrows(segs: seq<Segment>, i: nat)
    requires i <= |segs|
    ensures Plan(segs[..i]) <= Plan(segs)
    decreases |segs| - i
  {
    if i == |segs| { assert segs[..i] == segs; } else {
      PlanGrows(segs, i + 1);
      assert segs[..i + 1][..i] == segs[..i];
    }
  }

  /** What does not fit does not fit when more is asked. */
  lemma ShortStays(at: Tree, free: nat, root: Space, vs: seq<VPage>, ws: seq<VPage>)
    requires FitOf(at, free, root, vs) == Short && vs <= ws
    ensures FitOf(at, free, root, ws) == Short
  {
    hide Need;
    if vs == [] { NeedNone(at, root); }
    if vs < ws {
      var ls := ws[..|ws| - 1];
      assert vs <= ls;
      NeedGrows(at, root, vs, ls);
      NeedGrows(at, root, ls, ws);
    } else {
      assert vs == ws;
    }
  }

  // ----- Which segment a page shows

  /** The last of the segments that covers a page; |segs| if none does. */
  function LastCover(segs: seq<Segment>, v: VPage): (r: nat)
    ensures r <= |segs| && (r < |segs| ==> Covers(segs[r], v))
    ensures forall j: nat | j < |segs| && (r < j || r == |segs|) :: !Covers(segs[j], v)
  {
    if segs == [] then 0
    else if Covers(segs[|segs| - 1], v) then |segs| - 1
    else
      var r := LastCover(segs[..|segs| - 1], v);
      if r == |segs| - 1 then |segs| else r
  }

  lemma {:induction false} AtJoin(a: seq<Placement>, b: seq<Placement>, v: VPage)
    ensures At(a + b, v) == if At(b, v).Some? then At(b, v) else At(a, v)
  {
    if b == [] { assert a + b == a; } else {
      AtJoin(a, b[..|b| - 1], v);
      assert (a + b)[..|a + b| - 1] == a + b[..|b| - 1];
    }
  }

  /** A page shows the last segment that covers it. */
  lemma {:induction false} AtIsLastCover(segs: seq<Segment>, v: VPage)
    ensures At(Plan(segs), v) == if LastCover(segs, v) < |segs| then Some(segs[LastCover(segs, v)]) else None
  {
    hide Covers;
    if segs != [] {
      var init, g := segs[..|segs| - 1], segs[|segs| - 1];
      AtIsLastCover(init, v);
      AtJoin(Plan(init), SegmentPlan(g), v);
      AtSegment(g, v);
    }
  }

  lemma AtSegment(g: Segment, v: VPage)
    ensures At(SegmentPlan(g), v) == if Covers(g, v) then Some(g) else None
  {
    var plan := SegmentPlan(g);
    if Covers(g, v) {
      assert plan[v - FirstPage(g)].page == v;
      assert At(plan, v).Some?;
    }
  }

  // ----- What a loaded program reads

  ghost predicate InImage(t: State, root: Space, a: nat) {
    var k := (root, a / PAGE_SIZE);
    k in t.leaves && t.leaves[k].frame < |t.data| && |t.data[t.leaves[k].frame]| == PAGE_SIZE
  }

  ghost function Read(t: State, root: Space, a: nat): byte
    requires InImage(t, root, a)
  {
    t.data[t.leaves[(root, a / PAGE_SIZE)].frame][a % PAGE_SIZE]
  }

  /** The address range of a segment stays inside 64 bits after rounding. */
  predicate Fits(g: Segment) { g.vaddr + g.memsz + PAGE_SIZE <= WORD && g.filesz <= g.memsz }

  /** Every byte of every covered page is the one of the last covering segment. */
  lemma ReadsLastCover(file: seq<byte>, segs: seq<Segment>, s: State, t: State, root: Space, a: nat)
    requires AllOk(file, segs) && PlanOk(file, Plan(segs)) && Placed(s, t, root, file, Plan(segs)) && LastCover(segs, a / PAGE_SIZE) < |segs|
    ensures InImage(t, root, a) && Read(t, root, a) == ByteAt(file, segs[LastCover(segs, a / PAGE_SIZE)], a)
  {
    hide LastCover, ByteAt, Covers, SegmentOk, At, Plan;
    var v := a / PAGE_SIZE;
    AtIsLastCover(segs, v);
    assert PlacedAt(s, t, root, file, Plan(segs), (root, v));
    assert v * PAGE_SIZE + a % PAGE_SIZE == a;
  }

  /** Its rights are those the last covering segment asks for, also where addresses wrap. */
  lemma {:induction false} RightsAsAsked(file: seq<byte>, segs: seq<Segment>, s: State, t: State, root: Space, v: VPage)
    requires AllOk(file, segs) && PlanOk(file, Plan(segs)) && Placed(s, t, root, file, Plan(segs)) && LastCover(segs, v) < |segs|
    ensures (root, v) in t.leaves
    ensures var g, p := segs[LastCover(segs, v)], t.leaves[(root, v)];
      && p.attr.user && !p.attr.pwt && (p.attr.nx <==> !g.executable) && (p.writable <==> g.writable)
      && !p.cow && !p.shared && !p.nopmm
  {
    hide LastCover, Covers, SegmentOk, At, Plan;
    AtIsLastCover(segs, v);
    assert PlacedAt(s, t, root, file, Plan(segs), (root, v));
  }

  /** The addresses of a segment stay inside 64 bits. */
  predicate InWord(g: Segment) { g.vaddr + g.memsz + PAGE_SIZE <= WORD && g.vaddr + g.filesz < WORD }

  ghost predicate Unwrapped(segs: seq<Segment>) { forall j: nat {:trigger segs[j]} | j < |segs| && segs[j].load :: InWord(segs[j]) }

  /** Page v and the addresses of a segment meet. */
  predicate Touches(g: Segment, v: VPage) { g.load && v * PAGE_SIZE < g.vaddr + g.memsz && g.vaddr < (v + 1) * PAGE_SIZE }

  lemma CoversIsTouches(g: Segment, v: VPage)
    requires g.load ==> InWord(g)
    ensures Covers(g, v) <==> Touches(g, v)
  {
    if !g.load { return; }
    var e := g.vaddr + g.memsz;
    assert e % WORD == e && (e + PAGE_SIZE - 1) % WORD == e + PAGE_SIZE - 1;
    assert PastPage(g) == (e + PAGE_SIZE - 1) / PAGE_SIZE && FirstPage(g) == g.vaddr / PAGE_SIZE;
    if v < PastPage(g) { assert v * PAGE_SIZE < e; }
    if v * PAGE_SIZE < e { assert v < (e + PAGE_SIZE - 1) / PAGE_SIZE; }
  }

  /** Segment i is the last one that touches page v. */
  ghost predicate Shown(segs: seq<Segment>, i: nat, v: VPage) {
    i < |segs| && Touches(segs[i], v) && forall j: nat | i < j < |segs| :: !Touches(segs[j], v)
  }

  /** A page of the program belongs to the last segment that touches it: it is a private user
      page, writable and executable exactly as that segment says, with its file bytes at their
      addresses and zeros elsewhere. */
  lemma {:induction false} PageShows(file: seq<byte>, segs: seq<Segment>, s: State, t: State, root: Space, i: nat, v: VPage)
    requires AllOk(file, segs) && PlanOk(file, Plan(segs)) && Placed(s, t, root, file, Plan(segs))
    requires Unwrapped(segs) && Shown(segs, i, v)
    ensures (root, v) in t.leaves
    ensures var g, p := segs[i], t.leaves[(root, v)];
      && p.attr.user && !p.attr.pwt && (p.attr.nx <==> !g.executable) && (p.writable <==> g.writable)
      && !p.cow && !p.shared && !p.nopmm && p.frame < |t.data| && |t.data[p.frame]| == PAGE_SIZE
      && forall o: nat | o < PAGE_SIZE :: var a := v * PAGE_SIZE + o;
           t.data[p.frame][o] == if g.vaddr <= a < g.vaddr + g.filesz then file[g.offset + (a - g.vaddr)] else 0
  {
    hide Plan, At, LastCover, Covers;
    LastTouch(segs, i, v);
    AtIsLastCover(segs, v);
    assert PlacedAt(s, t, root, file, Plan(segs), (root, v));
    assert SegmentOk(file, segs[i]) && InWord(segs[i]);
    assert (segs[i].vaddr + segs[i].filesz) % WORD == segs[i].vaddr + segs[i].filesz;
  }

  lemma LastTouch(segs: seq<Segment>, i: nat, v: VPage)
    requires Unwrapped(segs) && Shown(segs, i, v)
    ensures LastCover(segs, v) == i
  {
    hide Covers, Touches;
    forall j: nat | j < |segs| ensures Covers(segs[j], v) <==> Touches(segs[j], v) { CoversIsTouches(segs[j], v); }
  }

  /** Pages that no segment touches, and every other address space, stay as they were. */
  lemma {:induction false} ElsewhereSame(file: seq<byte>, segs: seq<Segment>, s: State, t: State, root: Space, k: Key)
    requires AllOk(file, segs) && PlanOk(file, Plan(segs)) && Placed(s, t, root, file, Plan(segs))
    requires Unwrapped(segs) && (k.0 == root ==> forall j: nat | j < |segs| :: !Touches(segs[j], k.1))
    ensures Same(s, t, k)
  {
    hide Plan, At, Covers, Touches, InWord, Same;
    assert PlacedAt(s, t, root, file, Plan(segs), k);
    if k.0 == root {
      forall j: nat | j < |segs| ensures !Covers(segs[j], k.1) { CoversIsTouches(segs[j], k.1); }
      AtIsLastCover(segs, k.1);
    }
  }

  /** The break is page aligned, at or above the end of every segment, and less than a page
      above the end of some segment; 0 without segments. */
  lemma {:induction false} BreakIsHighest(segs: seq<Segment>)
    requires Unwrapped(segs)
    ensures Break(segs) % PAGE_SIZE == 0
    ensures forall j: nat | j < |segs| && segs[j].load :: segs[j].vaddr + segs[j].memsz <= Break(segs)
    ensures Break(segs) == 0 || exists j: nat :: j < |segs| && segs[j].load && Break(segs) < segs[j].vaddr + segs[j].memsz + PAGE_SIZE
  {
    hide Break, End;
    forall j: nat | j < |segs| && segs[j].load ensures End(segs[j]) % PAGE_SIZE == 0 && segs[j].vaddr + segs[j].memsz <= End(segs[j]) < segs[j].vaddr + segs[j].memsz + PAGE_SIZE {
      EndIsRounded(segs[j]);
    }
  }

  lemma EndIsRounded(g: Segment)
    requires InWord(g)
    ensures End(g) % PAGE_SIZE == 0 && g.vaddr + g.memsz <= End(g) < g.vaddr + g.memsz + PAGE_SIZE
  {
    var e := g.vaddr + g.memsz;
    assert e % WORD == e && (e + PAGE_SIZE - 1) % WORD == e + PAGE_SIZE - 1;
  }

  /** A segment that shares no page with the others reads back as its file bytes and
      then zeros, over its whole memory size. */
  lemma ReadsBack(file: seq<byte>, segs: seq<Segment>, s: State, t: State, root: Space, i: nat, a: nat)
    requires AllOk(file, segs) && PlanOk(file, Plan(segs)) && Placed(s, t, root, file, Plan(segs))
    requires i < |segs| && segs[i].load && Fits(segs[i])
    requires forall j: nat, v: VPage | j < |segs| && j != i && Covers(segs[i], v) :: !Covers(segs[j], v)
    requires segs[i].vaddr <= a < segs[i].vaddr + segs[i].memsz
    ensures InImage(t, root, a)
    ensures Read(t, root, a) == if a < segs[i].vaddr + segs[i].filesz then file[segs[i].offset + (a - segs[i].vaddr)] else 0
  {
    hide LastCover, Covers, Image, Placed, Plan, PlanOk;
    InsideIsCovered(segs[i], a);
    assert LastCover(segs, a / PAGE_SIZE) == i;
    ReadsLastCover(file, segs, s, t, root, a);
    assert (segs[i].vaddr + segs[i].filesz) % WORD == segs[i].vaddr + segs[i].filesz;
  }

  lemma InsideIsCovered(g: Segment, a: nat)
    requires g.load && Fits(g) && g.vaddr <= a < g.vaddr + g.memsz
    ensures Covers(g, a / PAGE_SIZE) && End(g) == (g.vaddr + g.memsz + PAGE_SIZE - 1) / PAGE_SIZE * PAGE_SIZE >= g.vaddr + g.memsz
  {
    var e := g.vaddr + g.memsz;
    assert e % WORD == e && (e + PAGE_SIZE - 1) % WORD == e + PAGE_SIZE - 1;
  }

  /** On a shared page only the last segment counts: what an earlier one put at an address
      outside the last one's file image reads as zero. */
  lemma SharedPageLosesBytes(file: seq<byte>, segs: seq<Segment>, s: State, t: State, root: Space, i: nat, a: nat)
    requires AllOk(file, segs) && PlanOk(file, Plan(segs)) && Placed(s, t, root, file, Plan(segs)) && i < |segs| && Covers(segs[i], a / PAGE_SIZE)
    requires var g := segs[LastCover(segs, a / PAGE_SIZE)]; !(g.vaddr <= a < (g.vaddr + g.filesz) % WORD)
    ensures InImage(t, root, a) && Read(t, root, a) == 0
  {
    hide LastCover, Covers, Placed, Plan, Read, InImage;
    ReadsLastCover(file, segs, s, t, root, a);
  }

  /** A file in which it happens: two one-byte segments on one page, 7 at 0x400000 and 9 at
      0x400010.  Once loaded, 0x400000 reads as 0. */
  lemma SharedPageExample(s: State, t: State, root: Space)
    requires var segs := [Segment(true, false, true, 0, 0x400000, 1, 1), Segment(true, true, false, 1, 0x400010, 1, 1)];
      PlanOk([7, 9], Plan(segs)) && Placed(s, t, root, [7, 9], Plan(segs))
    ensures var segs := [Segment(true, false, true, 0, 0x400000, 1, 1), Segment(true, true, false, 1, 0x400010, 1, 1)];
      && AllOk([7, 9], segs) && ByteAt([7, 9], segs[0], 0x400000) == 7
      && InImage(t, root, 0x400000) && Read(t, root, 0x400000) == 0
  {
    hide Placed, Plan, PlanOk, Read, InImage;
    var segs := [Segment(true, false, true, 0, 0x400000, 1, 1), Segment(true, true, false, 1, 0x400010, 1, 1)];
    assert Covers(segs[1], 0x400) && Covers(segs[0], 0x400);
    assert LastCover(segs, 0x400) == 1;
    SharedPageLosesBytes([7, 9], segs, s, t, root, 0, 0x400000);
  }
}
