/** mmap, munmap and brk: the loops that map and unmap ranges of pages. */
module MemoryCalls {
  import opened Types
  import opened CopyOnWrite
  import opened PageTree
  import opened TableShape
  import opened Growth
  import opened FrameBudget
  import opened TableFork
  import opened TableSteps
  import opened PageAllocator
  import opened PageTables

  const WORD: nat := 0x1_0000_0000_0000_0000
  const MMAP_BASE: nat := 0x6000_0000_0000

  predicate InRange(k: Key, root: Space, lo: nat, hi: nat) { k.0 == root && lo <= k.1 < hi }

  /** Entry k is the same in both states, and so is the page behind it. */
  ghost predicate Same(s: State, t: State, k: Key) {
    && (k in t.leaves <==> k in s.leaves)
    && (k in s.leaves ==>
        && t.leaves[k] == s.leaves[k]
        && s.leaves[k].frame < |s.data| == |t.data| && t.data[s.leaves[k].frame] == s.data[s.leaves[k].frame])
  }

  /** Only pages lo to hi of one address space may have changed. */
  ghost predicate Outside(s: State, t: State, root: Space, lo: nat, hi: nat) {
    t.spaces == s.spaces && forall k: Key {:trigger Same(s, t, k)} | !InRange(k, root, lo, hi) :: Same(s, t, k)
  }

  /** A zeroed private or shared page with the given rights is mapped at k. */
  ghost predicate Zeroed(t: State, k: Key, writable: bool, shared: bool, attr: Attr) {
    Filled(t, k, ZeroPage(), writable, shared, attr)
  }

  lemma OutsideSelf(s: State, root: Space, lo: nat)
    requires Inv(s)
    ensures Outside(s, s, root, lo, lo)
  {
    forall k: Key | !InRange(k, root, lo, lo) ensures Same(s, s, k) { RefsPositive(s, k); }
  }

  lemma OutsideTrans(s: State, t: State, u: State, root: Space, lo: nat, m: nat, hi: nat)
    requires Outside(s, t, root, lo, m) && Outside(t, u, root, m, hi) && lo <= m <= hi
    ensures Outside(s, u, root, lo, hi)
  {
    forall k: Key | !InRange(k, root, lo, hi) ensures Same(s, u, k) { assert Same(s, t, k) && Same(t, u, k); }
  }

  /** Page k is mapped with these bytes and rights. */
  ghost predicate Filled(t: State, k: Key, bytes: Bytes, writable: bool, shared: bool, attr: Attr) {
    && k in t.leaves && t.leaves[k] == Pte(t.leaves[k].frame, writable, false, shared, false, attr)
    && t.leaves[k].frame < |t.data| && t.data[t.leaves[k].frame] == bytes
  }

  /** From s to t references were only added. */
  ghost predicate OnlyTakes(s: State, t: State) {
    && |t.refs| == |s.refs| && |t.data| == |s.data| && t.device == s.device
    && forall f {:trigger t.refs[f]} | 0 <= f < |s.refs| :: s.refs[f] <= t.refs[f]
  }

  /** The mapped pages of a range are on frames that were free in s. */
  ghost predicate NewFrames(s: State, t: State, root: Space, lo: nat, hi: nat) {
    forall v | lo <= v < hi && (root, v) in t.leaves :: !t.leaves[(root, v)].nopmm && Free(s, t.leaves[(root, v)].frame)
  }

  lemma NewFramesStep(s: State, t: State, u: State, root: Space, lo: nat, m: nat, p: Pte, ok: bool)
    requires OnlyTakes(s, t) && OnlyTakes(t, u) && NewFrames(s, t, root, lo, m) && Outside(t, u, root, m, m + 1) && lo <= m
    requires Free(t, p.frame) && !p.nopmm && (ok ==> (root, m) in u.leaves && u.leaves[(root, m)] == p) && (!ok ==> (root, m) !in u.leaves)
    ensures OnlyTakes(s, u) && NewFrames(s, u, root, lo, m + 1)
  {
    forall v | lo <= v < m ensures Same(t, u, (root, v)) {}
    assert Free(s, p.frame) by { assert s.refs[p.frame] <= t.refs[p.frame]; }
    forall f | 0 <= f < |s.refs| ensures s.refs[f] <= u.refs[f] { assert s.refs[f] <= t.refs[f] <= u.refs[f]; }
  }

  /** What mapping one page changes: that page, and nothing anyone else reads. */
  lemma PlaceOne(s: State, t: State, root: Space, v: VPage, p: Pte, bytes: Bytes, ok: bool, taken: set<Frame>)
    requires Inv(s) && FreshOk(s, (root, v), p, bytes) && Grown(MapFresh(s, (root, v), p, bytes, ok), t, taken)
    ensures Outside(s, t, root, v, v + 1)
    ensures if ok then Filled(t, (root, v), bytes, p.writable, p.shared, p.attr) && t.leaves[(root, v)] == p else Same(s, t, (root, v))
    ensures OnlyTakes(s, t)
  {
    var k := (root, v);
    var m := MapFresh(s, k, p, bytes, ok);
    FreeIsUnmapped(s, p.frame);
    forall f | f in taken ensures f != p.frame && forall l | l in s.leaves :: s.leaves[l].frame != f {
      TakenWasFree(s, m, p, f);
      FreeIsUnmapped(s, f);
    }
    forall l: Key | l != k || !ok ensures Same(s, t, l) { RefsPositive(s, l); }
    forall l: Key | !InRange(l, root, v, v + 1) ensures Same(s, t, l) { assert l != k; }
  }

  lemma TakenWasFree(s: State, m: State, p: Pte, f: Frame)
    requires Free(s, p.frame) && m.refs == s.refs[p.frame := 1] && |m.data| == |s.data| && m.device == s.device && Free(m, f)
    ensures f != p.frame && Free(s, f)
  {
  }

  function Range(lo: nat, n: nat): (r: seq<VPage>)
    ensures |r| == n && forall i | 0 <= i < n :: r[i] == lo + i
  {
    seq(n, i requires 0 <= i => lo + i)
  }

  lemma RangeGrows(lo: nat, k: nat)
    ensures Range(lo, k + 1) == Range(lo, k) + [lo + k]
  {
  }

  /** What the range holds afterwards. */
  ghost predicate Holds(t: State, root: Space, lo: nat, n: nat, fit: Fit, writable: bool, shared: bool, attr: Attr) {
    && (fit == Whole ==> forall v | lo <= v < lo + n :: Zeroed(t, (root, v), writable, shared, attr))
    && (fit == LastMissing ==>
          n > 0 && (root, lo + n - 1) !in t.leaves && forall v | lo <= v < lo + n - 1 :: Zeroed(t, (root, v), writable, shared, attr))
  }

  /** The page loop of mmap and brk stops at the first page without a frame.  It counts all
      n pages exactly when they fit, be it without the last one. */
  method MapRange(vmm: Vmm, root: Frame, lo: nat, n: nat, writable: bool, shared: bool, attr: Attr) returns (mapped: nat)
    requires vmm.Shape() && Inv(vmm.State()) && Root(root) in vmm.at && lo + n <= USER_PAGES
    modifies vmm, vmm.pmm, vmm.pmm.bitmap, vmm.pmm.refcounts
    ensures vmm.Shape() && Inv(vmm.State()) && Root(root) in vmm.at && mapped <= n
    ensures Outside(old(vmm.State()), vmm.State(), root, lo, lo + mapped)
    ensures OnlyTakes(old(vmm.State()), vmm.State()) && NewFrames(old(vmm.State()), vmm.State(), root, lo, lo + mapped)
    ensures var fit := FitOf(old(vmm.at), old(vmm.Frames()), root, Range(lo, n));
      && (mapped == n <==> fit != Short) && Holds(vmm.State(), root, lo, n, fit, writable, shared, attr)
      && vmm.Frames() == if fit == Whole then old(vmm.Frames()) - Need(old(vmm.at), root, Range(lo, n)) else 0
  {
    hide Inv, Abs, ShapeOk, Outside, OnlyTakes, NewFrames, Zeroed, Filled, Exhausted, Grown, MapFresh, Progress, FitOf, Need, Missing, Path, Clear, Same, Pmm.Valid;
    mapped := 0;
    ghost var s, at0, free, lost := vmm.State(), vmm.at, vmm.Frames(), false;
    OutsideSelf(s, root, lo);
    NothingTaken(s, root, lo);
    assert Range(lo, 0) == [];
    ProgressStarts(at0, free, root);
    while mapped < n
      invariant mapped <= n && vmm.Shape() && Inv(vmm.State()) && Root(root) in vmm.at
      invariant Outside(s, vmm.State(), root, lo, lo + mapped)
      invariant OnlyTakes(s, vmm.State()) && NewFrames(s, vmm.State(), root, lo, lo + mapped)
      invariant Progress(at0, free, vmm.at, vmm.Frames(), root, Range(lo, mapped), lost) && (lost ==> mapped > 0)
      invariant forall v | lo <= v < lo + mapped - (if lost then 1 else 0) :: Zeroed(vmm.State(), (root, v), writable, shared, attr)
      invariant lost ==> (root, lo + mapped - 1) !in vmm.State().leaves
    {
      ghost var w, t := vmm.Snapshot(), vmm.State();
      assert Range(lo, mapped) < Range(lo, n);
      ProgressStops(at0, free, vmm.at, vmm.Frames(), root, Range(lo, mapped), lost, Range(lo, n));
      var r, p := vmm.MapFilledPage(root, (lo + mapped) * PAGE_SIZE, ZeroPage(), writable, shared, attr);
      RootStays(w.at, vmm.at, root);
      if r.None? { return; }
      PlaceOne(t, vmm.State(), root, lo + mapped, p, ZeroPage(), r.value, NewTables(w.at, vmm.at));
      OutsideTrans(s, t, vmm.State(), root, lo, lo + mapped, lo + mapped + 1);
      RangeGrows(lo, mapped);
      ProgressStep(at0, free, w.at, Clear(w.bits), vmm.at, vmm.Frames(), root, Range(lo, mapped), lo + mapped, r.value);
      forall v | lo <= v < lo + mapped ensures Zeroed(vmm.State(), (root, v), writable, shared, attr) {
        ZeroedStays(t, vmm.State(), root, lo + mapped, v, writable, shared, attr);
      }
      MapOutcome(w, vmm.State(), root, lo + mapped, p, ZeroPage(), r.value);
      NewFramesStep(s, t, vmm.State(), root, lo, lo + mapped, p, r.value);
      ZeroedIs(vmm.State(), (root, lo + mapped), writable, shared, attr);
      lost := !r.value;
      mapped := mapped + 1;
    }
    ProgressEnds(at0, free, vmm.at, vmm.Frames(), root, Range(lo, n), lost);
  }

  lemma NothingTaken(s: State, root: Space, lo: nat)
    ensures OnlyTakes(s, s) && NewFrames(s, s, root, lo, lo)
  {
  }

  /** Mapping over a present page leaks it: its frame keeps a reference that no entry
      accounts for. */
  lemma RemapLeaks(s: State, t: State, root: Space, lo: nat, hi: nat, k: Key)
    requires Inv(s) && Outside(s, t, root, lo, hi) && OnlyTakes(s, t) && NewFrames(s, t, root, lo, hi)
    requires InRange(k, root, lo, hi) && k in s.leaves && !s.leaves[k].nopmm
    ensures s.leaves[k].frame < |t.refs| && Extra(t, s.leaves[k].frame) >= 1
  {
    RefsPositive(s, k);
    var f := s.leaves[k].frame;
    forall l: Key | l in Mappers(t, f) ensures l in Mappers(s, f) && l != k {
      assert l == (l.0, l.1);
      if !InRange(l, root, lo, hi) { assert Same(s, t, l); }
    }
    assert Mappers(t, f) <= Mappers(s, f) - {k};
    Subset(Mappers(t, f), Mappers(s, f) - {k});
    assert s.refs[f] <= t.refs[f];
  }

  lemma Subset(a: set<Key>, b: set<Key>)
    requires a <= b
    ensures |a| <= |b|
  {
    assert |b - a| == |b| - |a|;
  }

  lemma ZeroedIs(t: State, k: Key, writable: bool, shared: bool, attr: Attr)
    ensures Zeroed(t, k, writable, shared, attr) <==> Filled(t, k, ZeroPage(), writable, shared, attr)
  {
  }

  /** A page that could not be mapped was not mapped before either. */
  lemma MapOutcome(w: World, t: State, root: Space, v: VPage, p: Pte, bytes: Bytes, ok: bool)
    requires ShapeOk(w) && v < USER_PAGES
    requires if ok then Filled(t, (root, v), bytes, p.writable, p.shared, p.attr) else Same(Abs(w), t, (root, v))
    requires ok <==> Clear(w.bits) >= 1 + Missing(w.at, root, v)
    requires !ok ==> Clear(w.bits) > 0
    ensures !ok ==> (root, v) !in t.leaves
  {
    hide ShapeOk, Abs, Clear, Missing;
    if (root, v) in Abs(w).leaves { LeafHasTables(w, root, v); }
  }

  lemma RootStays(a: Tree, b: Tree, root: Frame)
    requires Extends(a, b, root) && Root(root) in a
    ensures Root(root) in b
  {
  }

  lemma ZeroedStays(t: State, u: State, root: Space, m: VPage, v: VPage, writable: bool, shared: bool, attr: Attr)
    requires Outside(t, u, root, m, m + 1) && v < m && Zeroed(t, (root, v), writable, shared, attr)
    ensures Zeroed(u, (root, v), writable, shared, attr)
  {
    assert Same(t, u, (root, v));
  }

  /** SYS_mmap for a new anonymous mapping; None is an error return. */
  method Mmap(vmm: Vmm, root: Frame, next: nat, length: nat, valid: bool, writable: bool, shared: bool, attr: Attr)
    returns (base: Option<nat>, next': nat)
    requires vmm.Shape() && Inv(vmm.State()) && Root(root) in vmm.at && length < WORD && next % PAGE_SIZE == 0
    requires (next + Rounded(length)) / PAGE_SIZE <= USER_PAGES
    modifies vmm, vmm.pmm, vmm.pmm.bitmap, vmm.pmm.refcounts
    ensures vmm.Shape() && Inv(vmm.State())
    ensures length == 0 || !valid ==> base.None? && next' == next && vmm.State() == old(vmm.State())
    ensures length > 0 && valid ==>
      var lo, n := next / PAGE_SIZE, Rounded(length) / PAGE_SIZE;
      var fit := FitOf(old(vmm.at), old(vmm.Frames()), root, Range(lo, n));
      && (base, next') == (if fit == Short then (None, next) else (Some(next), next + Rounded(length)))
      && Holds(vmm.State(), root, lo, n, fit, writable, shared, attr)
      && Outside(old(vmm.State()), vmm.State(), root, lo, lo + n)
  {
    hide Inv, Abs, ShapeOk, Outside, Holds, FitOf, Clear, Pmm.Valid, Same;
    RoundedPages(length);
    if length == 0 || !valid { return None, next; }
    ghost var s, lo := vmm.State(), next / PAGE_SIZE;
    var npages := (length + PAGE_SIZE - 1) % WORD / PAGE_SIZE;
    assert lo + npages <= USER_PAGES by { RangeEnd(next, length); }
    var mapped := MapRange(vmm, root, next / PAGE_SIZE, npages, writable, shared, attr);
    Widen(s, vmm.State(), root, lo, lo + mapped, lo + npages);
    if mapped < npages { return None, next; }
    return Some(next), next + npages * PAGE_SIZE;
  }

  /** Whole pages that cover length bytes, in 64-bit arithmetic. */
  function Rounded(length: nat): nat { (length + PAGE_SIZE - 1) % WORD / PAGE_SIZE * PAGE_SIZE }

  lemma RoundedPages(length: nat)
    ensures Rounded(length) == (length + PAGE_SIZE - 1) % WORD / PAGE_SIZE * PAGE_SIZE
    ensures Rounded(length) / PAGE_SIZE == (length + PAGE_SIZE - 1) % WORD / PAGE_SIZE
  {
  }

  lemma RangeEnd(next: nat, length: nat)
    requires next % PAGE_SIZE == 0
    ensures (next + Rounded(length)) / PAGE_SIZE == next / PAGE_SIZE + (length + PAGE_SIZE - 1) % WORD / PAGE_SIZE
  {
  }

  /** The pages cover the length exactly when the rounding does not wrap. */
  lemma RoundedExact(length: nat)
    requires length < WORD
    ensures Rounded(length) >= length <==> length <= WORD - PAGE_SIZE
  {
    if length <= WORD - PAGE_SIZE {
      assert (length + PAGE_SIZE - 1) % WORD == length + PAGE_SIZE - 1;
    } else {
      assert (length + PAGE_SIZE - 1) % WORD == length + PAGE_SIZE - 1 - WORD;
    }
  }

  lemma Widen(s: State, t: State, root: Space, lo: nat, m: nat, hi: nat)
    requires lo <= m <= hi && Outside(s, t, root, lo, m)
    ensures Outside(s, t, root, lo, hi)
  {
    forall k: Key | !InRange(k, root, lo, hi) ensures Same(s, t, k) { assert Same(s, t, k); }
  }

  // ----- munmap

  /** The page loop of munmap on leaves. */
  function UnmapTo(s: State, root: Space, lo: nat, n: nat): State {
    if n == 0 then s else Unmap(UnmapTo(s, root, lo, n - 1), (root, lo + n - 1))
  }

  /** Exactly the pages of the range are gone, and nobody else's memory changed. */
  lemma {:induction false} UnmapToIs(s: State, root: Space, lo: nat, n: nat)
    requires Inv(s)
    ensures var t := UnmapTo(s, root, lo, n);
      && Inv(t) && Outside(s, t, root, lo, lo + n) && t.data == s.data && forall v | lo <= v < lo + n :: (root, v) !in t.leaves
  {
    hide Inv;
    OutsideSelf(s, root, lo);
    if n > 0 {
      UnmapToIs(s, root, lo, n - 1);
      var t := UnmapTo(s, root, lo, n - 1);
      UnmapKeepsInv(t, (root, lo + n - 1));
      var u := Unmap(t, (root, lo + n - 1));
      forall k: Key | !InRange(k, root, lo + n - 1, lo + n) ensures Same(t, u, k) { RefsPositive(t, k); assert k != (root, lo + n - 1); }
      OutsideTrans(s, t, u, root, lo, lo + n - 1, lo + n);
    }
  }

  /** SYS_munmap: false is an error return. */
  method Munmap(vmm: Vmm, root: Frame, addr: nat, length: nat) returns (ok: bool)
    requires vmm.Shape() && Inv(vmm.State()) && Root(root) in vmm.at && length < WORD
    requires length > 0 && addr % PAGE_SIZE == 0 && addr >= MMAP_BASE ==> (addr + Rounded(length)) / PAGE_SIZE <= USER_PAGES
    modifies vmm, vmm.pmm, vmm.pmm.bitmap, vmm.pmm.refcounts
    ensures vmm.Shape() && Inv(vmm.State())
    ensures ok <==> length > 0 && addr % PAGE_SIZE == 0 && addr >= MMAP_BASE
    ensures !ok ==> vmm.State() == old(vmm.State())
    ensures ok ==> vmm.State() == UnmapTo(old(vmm.State()), root, addr / PAGE_SIZE, Rounded(length) / PAGE_SIZE)
  {
    hide Inv, Abs, ShapeOk, Pmm.Valid, Unmap;
    if length == 0 || addr % PAGE_SIZE != 0 || addr < MMAP_BASE { return false; }
    var npages := (length + PAGE_SIZE - 1) % WORD / PAGE_SIZE;
    RoundedPages(length);
    RangeEnd(addr, length);
    ghost var s := vmm.State();
    var i := 0;
    while i < npages
      invariant i <= npages && vmm.Shape() && Inv(vmm.State()) && Root(root) in vmm.at
      invariant vmm.State() == UnmapTo(s, root, addr / PAGE_SIZE, i)
    {
      PageOfAddress(addr, i);
      vmm.UnmapPage(root, addr + i * PAGE_SIZE);
      i := i + 1;
    }
    ok := true;
  }

  lemma PageOfAddress(addr: nat, i: nat)
    requires addr % PAGE_SIZE == 0
    ensures (addr + i * PAGE_SIZE) / PAGE_SIZE == addr / PAGE_SIZE + i
  {
  }

  // ----- brk

  /** The first page number at or above a break, in 64-bit arithmetic. */
  function Top(a: nat): nat { (a + PAGE_SIZE - 1) % WORD / PAGE_SIZE }

  lemma TopIs(a: nat)
    ensures Rounded(a) == Top(a) * PAGE_SIZE
  {
  }

  predicate Grows(start: nat, brk: nat, requested: nat) { requested != 0 && start <= requested && Top(brk) < Top(requested) }

  /** SYS_brk: the new break, or the old one when the request is refused. */
  method Brk(vmm: Vmm, root: Frame, start: nat, brk: nat, requested: nat) returns (r: nat)
    requires vmm.Shape() && Inv(vmm.State()) && Root(root) in vmm.at && Top(requested) <= USER_PAGES
    modifies vmm, vmm.pmm, vmm.pmm.bitmap, vmm.pmm.refcounts
    ensures vmm.Shape() && Inv(vmm.State()) && Root(root) in vmm.at
    ensures !Grows(start, brk, requested) ==>
      && vmm.State() == old(vmm.State()) && vmm.at == old(vmm.at) && vmm.Frames() == old(vmm.Frames())
      && r == if requested == 0 || requested < start then brk else requested
    ensures Grows(start, brk, requested) ==>
      var lo, n := Top(brk), Top(requested) - Top(brk);
      var fit := FitOf(old(vmm.at), old(vmm.Frames()), root, Range(lo, n));
      && r == (if fit == Short then brk else requested)
      && Holds(vmm.State(), root, lo, n, fit, true, false, Attr(true, false, true))
      && Outside(old(vmm.State()), vmm.State(), root, lo, lo + n)
      && OnlyTakes(old(vmm.State()), vmm.State()) && (fit == Whole ==> NewFrames(old(vmm.State()), vmm.State(), root, lo, lo + n))
      && vmm.Frames() == if fit == Whole then old(vmm.Frames()) - Need(old(vmm.at), root, Range(lo, n)) else 0
  {
    hide Inv, Abs, ShapeOk, Outside, OnlyTakes, NewFrames, Holds, FitOf, Need, Clear, Top, Same, Pmm.Valid;
    ghost var s := vmm.State();
    if requested == 0 { return brk; }
    if requested < start { return brk; }
    var oldTop, newTop := Rounded(brk), Rounded(requested);
    TopIs(brk);
    TopIs(requested);
    if newTop > oldTop {
      var lo, n := oldTop / PAGE_SIZE, (newTop - oldTop) / PAGE_SIZE;
      assert lo == Top(brk) && n == Top(requested) - Top(brk);
      var mapped := MapRange(vmm, root, lo, n, true, false, Attr(true, false, true));
      Widen(s, vmm.State(), root, lo, lo + mapped, lo + n);
      if mapped < n { return brk; }
    }
    r := requested;
  }
}
