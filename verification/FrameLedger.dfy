/** Every reference on every frame accounted for, over whole runs. */
module FrameLedger {
  import opened Types
  import opened CopyOnWrite
  import opened ForkAndDestroy
  import opened ForkRuns

  /** A reference of the page allocator that an entry at k holds on f. */
  ghost predicate HeldAt(s: State, k: Key, f: Frame) { k in s.leaves && !s.leaves[k].nopmm && s.leaves[k].frame == f }

  /** References on f that no entry accounts for, added by one event: a frame whose
      mapping failed, a frame whose entry was overwritten, a page a fork counted but
      could not map, and what the kernel takes or drops itself. */
  ghost function Unaccounted(s: State, ev: Event, f: Frame): int {
    match ev
    case MapPage(k, p, _, ok) => if ok then (if HeldAt(s, k, f) then 1 else 0) else if f == p.frame then 1 else 0
    case MapDevicePage(k, _, ok) => if ok && HeldAt(s, k, f) then 1 else 0
    case ForkSpace(src, dst, fails) => if f in Leaked(s, src, USER_PAGES, fails) then 1 else 0
    case KernelTake(g, _) => if f == g then 1 else 0
    case KernelDrop(g) => if f == g then -1 else 0
    case _ => 0
  }

  lemma SetLeafCounts(s: State, t: State, k: Key, p: Pte, f: Frame)
    requires t.leaves == s.leaves[k := p]
    ensures |Mappers(t, f)| == |Mappers(s, f)| - (if HeldAt(s, k, f) then 1 else 0) + (if !p.nopmm && p.frame == f then 1 else 0)
  {
    MappersAfterSet(s, t, k, p, f);
    assert HeldAt(s, k, f) <==> k in Mappers(s, f);
    assert Mappers(t, f) - {k} == Mappers(s, f) - {k};
  }

  lemma MapFreshLedger(s: State, k: Key, p: Pte, content: Bytes, ok: bool, f: Frame)
    requires Inv(s) && FreshOk(s, k, p, content) && f < |s.refs|
    ensures Extra(MapFresh(s, k, p, content, ok), f) == Extra(s, f) + Unaccounted(s, MapPage(k, p, content, ok), f)
  {
    hide Inv;
    var t := MapFresh(s, k, p, content, ok);
    FreeIsUnmapped(s, p.frame);
    if ok { SetLeafCounts(s, t, k, p, f); } else { assert Mappers(t, f) == Mappers(s, f); }
    assert Mappers(s, p.frame) == {};
  }

  lemma MapDeviceLedger(s: State, k: Key, p: Pte, ok: bool, f: Frame)
    requires Inv(s) && DeviceOk(s, k, p) && f < |s.refs|
    ensures Extra(MapDevice(s, k, p, ok), f) == Extra(s, f) + Unaccounted(s, MapDevicePage(k, p, ok), f)
  {
    hide Inv;
    if ok { SetLeafCounts(s, MapDevice(s, k, p, ok), k, p, f); }
  }

  /** A fault moves references between frames and entries together. */
  lemma FaultLedger(s: State, k: Key, spare: Option<Frame>, f: Frame)
    requires Inv(s) && f < |s.refs|
    ensures |Fault(s, k, spare).0.refs| == |s.refs| && Extra(Fault(s, k, spare).0, f) == Extra(s, f)
  {
    hide Inv;
    RefsPositive(s, k);
    if CowEntry(s, k) {
      var p, t := s.leaves[k], Fault(s, k, spare).0;
      var up := p.(writable := true, cow := false);
      if s.refs[p.frame] == 1 {
        SetLeafCounts(s, t, k, up, f);
      } else if spare.Some? && Free(s, spare.value) {
        FreeIsUnmapped(s, spare.value);
        SetLeafCounts(s, t, k, up.(frame := spare.value), f);
        assert Mappers(s, spare.value) == {};
      }
    }
  }

  lemma PokeLedger(s: State, g: Frame, off: nat, b: byte, f: Frame)
    requires g < |s.data| && off < |s.data[g]| && f < |s.refs|
    ensures Extra(Poke(s, g, off, b), f) == Extra(s, f)
  {
    assert Mappers(Poke(s, g, off, b), f) == Mappers(s, f);
  }

  lemma WriteLedger(s: State, k: Key, off: nat, b: byte, spare: Option<Frame>, f: Frame)
    requires Inv(s) && off < PAGE_SIZE && f < |s.refs|
    ensures var t := Write(s, k, off, b, spare).0; |t.refs| == |s.refs| && Extra(t, f) == Extra(s, f)
  {
    hide Inv, Fault, Extra;
    if Stores(s, k) {
      PokeLedger(s, s.leaves[k].frame, off, b, f);
    } else {
      FaultLedger(s, k, spare, f);
      var r := Fault(s, k, spare);
      if r.1 && Stores(r.0, k) { PokeLedger(r.0, r.0.leaves[k].frame, off, b, f); }
    }
  }

  lemma UnmapLedger(s: State, k: Key, f: Frame)
    requires Inv(s) && f < |s.refs|
    ensures |Unmap(s, k).refs| == |s.refs| && Extra(Unmap(s, k), f) == Extra(s, f)
  {
    hide Inv;
    RefsPositive(s, k);
    if k in s.leaves { MappersAfterRemove(s, Unmap(s, k), k, f); }
  }

  lemma CloneLedger(s: State, src: Space, dst: Space, fails: set<VPage>, f: Frame)
    requires Forkable(s, src, dst) && f < |s.refs|
    ensures var t := Clone(s, src, dst, fails);
      |t.refs| == |s.refs| && Extra(t, f) == Extra(s, f) + if f in Leaked(s, src, USER_PAGES, fails) then 1 else 0
  {
    hide Inv, CloneTo;
    var c := Create(s, dst);
    ForkStarts(s, src, dst);
    CloneExtra(c, src, dst, USER_PAGES, fails, f);
    assert Mappers(c, f) == Mappers(s, f);
    assert Leaked(c, src, USER_PAGES, fails) == Leaked(s, src, USER_PAGES, fails);
    CloneSize(c, src, dst, fails);
  }

  lemma CloneSize(c: State, src: Space, dst: Space, fails: set<VPage>)
    ensures |CloneTo(c, src, dst, USER_PAGES, fails).refs| == |c.refs|
  {
  }

  lemma DestroyLedger(s: State, r: Space, f: Frame)
    requires Inv(s) && f < |s.refs|
    ensures |Destroy(s, r).refs| == |s.refs| && Extra(Destroy(s, r), f) == Extra(s, f)
  {
    DestroyKeepsInv(s, r, USER_PAGES);
    assert Mappers(Destroy(s, r), f) == Mappers(DestroyTo(s, r, USER_PAGES), f);
  }

  /** One event adds exactly its unaccounted references, on every frame. */
  lemma StepLedger(s: State, ev: Event, f: Frame)
    requires Inv(s) && Enabled(s, ev) && f < |s.refs|
    ensures var t := Step(s, ev).0; |t.refs| == |s.refs| && Extra(t, f) == Extra(s, f) + Unaccounted(s, ev, f)
  {
    hide Inv, Fault, Clone, Destroy;
    match ev
    case NewSpace(r) => assert Mappers(Create(s, r), f) == Mappers(s, f);
    case MapPage(k, p, content, ok) => MapFreshLedger(s, k, p, content, ok, f);
    case MapDevicePage(k, p, ok) => MapDeviceLedger(s, k, p, ok, f);
    case UnmapPage(k) => UnmapLedger(s, k, f);
    case ForkSpace(src, dst, fails) => CloneLedger(s, src, dst, fails, f);
    case UserWrite(k, off, b, spare) => WriteLedger(s, k, off, b, spare, f);
    case DestroySpace(r) => DestroyLedger(s, r, f);
    case KernelTake(g, content) => assert Mappers(Take(s, g, content), f) == Mappers(s, f);
    case KernelDrop(g) => assert Mappers(Drop(s, g), f) == Mappers(s, f);
  }

  // ----- Runs

  ghost function Ledger(s: State, evs: seq<Event>, f: Frame): int
    requires Inv(s) && Legal(s, evs)
    decreases |evs|
  {
    if evs == [] then 0 else StepKeepsInv(s, evs[0]); Unaccounted(s, evs[0], f) + Ledger(Step(s, evs[0]).0, evs[1..], f)
  }

  /** Over every run, the count of a frame is the number of its entries plus what the
      ledger says, nothing more and nothing less. */
  lemma {:induction false} EveryReferenceAccounted(s: State, evs: seq<Event>, f: Frame)
    requires Inv(s) && Legal(s, evs) && f < |s.refs|
    ensures var t := Exec(s, evs).0;
      |t.refs| == |s.refs| && t.refs[f] == |Mappers(t, f)| + Extra(s, f) + Ledger(s, evs, f)
    decreases |evs|
  {
    hide Inv, Step, Unaccounted, Enabled;
    if evs != [] {
      StepKeepsInv(s, evs[0]);
      StepLedger(s, evs[0], f);
      EveryReferenceAccounted(Step(s, evs[0]).0, evs[1..], f);
    }
  }

  /** An event that loses no reference: its mappings succeed, on absent entries. */
  ghost predicate Lossless(s: State, ev: Event) {
    match ev
    case MapPage(k, _, _, ok) => ok && (k in s.leaves ==> s.leaves[k].nopmm)
    case MapDevicePage(k, _, ok) => ok && k in s.leaves ==> s.leaves[k].nopmm
    case ForkSpace(src, _, fails) => forall k: Key | k in s.leaves && k.0 == src && k.1 in fails :: s.leaves[k].nopmm
    case _ => true
  }

  ghost predicate NoKernel(evs: seq<Event>) { forall ev | ev in evs :: !ev.KernelTake? && !ev.KernelDrop? }

  ghost predicate AllLossless(s: State, evs: seq<Event>)
    requires Inv(s) && Legal(s, evs)
    decreases |evs|
  {
    evs == [] || (Lossless(s, evs[0]) && (StepKeepsInv(s, evs[0]); AllLossless(Step(s, evs[0]).0, evs[1..])))
  }

  /** Counts are exact: each frame has one reference per entry. */
  ghost predicate Exact(s: State) { forall f | 0 <= f < |s.refs| :: Extra(s, f) == 0 }

  /** An event with a loss shows it on some frame, and one without on none. */
  lemma LossShows(s: State, ev: Event)
    requires Inv(s) && Enabled(s, ev) && !ev.KernelTake? && !ev.KernelDrop?
    ensures forall f: Frame :: Unaccounted(s, ev, f) >= 0
    ensures Lossless(s, ev) ==> forall f: Frame :: Unaccounted(s, ev, f) == 0
    ensures !Lossless(s, ev) ==> exists f: Frame :: f < |s.refs| && Unaccounted(s, ev, f) == 1
  {
    hide Inv;
    match ev
    case MapPage(k, p, _, ok) =>
      RefsPositive(s, k);
      if !ok { assert Unaccounted(s, ev, p.frame) == 1; }
      else if k in s.leaves && !s.leaves[k].nopmm { assert Unaccounted(s, ev, s.leaves[k].frame) == 1; }
    case MapDevicePage(k, p, ok) =>
      RefsPositive(s, k);
      if ok && k in s.leaves && !s.leaves[k].nopmm { assert Unaccounted(s, ev, s.leaves[k].frame) == 1; }
    case ForkSpace(src, dst, fails) =>
      if k: Key :| k in s.leaves && k.0 == src && k.1 in fails && !s.leaves[k].nopmm {
        RefsPositive(s, k);
        assert s.leaves[k].frame in Leaked(s, src, USER_PAGES, fails);
        assert Unaccounted(s, ev, s.leaves[k].frame) == 1;
      }
    case _ =>
  }

  lemma {:induction false} LedgerGrows(s: State, evs: seq<Event>, f: Frame)
    requires Inv(s) && Legal(s, evs) && NoKernel(evs)
    ensures Ledger(s, evs, f) >= 0
    decreases |evs|
  {
    hide Inv, Step, Unaccounted, Enabled;
    if evs != [] {
      StepKeepsInv(s, evs[0]);
      assert evs[0] in evs;
      LossShows(s, evs[0]);
      assert NoKernel(evs[1..]);
      LedgerGrows(Step(s, evs[0]).0, evs[1..], f);
    }
  }

  /** From exact counts, a run of user operations ends with exact counts if and only if
      none of its events maps over a present page or fails to map one. */
  lemma {:induction false} ExactIffLossless(s: State, evs: seq<Event>)
    requires Inv(s) && Legal(s, evs) && NoKernel(evs) && Exact(s)
    ensures Exact(Exec(s, evs).0) <==> AllLossless(s, evs)
    decreases |evs|
  {
    hide Inv, Step, Unaccounted, Enabled, Lossless, Extra;
    if evs != [] {
      var ev := evs[0];
      StepKeepsInv(s, ev);
      assert ev in evs && NoKernel(evs[1..]);
      LossShows(s, ev);
      var t := Step(s, ev).0;
      StepSize(s, ev);
      forall f | 0 <= f < |s.refs| ensures Extra(t, f) == Unaccounted(s, ev, f) { StepLedger(s, ev, f); }
      if Lossless(s, ev) {
        ExactIffLossless(t, evs[1..]);
      } else {
        var f: Frame :| f < |s.refs| && Unaccounted(s, ev, f) == 1;
        LedgerGrows(t, evs[1..], f);
        RunExtra(t, evs[1..], f);
      }
    }
  }

  lemma StepSize(s: State, ev: Event)
    requires Inv(s) && Enabled(s, ev)
    ensures |Step(s, ev).0.refs| == |s.refs|
  {
    hide Inv, Extra, Unaccounted, Step, Enabled;
    if |s.refs| > 0 { StepLedger(s, ev, 0); } else { StepSizeEmpty(s, ev); }
  }

  lemma StepSizeEmpty(s: State, ev: Event)
    requires Inv(s) && Enabled(s, ev) && |s.refs| == 0
    ensures |Step(s, ev).0.refs| == 0
  {
    hide Inv, Mappers, FramesBelow, ClonedLeaves;
  }

  lemma RunExtra(s: State, evs: seq<Event>, f: Frame)
    requires Inv(s) && Legal(s, evs) && f < |s.refs|
    ensures var t := Exec(s, evs).0; |t.refs| == |s.refs| && Extra(t, f) == Extra(s, f) + Ledger(s, evs, f)
  {
    hide Inv, Legal, Exec, Ledger;
    EveryReferenceAccounted(s, evs, f);
  }

  /** With exact counts and nothing mapped, every frame is free. */
  lemma NothingHeld(s: State, f: Frame)
    requires Exact(s) && s.leaves == map[] && f < |s.refs|
    ensures s.refs[f] == 0
  {
    assert Extra(s, f) == 0;
    assert Mappers(s, f) == {};
  }
}
