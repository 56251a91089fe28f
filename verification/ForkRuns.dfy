/** Runs of the machine: every interleaving of what processes and the kernel do. */
module ForkRuns {
  import opened Types
  import opened CopyOnWrite
  import opened ForkAndDestroy
  import opened ForkRefinement
  import EagerFork

  /** One event.  The answers of the page allocator (`spare`, the frame in a new
      entry, `ok`, `fails`) are part of the event, so a run fixes them freely. */
  datatype Event =
    | NewSpace(r: Space)
    | MapPage(k: Key, p: Pte, content: Bytes, ok: bool)
    | MapDevicePage(k: Key, p: Pte, ok: bool)
    | UnmapPage(k: Key)
    | ForkSpace(src: Space, dst: Space, fails: set<VPage>)
    | UserWrite(k: Key, off: nat, b: byte, spare: Option<Frame>)
    | DestroySpace(r: Space)
    | KernelTake(f: Frame, content: Bytes)
    | KernelDrop(f: Frame)

  ghost predicate Enabled(s: State, ev: Event) {
    match ev
    case NewSpace(r) => r !in s.spaces
    case MapPage(k, p, content, _) => FreshOk(s, k, p, content)
    case MapDevicePage(k, p, _) => DeviceOk(s, k, p)
    case UnmapPage(_) => true
    case ForkSpace(src, dst, _) => src in s.spaces && dst !in s.spaces && RoomToClone(s, src)
    case UserWrite(_, off, _, _) => off < PAGE_SIZE
    case DestroySpace(_) => true
    case KernelTake(f, _) => Free(s, f)
    case KernelDrop(f) => f < |s.refs| && Extra(s, f) > 0
  }

  /** No allocation failed in this event. */
  ghost predicate Succeeds(s: State, ev: Event) {
    match ev
    case MapPage(_, _, _, ok) => ok
    case MapDevicePage(_, _, ok) => ok
    case ForkSpace(_, _, fails) => fails == {}
    case UserWrite(k, _, _, spare) => Served(s, k, spare)
    case _ => true
  }

  /** The machine's step, and what the process is told (killed or not). */
  ghost function Step(s: State, ev: Event): (State, bool)
    requires Inv(s) && Enabled(s, ev)
  {
    match ev
    case NewSpace(r) => (Create(s, r), true)
    case MapPage(k, p, content, ok) => (MapFresh(s, k, p, content, ok), true)
    case MapDevicePage(k, p, ok) => (MapDevice(s, k, p, ok), true)
    case UnmapPage(k) => (Unmap(s, k), true)
    case ForkSpace(src, dst, fails) => (Clone(s, src, dst, fails), true)
    case UserWrite(k, off, b, spare) => Write(s, k, off, b, spare)
    case DestroySpace(r) => (Destroy(s, r), true)
    case KernelTake(f, content) => (Take(s, f, content), true)
    case KernelDrop(f) => (Drop(s, f), true)
  }

  ghost function EagerStep(e: Eager, ev: Event): (Eager, bool) {
    match ev
    case NewSpace(r) => (e.(spaces := e.spaces + {r}), true)
    case MapPage(k, p, content, _) =>
      (if p.shared then EagerFork.MapAlias(e, k, p.frame, content, p.writable, p.attr)
       else EagerFork.MapPrivate(e, k, content, p.writable, p.attr), true)
    case MapDevicePage(k, p, _) => (EagerFork.MapDevice(e, k, p.frame, p.writable, p.attr), true)
    case UnmapPage(k) => (EagerFork.Remove(e, k), true)
    case ForkSpace(src, dst, _) => (EagerFork.Fork(e, src, dst), true)
    case UserWrite(k, off, b, _) => EagerFork.Store(e, k, off, b)
    case DestroySpace(r) => (EagerFork.Exit(e, r), true)
    case _ => (e, true)
  }

  /** Every event keeps the invariant, whether its allocations succeed or not. */
  lemma StepKeepsInv(s: State, ev: Event)
    requires Inv(s) && Enabled(s, ev)
    ensures Inv(Step(s, ev).0)
  {
    match ev
    case NewSpace(r) => NewSpaceKeepsInv(s, r);
    case MapPage(k, p, content, ok) => MapFreshKeepsInv(s, k, p, content, ok);
    case MapDevicePage(k, p, ok) => MapDeviceKeepsInv(s, k, p, ok);
    case UnmapPage(k) => UnmapKeepsInv(s, k);
    case ForkSpace(src, dst, fails) => ForkKeepsInv(s, src, dst, fails);
    case UserWrite(k, off, b, spare) => WriteKeepsInv(s, k, off, b, spare);
    case DestroySpace(r) => TeardownKeepsInv(s, r);
    case KernelTake(f, content) => TakeKeepsInv(s, f, content);
    case KernelDrop(f) => DropKeepsInv(s, f);
  }

  lemma TakeAgrees(s: State, e: Eager, f: Frame, content: Bytes)
    requires Inv(s) && Free(s, f) && Agree(s, e)
    ensures Agree(Take(s, f, content), e)
  {
    FreeIsUnmapped(s, f);
    forall k | k in s.leaves ensures Matches(Take(s, f, content), e, k) { assert Matches(s, e, k); }
  }

  lemma StepAgrees(s: State, e: Eager, ev: Event)
    requires Inv(s) && Enabled(s, ev) && Agree(s, e) && Succeeds(s, ev)
    ensures Agree(Step(s, ev).0, EagerStep(e, ev).0)
    ensures Step(s, ev).1 == EagerStep(e, ev).1
  {
    hide Inv, Fault, Clone, Destroy;
    match ev
    case NewSpace(r) =>
      forall k | k in s.leaves ensures Matches(Create(s, r), e.(spaces := e.spaces + {r}), k) { assert Matches(s, e, k); }
    case MapPage(k, p, content, ok) => MapFreshAgrees(s, e, k, p, content);
    case MapDevicePage(k, p, ok) => MapDeviceAgrees(s, e, k, p);
    case UnmapPage(k) => UnmapAgrees(s, e, k);
    case ForkSpace(src, dst, fails) => CloneAgrees(s, e, src, dst);
    case UserWrite(k, off, b, spare) => WriteAgrees(s, e, k, off, b, spare);
    case DestroySpace(r) => DestroyAgrees(s, e, r);
    case KernelTake(f, content) => TakeAgrees(s, e, f, content);
    case KernelDrop(f) =>
      forall k | k in s.leaves ensures Matches(Drop(s, f), e, k) { assert Matches(s, e, k); }
  }

  // ----- Whole runs

  ghost predicate Legal(s: State, evs: seq<Event>)
    requires Inv(s)
    decreases |evs|
  {
    evs == [] || (Enabled(s, evs[0]) && (StepKeepsInv(s, evs[0]); Legal(Step(s, evs[0]).0, evs[1..])))
  }

  /** The final state and what each event told its process. */
  ghost function Exec(s: State, evs: seq<Event>): (State, seq<bool>)
    requires Inv(s) && Legal(s, evs)
    decreases |evs|
  {
    if evs == [] then (s, [])
    else
      StepKeepsInv(s, evs[0]);
      var x := Step(s, evs[0]);
      var y := Exec(x.0, evs[1..]);
      (y.0, [x.1] + y.1)
  }

  ghost predicate AllSucceed(s: State, evs: seq<Event>)
    requires Inv(s) && Legal(s, evs)
    decreases |evs|
  {
    evs == [] || (Succeeds(s, evs[0]) && (StepKeepsInv(s, evs[0]); AllSucceed(Step(s, evs[0]).0, evs[1..])))
  }

  ghost function EagerExec(e: Eager, evs: seq<Event>): (Eager, seq<bool>)
    decreases |evs|
  {
    if evs == [] then (e, [])
    else
      var x := EagerStep(e, evs[0]);
      var y := EagerExec(x.0, evs[1..]);
      (y.0, [x.1] + y.1)
  }

  /** In every reachable state, after any failures: a mapped frame is never free,
      and a frame that some entry may privately write has no other entry. */
  lemma {:induction false} NoRunFreesOrLeaks(s: State, evs: seq<Event>)
    requires Inv(s) && Legal(s, evs)
    ensures var t := Exec(s, evs).0;
      && Inv(t)
      && (forall k | k in t.leaves && !t.leaves[k].nopmm ::
            t.leaves[k].frame < |t.refs| && 0 < |Mappers(t, t.leaves[k].frame)| <= t.refs[t.leaves[k].frame])
      && (forall k | k in t.leaves && t.leaves[k].writable && !Aliased(t.leaves[k]) ::
            Mappers(t, t.leaves[k].frame) == {k})
    decreases |evs|
  {
    if evs == [] {
      forall k | k in s.leaves && !s.leaves[k].nopmm
        ensures s.leaves[k].frame < |s.refs| && 0 < |Mappers(s, s.leaves[k].frame)| <= s.refs[s.leaves[k].frame]
      {
        RefsPositive(s, k);
      }
      forall k | k in s.leaves && s.leaves[k].writable && !Aliased(s.leaves[k])
        ensures Mappers(s, s.leaves[k].frame) == {k}
      {
        forall l | l in Mappers(s, s.leaves[k].frame) ensures l == k { assert PairOk(s, k, l); }
      }
    } else {
      StepKeepsInv(s, evs[0]);
      NoRunFreesOrLeaks(Step(s, evs[0]).0, evs[1..]);
    }
  }

  /** Over every run without a failed allocation, each process reads exactly what
      it would read if fork copied every private page at once, and the same
      stores are accepted or killed. */
  lemma {:induction false} LazyForkIsEagerFork(s: State, e: Eager, evs: seq<Event>)
    requires Inv(s) && Agree(s, e) && Legal(s, evs) && AllSucceed(s, evs)
    ensures Agree(Exec(s, evs).0, EagerExec(e, evs).0)
    ensures Exec(s, evs).1 == EagerExec(e, evs).1
    ensures forall k :: Read(Exec(s, evs).0, k) == EagerFork.Read(EagerExec(e, evs).0, k)
    decreases |evs|
  {
    if evs != [] {
      StepKeepsInv(s, evs[0]);
      StepAgrees(s, e, evs[0]);
      LazyForkIsEagerFork(Step(s, evs[0]).0, EagerStep(e, evs[0]).0, evs[1..]);
    } else {
      forall k ensures Read(s, k) == EagerFork.Read(e, k) { AgreeReads(s, e, k); }
    }
  }
}
