/** Any sequence of kmalloc and kfree calls. */
module SlabRuns {
  import opened Sequences
  import opened Types
  import opened SlabPool

  /** page is what the page allocator would hand out, if anything. */
  datatype Event = Allocate(size: nat, page: Option<nat>) | Free(a: nat)

  ghost predicate Enabled(m: Pool, e: Event) {
    match e
    case Allocate(_, page) => page.Some? ==> page.value !in m.slabs && page.value > 0 && page.value % PAGE_SIZE == 0
    case Free(a) => a in m.live
  }

  /** The next pool, the pages taken and the pages given back. */
  ghost function Step(m: Pool, e: Event): (Pool, multiset<nat>, multiset<nat>)
    requires PoolOk(m) && Enabled(m, e)
  {
    match e
    case Allocate(size, page) =>
      var n := Kmalloc(m, size, page).0;
      (n, multiset(n.slabs.Keys - m.slabs.Keys), multiset{})
    case Free(a) =>
      assert LiveOk(m, a);
      var r := Kfree(m, a);
      (r.0, multiset{}, if r.1.Some? then multiset{r.1.value} else multiset{})
  }

  lemma StepOk(m: Pool, e: Event)
    requires PoolOk(m) && Enabled(m, e)
    ensures var (n, taken, back) := Step(m, e); PoolOk(n) && multiset(n.slabs.Keys) + back == multiset(m.slabs.Keys) + taken
  {
    hide PoolOk, Kmalloc, Kfree, IsChunk;
    match e
    case Allocate(size, page) =>
      KmallocOk(m, size, page);
      KeepsSlabs(m, size, page);
    case Free(a) => KfreeOk(m, a);
  }

  lemma KeepsSlabs(m: Pool, size: nat, page: Option<nat>)
    requires PoolOk(m)
    ensures |m.partial| == |m.full| == CACHES && m.slabs.Keys <= Kmalloc(m, size, page).0.slabs.Keys
  {
    hide ChunksOk, ListedOk, ListOk, Total, Remove, FreshChunks;
  }

  ghost predicate Legal(m: Pool, es: seq<Event>)
    requires PoolOk(m)
    decreases |es|
  {
    es == [] || (Enabled(m, es[0]) && (StepOk(m, es[0]); Legal(Step(m, es[0]).0, es[1..])))
  }

  ghost function Run(m: Pool, es: seq<Event>): (Pool, multiset<nat>, multiset<nat>)
    requires PoolOk(m) && Legal(m, es)
    decreases |es|
  {
    if es == [] then (m, multiset{}, multiset{})
    else
      StepOk(m, es[0]);
      var a := Step(m, es[0]);
      var b := Run(a.0, es[1..]);
      (b.0, a.1 + b.1, a.2 + b.2)
  }

  /** Over every run the slab invariant holds and each page taken is either still a slab
      or was given back once. */
  lemma {:induction false} EveryPageOnce(m: Pool, es: seq<Event>)
    requires PoolOk(m) && Legal(m, es)
    ensures var (n, taken, back) := Run(m, es); PoolOk(n) && multiset(n.slabs.Keys) + back == multiset(m.slabs.Keys) + taken
    decreases |es|
  {
    hide PoolOk, Step, Enabled;
    if es != [] {
      StepOk(m, es[0]);
      var (a, taken, back) := Step(m, es[0]);
      EveryPageOnce(a, es[1..]);
      var (b, taken', back') := Run(a, es[1..]);
      AddUp(multiset(m.slabs.Keys), taken, back, multiset(a.slabs.Keys), taken', back', multiset(b.slabs.Keys));
    }
  }

  /** Once everything is freed, every page has been given back. */
  lemma AllGivenBack(m: Pool, es: seq<Event>)
    requires PoolOk(m) && Legal(m, es) && Run(m, es).0.live == {}
    ensures var (n, taken, back) := Run(m, es); n.slabs == map[] && back == multiset(m.slabs.Keys) + taken
  {
    hide PoolOk, Run;
    EveryPageOnce(m, es);
    var n := Run(m, es).0;
    forall p | p in n.slabs ensures exists a :: a in n.live { SlabInUse(n, p); }
    assert n.slabs.Keys == {};
  }

  /** A slab without live chunks is not kept. */
  lemma SlabInUse(m: Pool, p: nat)
    requires PoolOk(m) && p in m.slabs
    ensures exists a :: a in m.live && PageOf(a) == p
  {
    hide Total;
    assert SlabOk(m, p) && ListedOk(m, p);
    FreeCount(m, p);
    var c := m.slabs[p].cache;
    if m.slabs[p].free == [] {
      assert IsChunk(p, c, ChunkAt(p, c, 0));
      ChunkInPage(p, c, ChunkAt(p, c, 0));
    } else {
      var a :| IsChunk(p, c, a) && a in m.live;
      ChunkInPage(p, c, a);
    }
  }

  // ----- When a request is served, and from where

  /** No slab of cache c has a chunk left. */
  ghost predicate NoRoom(m: Pool, c: nat) {
    forall p | p in m.slabs && m.slabs[p].cache == c :: m.slabs[p].free == []
  }

  lemma NoRoomIs(m: Pool, c: nat)
    requires PoolOk(m) && c < CACHES
    ensures |m.partial| == CACHES && (m.partial[c] == [] <==> NoRoom(m, c))
  {
    hide SlabOk, Total;
    assert ListOk(m, m.partial[c], c);
    forall p | p in m.slabs && m.slabs[p].cache == c ensures m.slabs[p].free == [] <==> p !in m.partial[c] { assert ListedOk(m, p); }
    if m.partial[c] != [] { assert m.partial[c][0] in m.partial[c]; }
  }

  lemma NewSlabReady(m: Pool, c: nat, p: nat)
    requires PoolOk(m) && c < CACHES && p !in m.slabs
    ensures var n := AddSlab(m, c, p);
      && |n.partial| == CACHES && n.partial[c] == [p] + m.partial[c] && Poppable(n, p)
      && n.slabs[p].free[0] == p + 64 + ((PAGE_SIZE - 64) / ObjSize(c) - 1) * ObjSize(c)
  {
    AddSlabLists(m, c, p);
  }

  /** A request fails exactly for a size no cache serves, or when no slab of its cache has
      room and there is no page; a page is taken exactly when no slab has room, and then its
      highest chunk is handed out. */
  lemma KmallocExact(m: Pool, size: nat, page: Option<nat>)
    requires PoolOk(m) && (page.Some? ==> page.value !in m.slabs && page.value > 0 && page.value % PAGE_SIZE == 0)
    ensures var (n, r) := Kmalloc(m, size, page); var c := CacheFor(size);
      && (r.None? <==> c.None? || (NoRoom(m, c.value) && page.None?))
      && (r.Some? ==> n.slabs.Keys == m.slabs.Keys + if NoRoom(m, c.value) then {page.value} else {})
      && (r.Some? && NoRoom(m, c.value) ==> r.value == page.value + 64 + ((PAGE_SIZE - 64) / ObjSize(c.value) - 1) * ObjSize(c.value))
  {
    hide Remove, ListedOk, IsChunk, ObjSize;
    KmallocReady(m);
    var c := CacheFor(size);
    if c.Some? {
      NoRoomIs(m, c.value);
      if m.partial[c.value] == [] && page.Some? { NewSlabReady(m, c.value, page.value); }
    }
  }

  /** Pushing back the chunk just popped. */
  lemma PushUndoesPop(m: Pool, p: nat)
    requires Poppable(m, p) && PageOf(m.slabs[p].free[0]) == p
    ensures var (n, a) := PopChunk(m, p);
      && PageOf(a) in n.slabs && n.slabs[PageOf(a)].cache < CACHES == |n.partial| == |n.full|
      && var (u, gone) := Kfree(n, a); var last := |m.slabs[p].free| == Total(m.slabs[p].cache);
         u.slabs == (if last then m.slabs - {p} else m.slabs) && gone == if last then Some(p) else None
  {
    hide Remove, Total, PageOf;
    var s := m.slabs[p];
    assert [s.free[0]] + s.free[1..] == s.free;
    var n := PopChunk(m, p).0;
    assert n.slabs[p := s] == m.slabs && n.slabs - {p} == m.slabs - {p};
  }

  /** The slab a request is served from, when no slab has to be added. */
  lemma ServingSlab(m: Pool, c: nat)
    requires PoolOk(m) && c < CACHES && m.partial[c] != []
    ensures var p := m.partial[c][0]; Poppable(m, p) && PageOf(m.slabs[p].free[0]) == p && |m.slabs[p].free| < Total(m.slabs[p].cache)
  {
    hide Total;
    KmallocReady(m);
    var p := m.partial[c][0];
    assert ListedOk(m, p) && SlabOk(m, p);
    ChunkInPage(p, m.slabs[p].cache, m.slabs[p].free[0]);
  }

  lemma AddedSlab(m: Pool, c: nat, p: nat)
    requires PoolOk(m) && c < CACHES && p !in m.slabs && p > 0 && p % PAGE_SIZE == 0
    ensures var n := AddSlab(m, c, p);
      && |n.partial| == CACHES && n.partial[c] == [p] + m.partial[c] && Poppable(n, p) && n.slabs - {p} == m.slabs
      && PageOf(n.slabs[p].free[0]) == p && |n.slabs[p].free| == Total(n.slabs[p].cache)
  {
    hide Total;
    AddSlabLists(m, c, p);
    FreshAre(p, c, Total(c));
    var n := AddSlab(m, c, p);
    assert n.slabs[p].free[0] in n.slabs[p].free;
    assert IsChunk(p, c, n.slabs[p].free[0]);
    ChunkInPage(p, c, n.slabs[p].free[0]);
  }

  /** Freeing what a request got undoes it: the same chunks are live, and every slab has the
      same free list; the page the request took, if it did, is given back. */
  lemma KfreeUndoesKmalloc(m: Pool, size: nat, page: Option<nat>)
    requires PoolOk(m) && (page.Some? ==> page.value !in m.slabs && page.value > 0 && page.value % PAGE_SIZE == 0)
    requires Kmalloc(m, size, page).1.Some?
    ensures var (n, r) := Kmalloc(m, size, page);
      && PoolOk(n) && r.value in n.live && LiveOk(n, r.value)
      && var (u, gone) := Kfree(n, r.value);
         PoolOk(u) && u.live == m.live && u.slabs == m.slabs && gone == if NoRoom(m, CacheFor(size).value) then page else None
  {
    KmallocOk(m, size, page);
    var (n, r) := Kmalloc(m, size, page);
    KfreeOk(n, r.value);
    hide PoolOk, Kfree, PopChunk, AddSlab, NoRoom, PageOf, Total, LiveOk;
    var c := CacheFor(size).value;
    NoRoomIs(m, c);
    if m.partial[c] == [] {
      AddedSlab(m, c, page.value);
      PushUndoesPop(AddSlab(m, c, page.value), page.value);
    } else {
      ServingSlab(m, c);
      PushUndoesPop(m, m.partial[c][0]);
    }
  }
}
