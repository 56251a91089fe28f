/** The slab allocator without pointers: which chunks of which pages are free, and
    which list every slab is on. */
module SlabPool {
  import opened Sequences
  import opened Types

  const CACHES: nat := 8
  const HEADER: nat := 64

  function ObjSize(c: nat): nat
    requires c < CACHES
  {
    if c == 0 then 16 else if c == 1 then 32 else if c == 2 then 64 else if c == 3 then 128
    else if c == 4 then 256 else if c == 5 then 512 else if c == 6 then 1024 else 2048
  }

  /** Chunks of one page: what fits behind the 16-aligned header. */
  function Total(c: nat): (n: nat)
    requires c < CACHES
    ensures n >= 1
  {
    (PAGE_SIZE - HEADER) / ObjSize(c)
  }

  function ChunkAt(page: nat, c: nat, j: nat): nat
    requires c < CACHES
  {
    page + HEADER + j * ObjSize(c)
  }

  ghost predicate IsChunk(page: nat, c: nat, a: nat)
    requires c < CACHES
  {
    exists j: nat :: j < Total(c) && a == ChunkAt(page, c, j)
  }

  datatype Slab = Slab(cache: nat, free: seq<nat>)

  datatype Pool = Pool(slabs: map<nat, Slab>, partial: seq<seq<nat>>, full: seq<seq<nat>>, live: set<nat>)

  /** The page of an address, by masking its low 12 bits. */
  function PageOf(a: nat): nat { a / PAGE_SIZE * PAGE_SIZE }

  /** A slab's page is aligned; each of its chunks is either free or live; and the
      free list has each free chunk once. */
  ghost predicate SlabOk(m: Pool, p: nat)
    requires p in m.slabs
  {
    var s := m.slabs[p];
    && s.cache < CACHES && p % PAGE_SIZE == 0 && p > 0
    && NoDup(s.free)
    && (forall a | a in s.free :: IsChunk(p, s.cache, a) && a !in m.live)
    && (forall a | IsChunk(p, s.cache, a) :: a in m.live || a in s.free)
  }

  /** Full slabs have no free chunk, partial slabs some but not all. */
  ghost predicate ListedOk(m: Pool, p: nat)
    requires p in m.slabs && |m.partial| == |m.full| == CACHES
  {
    var s := m.slabs[p];
    s.cache < CACHES &&
    if s.free == [] then p in m.full[s.cache] && p !in m.partial[s.cache]
    else |s.free| < Total(s.cache) && p in m.partial[s.cache] && p !in m.full[s.cache]
  }

  ghost predicate ListOk(m: Pool, q: seq<nat>, c: nat) {
    NoDup(q) && forall y | y in q :: y in m.slabs && m.slabs[y].cache == c
  }

  ghost predicate LiveOk(m: Pool, a: nat) {
    PageOf(a) in m.slabs && m.slabs[PageOf(a)].cache < CACHES && IsChunk(PageOf(a), m.slabs[PageOf(a)].cache, a)
  }

  ghost predicate ChunksOk(m: Pool) {
    && (forall p {:trigger SlabOk(m, p)} | p in m.slabs :: SlabOk(m, p))
    && (forall a {:trigger LiveOk(m, a)} | a in m.live :: LiveOk(m, a))
  }

  ghost predicate ListsOk(m: Pool) {
    && |m.partial| == |m.full| == CACHES
    && (forall c: nat {:trigger ListOk(m, m.partial[c], c)} | c < CACHES :: ListOk(m, m.partial[c], c))
    && (forall c: nat {:trigger ListOk(m, m.full[c], c)} | c < CACHES :: ListOk(m, m.full[c], c))
  }

  ghost predicate PoolOk(m: Pool) {
    && ChunksOk(m) && ListsOk(m)
    && (forall p {:trigger ListedOk(m, p)} | p in m.slabs :: ListedOk(m, p))
  }

  // ----- Chunks

  lemma TotalFits(c: nat)
    requires c < CACHES
    ensures Total(c) * ObjSize(c) <= PAGE_SIZE - HEADER && ObjSize(c) % 16 == 0
  {
  }

  lemma AddAligned(x: nat, y: nat)
    requires x % 16 == 0 && y % 16 == 0
    ensures (x + y) % 16 == 0
  {
  }

  lemma {:induction false} Aligned(j: nat, size: nat)
    requires size % 16 == 0
    ensures j * size >= 0 && j * size % 16 == 0
  {
    if j > 0 {
      var x := (j - 1) * size;
      assert j * size == x + size;
      Aligned(j - 1, size);
      AddAligned(x, size);
    }
  }

  lemma {:induction false} Multiples(j: nat, n: nat, size: nat)
    requires j < n
    ensures j * size + size <= n * size
  {
    assert n * size == (n - 1) * size + size;
    if n > j + 1 { Multiples(j, n - 1, size); }
  }

  lemma ChunkFits(c: nat, j: nat)
    requires c < CACHES && j < Total(c)
    ensures HEADER + j * ObjSize(c) + ObjSize(c) <= PAGE_SIZE && (HEADER + j * ObjSize(c)) % 16 == 0
  {
    hide Total, ObjSize;
    TotalFits(c);
    Multiples(j, Total(c), ObjSize(c));
    Aligned(j, ObjSize(c));
  }

  lemma InPage(p: nat, d: nat)
    requires p % PAGE_SIZE == 0 && d < PAGE_SIZE
    ensures PageOf(p + d) == p && (p + d) % 16 == d % 16
  {
  }

  /** A chunk is 16-aligned, inside its page, and masking it finds the header. */
  lemma ChunkInPage(p: nat, c: nat, a: nat)
    requires c < CACHES && p % PAGE_SIZE == 0 && IsChunk(p, c, a)
    ensures PageOf(a) == p && p + HEADER <= a && a + ObjSize(c) <= p + PAGE_SIZE && a % 16 == 0
  {
    hide Total, ObjSize, PageOf;
    var j: nat :| j < Total(c) && a == ChunkAt(p, c, j);
    ChunkFits(c, j);
    Positive(c);
    var d := HEADER + j * ObjSize(c);
    assert a == p + d;
    InPage(p, d);
  }

  lemma Positive(c: nat)
    requires c < CACHES
    ensures ObjSize(c) >= 16
  {
  }

  lemma ChunksApart(p: nat, c: nat, i: nat, j: nat)
    requires c < CACHES && i < j
    ensures ChunkAt(p, c, i) + ObjSize(c) <= ChunkAt(p, c, j)
  {
    if c == 0 {} else if c == 1 {} else if c == 2 {} else if c == 3 {} else if c == 4 {} else if c == 5 {} else if c == 6 {} else {}
  }

  // ----- Counting chunks

  ghost function Chunks(p: nat, c: nat, n: nat): set<nat>
    requires c < CACHES
  {
    if n == 0 then {} else Chunks(p, c, n - 1) + {ChunkAt(p, c, n - 1)}
  }

  lemma {:induction false} ChunksAre(p: nat, c: nat, n: nat)
    requires c < CACHES
    ensures |Chunks(p, c, n)| == n
    ensures forall a :: a in Chunks(p, c, n) <==> exists j: nat :: j < n && a == ChunkAt(p, c, j)
  {
    hide ChunkAt;
    if n > 0 {
      ChunksAre(p, c, n - 1);
      forall j: nat | j < n - 1 ensures ChunkAt(p, c, j) != ChunkAt(p, c, n - 1) {
        ChunksApart(p, c, j, n - 1);
        Positive(c);
      }
    }
  }

  ghost function SetOf(q: seq<nat>): set<nat> { set a | a in q }

  lemma {:induction false} SetOfSize(q: seq<nat>)
    requires NoDup(q)
    ensures |SetOf(q)| == |q|
  {
    if q != [] {
      SetOfSize(q[1..]);
      assert SetOf(q) == SetOf(q[1..]) + {q[0]};
      assert q[0] !in q[1..];
    }
  }

  /** A slab has at most Total free chunks, and that many exactly when none is live. */
  lemma FreeCount(m: Pool, p: nat)
    requires p in m.slabs && SlabOk(m, p)
    ensures var s := m.slabs[p];
      && |s.free| <= Total(s.cache)
      && (|s.free| == Total(s.cache) <==> forall a | IsChunk(p, s.cache, a) :: a !in m.live)
  {
    hide Total;
    var s := m.slabs[p];
    var all, f := Chunks(p, s.cache, Total(s.cache)), SetOf(s.free);
    ChunksAre(p, s.cache, Total(s.cache));
    SetOfSize(s.free);
    assert f <= all;
    assert |all - f| == |all| - |f|;
    if |f| == |all| {
      assert all - f == {};
      forall a | IsChunk(p, s.cache, a) ensures a in s.free { assert a in all; assert a in f; }
    } else {
      assert all - f != {};
      var a :| a in all - f;
      assert IsChunk(p, s.cache, a) && a !in s.free;
    }
  }

  // ----- Operations

  /** The smallest cache that serves a request. */
  function CacheFor(size: nat): (r: Option<nat>)
    ensures r.Some? ==> r.value < CACHES && 0 < size <= ObjSize(r.value) && (r.value > 0 ==> size > ObjSize(r.value - 1))
    ensures r.None? <==> size == 0 || size > 2048
  {
    if size == 0 || size > 2048 then None
    else if size <= 16 then Some(0) else if size <= 32 then Some(1) else if size <= 64 then Some(2) else if size <= 128 then Some(3)
    else if size <= 256 then Some(4) else if size <= 512 then Some(5) else if size <= 1024 then Some(6) else Some(7)
  }

  /** The free list of a new slab: chunks are pushed in address order. */
  function FreshChunks(p: nat, c: nat, n: nat): seq<nat>
    requires c < CACHES
  {
    if n == 0 then [] else [ChunkAt(p, c, n - 1)] + FreshChunks(p, c, n - 1)
  }

  function AddSlab(m: Pool, c: nat, p: nat): Pool
    requires c < CACHES == |m.partial|
  {
    m.(slabs := m.slabs[p := Slab(c, FreshChunks(p, c, Total(c)))], partial := m.partial[c := [p] + m.partial[c]])
  }

  predicate Poppable(m: Pool, p: nat) {
    p in m.slabs && m.slabs[p].free != [] && m.slabs[p].cache < CACHES == |m.partial| == |m.full|
  }

  function PopChunk(m: Pool, p: nat): (Pool, nat)
    requires Poppable(m, p)
  {
    var s := m.slabs[p];
    var c, rest := s.cache, s.free[1..];
    var n := m.(slabs := m.slabs[p := Slab(c, rest)], live := m.live + {s.free[0]});
    (if rest == [] then n.(partial := m.partial[c := Remove(m.partial[c], p)], full := m.full[c := [p] + m.full[c]]) else n,
     s.free[0])
  }

  /** kmalloc; `page` is what the page allocator would hand out. */
  function Kmalloc(m: Pool, size: nat, page: Option<nat>): (Pool, Option<nat>)
    requires |m.partial| == |m.full| == CACHES
  {
    var c := CacheFor(size);
    if c.None? || (m.partial[c.value] == [] && page.None?) then (m, None)
    else
      var n := if m.partial[c.value] == [] then AddSlab(m, c.value, page.value) else m;
      var p := n.partial[c.value][0];
      if Poppable(n, p) then (PopChunk(n, p).0, Some(PopChunk(n, p).1)) else (m, None)
  }

  /** kfree of a live chunk; the page goes back when it was the last one. */
  function Kfree(m: Pool, a: nat): (Pool, Option<nat>)
    requires PageOf(a) in m.slabs && m.slabs[PageOf(a)].cache < CACHES == |m.partial| == |m.full|
  {
    var p := PageOf(a);
    var s := m.slabs[p];
    var c := s.cache;
    var n := if s.free == [] then m.(full := m.full[c := Remove(m.full[c], p)], partial := m.partial[c := [p] + m.partial[c]]) else m;
    var free := [a] + s.free;
    if |free| == Total(c)
    then (n.(slabs := m.slabs - {p}, live := m.live - {a}, partial := n.partial[c := Remove(n.partial[c], p)]), Some(p))
    else (n.(slabs := m.slabs[p := Slab(c, free)], live := m.live - {a}), None)
  }

  // ----- Lists and chunk sequences

  lemma {:induction false} FreshAre(p: nat, c: nat, n: nat)
    requires c < CACHES
    ensures |FreshChunks(p, c, n)| == n && NoDup(FreshChunks(p, c, n))
    ensures forall a :: a in FreshChunks(p, c, n) <==> exists j: nat :: j < n && a == ChunkAt(p, c, j)
  {
    hide ChunkAt;
    if n > 0 {
      FreshAre(p, c, n - 1);
      var r := FreshChunks(p, c, n - 1);
      forall j: nat | j < n - 1 ensures ChunkAt(p, c, j) != ChunkAt(p, c, n - 1) {
        ChunksApart(p, c, j, n - 1);
        Positive(c);
      }
      assert ChunkAt(p, c, n - 1) !in r;
      assert forall a :: a in [ChunkAt(p, c, n - 1)] + r <==> a == ChunkAt(p, c, n - 1) || a in r;
    }
  }

  /** Chunks of different slabs are different. */
  lemma OwnPage(m: Pool, p: nat, a: nat)
    requires p in m.slabs && SlabOk(m, p) && IsChunk(p, m.slabs[p].cache, a)
    ensures PageOf(a) == p
  {
    ChunkInPage(p, m.slabs[p].cache, a);
  }

  // ----- kmalloc

  lemma AddSlabChunks(m: Pool, c: nat, p: nat)
    requires ChunksOk(m) && c < CACHES == |m.partial| && p !in m.slabs && p > 0 && p % PAGE_SIZE == 0
    ensures ChunksOk(AddSlab(m, c, p))
  {
    hide Total, ChunkAt;
    var n := AddSlab(m, c, p);
    FreshAre(p, c, Total(c));
    forall a | IsChunk(p, c, a) ensures a !in m.live {
      ChunkInPage(p, c, a);
      assert a in m.live ==> LiveOk(m, a);
    }
    forall q | q in n.slabs ensures SlabOk(n, q) { if q != p { assert SlabOk(m, q); } }
    forall a | a in n.live ensures LiveOk(n, a) { assert LiveOk(m, a); }
  }

  lemma PopChunks(m: Pool, p: nat)
    requires ChunksOk(m) && Poppable(m, p)
    ensures ChunksOk(PopChunk(m, p).0) && PopChunk(m, p).1 !in m.live && IsChunk(p, m.slabs[p].cache, PopChunk(m, p).1)
  {
    hide Total, ChunkAt, IsChunk;
    var n, x := PopChunk(m, p).0, PopChunk(m, p).1;
    assert SlabOk(m, p);
    assert x in m.slabs[p].free;
    OwnPage(m, p, x);
    forall q | q in n.slabs ensures SlabOk(n, q) {
      assert SlabOk(m, q);
      if q == p {
        assert forall a :: a in m.slabs[p].free <==> a == x || a in m.slabs[p].free[1..];
      } else {
        forall a | a in m.slabs[q].free ensures a != x { OwnPage(m, q, a); }
      }
    }
    forall a | a in n.live ensures LiveOk(n, a) { if a != x { assert LiveOk(m, a); } }
  }

  /** The slab that is about to give a chunk: on the partial list, any number free. */
  ghost predicate Target(m: Pool, p: nat) {
    && |m.partial| == |m.full| == CACHES && p in m.slabs && m.slabs[p].cache < CACHES && m.slabs[p].free != []
    && p in m.partial[m.slabs[p].cache] && p !in m.full[m.slabs[p].cache]
    && (forall q | q in m.slabs && q != p :: ListedOk(m, q))
  }

  lemma PopLists(m: Pool, p: nat)
    requires ChunksOk(m) && ListsOk(m) && Target(m, p)
    ensures ListsOk(PopChunk(m, p).0)
    ensures var n := PopChunk(m, p).0; forall q | q in n.slabs :: ListedOk(n, q)
  {
    hide Total, SlabOk, Remove;
    var n, c := PopChunk(m, p).0, m.slabs[p].cache;
    assert ListOk(m, m.partial[c], c) && ListOk(m, m.full[c], c);
    Removed(m.partial[c], p);
    FreeCount(m, p);
    forall d: nat | d < CACHES ensures ListOk(n, n.partial[d], d) && ListOk(n, n.full[d], d) {
      assert ListOk(m, m.partial[d], d) && ListOk(m, m.full[d], d);
    }
    forall q | q in n.slabs ensures ListedOk(n, q) {
      if q != p { assert ListedOk(m, q); }
    }
  }

  lemma KmallocReady(m: Pool)
    requires PoolOk(m)
    ensures forall c: nat | c < CACHES && m.partial[c] != [] ::
      Poppable(m, m.partial[c][0]) && m.slabs[m.partial[c][0]].cache == c && Target(m, m.partial[c][0])
  {
    hide Total, SlabOk;
    forall c: nat | c < CACHES && m.partial[c] != []
      ensures Poppable(m, m.partial[c][0]) && m.slabs[m.partial[c][0]].cache == c && Target(m, m.partial[c][0])
    {
      assert ListOk(m, m.partial[c], c) && m.partial[c][0] in m.partial[c];
      assert ListedOk(m, m.partial[c][0]);
    }
  }

  lemma AddSlabLists(m: Pool, c: nat, p: nat)
    requires PoolOk(m) && c < CACHES && p !in m.slabs
    ensures ListsOk(AddSlab(m, c, p)) && Target(AddSlab(m, c, p), p) && Poppable(AddSlab(m, c, p), p)
    ensures AddSlab(m, c, p).slabs[p].cache == c && AddSlab(m, c, p).partial[c] == [p] + m.partial[c]
  {
    hide SlabOk;
    var n := AddSlab(m, c, p);
    FreshAre(p, c, Total(c));
    assert ListOk(m, m.partial[c], c) && ListOk(m, m.full[c], c);
    forall d: nat | d < CACHES ensures ListOk(n, n.partial[d], d) && ListOk(n, n.full[d], d) {
      assert ListOk(m, m.partial[d], d) && ListOk(m, m.full[d], d);
    }
    forall q | q in n.slabs && q != p ensures ListedOk(n, q) { assert ListedOk(m, q); }
  }

  lemma PopOk(m: Pool, p: nat)
    requires ChunksOk(m) && ListsOk(m) && Target(m, p)
    ensures PoolOk(PopChunk(m, p).0)
  {
    hide ChunksOk, ListsOk, Remove;
    PopChunks(m, p);
    PopLists(m, p);
  }

  /** kmalloc keeps the pool, and returns a chunk that was not live, big enough,
      16-aligned, and in a page whose header says so; it fails only for sizes it
      does not serve or when no page can be had. */
  lemma KmallocOk(m: Pool, size: nat, page: Option<nat>)
    requires PoolOk(m) && (page.Some? ==> page.value !in m.slabs && page.value > 0 && page.value % PAGE_SIZE == 0)
    ensures var r := Kmalloc(m, size, page);
      && PoolOk(r.0)
      && (r.1.None? ==> r.0 == m && (size == 0 || size > 2048 || page.None?))
      && (r.1.Some? ==> r.1.value !in m.live && r.0.live == m.live + {r.1.value} && r.1.value % 16 == 0)
      && (r.1.Some? ==> var p := PageOf(r.1.value);
            p in r.0.slabs && r.0.slabs[p].cache < CACHES && size <= ObjSize(r.0.slabs[p].cache) && IsChunk(p, r.0.slabs[p].cache, r.1.value))
  {
    hide ListOk, Remove, ListedOk, Total, IsChunk;
    KmallocReady(m);
    var c := CacheFor(size);
    if c.Some? && (m.partial[c.value] != [] || page.Some?) {
      var n := if m.partial[c.value] != [] then m else AddSlab(m, c.value, page.value);
      var p := if m.partial[c.value] != [] then m.partial[c.value][0] else page.value;
      if m.partial[c.value] == [] {
        AddSlabChunks(m, c.value, page.value);
        AddSlabLists(m, c.value, page.value);
      }
      PopOk(n, p);
      PopChunks(n, p);
      assert SlabOk(n, p);
      ChunkInPage(p, n.slabs[p].cache, PopChunk(n, p).1);
    }
  }

  // ----- kfree

  lemma KfreeChunks(m: Pool, a: nat)
    requires PoolOk(m) && a in m.live
    ensures LiveOk(m, a) && SlabOk(m, PageOf(a))
    ensures ChunksOk(Kfree(m, a).0)
    ensures Kfree(m, a).1.Some? <==> forall x | IsChunk(PageOf(a), m.slabs[PageOf(a)].cache, x) && x != a :: x !in m.live
  {
    hide Total, ChunkAt, IsChunk, ListOk, ListedOk, Remove;
    assert LiveOk(m, a) && SlabOk(m, PageOf(a));
    var p, n := PageOf(a), Kfree(m, a).0;
    var s := m.slabs[p];
    var pushed := m.(slabs := m.slabs[p := Slab(s.cache, [a] + s.free)], live := m.live - {a});
    assert SlabOk(pushed, p) by {
      assert forall x :: x in [a] + s.free <==> x == a || x in s.free;
    }
    FreeCount(pushed, p);
    forall q | q in n.slabs ensures SlabOk(n, q) {
      assert SlabOk(m, q);
      if q != p { forall x | IsChunk(q, m.slabs[q].cache, x) ensures x != a { OwnPage(m, q, x); } }
    }
    forall x | x in n.live ensures LiveOk(n, x) {
      assert LiveOk(m, x);
    }
  }

  lemma KfreeLists(m: Pool, a: nat)
    requires PoolOk(m) && a in m.live
    ensures LiveOk(m, a)
    ensures ListsOk(Kfree(m, a).0)
    ensures var n := Kfree(m, a).0; forall q | q in n.slabs :: ListedOk(n, q)
  {
    hide ChunkAt, IsChunk, Remove, SlabOk, Total;
    assert LiveOk(m, a);
    var p, n, c := PageOf(a), Kfree(m, a).0, m.slabs[PageOf(a)].cache;
    assert ListOk(m, m.partial[c], c) && ListOk(m, m.full[c], c) && ListedOk(m, p);
    Removed(m.full[c], p);
    var q1 := if m.slabs[p].free == [] then [p] + m.partial[c] else m.partial[c];
    assert NoDup(q1) && forall y :: y in q1 <==> y in m.partial[c] || y == p;
    Removed(q1, p);
    RoomInSlab(m, a);
    forall d: nat | d < CACHES ensures ListOk(n, n.partial[d], d) && ListOk(n, n.full[d], d) {
      assert ListOk(m, m.partial[d], d) && ListOk(m, m.full[d], d);
    }
    forall q | q in n.slabs ensures ListedOk(n, q) {
      if q != p { assert ListedOk(m, q); }
    }
  }

  lemma RoomInSlab(m: Pool, a: nat)
    requires PoolOk(m) && a in m.live && LiveOk(m, a)
    ensures |m.slabs[PageOf(a)].free| < Total(m.slabs[PageOf(a)].cache)
  {
    assert SlabOk(m, PageOf(a));
    FreeCount(m, PageOf(a));
  }

  /** kfree keeps the pool, makes exactly that chunk dead, and returns the page
      exactly when no other chunk of it is live. */
  lemma KfreeOk(m: Pool, a: nat)
    requires PoolOk(m) && a in m.live
    ensures LiveOk(m, a)
    ensures var r := Kfree(m, a);
      && PoolOk(r.0) && r.0.live == m.live - {a}
      && (r.1.Some? ==> r.1.value == PageOf(a) && r.0.slabs.Keys == m.slabs.Keys - {PageOf(a)})
      && (r.1.None? ==> r.0.slabs.Keys == m.slabs.Keys)
      && (r.1.Some? <==> forall x | x in m.live && x != a :: PageOf(x) != PageOf(a))
  {
    hide ListsOk, Remove, ListedOk, Total, IsChunk;
    KfreeChunks(m, a);
    KfreeLists(m, a);
    var p := PageOf(a);
    forall x | x in m.live ensures PageOf(x) == p <==> IsChunk(p, m.slabs[p].cache, x) {
      assert LiveOk(m, x);
      if IsChunk(p, m.slabs[p].cache, x) { OwnPage(m, p, x); }
    }
  }

  /** Live chunks never overlap. */
  lemma LiveDisjoint(m: Pool, a: nat, b: nat)
    requires PoolOk(m) && a in m.live && b in m.live && a < b
    ensures LiveOk(m, a) && a + ObjSize(m.slabs[PageOf(a)].cache) <= b
  {
    hide Total, ObjSize;
    assert LiveOk(m, a) && LiveOk(m, b);
    var p, q := PageOf(a), PageOf(b);
    assert SlabOk(m, p) && SlabOk(m, q);
    var c := m.slabs[p].cache;
    ChunkInPage(p, c, a);
    if p == q {
      var i: nat :| i < Total(c) && a == ChunkAt(p, c, i);
      var j: nat :| j < Total(c) && b == ChunkAt(p, c, j);
      if i < j { ChunksApart(p, c, i, j); } else if j < i { ChunksApart(p, c, j, i); Positive(c); }
    }
  }
}
