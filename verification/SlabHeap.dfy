/** Doubly linked lists of slab headers, changed by pointer writes. */
module SlabLinks {
  import opened Sequences
  import opened SlabPool

  datatype SlabHeader = SlabHeader(next: nat, prev: nat, cache: nat, freeList: nat, freeChunks: nat, totalChunks: nat)

  type Headers = map<nat, SlabHeader>

  ghost predicate NodeOk(hdr: Headers, q: seq<nat>, i: nat)
    requires i < |q|
  {
    q[i] != 0 && q[i] in hdr && hdr[q[i]].next == After(q, i) && hdr[q[i]].prev == Before(q, i)
  }

  /** The headers from `head` on are exactly the list q, in both directions. */
  ghost predicate Dll(hdr: Headers, head: nat, q: seq<nat>) {
    head == First(q) && NoDup(q) && forall i: nat {:trigger NodeOk(hdr, q, i)} | i < |q| :: NodeOk(hdr, q, i)
  }

  /** The writes of list_remove to the headers. */
  function Unlink(hdr: Headers, s: nat): Headers
    requires s in hdr
  {
    var p := hdr[s].prev;
    var h := if p != 0 && p in hdr then hdr[p := hdr[p].(next := hdr[s].next)] else hdr;
    var n := h[s].next;
    if n != 0 && n in h then h[n := h[n].(prev := h[s].prev)] else h
  }

  /** The writes of list_add to the headers. */
  function Link(hdr: Headers, head: nat, s: nat): Headers
    requires s in hdr
  {
    var h := hdr[s := hdr[s].(next := head, prev := 0)];
    if head != 0 && head in h then h[head := h[head].(prev := s)] else h
  }

  /** Only the link fields of listed headers change. */
  ghost predicate SameInfo(h: Headers, g: Headers) {
    h.Keys == g.Keys && forall p | p in h :: g[p].(next := 0, prev := 0) == h[p].(next := 0, prev := 0)
  }

  lemma UnlinkReady(hdr: Headers, head: nat, q: seq<nat>, i: nat)
    requires Dll(hdr, head, q) && i < |q|
    ensures var s := q[i];
      s in hdr && (hdr[s].prev != 0 ==> hdr[s].prev in hdr) && (hdr[s].next != 0 ==> hdr[s].next in hdr)
    ensures SameInfo(hdr, Unlink(hdr, q[i]))
  {
    assert NodeOk(hdr, q, i);
    if i > 0 { assert NodeOk(hdr, q, i - 1); }
    if i + 1 < |q| { assert NodeOk(hdr, q, i + 1); }
  }

  lemma UnlinkNode(hdr: Headers, head: nat, q: seq<nat>, i: nat, j: nat)
    requires Dll(hdr, head, q) && i < |q| && j < |q| - 1
    ensures q[i] in hdr && NodeOk(Unlink(hdr, q[i]), q[..i] + q[i + 1..], j)
  {
    UnlinkReady(hdr, head, q, i);
    var k := if j < i then j else j + 1;
    var r := q[..i] + q[i + 1..];
    assert r[j] == q[k];
    assert NodeOk(hdr, q, k) && NodeOk(hdr, q, i);
    if i > 0 { assert NodeOk(hdr, q, i - 1); }
    if i + 1 < |q| { assert NodeOk(hdr, q, i + 1); }
  }

  /** list_remove takes exactly that slab out. */
  lemma UnlinkDll(hdr: Headers, head: nat, q: seq<nat>, i: nat)
    requires Dll(hdr, head, q) && i < |q|
    ensures q[i] in hdr && Dll(Unlink(hdr, q[i]), if head == q[i] then hdr[q[i]].next else head, q[..i] + q[i + 1..])
  {
    UnlinkReady(hdr, head, q, i);
    var r := q[..i] + q[i + 1..];
    forall j: nat | j < |r| ensures NodeOk(Unlink(hdr, q[i]), r, j) { UnlinkNode(hdr, head, q, i, j); }
    assert NodeOk(hdr, q, i);
    assert forall x | 0 <= x < |r| :: r[x] == q[if x < i then x else x + 1];
  }

  /** ... and leaves every other list alone. */
  lemma UnlinkOther(hdr: Headers, head: nat, q: seq<nat>, i: nat, head': nat, q': seq<nat>)
    requires Dll(hdr, head, q) && i < |q| && Dll(hdr, head', q') && forall x | x in q :: x !in q'
    ensures q[i] in hdr && Dll(Unlink(hdr, q[i]), head', q')
  {
    UnlinkReady(hdr, head, q, i);
    assert NodeOk(hdr, q, i);
    forall j: nat | j < |q'| ensures NodeOk(Unlink(hdr, q[i]), q', j) {
      assert NodeOk(hdr, q', j);
      assert q'[j] in q';
      assert i > 0 ==> q[i - 1] in q;
      assert i + 1 < |q| ==> q[i + 1] in q;
    }
  }

  /** list_add puts a slab at the head. */
  lemma LinkDll(hdr: Headers, head: nat, q: seq<nat>, s: nat)
    requires Dll(hdr, head, q) && s in hdr && s != 0 && s !in q
    ensures head != 0 ==> head in hdr
    ensures Dll(Link(hdr, head, s), s, [s] + q) && SameInfo(hdr, Link(hdr, head, s))
  {
    if q != [] { assert NodeOk(hdr, q, 0); }
    var h, r := Link(hdr, head, s), [s] + q;
    forall j: nat | j < |r| ensures NodeOk(h, r, j) { if j > 0 { assert NodeOk(hdr, q, j - 1); } }
  }

  lemma LinkOther(hdr: Headers, head: nat, q: seq<nat>, s: nat, head': nat, q': seq<nat>)
    requires Dll(hdr, head, q) && s in hdr && Dll(hdr, head', q') && s !in q' && forall x | x in q :: x !in q'
    ensures head != 0 ==> head in hdr
    ensures Dll(Link(hdr, head, s), head', q')
  {
    if q != [] { assert NodeOk(hdr, q, 0); }
    forall j: nat | j < |q'| ensures NodeOk(Link(hdr, head, s), q', j) {
      assert NodeOk(hdr, q', j);
      assert q'[j] in q';
    }
  }

  // ----- The free list inside a page

  ghost predicate ChainLink(link: map<nat, nat>, q: seq<nat>, i: nat)
    requires i < |q|
  {
    q[i] != 0 && q[i] in link && link[q[i]] == After(q, i)
  }

  ghost predicate Chain(link: map<nat, nat>, head: nat, q: seq<nat>) {
    head == First(q) && forall i: nat {:trigger ChainLink(link, q, i)} | i < |q| :: ChainLink(link, q, i)
  }

  lemma ChainPop(link: map<nat, nat>, head: nat, q: seq<nat>)
    requires Chain(link, head, q) && q != []
    ensures head == q[0] && head != 0 && head in link && Chain(link, link[head], q[1..])
  {
    assert ChainLink(link, q, 0);
    forall i: nat | i < |q[1..]| ensures ChainLink(link, q[1..], i) { assert ChainLink(link, q, i + 1); }
    if |q| > 1 { assert ChainLink(link, q, 1); }
  }

  lemma ChainPush(link: map<nat, nat>, head: nat, q: seq<nat>, a: nat)
    requires Chain(link, head, q) && a != 0 && a !in q
    ensures Chain(link[a := head], a, [a] + q)
  {
    var r, l := [a] + q, link[a := head];
    forall i: nat | i < |r| ensures ChainLink(l, r, i) { if i > 0 { assert ChainLink(link, q, i - 1); } }
  }
}

/** kmalloc and kfree as they run: headers, list heads and chunk links in place. */
module SlabHeap {
  import opened Sequences
  import opened SlabLinks
  import opened SlabPool
  import opened Types

  /** List heads: slabs_partial, slabs_free and slabs_full of each cache. */
  function PartialList(c: nat): nat { c }
  function FreeList(c: nat): nat { CACHES + c }
  function FullList(c: nat): nat { 2 * CACHES + c }

  const LISTS: nat := 24

  ghost predicate Disjoint(lists: seq<seq<nat>>, h: nat, g: nat)
    requires h < |lists| && g < |lists|
  {
    h != g ==> forall x | x in lists[h] :: x !in lists[g]
  }

  ghost predicate LinksOk(hdr: Headers, heads: seq<nat>, lists: seq<seq<nat>>) {
    && |heads| == |lists| == LISTS
    && (forall h: nat {:trigger Dll(hdr, heads[h], lists[h])} | h < LISTS :: Dll(hdr, heads[h], lists[h]))
    && (forall h: nat, g: nat {:trigger Disjoint(lists, h, g)} | h < LISTS && g < LISTS :: Disjoint(lists, h, g))
  }

  /** A slab's header tells the truth about its free list. */
  ghost predicate HeaderOk(hdr: Headers, link: map<nat, nat>, s: Slab, p: nat) {
    && p in hdr && hdr[p].cache == s.cache < CACHES && hdr[p].freeChunks == |s.free| && hdr[p].totalChunks == Total(s.cache)
    && Chain(link, hdr[p].freeList, s.free)
  }

  ghost predicate HeadersOk(hdr: Headers, link: map<nat, nat>, slabs: map<nat, Slab>) {
    forall p {:trigger HeaderOk(hdr, link, slabs[p], p)} | p in slabs :: HeaderOk(hdr, link, slabs[p], p)
  }

  ghost predicate ListsAre(lists: seq<seq<nat>>, m: Pool) {
    && |lists| == LISTS && |m.partial| == |m.full| == CACHES
    && forall c: nat | c < CACHES ::
      lists[PartialList(c)] == m.partial[c] && lists[FreeList(c)] == [] && lists[FullList(c)] == m.full[c]
  }

  lemma SameInfoHeaders(hdr: Headers, g: Headers, link: map<nat, nat>, slabs: map<nat, Slab>)
    requires HeadersOk(hdr, link, slabs) && SameInfo(hdr, g)
    ensures HeadersOk(g, link, slabs)
  {
    hide Total, Chain;
    forall p | p in slabs ensures HeaderOk(g, link, slabs[p], p) {
      assert HeaderOk(hdr, link, slabs[p], p);
      assert g[p].(next := 0, prev := 0) == hdr[p].(next := 0, prev := 0);
    }
  }

  lemma UnlinkLinks(hdr: Headers, heads: seq<nat>, lists: seq<seq<nat>>, h: nat, s: nat)
    requires LinksOk(hdr, heads, lists) && h < LISTS && s in lists[h]
    ensures s in hdr && SameInfo(hdr, Unlink(hdr, s))
    ensures LinksOk(Unlink(hdr, s), heads[h := if heads[h] == s then hdr[s].next else heads[h]], lists[h := Remove(lists[h], s)])
  {
    hide Dll, Unlink, SameInfo, Remove;
    var i: nat :| i < |lists[h]| && lists[h][i] == s;
    assert Dll(hdr, heads[h], lists[h]);
    DllNoDup(hdr, heads[h], lists[h]);
    UnlinkReady(hdr, heads[h], lists[h], i);
    UnlinkDll(hdr, heads[h], lists[h], i);
    RemoveIndex(lists[h], i);
    Removed(lists[h], s);
    var g, heads', lists' := Unlink(hdr, s), heads[h := if heads[h] == s then hdr[s].next else heads[h]], lists[h := Remove(lists[h], s)];
    forall k: nat | k < LISTS ensures Dll(g, heads'[k], lists'[k]) {
      assert Dll(hdr, heads[k], lists[k]) && Disjoint(lists, h, k);
      if k != h { UnlinkOther(hdr, heads[h], lists[h], i, heads[k], lists[k]); }
    }
    forall k: nat, l: nat | k < LISTS && l < LISTS ensures Disjoint(lists', k, l) { assert Disjoint(lists, k, l); }
  }

  lemma DllNoDup(hdr: Headers, head: nat, q: seq<nat>)
    requires Dll(hdr, head, q)
    ensures NoDup(q)
  {
  }

  lemma LinkLinks(hdr: Headers, heads: seq<nat>, lists: seq<seq<nat>>, h: nat, s: nat)
    requires LinksOk(hdr, heads, lists) && h < LISTS && s in hdr && s != 0 && (forall k: nat | k < LISTS :: s !in lists[k])
    ensures SameInfo(hdr, Link(hdr, heads[h], s)) && (heads[h] != 0 ==> heads[h] in hdr)
    ensures LinksOk(Link(hdr, heads[h], s), heads[h := s], lists[h := [s] + lists[h]])
  {
    hide Dll, Link, SameInfo;
    assert Dll(hdr, heads[h], lists[h]);
    LinkDll(hdr, heads[h], lists[h], s);
    var g, heads', lists' := Link(hdr, heads[h], s), heads[h := s], lists[h := [s] + lists[h]];
    forall k: nat | k < LISTS ensures Dll(g, heads'[k], lists'[k]) {
      assert Dll(hdr, heads[k], lists[k]) && Disjoint(lists, h, k);
      if k != h { LinkOther(hdr, heads[h], lists[h], s, heads[k], lists[k]); }
    }
    forall k: nat, l: nat | k < LISTS && l < LISTS ensures Disjoint(lists', k, l) { assert Disjoint(lists, k, l); }
  }

  class Allocator {
    var hdr: Headers
    var link: map<nat, nat>
    var heads: seq<nat>
    ghost var lists: seq<seq<nat>>
    ghost var pool: Pool

    ghost predicate Valid()
      reads this
    {
      && PoolOk(pool) && ListsAre(lists, pool) && LinksOk(hdr, heads, lists) && HeadersOk(hdr, link, pool.slabs)
    }

    constructor ()
      ensures Valid() && pool == Pool(map[], seq(CACHES, i => []), seq(CACHES, i => []), {})
    {
      hdr, link, heads := map[], map[], seq(LISTS, i => 0);
      lists := seq(LISTS, i => []);
      pool := Pool(map[], seq(CACHES, i => []), seq(CACHES, i => []), {});
      new;
      forall h: nat | h < LISTS ensures Dll(hdr, heads[h], lists[h]) {}
      forall c: nat | c < CACHES ensures ListOk(pool, pool.partial[c], c) && ListOk(pool, pool.full[c], c) {}
    }

    method ListRemove(h: nat, s: nat)
      requires LinksOk(hdr, heads, lists) && h < LISTS && s in lists[h] && HeadersOk(hdr, link, pool.slabs)
      modifies this`hdr, this`heads, this`lists
      ensures LinksOk(hdr, heads, lists) && HeadersOk(hdr, link, pool.slabs)
      ensures lists == old(lists)[h := Remove(old(lists)[h], s)] && SameInfo(old(hdr), hdr)
    {
      hide Dll, HeadersOk, SameInfo, Remove;
      ghost var g := hdr;
      UnlinkLinks(hdr, heads, lists, h, s);
      var next := hdr[s].next;
      if hdr[s].prev != 0 && hdr[s].prev in hdr {
        hdr := hdr[hdr[s].prev := hdr[hdr[s].prev].(next := hdr[s].next)];
      }
      if hdr[s].next != 0 && hdr[s].next in hdr {
        hdr := hdr[hdr[s].next := hdr[hdr[s].next].(prev := hdr[s].prev)];
      }
      assert hdr == Unlink(g, s);
      ghost var was := heads;
      if heads[h] == s {
        heads := heads[h := next];
      }
      assert heads == was[h := if was[h] == s then g[s].next else was[h]];
      lists := lists[h := Remove(lists[h], s)];
      SameInfoHeaders(g, hdr, link, pool.slabs);
    }

    method ListAdd(h: nat, s: nat)
      requires LinksOk(hdr, heads, lists) && h < LISTS && s in hdr && s != 0 && HeadersOk(hdr, link, pool.slabs)
      requires forall k: nat | k < LISTS :: s !in lists[k]
      modifies this`hdr, this`heads, this`lists
      ensures LinksOk(hdr, heads, lists) && HeadersOk(hdr, link, pool.slabs)
      ensures lists == old(lists)[h := [s] + old(lists)[h]] && SameInfo(old(hdr), hdr) && heads[h] == s
    {
      hide Dll, HeadersOk, SameInfo;
      ghost var g := hdr;
      LinkLinks(hdr, heads, lists, h, s);
      hdr := hdr[s := hdr[s].(next := heads[h], prev := 0)];
      if heads[h] != 0 {
        hdr := hdr[heads[h] := hdr[heads[h]].(prev := s)];
      }
      assert hdr == Link(g, heads[h], s);
      heads := heads[h := s];
      lists := lists[h := [s] + lists[h]];
      SameInfoHeaders(g, hdr, link, pool.slabs);
    }

    /** Formats a page: header, then every chunk pushed on the free list. */
    method AllocateNewSlab(c: nat, page: Option<nat>) returns (s: nat)
      requires Valid() && c < CACHES && (page.Some? ==> page.value !in pool.slabs && page.value > 0 && page.value % PAGE_SIZE == 0)
      modifies this`hdr, this`link
      ensures LinksOk(hdr, heads, lists) && HeadersOk(hdr, link, pool.slabs)
      ensures page.None? ==> s == 0 && Valid()
      ensures page.Some? ==> s == page.value && HeaderOk(hdr, link, Slab(c, FreshChunks(s, c, Total(c))), s)
    {
      if page.None? { return 0; }
      s := page.value;
      hdr := hdr[s := SlabHeader(0, 0, c, 0, 0, 0)];
      var chunk := s + HEADER;
      var end := s + PAGE_SIZE;
      ghost var n: nat := 0;
      while chunk + ObjSize(c) <= end
        invariant s in hdr && hdr == old(hdr)[s := hdr[s]]
        invariant n <= Total(c) && chunk == ChunkAt(s, c, n) && end == s + PAGE_SIZE
        invariant hdr[s] == SlabHeader(0, 0, c, hdr[s].freeList, n, 0) && Chain(link, hdr[s].freeList, FreshChunks(s, c, n))
        invariant OnlyPage(old(link), link, s)
        decreases end - chunk
      {
        NextChunk(s, c, n);
        ChainPush(link, hdr[s].freeList, FreshChunks(s, c, n), chunk);
        link := link[chunk := hdr[s].freeList];
        hdr := hdr[s := hdr[s].(freeList := chunk, freeChunks := hdr[s].freeChunks + 1)];
        chunk := chunk + ObjSize(c);
        n := n + 1;
      }
      LastChunk(s, c, n);
      hdr := hdr[s := hdr[s].(totalChunks := hdr[s].freeChunks)];
      FreshAre(s, c, Total(c));
      FreshPageLinks(old(hdr), hdr, old(link), link, heads, lists, pool, s);
    }

    /** A slab whose last chunk was just taken moves from the partial to the full list. */
    method RetireSlab(s: nat, c: nat, ghost m: Pool)
      requires ChunksOk(m) && ListsOk(m) && Target(m, s) && m.slabs[s].cache == c < CACHES
      requires ListsAre(lists, m) && LinksOk(hdr, heads, lists) && HeadersOk(hdr, link, pool.slabs) && s in hdr
      modifies this`hdr, this`heads, this`lists
      ensures LinksOk(hdr, heads, lists) && HeadersOk(hdr, link, pool.slabs)
      ensures ListsAre(lists, m.(full := m.full[c := [s] + m.full[c]], partial := m.partial[c := Remove(m.partial[c], s)]))
    {
      hide Dll, Chain, ChunksOk, ListsOk, SlabOk, Disjoint, Remove, HeadersOk;
      ListRemove(PartialList(c), s);
      NowhereListed(old(lists), lists, m, s);
      ListAdd(FullList(c), s);
      ghost var n := m.(full := m.full[c := [s] + m.full[c]], partial := m.partial[c := Remove(m.partial[c], s)]);
      forall d: nat | d < CACHES ensures lists[PartialList(d)] == n.partial[d] && lists[FreeList(d)] == [] && lists[FullList(d)] == n.full[d] {}
    }

    /** Takes the first free chunk of a slab on the partial list. */
    method TakeChunk(s: nat, c: nat) returns (chunk: nat)
      requires ChunksOk(pool) && ListsOk(pool) && Target(pool, s) && pool.slabs[s].cache == c
      requires ListsAre(lists, pool) && LinksOk(hdr, heads, lists) && HeadersOk(hdr, link, pool.slabs)
      modifies this
      ensures Valid() && (pool, chunk) == PopChunk(old(pool), s) && chunk != 0
    {
      hide Dll, Chain, PoolOk, ChunksOk, ListsOk, SlabOk, Disjoint, Remove, LinksOk, HeadersOk;
      ghost var m, h0 := pool, hdr;
      HeaderOfSlab(hdr, link, m, s);
      ChainPop(link, hdr[s].freeList, pool.slabs[s].free);
      PopOk(pool, s);
      chunk := hdr[s].freeList;
      hdr := hdr[s := hdr[s].(freeList := link[chunk], freeChunks := hdr[s].freeChunks - 1)];
      PoppedHeaders(h0, hdr, link, heads, lists, m, s);
      pool := m.(slabs := m.slabs[s := Slab(c, m.slabs[s].free[1..])], live := m.live + {chunk});
      if hdr[s].freeChunks == 0 {
        RetireSlab(s, c, m);
      }
      pool := PopChunk(m, s).0;
    }

    /** A cache without a partial slab gets a fresh one at the head of its partial list. */
    method GrowCache(c: nat, page: Option<nat>) returns (s: nat)
      requires Valid() && c < CACHES && (page.Some? ==> page.value !in pool.slabs && page.value > 0 && page.value % PAGE_SIZE == 0)
      modifies this
      ensures page.None? ==> s == 0 && Valid() && pool == old(pool)
      ensures page.Some? ==> s == page.value && |old(pool).partial| == CACHES && pool == AddSlab(old(pool), c, s)
      ensures page.Some? ==> ListsAre(lists, pool) && LinksOk(hdr, heads, lists) && HeadersOk(hdr, link, pool.slabs)
    {
      hide Dll, Chain, PoolOk, ChunksOk, ListOk, Disjoint, Total, HeaderOk, HeadersOk;
      s := AllocateNewSlab(c, page);
      if s == 0 { return; }
      ghost var m := pool;
      NotListed(lists, m, s);
      ghost var b := Slab(c, FreshChunks(s, c, Total(c)));
      pool := m.(slabs := m.slabs[s := b]);
      OneMoreHeader(hdr, link, m.slabs, s, b);
      ListAdd(PartialList(c), s);
      pool := AddSlab(m, c, s);
    }

    /** kmalloc; 0 is the null pointer. */
    method Kmalloc(size: nat, page: Option<nat>) returns (ptr: nat)
      requires Valid() && (page.Some? ==> page.value !in pool.slabs && page.value > 0 && page.value % PAGE_SIZE == 0)
      modifies this
      ensures Valid()
      ensures |old(pool).partial| == |old(pool).full| == CACHES
      ensures (pool, if ptr == 0 then None else Some(ptr)) == SlabPool.Kmalloc(old(pool), size, page)
    {
      hide LinksOk, HeadersOk, ChunksOk, ListsOk, AddSlab, PopChunk, Target;
      KmallocReady(pool);
      if size == 0 || size > 2048 { return 0; }
      var c := FindCache(size);
      HeadOf(hdr, heads, lists, PartialList(c));
      var s := heads[PartialList(c)];
      HeadOf(hdr, heads, lists, FreeList(c));
      if s == 0 {
        if heads[FreeList(c)] != 0 { assert false; }
        if page.Some? {
          AddSlabChunks(pool, c, page.value);
          AddSlabLists(pool, c, page.value);
        }
        s := GrowCache(c, page);
        if s == 0 { return 0; }
      }
      ptr := TakeChunk(s, c);
    }

    /** The chunk goes back on its slab's free list; a full slab becomes partial first. */
    method PushChunk(ptr: nat)
      requires Valid() && ptr in pool.live && LiveOk(pool, ptr)
      modifies this
      ensures LinksOk(hdr, heads, lists) && hdr.Keys == old(hdr.Keys)
      ensures var p, m := PageOf(ptr), old(pool);
        && |m.partial| == |m.full| == CACHES && p in hdr
        && pool == Pushed(m, ptr) && ListsAre(lists, pool) && HeadersOk(hdr, link, pool.slabs)
    {
      hide Dll, Chain, PoolOk, ChunksOk, ListsOk, SlabOk, Disjoint, Remove, HeadersOk, ListedOk, IsChunk, Total;
      ghost var m := pool;
      var p := PageOf(ptr);
      LiveHeader(hdr, link, m, ptr);
      var c := hdr[p].cache;
      if hdr[p].freeChunks == 0 {
        FullIsListed(lists, m, p);
        ListRemove(FullList(c), p);
        FullNowhere(old(lists), lists, m, p);
        ListAdd(PartialList(c), p);
      }
      LiveHeader(hdr, link, m, ptr);
      ghost var h0, l0 := hdr, link;
      link := link[ptr := hdr[p].freeList];
      hdr := hdr[p := hdr[p].(freeList := ptr, freeChunks := hdr[p].freeChunks + 1)];
      PushedHeaders(h0, hdr, l0, link, heads, lists, m, ptr);
      pool := Pushed(m, ptr);
      forall d: nat | d < CACHES ensures lists[PartialList(d)] == pool.partial[d] && lists[FreeList(d)] == [] && lists[FullList(d)] == pool.full[d] {}
    }

    /** kfree, of a pointer kmalloc handed out, of null, or of a page that is no slab's.
        The page given back to the page allocator is returned. */
    method Kfree(ptr: nat) returns (page: Option<nat>)
      requires Valid() && (ptr == 0 || ptr in pool.live || PageOf(ptr) !in hdr)
      modifies this
      ensures Valid()
      ensures ptr == 0 || PageOf(ptr) !in old(hdr) ==> pool == old(pool) && page == None
      ensures ptr != 0 && PageOf(ptr) in old(hdr) ==>
        && LiveOk(old(pool), ptr) && |old(pool).partial| == |old(pool).full| == CACHES
        && (pool, page) == SlabPool.Kfree(old(pool), ptr)
    {
      hide LinksOk, ChunksOk, ListsOk, ListedOk, Remove, Chain, IsChunk, Total, Pushed, SlabPool.Kfree;
      if ptr == 0 { return None; }
      var p := PageOf(ptr);
      if p !in hdr { return None; }
      ghost var m := pool;
      KfreeOk(m, ptr);
      PushChunk(ptr);
      PushedIs(m, ptr, hdr, link);
      if hdr[p].freeChunks == hdr[p].totalChunks {
        ListRemove(PartialList(hdr[p].cache), p);
        page := Some(p);
      } else {
        page := None;
      }
      pool := SlabPool.Kfree(m, ptr).0;
      forall d: nat | d < CACHES ensures lists[PartialList(d)] == pool.partial[d] && lists[FreeList(d)] == [] && lists[FullList(d)] == pool.full[d] {}
    }
  }

  /** The smallest cache whose chunks hold size bytes. */
  method FindCache(size: nat) returns (c: nat)
    requires 0 < size <= 2048
    ensures c < CACHES && CacheFor(size) == Some(c)
  {
    c := 0;
    while size > ObjSize(c)
      invariant c < CACHES && (c > 0 ==> size > ObjSize(c - 1))
      decreases CACHES - c
    {
      c := c + 1;
    }
  }

  lemma HeaderOfSlab(hdr: Headers, link: map<nat, nat>, m: Pool, s: nat)
    requires HeadersOk(hdr, link, m.slabs) && s in m.slabs
    ensures HeaderOk(hdr, link, m.slabs[s], s)
  {
  }

  /** Popping the head chunk changes one header's free list, and no links. */
  lemma PoppedHeaders(h0: Headers, h1: Headers, link: map<nat, nat>, heads: seq<nat>, lists: seq<seq<nat>>, m: Pool, s: nat)
    requires s in m.slabs && m.slabs[s].free != [] && HeadersOk(h0, link, m.slabs) && LinksOk(h0, heads, lists) && HeaderOk(h0, link, m.slabs[s], s)
    requires h0[s].freeList in link && h1 == h0[s := h0[s].(freeList := link[h0[s].freeList], freeChunks := h0[s].freeChunks - 1)]
    requires Chain(link, link[h0[s].freeList], m.slabs[s].free[1..])
    ensures LinksOk(h1, heads, lists)
    ensures HeadersOk(h1, link, m.slabs[s := Slab(m.slabs[s].cache, m.slabs[s].free[1..])])
  {
    hide Total, Chain;
    var slabs := m.slabs[s := Slab(m.slabs[s].cache, m.slabs[s].free[1..])];
    forall p | p in slabs ensures HeaderOk(h1, link, slabs[p], p) { assert HeaderOk(h0, link, m.slabs[p], p); }
    forall h: nat | h < LISTS ensures Dll(h1, heads[h], lists[h]) {
      assert Dll(h0, heads[h], lists[h]);
      DllInfo(h0, h1, heads[h], lists[h]);
    }
  }

  /** A list only depends on the link fields. */
  lemma DllInfo(hdr: Headers, g: Headers, head: nat, q: seq<nat>)
    requires Dll(hdr, head, q) && forall x | x in q && x in hdr :: x in g && g[x].next == hdr[x].next && g[x].prev == hdr[x].prev
    ensures Dll(g, head, q)
  {
    forall i: nat | i < |q| ensures NodeOk(g, q, i) { assert NodeOk(hdr, q, i); assert q[i] in q; }
  }

  /** Chunk links changed only inside page p. */
  ghost predicate OnlyPage(l: map<nat, nat>, k: map<nat, nat>, p: nat) {
    forall a | a in l && PageOf(a) != p :: a in k && k[a] == l[a]
  }

  lemma NextChunk(p: nat, c: nat, n: nat)
    requires c < CACHES && p > 0 && p % PAGE_SIZE == 0 && ChunkAt(p, c, n) + ObjSize(c) <= p + PAGE_SIZE && n <= Total(c)
    ensures n < Total(c) && ChunkAt(p, c, n + 1) == ChunkAt(p, c, n) + ObjSize(c)
    ensures ChunkAt(p, c, n) != 0 && PageOf(ChunkAt(p, c, n)) == p && ChunkAt(p, c, n) !in FreshChunks(p, c, n)
  {
    if c == 0 {} else if c == 1 {} else if c == 2 {} else if c == 3 {} else if c == 4 {} else if c == 5 {} else if c == 6 {} else {}
    FreshAre(p, c, n);
    forall j: nat | j < n ensures ChunkAt(p, c, j) != ChunkAt(p, c, n) { ChunksApart(p, c, j, n); }
    Positive(c);
  }

  lemma LastChunk(p: nat, c: nat, n: nat)
    requires c < CACHES && n <= Total(c) && ChunkAt(p, c, n) + ObjSize(c) > p + PAGE_SIZE
    ensures n == Total(c)
  {
    if n < Total(c) { ChunkFits(c, n); }
  }

  lemma DllFrame(hdr: Headers, g: Headers, head: nat, q: seq<nat>)
    requires Dll(hdr, head, q) && forall x | x in q && x in hdr :: x in g && g[x] == hdr[x]
    ensures Dll(g, head, q)
  {
    forall i: nat | i < |q| ensures NodeOk(g, q, i) { assert NodeOk(hdr, q, i); assert q[i] in q; }
  }

  lemma ChainFrame(l: map<nat, nat>, k: map<nat, nat>, head: nat, q: seq<nat>)
    requires Chain(l, head, q) && forall a | a in q && a in l :: a in k && k[a] == l[a]
    ensures Chain(k, head, q)
  {
    forall i: nat | i < |q| ensures ChainLink(k, q, i) { assert ChainLink(l, q, i); assert q[i] in q; }
  }

  lemma ListedAreSlabs(lists: seq<seq<nat>>, m: Pool, x: nat, h: nat)
    requires PoolOk(m) && ListsAre(lists, m) && h < LISTS && x in lists[h]
    ensures x in m.slabs
  {
    var c := h % CACHES;
    assert lists[PartialList(c)] == m.partial[c] && lists[FreeList(c)] == [] && lists[FullList(c)] == m.full[c];
    assert ListOk(m, m.partial[c], c) && ListOk(m, m.full[c], c);
  }

  /** Chunks of one page are touched: the other slabs do not notice. */
  lemma OtherHeaders(h0: Headers, h1: Headers, l0: map<nat, nat>, l1: map<nat, nat>, m: Pool, s: nat)
    requires ChunksOk(m) && HeadersOk(h0, l0, m.slabs) && OnlyPage(l0, l1, s)
    requires forall p | p in m.slabs && p != s && p in h0 :: p in h1 && h1[p] == h0[p]
    ensures forall p | p in m.slabs && p != s :: HeaderOk(h1, l1, m.slabs[p], p)
  {
    hide Total, Chain;
    forall p | p in m.slabs && p != s ensures HeaderOk(h1, l1, m.slabs[p], p) {
      assert HeaderOk(h0, l0, m.slabs[p], p) && SlabOk(m, p);
      forall a | a in m.slabs[p].free ensures PageOf(a) != s { OwnPage(m, p, a); }
      ChainFrame(l0, l1, h0[p].freeList, m.slabs[p].free);
    }
  }

  lemma FreshPageLinks(h0: Headers, h1: Headers, l0: map<nat, nat>, l1: map<nat, nat>, heads: seq<nat>, lists: seq<seq<nat>>, m: Pool, s: nat)
    requires PoolOk(m) && ListsAre(lists, m) && LinksOk(h0, heads, lists) && HeadersOk(h0, l0, m.slabs)
    requires s !in m.slabs && s in h1 && h1 == h0[s := h1[s]] && OnlyPage(l0, l1, s)
    ensures LinksOk(h1, heads, lists) && HeadersOk(h1, l1, m.slabs)
  {
    hide Dll, HeaderOk, ListsAre;
    OtherHeaders(h0, h1, l0, l1, m, s);
    assert |lists| == LISTS;
    forall h: nat | h < LISTS ensures Dll(h1, heads[h], lists[h]) {
      assert Dll(h0, heads[h], lists[h]);
      forall x | x in lists[h] ensures x != s { ListedAreSlabs(lists, m, x, h); }
      DllFrame(h0, h1, heads[h], lists[h]);
    }
    forall h: nat, g: nat | h < LISTS && g < LISTS ensures Disjoint(lists, h, g) {}
  }

  lemma SlabPositive(m: Pool, s: nat)
    requires ChunksOk(m) && s in m.slabs
    ensures s != 0
  {
    assert SlabOk(m, s);
  }

  /** Once removed from its list, a slab is on no list. */
  lemma NowhereListed(was: seq<seq<nat>>, lists: seq<seq<nat>>, m: Pool, s: nat)
    requires ListsAre(was, m) && ChunksOk(m) && ListsOk(m) && Target(m, s)
    requires lists == was[PartialList(m.slabs[s].cache) := Remove(was[PartialList(m.slabs[s].cache)], s)]
    ensures s != 0 && forall k: nat | k < LISTS :: s !in lists[k]
  {
    hide Remove, ChunksOk, SlabOk, ListedOk;
    SlabPositive(m, s);
    var c := m.slabs[s].cache;
    assert ListOk(m, m.partial[c], c);
    Removed(m.partial[c], s);
    forall k: nat | k < LISTS ensures s !in lists[k] {
      var d := k % CACHES;
      assert was[PartialList(d)] == m.partial[d] && was[FreeList(d)] == [] && was[FullList(d)] == m.full[d];
      assert ListOk(m, m.partial[d], d) && ListOk(m, m.full[d], d);
    }
  }

  lemma HeadOf(hdr: Headers, heads: seq<nat>, lists: seq<seq<nat>>, h: nat)
    requires LinksOk(hdr, heads, lists) && h < LISTS
    ensures |heads| == LISTS && (heads[h] == 0 <==> lists[h] == [])
    ensures lists[h] != [] ==> heads[h] == lists[h][0]
  {
    assert Dll(hdr, heads[h], lists[h]);
    if lists[h] != [] { assert NodeOk(hdr, lists[h], 0); }
  }

  lemma NotListed(lists: seq<seq<nat>>, m: Pool, s: nat)
    requires PoolOk(m) && ListsAre(lists, m) && s !in m.slabs
    ensures forall k: nat | k < LISTS :: s !in lists[k]
  {
    forall k: nat | k < LISTS ensures s !in lists[k] {
      if s in lists[k] { ListedAreSlabs(lists, m, s, k); }
    }
  }

  lemma OneMoreHeader(hdr: Headers, link: map<nat, nat>, slabs: map<nat, Slab>, s: nat, b: Slab)
    requires HeadersOk(hdr, link, slabs) && HeaderOk(hdr, link, b, s)
    ensures HeadersOk(hdr, link, slabs[s := b])
  {
    hide HeaderOk;
    var all := slabs[s := b];
    forall p | p in all ensures HeaderOk(hdr, link, all[p], p) {
      if p != s { assert HeaderOk(hdr, link, slabs[p], p); }
    }
  }

  /** The pool after a chunk is back on its slab's list, before an empty slab is released. */
  ghost function Pushed(m: Pool, a: nat): Pool
    requires LiveOk(m, a) && |m.partial| == |m.full| == CACHES
  {
    var p := PageOf(a);
    var s := m.slabs[p];
    var n := if s.free == []
      then m.(full := m.full[s.cache := Remove(m.full[s.cache], p)], partial := m.partial[s.cache := [p] + m.partial[s.cache]]) else m;
    n.(slabs := m.slabs[p := Slab(s.cache, [a] + s.free)], live := m.live - {a})
  }

  lemma LiveHeader(hdr: Headers, link: map<nat, nat>, m: Pool, a: nat)
    requires PoolOk(m) && a in m.live && HeadersOk(hdr, link, m.slabs)
    ensures LiveOk(m, a) && a != 0 && a !in m.slabs[PageOf(a)].free && PageOf(a) != 0
    ensures |m.partial| == |m.full| == CACHES
    ensures HeaderOk(hdr, link, m.slabs[PageOf(a)], PageOf(a))
  {
    hide HeaderOk;
    assert LiveOk(m, a) && SlabOk(m, PageOf(a));
    assert HeaderOk(hdr, link, m.slabs[PageOf(a)], PageOf(a));
  }

  lemma FullIsListed(lists: seq<seq<nat>>, m: Pool, p: nat)
    requires PoolOk(m) && ListsAre(lists, m) && p in m.slabs && m.slabs[p].free == []
    ensures m.slabs[p].cache < CACHES && p in lists[FullList(m.slabs[p].cache)]
  {
    assert ListedOk(m, p);
  }

  lemma FullNowhere(was: seq<seq<nat>>, lists: seq<seq<nat>>, m: Pool, p: nat)
    requires PoolOk(m) && ListsAre(was, m) && p in m.slabs && m.slabs[p].free == [] && m.slabs[p].cache < CACHES
    requires lists == was[FullList(m.slabs[p].cache) := Remove(was[FullList(m.slabs[p].cache)], p)]
    ensures forall k: nat | k < LISTS :: p !in lists[k]
  {
    hide Remove, SlabOk;
    assert ListedOk(m, p);
    var c := m.slabs[p].cache;
    assert ListOk(m, m.full[c], c);
    Removed(m.full[c], p);
    forall k: nat | k < LISTS ensures p !in lists[k] {
      var d := k % CACHES;
      assert was[PartialList(d)] == m.partial[d] && was[FreeList(d)] == [] && was[FullList(d)] == m.full[d];
      assert ListOk(m, m.partial[d], d) && ListOk(m, m.full[d], d);
    }
  }

  lemma PushedHeaders(h0: Headers, h1: Headers, l0: map<nat, nat>, l1: map<nat, nat>, heads: seq<nat>, lists: seq<seq<nat>>, m: Pool, a: nat)
    requires PoolOk(m) && a in m.live && LiveOk(m, a) && HeadersOk(h0, l0, m.slabs) && LinksOk(h0, heads, lists)
    requires
      var p := PageOf(a);
      && HeaderOk(h0, l0, m.slabs[p], p) && a != 0 && a !in m.slabs[p].free
      && l1 == l0[a := h0[p].freeList] && h1 == h0[p := h0[p].(freeList := a, freeChunks := h0[p].freeChunks + 1)]
    ensures LinksOk(h1, heads, lists)
    ensures HeadersOk(h1, l1, m.slabs[PageOf(a) := Slab(m.slabs[PageOf(a)].cache, [a] + m.slabs[PageOf(a)].free)])
  {
    hide Total, Chain, PoolOk, IsChunk;
    var p := PageOf(a);
    var slabs := m.slabs[p := Slab(m.slabs[p].cache, [a] + m.slabs[p].free)];
    ChainPush(l0, h0[p].freeList, m.slabs[p].free, a);
    assert ChunksOk(m) by { PoolChunks(m); }
    OtherHeaders(h0, h1, l0, l1, m, p);
    forall q | q in slabs ensures HeaderOk(h1, l1, slabs[q], q) {
      if q != p { assert HeaderOk(h1, l1, m.slabs[q], q); }
    }
    forall h: nat | h < LISTS ensures Dll(h1, heads[h], lists[h]) {
      assert Dll(h0, heads[h], lists[h]);
      DllInfo(h0, h1, heads[h], lists[h]);
    }
  }

  lemma PoolChunks(m: Pool)
    requires PoolOk(m)
    ensures ChunksOk(m)
  {
  }

  /** What is left to do after the push is what the pure kfree does last. */
  lemma PushedIs(m: Pool, a: nat, hdr: Headers, link: map<nat, nat>)
    requires PoolOk(m) && a in m.live && LiveOk(m, a) && |m.partial| == |m.full| == CACHES
    requires HeadersOk(hdr, link, Pushed(m, a).slabs)
    ensures var p, n, r := PageOf(a), Pushed(m, a), SlabPool.Kfree(m, a);
      && HeaderOk(hdr, link, n.slabs[p], p) && p in n.partial[n.slabs[p].cache] && n.slabs[p].cache < CACHES
      && (r.1.Some? <==> |n.slabs[p].free| == Total(n.slabs[p].cache)) && (r.1.Some? ==> r.1.value == p)
      && r.0 == (if r.1.None? then n else n.(slabs := n.slabs - {p}, partial := n.partial[n.slabs[p].cache := Remove(n.partial[n.slabs[p].cache], p)]))
  {
    hide HeaderOk, ChunksOk, ListsOk, Remove, Total, IsChunk;
    var p, n := PageOf(a), Pushed(m, a);
    assert HeaderOk(hdr, link, n.slabs[p], p) && ListedOk(m, p);
    assert n.slabs - {p} == m.slabs - {p};
  }
}
