/** malloc and free over block headers in memory: one circular, address-ordered
    list of free blocks through a sentinel. */
module UserHeap {
  import opened Types
  import opened HeapArena

  const UNIT: nat := 16
  const MIN_UNITS: nat := 256
  const WORD: nat := 0x1_0000_0000_0000_0000

  datatype Header = Header(next: nat, size: nat)

  // ----- Sizes

  /** Header units for a request, in 64-bit arithmetic. */
  function UnitsFor(size: nat): nat { (size + UNIT - 1) % WORD / UNIT + 1 }

  /** Bytes asked from sbrk, in 64-bit arithmetic. */
  function RequestBytes(units: nat): nat { units * UNIT % WORD }

  /** The sizes for which the arithmetic does not wrap. */
  predicate SizeOk(size: nat) { size <= WORD - 32 }

  /** Rounding serves a request exactly when neither the rounding nor the byte
      count handed to sbrk wraps: up to 2^64 - 32 bytes. */
  lemma RoundingExact(size: nat)
    requires 0 < size < WORD
    ensures SizeOk(size) <==> (UnitsFor(size) - 1) * UNIT >= size && RequestBytes(UnitsFor(size)) == UnitsFor(size) * UNIT
  {
    if size <= WORD - 16 {
      assert (size + 15) % WORD == size + 15;
    } else {
      assert (size + 15) % WORD == size + 15 - WORD;
    }
  }

  /** The byte count handed to sbrk does not wrap. */
  predicate Backed(size: nat) { size < WORD && RequestBytes(UnitsFor(size)) == UnitsFor(size) * UNIT }

  /** The two ways it goes wrong: from 2^64 - 15 on a block without payload, and for the
      sixteen sizes before that a block without memory. */
  lemma RoundingFails(size: nat)
    requires size < WORD
    ensures WORD - 16 < size ==> UnitsFor(size) == 1 && Backed(size)
    ensures WORD - 32 < size <= WORD - 16 ==> UnitsFor(size) == WORD / UNIT && RequestBytes(UnitsFor(size)) == 0
    ensures Backed(size) <==> !(WORD - 32 < size <= WORD - 16)
  {
    if size <= WORD - 16 {
      assert (size + 15) % WORD == size + 15;
    } else {
      assert (size + 15) % WORD == size + 15 - WORD;
    }
  }

  // ----- The ring

  /** Address of the k-th block of the ring: the sentinel, then the free blocks. */
  function RingAt(base: nat, free: seq<Block>, k: nat): nat
    requires k <= |free|
  {
    if k == 0 then base else free[k - 1].addr
  }

  function RingNext(base: nat, free: seq<Block>, k: nat): nat
    requires k <= |free|
  {
    if k < |free| then free[k].addr else base
  }

  function RingSize(free: seq<Block>, k: nat): nat
    requires k <= |free|
  {
    if k == 0 then 0 else free[k - 1].size
  }

  /** The header of ring block k is as it should be. */
  ghost predicate LinkOk(hdr: map<nat, Header>, base: nat, free: seq<Block>, k: nat)
    requires k <= |free|
  {
    var b := RingAt(base, free, k);
    b in hdr && hdr[b] == Header(RingNext(base, free, k), RingSize(free, k))
  }

  ghost predicate RingOk(hdr: map<nat, Header>, base: nat, free: seq<Block>) {
    forall k: nat {:trigger LinkOk(hdr, base, free, k)} | k <= |free| :: LinkOk(hdr, base, free, k)
  }

  ghost predicate LiveOk(hdr: map<nat, Header>, live: map<nat, nat>) {
    forall b | b in live :: b in hdr && hdr[b].size == live[b]
  }

  ghost predicate InRing(base: nat, free: seq<Block>, b: nat) {
    exists k: nat :: k <= |free| && RingAt(base, free, k) == b
  }

  /** The list pointer is null until the first malloc, and then points into the ring. */
  ghost predicate HeapOk(hdr: map<nat, Header>, base: nat, list: nat, a: Arena) {
    && 0 < base && ArenaOk(a, base) && LiveOk(hdr, a.live)
    && if list == 0 then a.free == [] && a.live == map[]
       else RingOk(hdr, base, a.free) && InRing(base, a.free, list)
  }

  /** Ring addresses increase, so they are distinct. */
  lemma RingIncreases(a: Arena, base: nat, j: nat, k: nat)
    requires ArenaOk(a, base) && j < k <= |a.free|
    ensures RingAt(base, a.free, j) < RingAt(base, a.free, k)
  {
    if j == 0 {
      assert FreeTagged(a, k - 1);
      assert UnitOk(a, base, a.free[k - 1].addr);
    } else {
      assert FreeTagged(a, j - 1);
    }
  }

  /** The header writes that link a released block in behind ring block t. */
  function Linked(hdr: map<nat, Header>, base: nat, free: seq<Block>, t: nat, b: Block): map<nat, Header>
    requires t <= |free|
  {
    var cur, next := RingAt(base, free, t), RingNext(base, free, t);
    var blk := if JoinsNext(free, t, b) then Header(RingNext(base, free, t + 1), b.size + free[t].size) else Header(next, b.size);
    var h := hdr[b.addr := blk];
    h[cur := if JoinsPrev(free, t, b) then Header(blk.next, RingSize(free, t) + blk.size) else Header(b.addr, RingSize(free, t))]
  }

  /** Block b is not in the ring, and ring block t is only there once. */
  ghost predicate FreshIn(base: nat, free: seq<Block>, t: nat, b: nat) {
    && t <= |free| && b != base && (forall i | 0 <= i < |free| :: free[i].addr != b)
    && (forall k: nat | k <= |free| && k != t :: RingAt(base, free, k) != RingAt(base, free, t))
  }

  lemma LinkedBefore(hdr: map<nat, Header>, base: nat, free: seq<Block>, t: nat, b: Block, k: nat)
    requires FreshIn(base, free, t, b.addr) && RingOk(hdr, base, free) && k < t
    ensures k <= |Insert(free, t, b)| && LinkOk(Linked(hdr, base, free, t, b), base, Insert(free, t, b), k)
  {
    hide Insert;
    InsertAt(free, t, b);
    assert LinkOk(hdr, base, free, k);
    assert RingAt(base, free, k) != RingAt(base, free, t);
  }

  lemma LinkedAt(hdr: map<nat, Header>, base: nat, free: seq<Block>, t: nat, b: Block)
    requires FreshIn(base, free, t, b.addr) && RingOk(hdr, base, free)
    ensures t <= |Insert(free, t, b)| && LinkOk(Linked(hdr, base, free, t, b), base, Insert(free, t, b), t)
    ensures !JoinsPrev(free, t, b) ==>
      t + 1 <= |Insert(free, t, b)| && LinkOk(Linked(hdr, base, free, t, b), base, Insert(free, t, b), t + 1)
  {
    hide Insert;
    InsertAt(free, t, b);
  }

  lemma LinkedAfter(hdr: map<nat, Header>, base: nat, free: seq<Block>, t: nat, b: Block, k: nat)
    requires FreshIn(base, free, t, b.addr) && RingOk(hdr, base, free)
    requires Lo(free, t, b) + 1 < k <= |Insert(free, t, b)|
    ensures LinkOk(Linked(hdr, base, free, t, b), base, Insert(free, t, b), k)
  {
    hide Insert;
    InsertAt(free, t, b);
    var j := k - 1 - Lo(free, t, b) + Hi(free, t, b);
    assert LinkOk(hdr, base, free, j);
    assert RingAt(base, free, j) != RingAt(base, free, t);
  }

  lemma LinkedAll(hdr: map<nat, Header>, base: nat, free: seq<Block>, t: nat, b: Block)
    requires FreshIn(base, free, t, b.addr) && RingOk(hdr, base, free)
    ensures RingOk(Linked(hdr, base, free, t, b), base, Insert(free, t, b))
  {
    hide Insert, LinkOk, Linked, FreshIn, RingAt, JoinsNext;
    assert t <= |free| by { InFresh(base, free, t, b.addr); }
    LinkedAt(hdr, base, free, t, b);
    var h, f := Linked(hdr, base, free, t, b), Insert(free, t, b);
    forall k: nat | k <= |f| ensures LinkOk(h, base, f, k) {
      if k < t { LinkedBefore(hdr, base, free, t, b, k); }
      else if k > Lo(free, t, b) + 1 { LinkedAfter(hdr, base, free, t, b, k); }
    }
  }

  lemma InFresh(base: nat, free: seq<Block>, t: nat, b: nat)
    requires FreshIn(base, free, t, b)
    ensures t <= |free|
  {
  }

  lemma IsFreshIn(a: Arena, base: nat, b: nat)
    requires ArenaOk(a, base) && b in a.live
    ensures FreshIn(base, a.free, Below(a.free, b), b)
  {
    hide ArenaOk;
    var t := Below(a.free, b);
    NotInRing(a, base, b);
    forall k: nat | k <= |a.free| && k != t ensures RingAt(base, a.free, k) != RingAt(base, a.free, t) {
      if k < t { RingIncreases(a, base, k, t); } else { RingIncreases(a, base, t, k); }
    }
  }

  /** The ring after free() is the ring of the merged free list. */
  lemma LinkedRing(hdr: map<nat, Header>, base: nat, a: Arena, b: nat)
    requires ArenaOk(a, base) && b in a.live && RingOk(hdr, base, a.free)
    ensures RingOk(Linked(hdr, base, a.free, Below(a.free, b), Block(b, a.live[b])), base, Release(a, b).free)
    ensures InRing(base, Release(a, b).free, RingAt(base, a.free, Below(a.free, b)))
  {
    hide Insert, ArenaOk, LinkOk, Linked, FreshIn;
    var blk, t := Block(b, a.live[b]), Below(a.free, b);
    IsFreshIn(a, base, b);
    LinkedAll(hdr, base, a.free, t, blk);
    InsertAt(a.free, t, blk);
    assert RingAt(base, Release(a, b).free, t) == RingAt(base, a.free, t);
  }

  lemma NotInRing(a: Arena, base: nat, b: nat)
    requires ArenaOk(a, base) && b in a.live
    ensures base < b && forall i | 0 <= i < |a.free| :: a.free[i].addr != b
  {
    assert LiveTagged(a, b);
    assert UnitOk(a, base, b);
    forall i: nat | i < |a.free| ensures a.free[i].addr != b { assert FreeTagged(a, i); LiveOutside(a, base, b, i); }
  }

  lemma LinkedLive(hdr: map<nat, Header>, base: nat, a: Arena, b: nat)
    requires ArenaOk(a, base) && b in a.live && LiveOk(hdr, a.live)
    ensures LiveOk(Linked(hdr, base, a.free, Below(a.free, b), Block(b, a.live[b])), Release(a, b).live)
  {
    hide ArenaOk;
    forall l | l in a.live ensures base < l && forall i | 0 <= i < |a.free| :: a.free[i].addr != l { NotInRing(a, base, l); }
  }

  /** Exactly the ring block before the block stops the search of free(). */
  lemma SlotTest(a: Arena, base: nat, b: nat, k: nat)
    requires ArenaOk(a, base) && b in a.live && k <= |a.free|
    ensures var cur, next := RingAt(base, a.free, k), RingNext(base, a.free, k);
      k == Below(a.free, b) <==> (b > cur && b < next) || (cur >= next && (b > cur || b < next))
  {
    var t := Below(a.free, b);
    NotInRing(a, base, b);
    if k < |a.free| { RingIncreases(a, base, k, k + 1); }
    if 0 < k {
      RingIncreases(a, base, 0, k);
      if t < k { assert a.free[t].addr >= b && (t < k - 1 ==> End(a.free[t]) < a.free[k - 1].addr); }
    }
  }

  /** The header writes of malloc taking `units` from ring block k. */
  function Taken(hdr: map<nat, Header>, base: nat, free: seq<Block>, k: nat, units: nat): map<nat, Header>
    requires 0 < k <= |free| && units <= free[k - 1].size
  {
    var f := free[k - 1];
    if f.size == units then hdr[RingAt(base, free, k - 1) := Header(RingNext(base, free, k), RingSize(free, k - 1))]
    else
      var b := f.addr + (f.size - units);
      hdr[f.addr := Header(RingNext(base, free, k), f.size - units)][b := Header(if b in hdr then hdr[b].next else 0, units)]
  }

  lemma RemovedAt(free: seq<Block>, i: nat)
    requires i < |free|
    ensures var r := free[..i] + free[i + 1..];
      && |r| == |free| - 1 && (forall x | 0 <= x < i :: r[x] == free[x]) && (forall x | i <= x < |r| :: r[x] == free[x + 1])
  {
  }

  lemma TakenWhole(hdr: map<nat, Header>, base: nat, a: Arena, k: nat, j: nat)
    requires ArenaOk(a, base) && RingOk(hdr, base, a.free) && 0 < k <= |a.free| && j < |a.free|
    ensures var u := a.free[k - 1].size;
      var r := a.free[..k - 1] + a.free[k..];
      Take(a, k - 1, u).0.free == r && j <= |r| && LinkOk(Taken(hdr, base, a.free, k, u), base, r, j)
  {
    hide ArenaOk;
    RemovedAt(a.free, k - 1);
    var r := a.free[..k - 1] + a.free[k..];
    var i := if j < k then j else j + 1;
    assert LinkOk(hdr, base, a.free, i);
    assert RingAt(base, r, j) == RingAt(base, a.free, i) && RingSize(r, j) == RingSize(a.free, i);
    if i < k - 1 { RingIncreases(a, base, i, k - 1); } else if k - 1 < i { RingIncreases(a, base, k - 1, i); }
  }

  lemma TakenSplit(hdr: map<nat, Header>, base: nat, a: Arena, k: nat, units: nat, j: nat)
    requires ArenaOk(a, base) && RingOk(hdr, base, a.free) && 0 < k <= |a.free| && 1 <= units < a.free[k - 1].size && j <= |a.free|
    ensures LinkOk(Taken(hdr, base, a.free, k, units), base, Take(a, k - 1, units).0.free, j)
  {
    hide UnitOk, FreeTagged, LiveTagged;
    assert LinkOk(hdr, base, a.free, j);
    var f := a.free[k - 1];
    if j < k { RingIncreases(a, base, j, k); } else if k < j { RingIncreases(a, base, k, j); assert End(f) < a.free[j - 1].addr; }
  }

  lemma TakenRing(hdr: map<nat, Header>, base: nat, a: Arena, k: nat, units: nat)
    requires ArenaOk(a, base) && RingOk(hdr, base, a.free) && 0 < k <= |a.free| && 1 <= units <= a.free[k - 1].size
    ensures RingOk(Taken(hdr, base, a.free, k, units), base, Take(a, k - 1, units).0.free)
    ensures InRing(base, Take(a, k - 1, units).0.free, RingAt(base, a.free, k - 1))
  {
    hide ArenaOk, LinkOk, Taken;
    var f := Take(a, k - 1, units).0.free;
    forall j: nat | j <= |f| ensures LinkOk(Taken(hdr, base, a.free, k, units), base, f, j) {
      if a.free[k - 1].size == units { TakenWhole(hdr, base, a, k, j); } else { TakenSplit(hdr, base, a, k, units, j); }
    }
    assert RingAt(base, f, k - 1) == RingAt(base, a.free, k - 1);
  }

  lemma TakenLive(hdr: map<nat, Header>, base: nat, a: Arena, k: nat, units: nat)
    requires ArenaOk(a, base) && RingOk(hdr, base, a.free) && LiveOk(hdr, a.live) && 0 < k <= |a.free| && 1 <= units <= a.free[k - 1].size
    ensures LiveOk(Taken(hdr, base, a.free, k, units), Take(a, k - 1, units).0.live)
  {
    hide UnitOk, FreeTagged, LiveTagged;
    assert LinkOk(hdr, base, a.free, k);
    TakeOk(a, base, k - 1, units);
    RingIncreases(a, base, k - 1, k);
    forall l | l in a.live ensures base < l && (forall i | 0 <= i < |a.free| :: a.free[i].addr != l) && (l + a.live[l] <= a.free[k - 1].addr || End(a.free[k - 1]) <= l) {
      NotInRing(a, base, l);
      LiveOutside(a, base, l, k - 1);
    }
  }

  /** Ring blocks strictly after s and up to k, going round. */
  predicate Passed(s: nat, k: nat, j: nat) { if s <= k then s < j <= k else s < j || j <= k }

  class Heap {
    const base: nat
    var hdr: map<nat, Header>
    var list: nat
    ghost var arena: Arena

    ghost predicate Valid()
      reads this
    {
      HeapOk(hdr, base, list, arena)
    }

    constructor (base: nat)
      requires base > 0
      ensures Valid() && this.base == base && arena == Arena([], map[], map[], base + 1)
    {
      this.base, hdr, list := base, map[], 0;
      arena := Arena([], map[], map[], base + 1);
    }

    /** The search of free(): the ring block after which `block` belongs. */
    method FindSlot(block: nat) returns (cur: nat)
      requires Valid() && block in arena.live
      ensures cur == RingAt(base, arena.free, Below(arena.free, block))
    {
      hide ArenaOk;
      ghost var n, t := |arena.free|, Below(arena.free, block);
      ghost var k: nat :| k <= n && RingAt(base, arena.free, k) == list;
      cur := list;
      assert LinkOk(hdr, base, arena.free, k);
      while !(block > cur && block < hdr[cur].next)
        invariant k <= n && cur == RingAt(base, arena.free, k) && LinkOk(hdr, base, arena.free, k)
        decreases if k <= t then t - k else t - k + n + 1
      {
        SlotTest(arena, base, block, k);
        if cur >= hdr[cur].next && (block > cur || block < hdr[cur].next) { return; }
        cur := hdr[cur].next;
        k := if k < n then k + 1 else 0;
        assert LinkOk(hdr, base, arena.free, k);
      }
      SlotTest(arena, base, block, k);
    }

    method Free(ptr: nat)
      requires Valid() && (ptr == 0 || ptr - 1 in arena.live)
      modifies this
      ensures Valid()
      ensures ptr == 0 ==> arena == old(arena) && list == old(list) && hdr == old(hdr)
      ensures ptr != 0 ==> arena == Release(old(arena), ptr - 1)
      ensures ptr != 0 ==> list == RingAt(base, old(arena).free, Below(old(arena).free, ptr - 1)) && list != 0
    {
      hide ArenaOk, RingOk, LiveOk, InRing, Insert, Release, LinkOk;
      if ptr == 0 { return; }
      var block := ptr - 1;
      var cur := FindSlot(block);
      Relinked(hdr, base, arena, block);
      ghost var a, h, t := arena, hdr, Below(arena.free, block);
      if block + hdr[block].size == hdr[cur].next {
        var next := hdr[cur].next;
        hdr := hdr[block := Header(hdr[next].next, hdr[block].size + hdr[next].size)];
      } else {
        hdr := hdr[block := hdr[block].(next := hdr[cur].next)];
      }
      if cur + hdr[cur].size == block {
        hdr := hdr[cur := Header(hdr[block].next, hdr[cur].size + hdr[block].size)];
      } else {
        hdr := hdr[cur := hdr[cur].(next := block)];
      }
      list := cur;
      assert hdr == Linked(h, base, a.free, t, Block(block, a.live[block]));
      arena := Release(arena, block);
    }

    /** Asks sbrk for at least `units`; `answer` is what the kernel would say. */
    method GrowHeap(units: nat, answer: Option<nat>) returns (ok: bool)
      requires Valid() && list != 0 && 0 < units < WORD / UNIT
      requires answer.Some? ==> arena.top <= answer.value
      modifies this
      ensures Valid() && list != 0
      ensures ok <==> answer.Some? && Granted(units) * UNIT < WORD / 2
      ensures !ok ==> arena == old(arena) && hdr == old(hdr) && list == old(list)
      ensures ok ==> arena == Grow(old(arena), answer.value, Granted(units))
    {
      hide ArenaOk, RingOk, LiveOk, InRing, Insert, Release;
      var n := if units < MIN_UNITS then MIN_UNITS else units;
      var bytes := RequestBytes(n);
      if bytes >= WORD / 2 || answer.None? { return false; }
      var raw := answer.value;
      var stale := if raw in hdr then hdr[raw].next else 0;
      RegionLinks(hdr, base, list, arena, raw, n, stale);
      hdr := hdr[raw := Header(stale, n)];
      arena := Region(arena, raw, n);
      Free(raw + 1);
      return true;
    }

    /** Takes the block cur, ring block k, whose predecessor is prev. */
    method TakeBlock(prev: nat, cur: nat, units: nat, ghost k: nat) returns (ptr: nat)
      requires Valid() && list != 0 && 0 < k <= |arena.free| && 1 <= units <= arena.free[k - 1].size
      requires prev == RingAt(base, arena.free, k - 1) && cur == RingAt(base, arena.free, k)
      modifies this
      ensures Valid() && list != 0
      ensures (arena, ptr - 1) == Take(old(arena), k - 1, units) && ptr > 0
    {
      hide ArenaOk, RingOk, LiveOk, InRing;
      ghost var h, a := hdr, arena;
      TakenLinks(hdr, base, list, arena, k, units);
      var b := cur;
      if hdr[cur].size == units {
        hdr := hdr[prev := hdr[prev].(next := hdr[cur].next)];
      } else {
        hdr := hdr[cur := hdr[cur].(size := hdr[cur].size - units)];
        b := cur + hdr[cur].size;
        hdr := hdr[b := Header(if b in hdr then hdr[b].next else 0, units)];
      }
      list := prev;
      assert hdr == Taken(h, base, a.free, k, units);
      arena := Take(arena, k - 1, units).0;
      return b + 1;
    }

    /** One trip round the ring from the list pointer: the first block that fits
        and its predecessor, or nothing once the pointer is reached again. */
    method Scan(units: nat) returns (found: bool, prev: nat, cur: nat, ghost c: nat)
      requires Valid() && list != 0 && units > 0
      ensures found <==> exists j :: 0 <= j < |arena.free| && arena.free[j].size >= units
      ensures found ==> 0 < c <= |arena.free| && arena.free[c - 1].size >= units
      ensures found ==> prev == RingAt(base, arena.free, c - 1) && cur == RingAt(base, arena.free, c)
    {
      hide ArenaOk, LiveOk, LinkOk;
      ghost var n := |arena.free|;
      ghost var s: nat :| s <= n && RingAt(base, arena.free, s) == list;
      ghost var k: nat := s;
      prev, c := list, 0;
      RingStep(hdr, base, arena, k);
      cur := hdr[prev].next;
      while true
        invariant k <= n && prev == RingAt(base, arena.free, k) && cur == RingNext(base, arena.free, k)
        invariant forall j: nat | j <= n && Passed(s, k, j) :: RingSize(arena.free, j) < units
        decreases if k >= s then n + 1 - (k - s) else s - k
      {
        c := if k < n then k + 1 else 0;
        RingStep(hdr, base, arena, c);
        if hdr[cur].size >= units { return true, prev, cur, c; }
        SameRingBlock(arena, base, c, s);
        if cur == list {
          forall j: nat | j < n ensures arena.free[j].size < units { assert RingSize(arena.free, j + 1) < units; }
          return false, prev, cur, c;
        }
        prev := cur;
        cur := hdr[cur].next;
        k := c;
      }
    }

    /** malloc; `asked` counts the calls to sbrk and `i` is the free block used. */
    method Malloc(size: nat, answer: Option<nat>) returns (ptr: nat, ghost asked: nat, ghost i: nat)
      requires Valid() && Backed(size) && (answer.Some? ==> arena.top <= answer.value)
      modifies this
      ensures Valid() && asked <= 1
      ensures size == 0 ==> ptr == 0 && asked == 0
      ensures ptr == 0 ==> arena == old(arena)
      ensures ptr == 0 && size > 0 ==> asked == 1 && (answer.None? || Granted(UnitsFor(size)) * UNIT >= WORD / 2)
      ensures ptr != 0 && asked == 0 ==> i < |old(arena).free| && UnitsFor(size) <= old(arena).free[i].size
      ensures ptr != 0 && asked == 0 ==> (arena, ptr - 1) == Take(old(arena), i, UnitsFor(size))
      ensures asked == 1 ==> forall j | 0 <= j < |old(arena).free| :: old(arena).free[j].size < UnitsFor(size)
      ensures ptr != 0 && asked == 1 ==> answer.Some?
      ensures ptr != 0 && asked == 1 ==>
        var g := Grow(old(arena), answer.value, Granted(UnitsFor(size)));
        i < |g.free| && UnitsFor(size) <= g.free[i].size && (arena, ptr - 1) == Take(g, i, UnitsFor(size))
    {
      hide ArenaOk, RingOk, LiveOk, InRing, Insert, Release, UnitsFor, Take;
      asked, i := 0, 0;
      if size == 0 { return 0, asked, i; }
      var units := UnitsFor(size);
      UnitsRange(size);
      if list == 0 {
        SentinelRing(hdr, base, arena);
        hdr := hdr[base := Header(base, 0)];
        list := base;
      }
      var found, prev, cur;
      ghost var c;
      found, prev, cur, c := Scan(units);
      if !found {
        asked := 1;
        var ok := GrowHeap(units, answer);
        if !ok { return 0, asked, i; }
        GrowFits(old(arena), base, answer.value, Granted(units));
        found, prev, cur, c := Scan(units);
        assert found;
      }
      i := c - 1;
      ptr := TakeBlock(prev, cur, units, c);
    }
  }

  function Granted(units: nat): (n: nat)
    ensures n >= units && n >= 256 && (n == units || n == 256)
  {
    if units < MIN_UNITS then MIN_UNITS else units
  }

  lemma UnitsRange(size: nat)
    requires Backed(size)
    ensures 1 <= UnitsFor(size) < WORD / UNIT
  {
  }

  lemma UnitsBound(size: nat)
    requires 0 < size && SizeOk(size)
    ensures 1 < UnitsFor(size) < WORD / UNIT && (UnitsFor(size) - 1) * UNIT >= size
  {
  }

  lemma RingStep(hdr: map<nat, Header>, base: nat, a: Arena, k: nat)
    requires RingOk(hdr, base, a.free) && k <= |a.free|
    ensures var b := RingAt(base, a.free, k);
      b in hdr && hdr[b].next == RingNext(base, a.free, k) && hdr[b].size == RingSize(a.free, k)
  {
    assert LinkOk(hdr, base, a.free, k);
  }

  lemma SameRingBlock(a: Arena, base: nat, j: nat, k: nat)
    requires ArenaOk(a, base) && j <= |a.free| && k <= |a.free|
    ensures RingAt(base, a.free, j) == RingAt(base, a.free, k) <==> j == k
  {
    if j < k { RingIncreases(a, base, j, k); } else if k < j { RingIncreases(a, base, k, j); }
  }

  lemma SentinelRing(hdr: map<nat, Header>, base: nat, a: Arena)
    requires HeapOk(hdr, base, 0, a)
    ensures HeapOk(hdr[base := Header(base, 0)], base, base, a)
  {
    hide ArenaOk;
    assert RingAt(base, a.free, 0) == base;
  }

  lemma RegionLinks(hdr: map<nat, Header>, base: nat, list: nat, a: Arena, at: nat, n: nat, next: nat)
    requires HeapOk(hdr, base, list, a) && list != 0 && a.top <= at && n >= 1
    ensures HeapOk(hdr[at := Header(next, n)], base, list, Region(a, at, n))
  {
    hide FreeTagged, LiveTagged, UnitOk;
    RegionOk(a, base, at, n);
    var h := hdr[at := Header(next, n)];
    forall k: nat | k <= |a.free| ensures LinkOk(h, base, a.free, k) {
      BelowTop(a, base, k);
      assert LinkOk(hdr, base, a.free, k);
    }
  }

  lemma BelowTop(a: Arena, base: nat, k: nat)
    requires ArenaOk(a, base) && k <= |a.free|
    ensures RingAt(base, a.free, k) < a.top
  {
    if k > 0 {
      assert FreeTagged(a, k - 1);
      assert UnitOk(a, base, a.free[k - 1].addr);
    }
  }

  lemma TakenLinks(hdr: map<nat, Header>, base: nat, list: nat, a: Arena, k: nat, units: nat)
    requires HeapOk(hdr, base, list, a) && list != 0 && 0 < k <= |a.free| && 1 <= units <= a.free[k - 1].size
    ensures var prev, cur := RingAt(base, a.free, k - 1), RingAt(base, a.free, k);
      && prev in hdr && hdr[prev] == Header(RingNext(base, a.free, k - 1), RingSize(a.free, k - 1)) && prev != 0
      && cur in hdr && hdr[cur] == Header(RingNext(base, a.free, k), a.free[k - 1].size)
      && HeapOk(Taken(hdr, base, a.free, k, units), base, prev, Take(a, k - 1, units).0)
  {
    hide ArenaOk, Taken, LiveOk;
    assert LinkOk(hdr, base, a.free, k - 1) && LinkOk(hdr, base, a.free, k);
    if k > 1 { RingIncreases(a, base, 0, k - 1); }
    TakenRing(hdr, base, a, k, units);
    TakenLive(hdr, base, a, k, units);
    TakeOk(a, base, k - 1, units);
  }

  /** Everything free() needs to know about the block it found. */
  lemma Relinked(hdr: map<nat, Header>, base: nat, a: Arena, b: nat)
    requires ArenaOk(a, base) && b in a.live && RingOk(hdr, base, a.free) && LiveOk(hdr, a.live) && base > 0
    ensures var t, blk := Below(a.free, b), Block(b, a.live[b]); var cur := RingAt(base, a.free, t);
      && b in hdr && hdr[b].size == a.live[b] && cur in hdr && b != cur && cur != 0
      && hdr[cur] == Header(RingNext(base, a.free, t), RingSize(a.free, t))
      && (JoinsNext(a.free, t, blk) <==> b + a.live[b] == RingNext(base, a.free, t))
      && (JoinsPrev(a.free, t, blk) <==> cur + RingSize(a.free, t) == b)
      && (JoinsNext(a.free, t, blk) ==> a.free[t].addr in hdr && a.free[t].addr != b)
      && (JoinsNext(a.free, t, blk) ==> hdr[a.free[t].addr] == Header(RingNext(base, a.free, t + 1), a.free[t].size))
    ensures HeapOk(Linked(hdr, base, a.free, Below(a.free, b), Block(b, a.live[b])), base,
                   RingAt(base, a.free, Below(a.free, b)), Release(a, b))
  {
    hide ArenaOk, Insert, Linked, Release;
    var t := Below(a.free, b);
    NotInRing(a, base, b);
    assert LinkOk(hdr, base, a.free, t);
    if t < |a.free| { assert LinkOk(hdr, base, a.free, t + 1); }
    if t > 0 { RingIncreases(a, base, 0, t); }
    LinkedRing(hdr, base, a, b);
    LinkedLive(hdr, base, a, b);
    ReleaseOk(a, base, b);
  }
}
