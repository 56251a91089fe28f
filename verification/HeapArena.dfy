/** What malloc and free do to the heap, without links: free blocks in address
    order, live blocks, and for every unit obtained from sbrk the one block it
    belongs to.  Addresses and sizes count units of one header (16 bytes). */
module HeapArena {

  datatype Block = Block(addr: nat, size: nat)

  /** The block a unit belongs to. */
  datatype Tag = FreeAt(start: nat) | LiveAt(start: nat)

  /** `top` is the end of the last region obtained from sbrk. */
  datatype Arena = Arena(free: seq<Block>, live: map<nat, nat>, tag: map<nat, Tag>, top: nat)

  function End(b: Block): nat { b.addr + b.size }

  /** Address order, and never two free blocks side by side. */
  ghost predicate Apart(free: seq<Block>) {
    forall i, j | 0 <= i < j < |free| :: End(free[i]) < free[j].addr
  }

  ghost predicate FreeTagged(a: Arena, i: nat)
    requires i < |a.free|
  {
    a.free[i].size >= 1 && forall u | a.free[i].addr <= u < End(a.free[i]) :: u in a.tag && a.tag[u] == FreeAt(a.free[i].addr)
  }

  ghost predicate LiveTagged(a: Arena, b: nat)
    requires b in a.live
  {
    a.live[b] >= 1 && forall u | b <= u < b + a.live[b] :: u in a.tag && a.tag[u] == LiveAt(b)
  }

  /** A tagged unit lies inside the block its tag names. */
  ghost predicate UnitOk(a: Arena, base: nat, u: nat)
    requires u in a.tag
  {
    && base < a.tag[u].start <= u < a.top
    && match a.tag[u]
       case LiveAt(b) => b in a.live && u < b + a.live[b]
       case FreeAt(b) => exists i :: 0 <= i < |a.free| && a.free[i].addr == b && u < End(a.free[i])
  }

  /** Free and live blocks are an exact partition of the units from sbrk. */
  ghost predicate ArenaOk(a: Arena, base: nat) {
    && Apart(a.free) && base < a.top
    && (forall i: nat {:trigger FreeTagged(a, i)} | i < |a.free| :: FreeTagged(a, i))
    && (forall b {:trigger LiveTagged(a, b)} | b in a.live :: LiveTagged(a, b))
    && (forall u {:trigger UnitOk(a, base, u)} | u in a.tag :: UnitOk(a, base, u))
  }

  // ----- Releasing a block

  /** Free blocks below address b. */
  function Below(free: seq<Block>, b: nat): (t: nat)
    ensures t <= |free|
    ensures forall i | 0 <= i < t :: free[i].addr < b
    ensures t < |free| ==> free[t].addr >= b
  {
    if free == [] || free[0].addr >= b then 0 else 1 + Below(free[1..], b)
  }

  lemma BelowIs(free: seq<Block>, b: nat, t: nat)
    requires t <= |free| && (forall i | 0 <= i < t :: free[i].addr < b) && (t < |free| ==> free[t].addr >= b)
    ensures Below(free, b) == t
  {
  }

  predicate JoinsNext(free: seq<Block>, t: nat, b: Block) { t < |free| && End(b) == free[t].addr }

  predicate JoinsPrev(free: seq<Block>, t: nat, b: Block) { 0 < t <= |free| && End(free[t - 1]) == b.addr }

  /** The free blocks [Lo, Hi) are absorbed by the block released at position t. */
  function Lo(free: seq<Block>, t: nat, b: Block): nat { if JoinsPrev(free, t, b) then t - 1 else t }

  function Hi(free: seq<Block>, t: nat, b: Block): nat { if JoinsNext(free, t, b) then t + 1 else t }

  function Merged(free: seq<Block>, t: nat, b: Block): Block {
    var n := if JoinsNext(free, t, b) then b.size + free[t].size else b.size;
    if JoinsPrev(free, t, b) then Block(free[t - 1].addr, free[t - 1].size + n) else Block(b.addr, n)
  }

  /** Insert at position t, merging with the block after and the block before. */
  function Insert(free: seq<Block>, t: nat, b: Block): seq<Block>
    requires t <= |free|
  {
    free[..Lo(free, t, b)] + [Merged(free, t, b)] + free[Hi(free, t, b)..]
  }

  /** free() of live block b. */
  function Release(a: Arena, b: nat): Arena
    requires b in a.live
  {
    var blk := Block(b, a.live[b]);
    var t := Below(a.free, b);
    a.(free := Insert(a.free, t, blk),
       live := a.live - {b},
       tag := map u | u in a.tag ::
         if a.tag[u] == LiveAt(b) || (JoinsNext(a.free, t, blk) && a.tag[u] == FreeAt(a.free[t].addr))
         then FreeAt(Merged(a.free, t, blk).addr) else a.tag[u])
  }

  // ----- Taking a block

  /** malloc takes `units` from free block i: all of it, or its upper end. */
  function Take(a: Arena, i: nat, units: nat): (Arena, nat)
    requires i < |a.free| && units <= a.free[i].size
  {
    var f := a.free[i];
    var b := f.addr + (f.size - units);
    (a.(free := if f.size == units then a.free[..i] + a.free[i + 1..] else a.free[i := Block(f.addr, f.size - units)],
        live := a.live[b := units],
        tag := map u | u in a.tag :: if b <= u < b + units then LiveAt(b) else a.tag[u]),
     b)
  }

  /** The units of a block. */
  function Units(at: nat, n: nat): (s: set<nat>)
    ensures forall u :: u in s <==> at <= u < at + n
  {
    if n == 0 then {} else Units(at, n - 1) + {at + n - 1}
  }

  /** sbrk hands out `units` at `at`: formatted as a live block, then released. */
  function Region(a: Arena, at: nat, units: nat): Arena {
    a.(live := a.live[at := units],
       tag := map u | u in a.tag.Keys + Units(at, units) :: if at <= u < at + units then LiveAt(at) else a.tag[u],
       top := at + units)
  }

  function Grow(a: Arena, at: nat, units: nat): Arena { Release(Region(a, at, units), at) }

  // ----- Each of them keeps the partition

  lemma RegionOk(a: Arena, base: nat, at: nat, units: nat)
    requires ArenaOk(a, base) && a.top <= at && units >= 1
    ensures ArenaOk(Region(a, at, units), base)
  {
    var c := Region(a, at, units);
    forall u | u in a.tag ensures u < a.top { assert UnitOk(a, base, u); }
    forall i: nat | i < |c.free| ensures FreeTagged(c, i) { assert FreeTagged(a, i); }
    forall b | b in c.live ensures LiveTagged(c, b) { if b != at { assert LiveTagged(a, b); } }
    forall u | u in c.tag ensures UnitOk(c, base, u) {
      if !(at <= u < at + units) {
        assert UnitOk(a, base, u);
      }
    }
  }

  lemma DropApart(free: seq<Block>, i: nat)
    requires Apart(free) && i < |free|
    ensures Apart(free[..i] + free[i + 1..])
  {
    var c := free[..i] + free[i + 1..];
    forall j, k | 0 <= j < k < |c| ensures End(c[j]) < c[k].addr {
      assert c[j] == free[if j < i then j else j + 1] && c[k] == free[if k < i then k else k + 1];
    }
  }

  lemma ShrinkApart(free: seq<Block>, i: nat, b: Block)
    requires Apart(free) && i < |free| && b.addr == free[i].addr && b.size <= free[i].size
    ensures Apart(free[i := b])
  {
    var c := free[i := b];
    forall j, k | 0 <= j < k < |c| ensures End(c[j]) < c[k].addr { assert End(free[j]) < free[k].addr; }
  }

  lemma TakeFree(a: Arena, i: nat, units: nat)
    requires Apart(a.free) && i < |a.free| && 1 <= units <= a.free[i].size
    ensures Apart(Take(a, i, units).0.free)
  {
    hide Apart;
    var f := a.free[i];
    if f.size == units { DropApart(a.free, i); } else { ShrinkApart(a.free, i, Block(f.addr, f.size - units)); }
  }

  /** Units of one block are not units of another. */
  lemma LiveOutside(a: Arena, base: nat, l: nat, i: nat)
    requires ArenaOk(a, base) && l in a.live && i < |a.free|
    ensures l + a.live[l] <= a.free[i].addr || End(a.free[i]) <= l
  {
    assert LiveTagged(a, l) && FreeTagged(a, i);
    assert a.tag[l] == LiveAt(l) && a.tag[a.free[i].addr] == FreeAt(a.free[i].addr);
  }

  lemma TakeFreeTagged(a: Arena, base: nat, i: nat, units: nat, k: nat)
    requires ArenaOk(a, base) && i < |a.free| && 1 <= units <= a.free[i].size && k < |Take(a, i, units).0.free|
    ensures FreeTagged(Take(a, i, units).0, k)
  {
    var f := a.free[i];
    var j := if f.size == units && k >= i then k + 1 else k;
    assert FreeTagged(a, j);
    if j != i { assert End(a.free[j]) < f.addr || End(f) < a.free[j].addr; }
  }

  lemma UnitIsOk(a: Arena, base: nat, u: nat)
    requires ArenaOk(a, base) && u in a.tag
    ensures UnitOk(a, base, u)
  {
  }

  lemma BlockIsTagged(a: Arena, base: nat, i: nat)
    requires ArenaOk(a, base) && i < |a.free|
    ensures FreeTagged(a, i)
  {
  }

  lemma LiveIsTagged(a: Arena, base: nat, b: nat)
    requires ArenaOk(a, base) && b in a.live
    ensures LiveTagged(a, b)
  {
  }

  lemma TakeUnitOk(a: Arena, base: nat, i: nat, units: nat, u: nat)
    requires ArenaOk(a, base) && i < |a.free| && 1 <= units <= a.free[i].size && u in a.tag
    ensures UnitOk(Take(a, i, units).0, base, u)
  {
    hide ArenaOk;
    var f, c, b := a.free[i], Take(a, i, units).0, Take(a, i, units).1;
    UnitIsOk(a, base, u);
    BlockIsTagged(a, base, i);
    if b <= u < b + units {
      UnitIsOk(a, base, f.addr);
    } else if a.tag[u].FreeAt? {
      var j :| 0 <= j < |a.free| && a.free[j].addr == a.tag[u].start && u < End(a.free[j]);
      var k := if f.size == units && j > i then j - 1 else j;
      assert 0 <= k < |c.free| && c.free[k].addr == a.free[j].addr && u < End(c.free[k]);
    } else {
      LiveOutside(a, base, a.tag[u].start, i);
    }
  }

  lemma TakeOk(a: Arena, base: nat, i: nat, units: nat)
    requires ArenaOk(a, base) && i < |a.free| && 1 <= units <= a.free[i].size
    ensures ArenaOk(Take(a, i, units).0, base)
    ensures Take(a, i, units).1 !in a.live
  {
    var f, c, b := a.free[i], Take(a, i, units).0, Take(a, i, units).1;
    TakeFree(a, i, units);
    if b in a.live {
      assert LiveTagged(a, b);
      LiveOutside(a, base, b, i);
    }
    forall k: nat | k < |c.free| ensures FreeTagged(c, k) { TakeFreeTagged(a, base, i, units, k); }
    forall l | l in c.live ensures LiveTagged(c, l) {
      assert FreeTagged(a, i);
      if l != b {
        assert LiveTagged(a, l);
        LiveOutside(a, base, l, i);
      }
    }
    forall u | u in c.tag ensures UnitOk(c, base, u) { TakeUnitOk(a, base, i, units, u); }
  }

  /** Block b lies strictly between the free blocks t - 1 and t. */
  ghost predicate Between(free: seq<Block>, t: nat, b: Block) {
    && t <= |free| && b.size >= 1
    && (t > 0 ==> End(free[t - 1]) <= b.addr) && (t < |free| ==> End(b) <= free[t].addr)
    && (forall i | 0 <= i < |free| :: free[i].size >= 1)
  }

  lemma ReleaseBetween(a: Arena, base: nat, b: nat)
    requires ArenaOk(a, base) && b in a.live
    ensures Between(a.free, Below(a.free, b), Block(b, a.live[b]))
  {
    var t := Below(a.free, b);
    assert LiveTagged(a, b);
    forall i: nat | i < |a.free| ensures a.free[i].size >= 1 { assert FreeTagged(a, i); }
    if t > 0 { LiveOutside(a, base, b, t - 1); }
    if t < |a.free| { LiveOutside(a, base, b, t); }
  }

  /** Where the blocks of the new free list come from. */
  lemma InsertAt(free: seq<Block>, t: nat, b: Block)
    requires t <= |free|
    ensures var r, lo, hi := Insert(free, t, b), Lo(free, t, b), Hi(free, t, b);
      && |r| == lo + 1 + (|free| - hi) && r[lo] == Merged(free, t, b)
      && (forall i | 0 <= i < lo :: r[i] == free[i])
      && (forall i | lo < i < |r| :: r[i] == free[i - lo - 1 + hi])
  {
  }

  /** Merging on both sides keeps the order and leaves no two free neighbours. */
  lemma InsertApart(free: seq<Block>, t: nat, b: Block)
    requires Apart(free) && Between(free, t, b)
    ensures Apart(Insert(free, t, b))
  {
    hide Insert;
    InsertAt(free, t, b);
    var r, lo, hi, m := Insert(free, t, b), Lo(free, t, b), Hi(free, t, b), Merged(free, t, b);
    forall i | 0 <= i < lo ensures End(free[i]) < m.addr {
      assert t > 0 && (i < t - 1 ==> End(free[i]) < free[t - 1].addr);
    }
    forall j | hi <= j < |free| ensures End(m) < free[j].addr {
      assert t < |free| && (t < j ==> End(free[t]) < free[j].addr);
    }
    forall i, j | 0 <= i < j < |r| ensures End(r[i]) < r[j].addr {
      assert i < lo < j ==> r[i] == free[i] && r[j] == free[j - lo - 1 + hi];
    }
  }

  lemma MergedTagged(a: Arena, base: nat, b: nat)
    requires ArenaOk(a, base) && b in a.live
    ensures var blk, t := Block(b, a.live[b]), Below(a.free, b); var m := Merged(a.free, t, blk);
      m.size >= 1 && forall u | m.addr <= u < End(m) :: u in a.tag && Release(a, b).tag[u] == FreeAt(m.addr)
  {
    hide Insert, UnitOk;
    ReleaseBetween(a, base, b);
    var blk, t := Block(b, a.live[b]), Below(a.free, b);
    assert LiveTagged(a, b);
    if JoinsNext(a.free, t, blk) { assert FreeTagged(a, t); }
    if JoinsPrev(a.free, t, blk) { assert FreeTagged(a, t - 1); }
  }

  lemma OthersTagged(a: Arena, base: nat, b: nat, j: nat)
    requires ArenaOk(a, base) && b in a.live && j < |a.free|
    requires !(Lo(a.free, Below(a.free, b), Block(b, a.live[b])) <= j < Hi(a.free, Below(a.free, b), Block(b, a.live[b])))
    ensures var f := a.free[j];
      f.size >= 1 && forall u | f.addr <= u < End(f) :: u in a.tag && Release(a, b).tag[u] == FreeAt(f.addr)
  {
    hide Insert, UnitOk, LiveTagged, Apart;
    var t := Below(a.free, b);
    assert FreeTagged(a, j);
    if t < |a.free| && j != t {
      AddrsDiffer(a, base, j, t);
    }
  }

  lemma ReleaseFreeTagged(a: Arena, base: nat, b: nat, k: nat)
    requires ArenaOk(a, base) && b in a.live && k < |Release(a, b).free|
    ensures FreeTagged(Release(a, b), k)
  {
    hide Insert, UnitOk, ArenaOk, Merged;
    var blk, t := Block(b, a.live[b]), Below(a.free, b);
    InsertAt(a.free, t, blk);
    var lo, hi := Lo(a.free, t, blk), Hi(a.free, t, blk);
    if k == lo {
      MergedTagged(a, base, b);
    } else {
      OthersTagged(a, base, b, if k < lo then k else k - lo - 1 + hi);
    }
  }

  /** The free block that unit u belongs to after the release. */
  lemma AddrsDiffer(a: Arena, base: nat, i: nat, j: nat)
    requires ArenaOk(a, base) && i < |a.free| && j < |a.free| && i != j
    ensures a.free[i].addr != a.free[j].addr
  {
    assert End(a.free[if i < j then i else j]) < a.free[if i < j then j else i].addr;
  }

  lemma ReleaseFreeUnit(a: Arena, base: nat, b: nat, u: nat, j: nat)
    requires ArenaOk(a, base) && b in a.live && u in a.tag && j < |a.free| && a.tag[u] == FreeAt(a.free[j].addr) && u < End(a.free[j])
    ensures exists k :: 0 <= k < |Release(a, b).free| && Release(a, b).free[k].addr == Release(a, b).tag[u].start && u < End(Release(a, b).free[k])
  {
    hide Insert, ArenaOk, Below;
    ReleaseBetween(a, base, b);
    var blk, t, c := Block(b, a.live[b]), Below(a.free, b), Release(a, b);
    InsertAt(a.free, t, blk);
    var lo, hi := Lo(a.free, t, blk), Hi(a.free, t, blk);
    if hi > t && j != t { AddrsDiffer(a, base, j, t); }
    if lo < t && j != t - 1 { AddrsDiffer(a, base, j, t - 1); }
    var k := if j < lo then j else if j < hi then lo else j - hi + 1 + lo;
    assert 0 <= k < |c.free|;
    assert c.free[k].addr == c.tag[u].start && u < End(c.free[k]);
  }

  lemma ReleaseUnitOk(a: Arena, base: nat, b: nat, u: nat)
    requires ArenaOk(a, base) && b in a.live && u in a.tag
    ensures UnitOk(Release(a, b), base, u)
  {
    hide Insert, ArenaOk, Below;
    ReleaseBetween(a, base, b);
    var blk, t, c := Block(b, a.live[b]), Below(a.free, b), Release(a, b);
    InsertAt(a.free, t, blk);
    LiveIsTagged(a, base, b);
    UnitIsOk(a, base, u);
    UnitIsOk(a, base, b);
    if t > 0 {
      BlockIsTagged(a, base, t - 1);
      UnitIsOk(a, base, a.free[t - 1].addr);
    }
    if a.tag[u].FreeAt? {
      var j :| 0 <= j < |a.free| && a.free[j].addr == a.tag[u].start && u < End(a.free[j]);
      ReleaseFreeUnit(a, base, b, u, j);
    } else if a.tag[u].start == b {
      var lo := Lo(a.free, t, blk);
      assert c.free[lo].addr == c.tag[u].start && u < End(c.free[lo]);
    }
  }

  lemma ReleaseOk(a: Arena, base: nat, b: nat)
    requires ArenaOk(a, base) && b in a.live
    ensures ArenaOk(Release(a, b), base)
  {
    ReleaseBetween(a, base, b);
    var c := Release(a, b);
    InsertApart(a.free, Below(a.free, b), Block(b, a.live[b]));
    forall k: nat | k < |c.free| ensures FreeTagged(c, k) { ReleaseFreeTagged(a, base, b, k); }
    forall l | l in c.live ensures LiveTagged(c, l) { assert LiveTagged(a, l); }
    forall u | u in c.tag ensures UnitOk(c, base, u) { ReleaseUnitOk(a, base, b, u); }
  }

  lemma GrowOk(a: Arena, base: nat, at: nat, units: nat)
    requires ArenaOk(a, base) && a.top <= at && units >= 1
    ensures ArenaOk(Grow(a, at, units), base)
  {
    RegionOk(a, base, at, units);
    ReleaseOk(Region(a, at, units), base, at);
  }

  // ----- What the partition means

  /** Live payloads never overlap, and no free block overlaps a live one. */
  lemma LiveDisjoint(a: Arena, base: nat, b: nat, c: nat)
    requires ArenaOk(a, base) && b in a.live && c in a.live && b < c
    ensures b + a.live[b] <= c
  {
    assert LiveTagged(a, b) && LiveTagged(a, c);
    assert a.tag[c] == LiveAt(c);
  }

  ghost predicate InFree(a: Arena, i: nat, u: nat) { i < |a.free| && a.free[i].addr <= u < End(a.free[i]) }

  ghost predicate InLive(a: Arena, b: nat, u: nat) { b in a.live && b <= u < b + a.live[b] }

  /** Every unit obtained from sbrk lies in exactly one block, and blocks contain
      nothing else. */
  lemma ExactPartition(a: Arena, base: nat, u: nat)
    requires ArenaOk(a, base)
    ensures u in a.tag <==> (exists i :: InFree(a, i, u)) || (exists b :: InLive(a, b, u))
    ensures forall i, j | InFree(a, i, u) && InFree(a, j, u) :: i == j
    ensures forall b, c | InLive(a, b, u) && InLive(a, c, u) :: b == c
    ensures !((exists i :: InFree(a, i, u)) && (exists b :: InLive(a, b, u)))
  {
    forall i: nat | InFree(a, i, u) ensures u in a.tag && a.tag[u] == FreeAt(a.free[i].addr) { assert FreeTagged(a, i); }
    forall b | InLive(a, b, u) ensures u in a.tag && a.tag[u] == LiveAt(b) { assert LiveTagged(a, b); }
    if u in a.tag {
      assert UnitOk(a, base, u);
      match a.tag[u]
      case LiveAt(b) => assert InLive(a, b, u);
      case FreeAt(b) =>
        var i :| 0 <= i < |a.free| && a.free[i].addr == b && u < End(a.free[i]);
        assert InFree(a, i, u);
    }
  }

  /** A region is added above everything: the last free block holds it. */
  lemma GrowFits(a: Arena, base: nat, at: nat, units: nat)
    requires ArenaOk(a, base) && a.top <= at && units >= 1
    ensures var f := Grow(a, at, units).free; |f| > 0 && f[|f| - 1].size >= units
    ensures Below(a.free, at) == |a.free|
  {
    hide Insert;
    forall i: nat | i < |a.free| ensures End(a.free[i]) <= at {
      assert FreeTagged(a, i);
      assert UnitOk(a, base, End(a.free[i]) - 1);
    }
    forall i: nat | i < |a.free| ensures a.free[i].addr < at { assert FreeTagged(a, i); }
    BelowIs(a.free, at, |a.free|);
    InsertAt(a.free, |a.free|, Block(at, units));
  }

  /** free undoes malloc. */
  lemma ReleaseUndoesTake(a: Arena, base: nat, i: nat, units: nat)
    requires ArenaOk(a, base) && i < |a.free| && 1 <= units <= a.free[i].size
    ensures var t := Take(a, i, units); Release(t.0, t.1) == a
  {
    var f, c, b := a.free[i], Take(a, i, units).0, Take(a, i, units).1;
    TakeOk(a, base, i, units);
    assert FreeTagged(a, i);
    ReleaseUndoesTakeFree(a, base, i, units);
    var r := Release(c, b);
    assert r.live == a.live;
    forall u | u in a.tag ensures r.tag[u] == a.tag[u] {
      assert UnitOk(a, base, u);
      if a.tag[u].FreeAt? && b <= u < b + units {
        assert InFree(a, i, u);
        ExactPartition(a, base, u);
      }
    }
    assert r.tag == a.tag;
  }

  ghost predicate Undone(a: Arena, i: nat, units: nat)
    requires i < |a.free| && units <= a.free[i].size
  {
    var t := Take(a, i, units);
    var n, blk := Below(t.0.free, t.1), Block(t.1, units);
    Insert(t.0.free, n, blk) == a.free && !JoinsNext(t.0.free, n, blk) && Merged(t.0.free, n, blk).addr == a.free[i].addr
  }

  lemma UndoWhole(a: Arena, i: nat)
    requires Apart(a.free) && i < |a.free| && a.free[i].size >= 1
    ensures Undone(a, i, a.free[i].size)
  {
    hide Below;
    var f := a.free[i];
    var c, b := Take(a, i, f.size).0, f.addr;
    assert c.free == a.free[..i] + a.free[i + 1..];
    assert i < |c.free| ==> c.free[i] == a.free[i + 1];
    BelowIs(c.free, b, i);
    assert !JoinsPrev(c.free, i, f) && !JoinsNext(c.free, i, f);
    assert c.free[..i] + [f] + c.free[i..] == a.free;
  }

  lemma UndoSplit(a: Arena, i: nat, units: nat)
    requires Apart(a.free) && i < |a.free| && 1 <= units < a.free[i].size
    ensures Undone(a, i, units)
  {
    hide Below;
    var f := a.free[i];
    var c, b := Take(a, i, units).0, f.addr + (f.size - units);
    BelowIs(c.free, b, i + 1);
    assert JoinsPrev(c.free, i + 1, Block(b, units));
    assert c.free[..i] + [f] + c.free[i + 1..] == a.free;
  }

  lemma ReleaseUndoesTakeFree(a: Arena, base: nat, i: nat, units: nat)
    requires ArenaOk(a, base) && i < |a.free| && 1 <= units <= a.free[i].size
    ensures Undone(a, i, units)
  {
    hide Undone;
    if a.free[i].size == units { UndoWhole(a, i); } else { UndoSplit(a, i, units); }
  }
}
