/** Copy-on-write address spaces, seen as a flat table of leaf entries.

    A state holds every present user leaf entry of every page table, the 16-bit
    reference count of every physical frame and the contents of physical memory.
    The steps are what the kernel does to one leaf at a time; whole forks and
    teardowns are built from them.  `PageTables` shows that the four-level
    tables in memory implement exactly these steps. */
module CopyOnWrite {
  import opened Types

  /** Pages in the user half: PML4 entries 0..255. */
  const USER_PAGES: nat := 256 * 512 * 512 * 512

  type Frame = nat
  type VPage = nat
  /** An address space is named by the frame that holds its PML4. */
  type Space = Frame
  type Key = (Space, VPage)
  type Bytes = seq<byte>

  /** The bits of a leaf entry that no page-table operation changes. */
  datatype Attr = Attr(user: bool, pwt: bool, nx: bool)

  datatype Pte = Pte(frame: Frame, writable: bool, cow: bool, shared: bool, nopmm: bool, attr: Attr)

  /** `device` holds the frames that do not belong to the page allocator. */
  datatype State = State(
    spaces: set<Space>,
    leaves: map<Key, Pte>,
    refs: seq<nat>,
    data: seq<Bytes>,
    device: set<Frame>)

  // ----- What the entries say about a frame

  predicate Aliased(p: Pte) { p.shared || p.nopmm }

  /** The entries that hold a reference on frame f. */
  ghost function Mappers(s: State, f: Frame): set<Key> {
    set k | k in s.leaves && !s.leaves[k].nopmm && s.leaves[k].frame == f
  }

  // ----- The global invariant

  ghost predicate EntryOk(s: State, k: Key)
    requires k in s.leaves
  {
    var p := s.leaves[k];
    && k.0 in s.spaces && k.1 < USER_PAGES
    && p.frame < |s.data| && |s.data[p.frame]| == PAGE_SIZE
    && (if p.nopmm then p.frame in s.device
        else p.frame !in s.device && 1 <= p.frame < |s.refs| <= |s.data|)
    && (p.cow ==> !p.writable && !Aliased(p))
  }

  /** Two entries on one frame agree on the page and on being shared, and
      neither of them may write it unless both are meant to alias. */
  ghost predicate PairOk(s: State, k: Key, l: Key)
    requires k in s.leaves && l in s.leaves
  {
    var p, q := s.leaves[k], s.leaves[l];
    k != l && !p.nopmm && !q.nopmm && p.frame == q.frame ==>
      k.1 == l.1 && p.shared == q.shared && (p.writable ==> p.shared)
  }

  /** What holds after every step, failed allocations included. */
  ghost predicate Inv(s: State) {
    && (forall k {:trigger EntryOk(s, k)} | k in s.leaves :: EntryOk(s, k))
    && (forall k, l {:trigger PairOk(s, k, l)} | k in s.leaves && l in s.leaves :: PairOk(s, k, l))
    && (forall f {:trigger Mappers(s, f)} | 0 <= f < |s.refs| :: |Mappers(s, f)| <= s.refs[f] <= MAX_REFS)
  }

  /** References on f that no leaf entry accounts for: page-table pages, kernel
      stacks, slabs, and frames leaked by a failed or overwriting map. */
  ghost function Extra(s: State, f: Frame): int
    requires f < |s.refs|
  {
    s.refs[f] - |Mappers(s, f)|
  }

  predicate Free(s: State, f: Frame) {
    1 <= f < |s.refs| <= |s.data| && s.refs[f] == 0 && f !in s.device
  }

  // ----- Steps

  /** The kernel takes a free frame for itself (a table page, a stack, a slab). */
  function Take(s: State, f: Frame, content: Bytes): State
    requires Free(s, f)
  {
    s.(refs := s.refs[f := 1], data := s.data[f := content])
  }

  /** The kernel drops one of its own references. */
  function Drop(s: State, f: Frame): State {
    if f < |s.refs| && s.refs[f] > 0 then s.(refs := s.refs[f := s.refs[f] - 1]) else s
  }

  /** A new, empty user half below PML4 frame r. */
  function Create(s: State, r: Space): State {
    s.(spaces := s.spaces + {r})
  }

  /** A frame is allocated, filled and mapped at k; a map that cannot get its
      table pages returns silently and leaves the frame allocated. */
  function MapFresh(s: State, k: Key, p: Pte, content: Bytes, ok: bool): State
    requires Free(s, p.frame)
  {
    var t := s.(refs := s.refs[p.frame := 1], data := s.data[p.frame := content]);
    if ok then t.(leaves := t.leaves[k := p]) else t
  }

  function MapDevice(s: State, k: Key, p: Pte, ok: bool): State {
    if ok then s.(leaves := s.leaves[k := p]) else s
  }

  function Unmap(s: State, k: Key): State {
    if k !in s.leaves then s
    else
      var p := s.leaves[k];
      var t := s.(leaves := s.leaves - {k});
      if p.nopmm then t else Drop(t, p.frame)
  }

  /** What fork does to a private writable entry, in parent and child alike. */
  function Downgrade(p: Pte): Pte {
    if p.writable && !Aliased(p) then p.(writable := false, cow := true) else p
  }

  /** One iteration of the fork loop: downgrade, count, map in the child.  The
      16-bit count wraps. */
  function Share(s: State, src: Space, dst: Space, v: VPage, ok: bool): State
    requires (src, v) in s.leaves
    requires !s.leaves[(src, v)].nopmm ==> s.leaves[(src, v)].frame < |s.refs|
  {
    var p := Downgrade(s.leaves[(src, v)]);
    var m := s.leaves[(src, v) := p];
    var t := s.(leaves := if ok then m[(dst, v) := p] else m);
    if p.nopmm then t else t.(refs := t.refs[p.frame := (t.refs[p.frame] + 1) % (MAX_REFS + 1)])
  }

  /** A present copy-on-write entry. */
  predicate CowEntry(s: State, k: Key) {
    k in s.leaves && s.leaves[k].cow && s.leaves[k].frame < |s.refs| <= |s.data|
  }

  /** The write-fault handler has to ask the allocator for a frame. */
  predicate NeedsCopy(s: State, k: Key) {
    CowEntry(s, k) && s.refs[s.leaves[k].frame] != 1
  }

  /** The write-fault handler; `spare` is the allocator's answer, if asked. */
  function Fault(s: State, k: Key, spare: Option<Frame>): (State, bool) {
    if !CowEntry(s, k) then (s, false)
    else
      var p := s.leaves[k];
      var up := p.(writable := true, cow := false);
      if s.refs[p.frame] == 1 then (s.(leaves := s.leaves[k := up]), true)
      else if spare.None? || !Free(s, spare.value) then (s, false)
      else
        var t := MapFresh(s, k, up.(frame := spare.value), s.data[p.frame], true);
        (Drop(t, p.frame), true)
  }

  /** Could a store by user code at k reach memory without a fault? */
  predicate Stores(s: State, k: Key) {
    && k in s.leaves && s.leaves[k].writable && s.leaves[k].attr.user
    && s.leaves[k].frame < |s.data| && |s.data[s.leaves[k].frame]| == PAGE_SIZE
  }

  function Poke(s: State, f: Frame, off: nat, b: byte): State
    requires f < |s.data| && off < |s.data[f]|
  {
    s.(data := s.data[f := s.data[f][off := b]])
  }

  /** A user store: the MMU lets it through, or the fault handler runs and the
      instruction is retried; `false` means the process is killed. */
  function Write(s: State, k: Key, off: nat, b: byte, spare: Option<Frame>): (State, bool)
    requires off < PAGE_SIZE
  {
    if Stores(s, k) then (Poke(s, s.leaves[k].frame, off, b), true)
    else
      var r := Fault(s, k, spare);
      if r.1 && Stores(r.0, k) then (Poke(r.0, r.0.leaves[k].frame, off, b), true) else (r.0, false)
  }

  // ----- Facts about one step

  lemma RefsPositive(s: State, k: Key)
    requires Inv(s)
    ensures k in s.leaves && !s.leaves[k].nopmm ==>
      EntryOk(s, k) && k in Mappers(s, s.leaves[k].frame) && s.refs[s.leaves[k].frame] >= |Mappers(s, s.leaves[k].frame)| > 0
    ensures k in s.leaves ==> EntryOk(s, k)
  {
    if k in s.leaves {
      assert EntryOk(s, k);
      if !s.leaves[k].nopmm {
        var m := Mappers(s, s.leaves[k].frame);
        assert k in m;
        assert m == m - {k} + {k};
      }
    }
  }

  // ----- How one changed entry moves the counts

  lemma MappersAfterSet(s: State, t: State, k: Key, p: Pte, f: Frame)
    requires t.leaves == s.leaves[k := p]
    ensures Mappers(t, f) == Mappers(s, f) - {k} + (if !p.nopmm && p.frame == f then {k} else {})
    ensures |Mappers(t, f)| <= |Mappers(s, f)| + (if !p.nopmm && p.frame == f then 1 else 0)
  {
  }

  lemma MappersAfterRemove(s: State, t: State, k: Key, f: Frame)
    requires t.leaves == s.leaves - {k}
    ensures Mappers(t, f) == Mappers(s, f) - {k}
    ensures |Mappers(t, f)| == |Mappers(s, f)| - (if k in Mappers(s, f) then 1 else 0)
  {
  }

  lemma FreeIsUnmapped(s: State, f: Frame)
    requires Inv(s) && Free(s, f)
    ensures Mappers(s, f) == {}
    ensures forall k | k in s.leaves :: s.leaves[k].frame != f
  {
    forall k | k in s.leaves ensures s.leaves[k].frame != f {
      RefsPositive(s, k);
    }
  }

  // ----- Every step keeps the invariant

  lemma NewSpaceKeepsInv(s: State, r: Space)
    requires Inv(s)
    ensures Inv(Create(s, r))
  {
    var t := Create(s, r);
    forall g ensures Mappers(t, g) == Mappers(s, g) {}
    forall k | k in t.leaves ensures EntryOk(t, k) { assert EntryOk(s, k); }
    forall k, l | k in t.leaves && l in t.leaves ensures PairOk(t, k, l) { assert PairOk(s, k, l); }
  }

  lemma TakeKeepsInv(s: State, f: Frame, content: Bytes)
    requires Inv(s) && Free(s, f)
    ensures Inv(Take(s, f, content))
  {
    FreeIsUnmapped(s, f);
    var t := Take(s, f, content);
    forall g ensures Mappers(t, g) == Mappers(s, g) {}
    forall k | k in t.leaves ensures EntryOk(t, k) { assert EntryOk(s, k); }
    forall k, l | k in t.leaves && l in t.leaves ensures PairOk(t, k, l) { assert PairOk(s, k, l); }
  }

  lemma DropKeepsInv(s: State, f: Frame)
    requires Inv(s) && f < |s.refs| && Extra(s, f) > 0
    ensures Inv(Drop(s, f))
  {
    var t := Drop(s, f);
    forall g ensures Mappers(t, g) == Mappers(s, g) {}
    forall k | k in t.leaves ensures EntryOk(t, k) { assert EntryOk(s, k); }
    forall k, l | k in t.leaves && l in t.leaves ensures PairOk(t, k, l) { assert PairOk(s, k, l); }
  }

  ghost predicate FreshOk(s: State, k: Key, p: Pte, content: Bytes) {
    && k.0 in s.spaces && k.1 < USER_PAGES && Free(s, p.frame)
    && !p.nopmm && !p.cow && |content| == PAGE_SIZE
  }

  lemma MapFreshKeepsInv(s: State, k: Key, p: Pte, content: Bytes, ok: bool)
    requires Inv(s) && FreshOk(s, k, p, content)
    ensures Inv(MapFresh(s, k, p, content, ok))
  {
    FreeIsUnmapped(s, p.frame);
    var t := MapFresh(s, k, p, content, ok);
    forall g | 0 <= g < |t.refs| ensures |Mappers(t, g)| <= t.refs[g] <= MAX_REFS {
      if ok { MappersAfterSet(s, t, k, p, g); } else { assert Mappers(t, g) == Mappers(s, g); }
    }
    forall l | l in t.leaves ensures EntryOk(t, l) {
      if l != k || !ok { assert EntryOk(s, l); }
    }
    forall l, m | l in t.leaves && m in t.leaves ensures PairOk(t, l, m) {
      if !ok || (l != k && m != k) { assert PairOk(s, l, m); }
    }
  }

  ghost predicate DeviceOk(s: State, k: Key, p: Pte) {
    && k.0 in s.spaces && k.1 < USER_PAGES && p.nopmm && !p.cow && p.frame in s.device
    && p.frame < |s.data| && |s.data[p.frame]| == PAGE_SIZE
  }

  lemma MapDeviceKeepsInv(s: State, k: Key, p: Pte, ok: bool)
    requires Inv(s) && DeviceOk(s, k, p)
    ensures Inv(MapDevice(s, k, p, ok))
  {
    var t := MapDevice(s, k, p, ok);
    forall g | 0 <= g < |t.refs| ensures |Mappers(t, g)| <= t.refs[g] <= MAX_REFS {
      if ok { MappersAfterSet(s, t, k, p, g); }
    }
    forall l | l in t.leaves ensures EntryOk(t, l) {
      if l != k || !ok { assert EntryOk(s, l); }
    }
    forall l, m | l in t.leaves && m in t.leaves ensures PairOk(t, l, m) {
      if !ok || (l != k && m != k) { assert PairOk(s, l, m); }
    }
  }

  lemma UnmapKeepsInv(s: State, k: Key)
    requires Inv(s)
    ensures Inv(Unmap(s, k))
    ensures forall f | 0 <= f < |s.refs| :: Extra(Unmap(s, k), f) == Extra(s, f)
  {
    RefsPositive(s, k);
    var t := Unmap(s, k);
    if k in s.leaves {
      forall g | 0 <= g < |t.refs|
        ensures |Mappers(t, g)| <= t.refs[g] <= MAX_REFS && Extra(t, g) == Extra(s, g)
      {
        MappersAfterRemove(s, t, k, g);
      }
      forall l | l in t.leaves ensures EntryOk(t, l) { assert EntryOk(s, l); }
      forall l, m | l in t.leaves && m in t.leaves ensures PairOk(t, l, m) { assert PairOk(s, l, m); }
    }
  }

  ghost predicate ShareOk(s: State, src: Space, dst: Space, v: VPage) {
    && src != dst && src in s.spaces && dst in s.spaces
    && (src, v) in s.leaves && (dst, v) !in s.leaves
  }

  /** Is there room in the 16-bit count of the frame src maps at v? */
  predicate Room(s: State, src: Space, v: VPage) {
    (src, v) in s.leaves && !s.leaves[(src, v)].nopmm && s.leaves[(src, v)].frame < |s.refs| ==>
      s.refs[s.leaves[(src, v)].frame] < MAX_REFS
  }

  lemma ShareCounts(s: State, src: Space, dst: Space, v: VPage, ok: bool, f: Frame)
    requires Inv(s) && ShareOk(s, src, dst, v) && f < |s.refs|
    ensures EntryOk(s, (src, v))
    ensures |Mappers(Share(s, src, dst, v, ok), f)| ==
      |Mappers(s, f)| + (if ok && !s.leaves[(src, v)].nopmm && s.leaves[(src, v)].frame == f then 1 else 0)
  {
    assert EntryOk(s, (src, v));
    var entry, t := s.leaves[(src, v)], Share(s, src, dst, v, ok);
    var added: set<Key> := if ok && !entry.nopmm && entry.frame == f then {(dst, v)} else {};
    assert (dst, v) !in Mappers(s, f);
    forall k ensures k in Mappers(t, f) <==> k in Mappers(s, f) + added {
      assert k != (src, v) && k != (dst, v) ==> (k in t.leaves <==> k in s.leaves);
    }
    assert Mappers(t, f) == Mappers(s, f) + added;
  }

  lemma SharePair(s: State, src: Space, dst: Space, v: VPage, ok: bool, k: Key, l: Key)
    requires Inv(s) && ShareOk(s, src, dst, v) && EntryOk(s, (src, v))
    requires k in Share(s, src, dst, v, ok).leaves && l in Share(s, src, dst, v, ok).leaves
    ensures PairOk(Share(s, src, dst, v, ok), k, l)
  {
    var a := if k == (dst, v) then (src, v) else k;
    var b := if l == (dst, v) then (src, v) else l;
    assert PairOk(s, a, b) && PairOk(s, b, a) && EntryOk(s, a) && EntryOk(s, b);
    hide Inv;
  }

  lemma ShareKeepsEntries(s: State, src: Space, dst: Space, v: VPage, ok: bool)
    requires Inv(s) && ShareOk(s, src, dst, v)
    ensures EntryOk(s, (src, v))
    ensures var t := Share(s, src, dst, v, ok);
      && (forall k | k in t.leaves :: EntryOk(t, k))
      && (forall k, l | k in t.leaves && l in t.leaves :: PairOk(t, k, l))
  {
    RefsPositive(s, (src, v));
    var t := Share(s, src, dst, v, ok);
    forall k | k in t.leaves ensures EntryOk(t, k) {
      if k != (dst, v) { assert EntryOk(s, k); }
    }
    forall k, l | k in t.leaves && l in t.leaves ensures PairOk(t, k, l) { SharePair(s, src, dst, v, ok, k, l); }
  }

  /** A fork step keeps the invariant exactly when the count does not wrap. */
  lemma ShareKeepsInvIffRoom(s: State, src: Space, dst: Space, v: VPage, ok: bool)
    requires Inv(s) && ShareOk(s, src, dst, v)
    ensures EntryOk(s, (src, v))
    ensures Inv(Share(s, src, dst, v, ok)) <==> Room(s, src, v)
  {
    ShareKeepsEntries(s, src, dst, v, ok);
    RefsPositive(s, (src, v));
    var t := Share(s, src, dst, v, ok);
    forall g | 0 <= g < |t.refs|
      ensures Room(s, src, v) ==> |Mappers(t, g)| <= t.refs[g] <= MAX_REFS
    {
      ShareCounts(s, src, dst, v, ok, g);
    }
    if !Room(s, src, v) {
      var f := s.leaves[(src, v)].frame;
      ShareCounts(s, src, dst, v, ok, f);
      assert t.refs[f] == 0 && |Mappers(t, f)| > 0;
    }
  }

  /** One page whose frame has 65535 references: forking it frees the frame under the
      parent's entry. */
  lemma SharingWraps()
    ensures var p := Pte(1, true, false, false, false, Attr(true, false, true));
      var s := State({5, 6}, map[(5, 0) := p], [1, MAX_REFS], seq(2, i => seq(PAGE_SIZE, j => 0)), {});
      Inv(s) && ShareOk(s, 5, 6, 0) && (5, 0) in s.leaves && 1 < |Share(s, 5, 6, 0, true).refs|
      && Share(s, 5, 6, 0, true).refs[1] == 0 && !Inv(Share(s, 5, 6, 0, true))
  {
    var p := Pte(1, true, false, false, false, Attr(true, false, true));
    var s := State({5, 6}, map[(5, 0) := p], [1, MAX_REFS], seq(2, i => seq(PAGE_SIZE, j => 0)), {});
    assert Mappers(s, 0) == {} && Mappers(s, 1) == {(5, 0)};
    ShareKeepsInvIffRoom(s, 5, 6, 0, true);
  }

  lemma SoleOwner(s: State, k: Key)
    requires Inv(s) && k in s.leaves && EntryOk(s, k) && !s.leaves[k].nopmm && s.refs[s.leaves[k].frame] == 1
    ensures Mappers(s, s.leaves[k].frame) == {k}
  {
    RefsPositive(s, k);
    var m := Mappers(s, s.leaves[k].frame);
    assert |m - {k}| == 0;
  }

  /** The sole owner's entry becomes writable. */
  lemma ReclaimKeepsInv(s: State, k: Key, spare: Option<Frame>)
    requires Inv(s) && CowEntry(s, k) && s.refs[s.leaves[k].frame] == 1
    ensures Inv(Fault(s, k, spare).0)
  {
    RefsPositive(s, k);
    SoleOwner(s, k);
    var p, t := s.leaves[k], Fault(s, k, spare).0;
    var up := p.(writable := true, cow := false);
    forall g | 0 <= g < |t.refs| ensures |Mappers(t, g)| <= t.refs[g] <= MAX_REFS { MappersAfterSet(s, t, k, up, g); }
    forall l | l in t.leaves ensures EntryOk(t, l) { assert EntryOk(s, l); }
    forall l, m | l in t.leaves && m in t.leaves ensures PairOk(t, l, m) {
      assert PairOk(s, l, m);
      assert l != k && m == k && !s.leaves[l].nopmm && s.leaves[l].frame == p.frame ==> l in Mappers(s, p.frame);
      assert m != k && l == k && !s.leaves[m].nopmm && s.leaves[m].frame == p.frame ==> m in Mappers(s, p.frame);
    }
  }

  /** The entry moves to a copy, and the old frame loses one reference. */
  lemma CopyKeepsInv(s: State, k: Key, f: Frame)
    requires Inv(s) && NeedsCopy(s, k) && Free(s, f)
    ensures Inv(Fault(s, k, Some(f)).0)
  {
    hide Inv;
    RefsPositive(s, k);
    var p := s.leaves[k];
    var q, content := p.(frame := f, writable := true, cow := false), s.data[p.frame];
    MapFreshKeepsInv(s, k, q, content, true);
    var t := MapFresh(s, k, q, content, true);
    MappersAfterSet(s, t, k, q, p.frame);
    assert k in Mappers(s, p.frame) && k !in Mappers(t, p.frame);
    assert Mappers(t, p.frame) + {k} == Mappers(s, p.frame);
    DropKeepsInv(t, p.frame);
  }

  lemma FaultKeepsInv(s: State, k: Key, spare: Option<Frame>)
    requires Inv(s)
    ensures Inv(Fault(s, k, spare).0)
  {
    hide Inv;
    RefsPositive(s, k);
    if CowEntry(s, k) {
      if s.refs[s.leaves[k].frame] == 1 {
        ReclaimKeepsInv(s, k, spare);
      } else if spare.Some? && Free(s, spare.value) {
        CopyKeepsInv(s, k, spare.value);
      }
    }
  }

  lemma PokeKeepsInv(s: State, f: Frame, off: nat, b: byte)
    requires Inv(s) && f < |s.data| && off < |s.data[f]|
    ensures Inv(Poke(s, f, off, b))
  {
    var t := Poke(s, f, off, b);
    forall g ensures Mappers(t, g) == Mappers(s, g) {}
    forall k | k in t.leaves ensures EntryOk(t, k) { assert EntryOk(s, k); }
    forall k, l | k in t.leaves && l in t.leaves ensures PairOk(t, k, l) { assert PairOk(s, k, l); }
  }

  lemma WriteKeepsInv(s: State, k: Key, off: nat, b: byte, spare: Option<Frame>)
    requires Inv(s) && off < PAGE_SIZE
    ensures Inv(Write(s, k, off, b, spare).0)
  {
    FaultKeepsInv(s, k, spare);
    var r := if Stores(s, k) then s else Fault(s, k, spare).0;
    if k in r.leaves {
      assert EntryOk(r, k);
      PokeKeepsInv(r, r.leaves[k].frame, off, b);
    }
  }
}
