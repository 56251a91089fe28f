/** The reference the copy-on-write machine is measured against: address spaces
    in which a private page is a value.  Fork copies every private page at once
    and aliases only shared and device pages; there are no frames, no counts and
    no faults. */
module EagerFork {
  import opened Types
  import opened CopyOnWrite

  /** A private page carries its contents; an aliased page names an object. */
  datatype Cell =
    | Private(page: Bytes, writable: bool, attr: Attr)
    | Alias(obj: nat, writable: bool, attr: Attr)

  datatype Eager = Eager(spaces: set<Space>, cells: map<Key, Cell>, objs: map<nat, Bytes>)

  function MapPrivate(e: Eager, k: Key, page: Bytes, writable: bool, attr: Attr): Eager {
    e.(cells := e.cells[k := Private(page, writable, attr)])
  }

  /** Device memory is an object that was always there. */
  function MapDevice(e: Eager, k: Key, obj: nat, writable: bool, attr: Attr): Eager {
    e.(cells := e.cells[k := Alias(obj, writable, attr)])
  }

  function MapAlias(e: Eager, k: Key, obj: nat, page: Bytes, writable: bool, attr: Attr): Eager {
    e.(cells := e.cells[k := Alias(obj, writable, attr)], objs := e.objs[obj := page])
  }

  function Remove(e: Eager, k: Key): Eager {
    e.(cells := e.cells - {k})
  }

  /** The child gets a copy of every cell: private pages by value, aliases by name. */
  ghost function Fork(e: Eager, src: Space, dst: Space): Eager {
    e.(spaces := e.spaces + {dst},
       cells := map k: Key | k in e.cells.Keys + (set l | l in e.cells && l.0 == src :: (dst, l.1))
                  :: if k.0 == dst && (src, k.1) in e.cells then e.cells[(src, k.1)] else e.cells[k])
  }

  ghost function Exit(e: Eager, r: Space): Eager {
    e.(spaces := e.spaces - {r}, cells := map k | k in e.cells && k.0 != r :: e.cells[k])
  }

  predicate MayWrite(e: Eager, k: Key) {
    k in e.cells && e.cells[k].writable && e.cells[k].attr.user
  }

  function Read(e: Eager, k: Key): Option<Bytes> {
    if k !in e.cells then None
    else match e.cells[k]
      case Private(page, _, _) => Some(page)
      case Alias(obj, _, _) => if obj in e.objs then Some(e.objs[obj]) else None
  }

  /** A store either reaches the page or kills the process. */
  function Store(e: Eager, k: Key, off: nat, b: byte): (Eager, bool) {
    if !MayWrite(e, k) then (e, false)
    else match e.cells[k]
      case Private(page, _, _) =>
        if off < |page| then (e.(cells := e.cells[k := e.cells[k].(page := page[off := b])]), true) else (e, false)
      case Alias(obj, _, _) =>
        if obj in e.objs && off < |e.objs[obj]| then (e.(objs := e.objs[obj := e.objs[obj][off := b]]), true) else (e, false)
  }
}

/** Lazy and eager fork cannot be told apart. */
module ForkRefinement {
  import opened Types
  import opened CopyOnWrite
  import opened ForkAndDestroy
  import EagerFork

  type Eager = EagerFork.Eager

  /** The cell an entry stands for: copy-on-write counts as writable. */
  function CellOf(s: State, p: Pte): EagerFork.Cell
    requires p.frame < |s.data|
  {
    if Aliased(p) then EagerFork.Alias(p.frame, p.writable, p.attr)
    else EagerFork.Private(s.data[p.frame], p.writable || p.cow, p.attr)
  }

  ghost predicate Matches(s: State, e: Eager, k: Key) {
    && k in s.leaves && k in e.cells && s.leaves[k].frame < |s.data|
    && e.cells[k] == CellOf(s, s.leaves[k])
    && (Aliased(s.leaves[k]) ==> s.leaves[k].frame in e.objs && e.objs[s.leaves[k].frame] == s.data[s.leaves[k].frame])
  }

  /** The two machines present the same memory to every process. */
  ghost predicate Agree(s: State, e: Eager) {
    && s.spaces == e.spaces && s.leaves.Keys == e.cells.Keys
    && (forall k {:trigger Matches(s, e, k)} | k in s.leaves :: Matches(s, e, k))
    && (forall f | f in s.device && f < |s.data| :: f in e.objs && e.objs[f] == s.data[f])
  }

  /** What a process sees when it reads page k. */
  function Read(s: State, k: Key): Option<Bytes> {
    if k in s.leaves && s.leaves[k].frame < |s.data| then Some(s.data[s.leaves[k].frame]) else None
  }

  lemma AgreeReads(s: State, e: Eager, k: Key)
    requires Agree(s, e)
    ensures Read(s, k) == EagerFork.Read(e, k)
  {
    if k in s.leaves { assert Matches(s, e, k); }
  }

  // ----- One step at a time

  lemma MapFreshAgrees(s: State, e: Eager, k: Key, p: Pte, content: Bytes)
    requires Inv(s) && Agree(s, e) && FreshOk(s, k, p, content)
    ensures Agree(MapFresh(s, k, p, content, true),
                  if p.shared then EagerFork.MapAlias(e, k, p.frame, content, p.writable, p.attr)
                  else EagerFork.MapPrivate(e, k, content, p.writable, p.attr))
  {
    FreeIsUnmapped(s, p.frame);
    var t := MapFresh(s, k, p, content, true);
    var d := if p.shared then EagerFork.MapAlias(e, k, p.frame, content, p.writable, p.attr)
             else EagerFork.MapPrivate(e, k, content, p.writable, p.attr);
    forall l | l in t.leaves ensures Matches(t, d, l) {
      if l != k { assert Matches(s, e, l); }
    }
  }

  lemma MapDeviceAgrees(s: State, e: Eager, k: Key, p: Pte)
    requires Inv(s) && Agree(s, e) && DeviceOk(s, k, p)
    ensures Agree(MapDevice(s, k, p, true), EagerFork.MapDevice(e, k, p.frame, p.writable, p.attr))
  {
    var t, d := MapDevice(s, k, p, true), EagerFork.MapDevice(e, k, p.frame, p.writable, p.attr);
    forall l | l in t.leaves ensures Matches(t, d, l) {
      if l != k { assert Matches(s, e, l); }
    }
  }

  lemma UnmapAgrees(s: State, e: Eager, k: Key)
    requires Inv(s) && Agree(s, e)
    ensures Agree(Unmap(s, k), EagerFork.Remove(e, k))
  {
    UnmapKeepsInv(s, k);
    var t, d := Unmap(s, k), EagerFork.Remove(e, k);
    forall l | l in t.leaves ensures Matches(t, d, l) { assert Matches(s, e, l); }
  }

  /** The entry of s that page k of the forked state comes from. */
  function Origin(src: Space, dst: Space, k: Key): Key {
    if k.0 == dst then (src, k.1) else k
  }

  lemma CloneEntries(s: State, src: Space, dst: Space)
    requires Forkable(s, src, dst)
    ensures var t := Clone(s, src, dst, {});
      && t.spaces == s.spaces + {dst} && t.data == s.data && t.device == s.device
      && (forall k: Key {:trigger k in t.leaves} :: k in t.leaves <==> Origin(src, dst, k) in s.leaves)
      && (forall k: Key {:trigger t.leaves[k]} | k in t.leaves ::
            t.leaves[k] in {s.leaves[Origin(src, dst, k)], Downgrade(s.leaves[Origin(src, dst, k)])})
  {
    hide Mappers;
    forall k: Key | k in s.leaves ensures k.0 != dst && k.1 < USER_PAGES && k == (k.0, k.1) { assert EntryOk(s, k); }
  }

  /** Sharing every frame looks exactly like copying every private page. */
  lemma CloneAgrees(s: State, e: Eager, src: Space, dst: Space)
    requires Forkable(s, src, dst) && Agree(s, e)
    ensures Agree(Clone(s, src, dst, {}), EagerFork.Fork(e, src, dst))
  {
    CloneEntries(s, src, dst);
    hide Clone;
    var t, d := Clone(s, src, dst, {}), EagerFork.Fork(e, src, dst);
    forall k: Key | k in s.leaves ensures k.0 != dst && k == (k.0, k.1) { assert EntryOk(s, k); }
    forall k: Key ensures k in d.cells <==> k in t.leaves {
      assert k == (k.0, k.1);
    }
    forall k: Key | k in t.leaves ensures Matches(t, d, k) {
      var l := Origin(src, dst, k);
      assert Matches(s, e, l) && EntryOk(s, l);
      assert t.leaves[k] == s.leaves[l] || t.leaves[k] == Downgrade(s.leaves[l]);
      assert d.cells[k] == e.cells[l];
    }
  }

  lemma DestroyAgrees(s: State, e: Eager, r: Space)
    requires Inv(s) && Agree(s, e)
    ensures Agree(Destroy(s, r), EagerFork.Exit(e, r))
  {
    var t, d := Destroy(s, r), EagerFork.Exit(e, r);
    forall k: Key | k in s.leaves ensures k.1 < USER_PAGES { assert EntryOk(s, k); }
    forall k | k in t.leaves ensures Matches(t, d, k) { assert Matches(s, e, k); }
    assert t.leaves.Keys == d.cells.Keys;
  }

  /** A copy-on-write entry already counts as writable. */
  lemma UpgradeAgrees(s: State, e: Eager, k: Key)
    requires Agree(s, e) && k in s.leaves && s.leaves[k].cow && !Aliased(s.leaves[k])
    ensures Agree(s.(leaves := s.leaves[k := s.leaves[k].(writable := true, cow := false)]), e)
  {
    var t := s.(leaves := s.leaves[k := s.leaves[k].(writable := true, cow := false)]);
    forall l | l in t.leaves ensures Matches(t, e, l) { assert Matches(s, e, l); }
  }

  /** A copy holds the same bytes, and the free frame was nobody's. */
  lemma CopyAgrees(s: State, e: Eager, k: Key, f: Frame)
    requires Inv(s) && Agree(s, e) && NeedsCopy(s, k) && Free(s, f)
    ensures Agree(Fault(s, k, Some(f)).0, e)
  {
    hide Inv, Mappers;
    RefsPositive(s, k);
    FreeIsUnmapped(s, f);
    var t := Fault(s, k, Some(f)).0;
    forall l | l in t.leaves ensures Matches(t, e, l) { assert Matches(s, e, l); }
    assert t.leaves.Keys == s.leaves.Keys;
  }

  /** Resolving a write fault is invisible. */
  lemma FaultAgrees(s: State, e: Eager, k: Key, spare: Option<Frame>)
    requires Inv(s) && Agree(s, e)
    ensures Agree(Fault(s, k, spare).0, e)
  {
    hide Inv;
    RefsPositive(s, k);
    if CowEntry(s, k) {
      if s.refs[s.leaves[k].frame] == 1 {
        UpgradeAgrees(s, e, k);
      } else if spare.Some? && Free(s, spare.value) {
        CopyAgrees(s, e, k, spare.value);
      }
    }
  }

  /** A store through a writable entry lands in that page and in its aliases only. */
  lemma PokeAgrees(s: State, e: Eager, k: Key, off: nat, b: byte)
    requires Inv(s) && Agree(s, e) && Stores(s, k) && off < PAGE_SIZE
    ensures EntryOk(s, k)
    ensures Agree(Poke(s, s.leaves[k].frame, off, b), EagerFork.Store(e, k, off, b).0)
    ensures EagerFork.Store(e, k, off, b).1
  {
    assert EntryOk(s, k) && Matches(s, e, k);
    var f := s.leaves[k].frame;
    var t, d := Poke(s, f, off, b), EagerFork.Store(e, k, off, b).0;
    forall l | l in t.leaves ensures Matches(t, d, l) {
      assert Matches(s, e, l) && EntryOk(s, l) && PairOk(s, k, l);
    }
  }

  /** A copy that is needed can be made. */
  predicate Served(s: State, k: Key, spare: Option<Frame>) {
    !Stores(s, k) && NeedsCopy(s, k) ==> spare.Some? && Free(s, spare.value)
  }

  /** The same stores succeed, and they change the same bytes. */
  lemma WriteAgrees(s: State, e: Eager, k: Key, off: nat, b: byte, spare: Option<Frame>)
    requires Inv(s) && Agree(s, e) && off < PAGE_SIZE && Served(s, k, spare)
    ensures Agree(Write(s, k, off, b, spare).0, EagerFork.Store(e, k, off, b).0)
    ensures Write(s, k, off, b, spare).1 == EagerFork.Store(e, k, off, b).1
  {
    if k in s.leaves { assert Matches(s, e, k) && EntryOk(s, k); }
    if Stores(s, k) {
      PokeAgrees(s, e, k, off, b);
    } else {
      FaultAgrees(s, e, k, spare);
      FaultKeepsInv(s, k, spare);
      var t := Fault(s, k, spare).0;
      if Stores(t, k) { PokeAgrees(t, e, k, off, b); }
    }
  }
}
