/** Page-table entries as 64-bit words: the masks and shifts of the kernel do what
    the entries of `CopyOnWrite` and `PageTree` say. */
module EntryBits {
  import opened CopyOnWrite
  import opened PageTree

  const PRESENT: bv64 := 0x1
  const WRITABLE: bv64 := 0x2
  const USER: bv64 := 0x4
  const PWT: bv64 := 0x8
  const COW: bv64 := 0x200
  const SHARED: bv64 := 0x400
  const NOPMM: bv64 := 0x800
  const NX: bv64 := 0x8000_0000_0000_0000
  const ADDRESS: bv64 := 0x000F_FFFF_FFFF_F000
  const FLAGS: bv64 := 0xFFF0_0000_0000_0FFF

  function FrameOf(w: bv64): Frame { ((w & ADDRESS) >> 12) as nat }

  function Decode(w: bv64): Entry {
    if w & PRESENT == 0 then Empty
    else Present(Pte(FrameOf(w), w & WRITABLE != 0, w & COW != 0, w & SHARED != 0, w & NOPMM != 0,
                     Attr(w & USER != 0, w & PWT != 0, w & NX != 0)))
  }

  /** What fork writes back for a present entry, and maps in the child. */
  function ForkWord(w: bv64): bv64 {
    var flags, phys := w & FLAGS, w & ADDRESS;
    if flags & WRITABLE != 0 && flags & (SHARED | NOPMM) == 0
    then phys | ((flags & !WRITABLE) | COW)
    else phys | flags
  }

  /** What the write-fault handler stores: the same frame, or a copy of it. */
  function FaultWord(w: bv64, phys: bv64): bv64 {
    phys | ((w & FLAGS & !COW) | WRITABLE)
  }

  /** What get_next_level stores for a new table page. */
  function TableWord(phys: bv64): bv64 { phys | PRESENT | WRITABLE | USER }

  predicate PageAligned(phys: bv64) { phys & ADDRESS == phys }

  lemma ForkWordIsDowngrade(w: bv64)
    requires Decode(w).Present?
    ensures Decode(ForkWord(w)) == Present(Downgrade(Decode(w).pte))
  {
    assert ForkWord(w) & ADDRESS == w & ADDRESS;
  }

  lemma FaultWordReclaims(w: bv64)
    requires Decode(w).Present?
    ensures Decode(FaultWord(w, w & ADDRESS)) == Present(Decode(w).pte.(writable := true, cow := false))
  {
    assert FaultWord(w, w & ADDRESS) & ADDRESS == w & ADDRESS;
  }

  lemma FaultWordCopies(w: bv64, phys: bv64)
    requires Decode(w).Present? && PageAligned(phys)
    ensures Decode(FaultWord(w, phys)) ==
      Present(Decode(w).pte.(frame := FrameOf(phys), writable := true, cow := false))
  {
    assert FaultWord(w, phys) & ADDRESS == phys & ADDRESS;
  }

  lemma TableWordIsDirEntry(phys: bv64)
    requires PageAligned(phys)
    ensures Decode(TableWord(phys)) == DirEntry(FrameOf(phys))
  {
    assert TableWord(phys) & ADDRESS == phys & ADDRESS;
  }

  // ----- Virtual addresses

  function Slot(vaddr: bv64, level: nat): bv64
    requires level <= 3
  {
    if level == 0 then (vaddr >> 12) & 0x1FF
    else if level == 1 then (vaddr >> 21) & 0x1FF
    else if level == 2 then (vaddr >> 30) & 0x1FF
    else (vaddr >> 39) & 0x1FF
  }

  function Join(i3: bv64, i2: bv64, i1: bv64, i0: bv64): bv64 {
    (i3 << 39) | (i2 << 30) | (i1 << 21) | (i0 << 12)
  }

  /** Fork recomposes exactly the address its loop indices came from. */
  lemma JoinRoundTrip(vaddr: bv64, i3: bv64, i2: bv64, i1: bv64, i0: bv64)
    ensures Join(Slot(vaddr, 3), Slot(vaddr, 2), Slot(vaddr, 1), Slot(vaddr, 0)) == vaddr & 0x0000_FFFF_FFFF_F000
    ensures i3 < 512 && i2 < 512 && i1 < 512 && i0 < 512 ==>
      var a := Join(i3, i2, i1, i0);
      Slot(a, 3) == i3 && Slot(a, 2) == i2 && Slot(a, 1) == i1 && Slot(a, 0) == i0
  {
  }

  // ----- The same on numbers

  predicate Odd(w: bv64) { w & 1 == 1 }
  function Half(w: bv64): bv64 { w >> 1 }
  function Low3(w: bv64): bv64 { w & 0x7 }
  function Low9(w: bv64): bv64 { w & 0x1FF }
  function Low12(w: bv64): bv64 { w & 0xFFF }
  function Drop3(w: bv64): bv64 { w >> 3 }
  function Drop9(w: bv64): bv64 { w >> 9 }
  function Drop12(w: bv64): bv64 { w >> 12 }

  function Bit(b: bool): nat { if b then 1 else 0 }

  /** The number in the low n bits of a word. */
  function Value(w: bv64, n: nat): nat {
    if n == 0 then 0 else Bit(Odd(w)) + 2 * Value(Half(w), n - 1)
  }

  lemma {:induction false} ValueZero(w: bv64, n: nat)
    requires w == 0
    ensures Value(w, n) == 0
  {
    if n > 0 { ValueZero(Half(w), n - 1); }
  }

  lemma Halves(w: bv64)
    ensures Half(Half(Half(w))) == Drop3(w)
    ensures Odd(Low3(w)) == Odd(w) && Odd(Half(Low3(w))) == Odd(Half(w)) && Odd(Half(Half(Low3(w)))) == Odd(Half(Half(w)))
  {
  }

  lemma Value3(w: bv64, n: nat)
    ensures Value(w, n + 3) == Bit(Odd(w)) + 2 * Bit(Odd(Half(w))) + 4 * Bit(Odd(Half(Half(w)))) + 8 * Value(Half(Half(Half(w))), n)
  {
    hide Odd, Half, Bit;
    assert Value(w, n + 3) == Bit(Odd(w)) + 2 * Value(Half(w), n + 2);
    assert Value(Half(w), n + 2) == Bit(Odd(Half(w))) + 2 * Value(Half(Half(w)), n + 1);
  }

  lemma Split3(w: bv64, n: nat)
    ensures Value(w, n + 3) == Value(Low3(w), 3) + 8 * Value(Drop3(w), n) && Value(Low3(w), 3) < 8
  {
    hide Odd, Half, Value, Low3, Drop3;
    Halves(w);
    Value3(w, n);
    Value3(Low3(w), 0);
    NoBits(Half(Half(Half(Low3(w)))));
  }

  lemma NoBits(w: bv64)
    ensures Value(w, 0) == 0
  {
  }

  lemma Thirds(w: bv64)
    ensures Drop3(Drop3(Drop3(w))) == Drop9(w)
    ensures Low3(Low9(w)) == Low3(w) && Low3(Drop3(Low9(w))) == Low3(Drop3(w)) && Low3(Drop3(Drop3(Low9(w)))) == Low3(Drop3(Drop3(w)))
  {
  }

  lemma Split9(w: bv64, n: nat)
    ensures Value(w, n + 9) == Value(Low9(w), 9) + 512 * Value(Drop9(w), n) && Value(Low9(w), 9) < 512
  {
    hide Value, Low3, Low9, Drop3, Drop9;
    Thirds(w);
    var x := Low9(w);
    Split3(w, n + 6);
    Split3(Drop3(w), n + 3);
    Split3(Drop3(Drop3(w)), n);
    Split3(x, 6);
    Split3(Drop3(x), 3);
    Split3(Drop3(Drop3(x)), 0);
    NoBits(Drop3(Drop3(Drop3(x))));
  }

  lemma Twelve(w: bv64)
    ensures Drop3(Drop9(w)) == Drop12(w) && Low9(Low12(w)) == Low9(w) && Low3(Drop9(Low12(w))) == Low3(Drop9(w))
  {
  }

  lemma Split12(w: bv64, n: nat)
    ensures Value(w, n + 12) == Value(Low12(w), 12) + 4096 * Value(Drop12(w), n) && Value(Low12(w), 12) < 4096
  {
    hide Value, Low3, Low9, Low12, Drop3, Drop9, Drop12;
    Twelve(w);
    var x := Low12(w);
    Split9(w, n + 3);
    Split3(Drop9(w), n);
    Split9(x, 3);
    Split3(Drop9(x), 0);
    NoBits(Drop3(Drop9(x)));
  }

  /** The address without its page offset and its lowest `level` indices. */
  function Above(w: bv64, level: nat): bv64
    requires level <= 4
  {
    if level == 0 then w >> 12
    else if level == 1 then w >> 21
    else if level == 2 then w >> 30
    else if level == 3 then w >> 39
    else w >> 48
  }

  lemma SlotIsLow(w: bv64, level: nat)
    requires level <= 3
    ensures Slot(w, level) == Low9(Above(w, level))
  {
    if level == 0 {} else if level == 1 {} else if level == 2 {} else { assert level == 3; }
  }

  /** An index is its own low nine bits. */
  lemma IndexValue(i: bv64)
    requires i < 512
    ensures Value(i, 64) == Value(i, 9) < 512
  {
    hide Value;
    assert Low9(i) == i && Drop9(i) == 0;
    Split9(i, 55);
    ValueZero(Drop9(i), 55);
  }

  lemma {:induction false} AboveIsPrefix(w: bv64, level: nat)
    requires level <= 4
    ensures Value(w, 64) == Value(Low12(w), 12) + 4096 * Value(Above(w, 0), 52) && Value(Low12(w), 12) < 4096
    ensures Value(Above(w, level), 52 - 9 * level) == (if level == 0 then Value(w, 64) / 4096 else Prefix(Value(w, 64) / 4096, level - 1))
  {
    hide Value, Low12, Low9, Drop9, Drop12, Above;
    AboveStep(w, level);
    Split12(w, 52);
    AboveStep(w, 0);
    if level > 0 {
      AboveIsPrefix(w, level - 1);
      Split9(Above(w, level - 1), 52 - 9 * level);
    }
  }

  lemma AboveStep(w: bv64, level: nat)
    requires level <= 4
    ensures Above(w, level) == if level == 0 then Drop12(w) else Drop9(Above(w, level - 1))
  {
    Shifts(w);
    if level == 0 {} else if level == 1 {} else if level == 2 {} else if level == 3 {} else { assert level == 4; }
  }

  lemma Shifts(w: bv64)
    ensures Drop9(w >> 12) == w >> 21 && Drop9(w >> 21) == w >> 30 && Drop9(w >> 30) == w >> 39 && Drop9(w >> 39) == w >> 48
  {
  }

  /** The shifts and masks of a table walk are Index. */
  lemma SlotIsIndex(w: bv64, level: nat)
    requires level <= 3
    ensures Value(Slot(w, level), 64) == Index(Value(w, 64), level)
  {
    hide Value, Slot, Low12, Low9, Drop9, Above;
    AboveIsPrefix(w, level);
    SlotIsLow(w, level);
    Split9(Above(w, level), 43 - 9 * level);
    Small(Above(w, level));
    IndexValue(Slot(w, level));
  }

  lemma Small(w: bv64)
    ensures Low9(w) < 512
  {
  }

  /** The shifts and ors with which fork rebuilds an address are Recompose. */
  lemma JoinIsRecompose(i3: bv64, i2: bv64, i1: bv64, i0: bv64)
    requires i3 < 512 && i2 < 512 && i1 < 512 && i0 < 512
    ensures Value(Join(i3, i2, i1, i0), 64) == Recompose(Value(i3, 64), Value(i2, 64), Value(i1, 64), Value(i0, 64))
  {
    hide Value, Slot, Join, Low12, Index, Recompose;
    var a := Join(i3, i2, i1, i0);
    JoinRoundTrip(a, i3, i2, i1, i0);
    SlotIsIndex(a, 0);
    SlotIsIndex(a, 1);
    SlotIsIndex(a, 2);
    SlotIsIndex(a, 3);
    JoinRange(i3, i2, i1, i0);
    RecomposeInvertsIndex(Value(a, 64));
  }

  /** A joined address is page aligned and has 48 bits. */
  lemma JoinRange(i3: bv64, i2: bv64, i1: bv64, i0: bv64)
    requires i3 < 512 && i2 < 512 && i1 < 512 && i0 < 512
    ensures Value(Join(i3, i2, i1, i0), 64) < 281474976710656 && Value(Join(i3, i2, i1, i0), 64) % 4096 == 0
  {
    hide Value, Join, Low9, Drop9, Low12, Above;
    var a := Join(i3, i2, i1, i0);
    JoinEnds(i3, i2, i1, i0);
    AboveIsPrefix(a, 4);
    ValueZero(Low12(a), 12);
    ValueZero(Above(a, 4), 16);
    var v := Value(a, 64) / 4096;
    assert v / 512 / 512 / 512 / 512 == 0;
  }

  lemma JoinEnds(i3: bv64, i2: bv64, i1: bv64, i0: bv64)
    requires i3 < 512 && i2 < 512 && i1 < 512 && i0 < 512
    ensures Low12(Join(i3, i2, i1, i0)) == 0 && Above(Join(i3, i2, i1, i0), 4) == 0
  {
  }
}
