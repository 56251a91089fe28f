/** The physical page allocator: a byte-packed bitmap, 16-bit reference counts
    and a search hint. */
module PageAllocator {
  import opened Types

  // ----- One bit of one byte

  /** 1 << k. */
  function Mask(k: nat): bv8
    requires k < 8
  {
    if k == 0 then 1 else if k == 1 then 2 else if k == 2 then 4 else if k == 3 then 8
    else if k == 4 then 16 else if k == 5 then 32 else if k == 6 then 64 else 128
  }

  predicate BitOn(b: bv8, k: nat)
    requires k < 8
  {
    b & Mask(k) != 0
  }

  lemma SetOneBit(b: bv8, k: nat, j: nat)
    requires k < 8 && j < 8
    ensures BitOn(b | Mask(k), j) <==> j == k || BitOn(b, j)
  {
  }

  lemma ClearOneBit(b: bv8, k: nat, j: nat)
    requires k < 8 && j < 8
    ensures BitOn(b & !Mask(k), j) <==> j != k && BitOn(b, j)
  {
  }

  // ----- What the search computes

  /** The first free page at or after `from`. */
  function FirstFree(bits: seq<bool>, from: nat): (r: Option<nat>)
    ensures r.Some? ==> from <= r.value < |bits| && !bits[r.value] && forall j | from <= j < r.value :: bits[j]
    ensures r.None? ==> forall j | from <= j < |bits| :: bits[j]
    decreases |bits| - from
  {
    if from >= |bits| then None else if !bits[from] then Some(from) else FirstFree(bits, from + 1)
  }

  /** Everything below the hint is taken. */
  ghost predicate HintOk(bits: seq<bool>, hint: nat) {
    hint <= |bits| && forall j | 0 <= j < hint :: bits[j]
  }

  /** The two scans of the allocator: from the hint on, then below it. */
  function HintedScan(bits: seq<bool>, hint: nat): Option<nat> {
    var r := FirstFree(bits, hint);
    if r.Some? || hint > |bits| then r else FirstFree(bits[..hint], 0)
  }

  /** With a good hint the scan returns the lowest free page, fails only when
      none is free, and its second half never finds anything. */
  lemma HintedScanIsLowest(bits: seq<bool>, hint: nat)
    requires HintOk(bits, hint)
    ensures HintedScan(bits, hint) == FirstFree(bits, 0) == FirstFree(bits, hint)
    ensures HintedScan(bits, hint).None? <==> forall j | 0 <= j < |bits| :: bits[j]
  {
    var r, z := FirstFree(bits, hint), FirstFree(bits, 0);
    assert forall j | 0 <= j < hint :: bits[..hint][j] == bits[j];
    if z.Some? { assert !bits[z.value]; }
  }

  class Pmm {
    const bitmap: array<bv8>
    const refcounts: array<nat>
    var hint: nat

    /** The bitmap covers every page, page 0 is never handed out, and every page below
        the hint is taken. */
    ghost predicate Valid()
      reads this, bitmap, refcounts
      ensures Valid() ==> 0 < refcounts.Length <= 8 * bitmap.Length
    {
      && 0 < refcounts.Length <= 8 * bitmap.Length
      && bitmap as object != refcounts as object
      && HintOk(Bits(), hint)
      && Bits()[0]
      && (forall i | 0 <= i < refcounts.Length :: refcounts[i] <= MAX_REFS)
      && (forall i | 0 <= i < refcounts.Length :: !Bits()[i] ==> refcounts[i] == 0)
    }

    predicate Test(i: nat)
      requires i / 8 < bitmap.Length
      reads bitmap
    {
      BitOn(bitmap[i / 8], i % 8)
    }

    ghost function Bits(): (b: seq<bool>)
      requires refcounts.Length <= 8 * bitmap.Length
      reads bitmap
      ensures |b| == refcounts.Length
    {
      seq(refcounts.Length, i requires 0 <= i < refcounts.Length reads bitmap => Test(i))
    }

    constructor (bits: array<bv8>, counts: array<nat>)
      requires 0 < counts.Length <= 8 * bits.Length && bits as object != counts as object && BitOn(bits[0], 0)
      requires forall i | 0 <= i < counts.Length :: counts[i] <= MAX_REFS
      requires forall i | 0 <= i < counts.Length :: !BitOn(bits[i / 8], i % 8) ==> counts[i] == 0
      ensures Valid() && bitmap == bits && refcounts == counts && hint == 0
    {
      bitmap, refcounts, hint := bits, counts, 0;
    }

    method SetBit(i: nat)
      requires refcounts.Length <= 8 * bitmap.Length && i < refcounts.Length
      modifies bitmap
      ensures Bits() == old(Bits())[i := true]
    {
      bitmap[i / 8] := bitmap[i / 8] | Mask(i % 8);
      forall j | 0 <= j < refcounts.Length ensures Test(j) == (j == i || old(Test(j))) {
        if j / 8 == i / 8 { SetOneBit(old(bitmap[i / 8]), i % 8, j % 8); }
      }
    }

    method ClearBit(i: nat)
      requires refcounts.Length <= 8 * bitmap.Length && i < refcounts.Length
      modifies bitmap
      ensures Bits() == old(Bits())[i := false]
    {
      bitmap[i / 8] := bitmap[i / 8] & !Mask(i % 8);
      forall j | 0 <= j < refcounts.Length ensures Test(j) == (j != i && old(Test(j))) {
        if j / 8 == i / 8 { ClearOneBit(old(bitmap[i / 8]), i % 8, j % 8); }
      }
    }

    method Claim(i: nat)
      requires Valid() && i < refcounts.Length && FirstFree(Bits(), 0) == Some(i)
      modifies this, bitmap, refcounts
      ensures Valid() && hint == i
      ensures Bits() == old(Bits())[i := true] && refcounts[..] == old(refcounts[..])[i := 1]
    {
      hide BitOn;
      SetBit(i);
      hint := i;
      refcounts[i] := 1;
    }

    /** The lowest free page.  The second loop never finds one. */
    method AllocPage() returns (r: Option<nat>)
      requires Valid()
      modifies this, bitmap, refcounts
      ensures Valid()
      ensures r == FirstFree(old(Bits()), 0)
      ensures r.None? ==> forall j | 0 <= j < refcounts.Length :: Bits()[j]
      ensures r.None? ==> Bits() == old(Bits()) && refcounts[..] == old(refcounts[..]) && hint == old(hint)
      ensures r.Some? ==> 0 < r.value < refcounts.Length && !old(Bits())[r.value] && old(refcounts[r.value]) == 0
      ensures r.Some? ==> hint == r.value && Bits() == old(Bits())[r.value := true]
      ensures r.Some? ==> refcounts[..] == old(refcounts[..])[r.value := 1]
    {
      hide BitOn;
      ghost var bits := Bits();
      HintedScanIsLowest(bits, hint);
      var i := hint;
      while i < refcounts.Length
        invariant hint <= i <= refcounts.Length
        invariant FirstFree(bits, hint) == FirstFree(bits, i)
      {
        if !Test(i) {
          assert !bits[i];
          Claim(i);
          return Some(i);
        }
        i := i + 1;
      }
      i := 0;
      while i < hint
        invariant 0 <= i <= hint
      {
        assert bits[i] == Test(i);
        if !Test(i) { assert false; }
        i := i + 1;
      }
      return None;
    }

    method FreePage(i: nat)
      requires Valid() && 0 < i < refcounts.Length
      modifies this, bitmap, refcounts
      ensures Valid()
      ensures !old(Bits())[i] ==> Bits() == old(Bits()) && refcounts[..] == old(refcounts[..])
      ensures old(Bits())[i] ==>
        && refcounts[..] == old(refcounts[..])[i := if old(refcounts[i]) > 0 then old(refcounts[i]) - 1 else 0]
        && Bits() == if refcounts[i] == 0 then old(Bits())[i := false] else old(Bits())
    {
      hide BitOn;
      assert Bits()[i] == Test(i);
      if !Test(i) { return; }
      if refcounts[i] > 0 { refcounts[i] := refcounts[i] - 1; }
      if refcounts[i] == 0 {
        ClearBit(i);
        if i < hint { hint := i; }
      }
    }

    /** The count is 16 bits wide and wraps. */
    method RefInc(i: nat)
      requires Valid() && i < refcounts.Length && Bits()[i]
      modifies refcounts
      ensures Valid()
      ensures refcounts[..] == old(refcounts[..])[i := (old(refcounts[i]) + 1) % (MAX_REFS + 1)]
      ensures Bits() == old(Bits())
    {
      hide BitOn;
      refcounts[i] := (refcounts[i] + 1) % (MAX_REFS + 1);
    }

    function RefCount(i: nat): (n: nat)
      requires i < refcounts.Length
      reads refcounts
    {
      refcounts[i]
    }
  }
}
