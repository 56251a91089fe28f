/** memcpy, memset and memmove, eight bytes at a time, on byte-addressed memory. */
module WordMoves {
  function Join(a: bv8, b: bv8, c: bv8, d: bv8, e: bv8, f: bv8, g: bv8, h: bv8): bv64 {
    (a as bv64) | ((b as bv64) << 8) | ((c as bv64) << 16) | ((d as bv64) << 24)
    | ((e as bv64) << 32) | ((f as bv64) << 40) | ((g as bv64) << 48) | ((h as bv64) << 56)
  }

  /** The 64-bit word stored in eight bytes, least significant first. */
  function Word(b: seq<bv8>): bv64
    requires |b| == 8
  {
    Join(b[0], b[1], b[2], b[3], b[4], b[5], b[6], b[7])
  }

  function Low(w: bv64): bv8 { (w & 0xff) as bv8 }

  function ByteOf(w: bv64, i: nat): bv8
    requires i < 8
  {
    if i == 0 then Low(w) else if i == 1 then Low(w >> 8) else if i == 2 then Low(w >> 16) else if i == 3 then Low(w >> 24)
    else if i == 4 then Low(w >> 32) else if i == 5 then Low(w >> 40) else if i == 6 then Low(w >> 48) else Low(w >> 56)
  }

  /** Storing a loaded word puts back the bytes it was loaded from. */
  lemma WordRoundTrip(b: seq<bv8>, i: nat)
    requires |b| == 8 && i < 8
    ensures ByteOf(Word(b), i) == b[i]
  {
    hide Join, ByteOf;
    JoinBytes(b[0], b[1], b[2], b[3], b[4], b[5], b[6], b[7], i);
  }

  lemma Bytes(a: bv8, b: bv8, c: bv8, d: bv8, e: bv8, f: bv8, g: bv8, h: bv8)
    ensures var w := Join(a, b, c, d, e, f, g, h);
      && Low(w) == a && Low(w >> 8) == b && Low(w >> 16) == c && Low(w >> 24) == d
      && Low(w >> 32) == e && Low(w >> 40) == f && Low(w >> 48) == g && Low(w >> 56) == h
  {
  }

  lemma JoinBytes(a: bv8, b: bv8, c: bv8, d: bv8, e: bv8, f: bv8, g: bv8, h: bv8, i: nat)
    requires i < 8
    ensures ByteOf(Join(a, b, c, d, e, f, g, h), i) ==
      if i == 0 then a else if i == 1 then b else if i == 2 then c else if i == 3 then d
      else if i == 4 then e else if i == 5 then f else if i == 6 then g else h
  {
    hide Join, Low;
    Bytes(a, b, c, d, e, f, g, h);
  }

  function Doubled(byte: bv8): bv64 {
    var p := byte as bv64;
    var q := p | (p << 8);
    var r := q | (q << 16);
    r | (r << 32)
  }

  lemma PatternIs(byte: bv8, i: nat)
    requires i < 8
    ensures ByteOf(Doubled(byte), i) == byte
  {
  }

  /** Memory s with the n bytes from src on copied to dest. */
  function Moved(s: seq<bv8>, dest: nat, src: nat, n: nat): seq<bv8>
    requires dest + n <= |s| && src + n <= |s|
  {
    s[..dest] + s[src..src + n] + s[dest + n..]
  }

  method LoadWord(m: array<bv8>, a: nat) returns (w: bv64)
    requires a + 8 <= m.Length
    ensures forall i: nat | i < 8 :: ByteOf(w, i) == m[a + i]
  {
    w := Word(m[a..a + 8]);
    forall i: nat | i < 8 ensures ByteOf(w, i) == m[a + i] { WordRoundTrip(m[a..a + 8], i); }
  }

  method StoreWord(m: array<bv8>, a: nat, w: bv64)
    requires a + 8 <= m.Length
    modifies m
    ensures forall i: nat | i < 8 :: m[a + i] == ByteOf(w, i)
    ensures forall p | 0 <= p < m.Length && !(a <= p < a + 8) :: m[p] == old(m[p])
  {
    hide ByteOf;
    var i := 0;
    while i < 8
      invariant i <= 8
      invariant forall j: nat | j < i :: m[a + j] == ByteOf(w, j)
      invariant forall p | 0 <= p < m.Length && !(a <= p < a + 8) :: m[p] == old(m[p])
    {
      m[a + i] := ByteOf(w, i);
      i := i + 1;
    }
  }

  /** Bytes lo to hi of the move from src to dest are done, and nothing else changed. */
  ghost predicate Copied(was: seq<bv8>, now: seq<bv8>, dest: nat, src: nat, lo: nat, hi: nat) {
    && |now| == |was| && dest + hi <= |was| && src + hi <= |was|
    && forall p {:trigger now[p]} | 0 <= p < |now| :: now[p] == if dest + lo <= p < dest + hi then was[p - dest + src] else was[p]
  }

  lemma CopiedAll(was: seq<bv8>, now: seq<bv8>, dest: nat, src: nat, n: nat)
    requires Copied(was, now, dest, src, 0, n)
    ensures now == Moved(was, dest, src, n)
  {
  }

  /** Copying upwards, the next k bytes are read before anything overwrites them. */
  lemma CopiedUp(was: seq<bv8>, mid: seq<bv8>, now: seq<bv8>, dest: nat, src: nat, i: nat, k: nat)
    requires Copied(was, mid, dest, src, 0, i) && Copied(mid, now, dest, src, i, i + k) && (dest <= src || src + i + k <= dest)
    ensures Copied(was, now, dest, src, 0, i + k)
  {
    forall p | 0 <= p < |now| ensures now[p] == if dest <= p < dest + i + k then was[p - dest + src] else was[p] {
      if dest + i <= p < dest + i + k { assert mid[p - dest + src] == was[p - dest + src]; } else { assert now[p] == mid[p]; }
    }
  }

  /** Copying downwards, likewise. */
  lemma CopiedDown(was: seq<bv8>, mid: seq<bv8>, now: seq<bv8>, dest: nat, src: nat, i: nat, k: nat, n: nat)
    requires Copied(was, mid, dest, src, i + k, n) && Copied(mid, now, dest, src, i, i + k) && i + k <= n && src <= dest
    ensures Copied(was, now, dest, src, i, n)
  {
    forall p | 0 <= p < |now| ensures now[p] == if dest + i <= p < dest + n then was[p - dest + src] else was[p] {
      if dest + i <= p < dest + i + k { assert mid[p - dest + src] == was[p - dest + src]; } else { assert now[p] == mid[p]; }
    }
  }

  /** One unaligned word assignment, i bytes into the move; the two words may overlap. */
  method MoveWord(m: array<bv8>, dest: nat, src: nat, i: nat)
    requires dest + i + 8 <= m.Length && src + i + 8 <= m.Length
    modifies m
    ensures Copied(old(m[..]), m[..], dest, src, i, i + 8)
  {
    hide ByteOf;
    var w := LoadWord(m, src + i);
    StoreWord(m, dest + i, w);
    forall p | 0 <= p < m.Length ensures m[p] == if dest + i <= p < dest + i + 8 then old(m[p - dest + src]) else old(m[p]) {
      if dest + i <= p < dest + i + 8 {
        assert m[dest + i + (p - dest - i)] == ByteOf(w, p - dest - i) == old(m[src + i + (p - dest - i)]);
      }
    }
  }

  method MoveByte(m: array<bv8>, dest: nat, src: nat, i: nat)
    requires dest + i < m.Length && src + i < m.Length
    modifies m
    ensures Copied(old(m[..]), m[..], dest, src, i, i + 1)
  {
    m[dest + i] := m[src + i];
  }

  method CopyWordsUp(m: array<bv8>, dest: nat, src: nat, words: nat)
    requires dest + 8 * words <= m.Length && src + 8 * words <= m.Length && (dest <= src || src + 8 * words <= dest)
    modifies m
    ensures Copied(old(m[..]), m[..], dest, src, 0, 8 * words)
  {
    ghost var was := m[..];
    assert Copied(was, m[..], dest, src, 0, 0);
    hide Copied;
    var i := 0;
    while i < words
      invariant i <= words && Copied(was, m[..], dest, src, 0, 8 * i)
    {
      ghost var mid := m[..];
      MoveWord(m, dest, src, 8 * i);
      CopiedUp(was, mid, m[..], dest, src, 8 * i, 8);
      i := i + 1;
    }
  }

  method CopyBytesUp(m: array<bv8>, dest: nat, src: nat, from: nat, n: nat, ghost was: seq<bv8>)
    requires dest + n <= m.Length && src + n <= m.Length && (dest <= src || src + n <= dest)
    requires from <= n && Copied(was, m[..], dest, src, 0, from)
    modifies m
    ensures Copied(was, m[..], dest, src, 0, n)
  {
    hide Copied;
    var i := from;
    while i < n
      invariant from <= i <= n && Copied(was, m[..], dest, src, 0, i)
    {
      ghost var mid := m[..];
      MoveByte(m, dest, src, i);
      CopiedUp(was, mid, m[..], dest, src, i, 1);
      i := i + 1;
    }
  }

  /** Low to high: whole words, then the bytes that are left. */
  method CopyUp(m: array<bv8>, dest: nat, src: nat, n: nat)
    requires dest + n <= m.Length && src + n <= m.Length && (dest <= src || src + n <= dest)
    modifies m
    ensures m[..] == Moved(old(m[..]), dest, src, n)
  {
    hide Copied, Moved;
    ghost var was := m[..];
    var words := n / 8;
    CopyWordsUp(m, dest, src, words);
    CopyBytesUp(m, dest, src, 8 * words, n, was);
    CopiedAll(was, m[..], dest, src, n);
  }

  method CopyBytesDown(m: array<bv8>, dest: nat, src: nat, from: nat, n: nat)
    requires dest + n <= m.Length && src + n <= m.Length && src <= dest && from <= n
    modifies m
    ensures Copied(old(m[..]), m[..], dest, src, from, n)
  {
    ghost var was := m[..];
    assert Copied(was, m[..], dest, src, n, n);
    hide Copied;
    var i := n;
    while i > from
      invariant from <= i <= n && Copied(was, m[..], dest, src, i, n)
    {
      ghost var mid := m[..];
      MoveByte(m, dest, src, i - 1);
      CopiedDown(was, mid, m[..], dest, src, i - 1, 1, n);
      i := i - 1;
    }
  }

  method CopyWordsDown(m: array<bv8>, dest: nat, src: nat, words: nat, n: nat, ghost was: seq<bv8>)
    requires dest + n <= m.Length && src + n <= m.Length && src <= dest && 8 * words <= n
    requires Copied(was, m[..], dest, src, 8 * words, n)
    modifies m
    ensures Copied(was, m[..], dest, src, 0, n)
  {
    hide Copied;
    var i: nat := words;
    while i > 0
      invariant 8 * i <= n && Copied(was, m[..], dest, src, 8 * i, n)
    {
      ghost var mid := m[..];
      MoveWord(m, dest, src, 8 * (i - 1));
      CopiedDown(was, mid, m[..], dest, src, 8 * (i - 1), 8, n);
      i := i - 1;
    }
  }

  /** High to low: the bytes past the last whole word, then the words. */
  method CopyDown(m: array<bv8>, dest: nat, src: nat, n: nat)
    requires dest + n <= m.Length && src + n <= m.Length && src <= dest
    modifies m
    ensures m[..] == Moved(old(m[..]), dest, src, n)
  {
    hide Copied, Moved;
    ghost var was := m[..];
    var words := n / 8;
    CopyBytesDown(m, dest, src, 8 * words, n);
    CopyWordsDown(m, dest, src, words, n, was);
    CopiedAll(was, m[..], dest, src, n);
  }

  /** memmove: any length, any overlap. */
  method MemMove(m: array<bv8>, dest: nat, src: nat, n: nat)
    requires dest + n <= m.Length && src + n <= m.Length
    modifies m
    ensures m[..] == Moved(old(m[..]), dest, src, n)
  {
    if src > dest {
      CopyUp(m, dest, src, n);
    } else if src < dest {
      CopyDown(m, dest, src, n);
    } else {
      assert m[..] == Moved(m[..], dest, src, n);
    }
  }

  /** memcpy, whose two areas must not overlap. */
  method MemCpy(m: array<bv8>, dest: nat, src: nat, n: nat)
    requires dest + n <= m.Length && src + n <= m.Length && (dest + n <= src || src + n <= dest)
    modifies m
    ensures m[..] == Moved(old(m[..]), dest, src, n)
    ensures m[src..src + n] == old(m[src..src + n]) == m[dest..dest + n]
  {
    CopyUp(m, dest, src, n);
    MovedReads(old(m[..]), dest, src, n, src, n);
  }

  /** What is read back from a moved area, and from an area the move does not touch. */
  lemma MovedReads(s: seq<bv8>, dest: nat, src: nat, n: nat, a: nat, k: nat)
    requires dest + n <= |s| && src + n <= |s| && a + k <= |s| && (a + k <= dest || dest + n <= a)
    ensures Moved(s, dest, src, n)[dest..dest + n] == s[src..src + n]
    ensures Moved(s, dest, src, n)[a..a + k] == s[a..a + k]
  {
  }

  /** memset: the low byte of c, eight at a time and then one by one. */
  method MemSet(m: array<bv8>, dest: nat, c: int, n: nat)
    requires dest + n <= m.Length
    modifies m
    ensures m[..] == old(m[..dest]) + seq(n, i => (c % 256) as bv8) + old(m[dest + n..])
  {
    hide ByteOf;
    var byte := (c % 256) as bv8;
    var pattern := Doubled(byte);
    var words := n / 8;
    var i := 0;
    while i < words
      invariant i <= words
      invariant forall p | dest <= p < dest + 8 * i :: m[p] == byte
      invariant forall p | 0 <= p < m.Length && !(dest <= p < dest + 8 * i) :: m[p] == old(m[p])
    {
      StoreWord(m, dest + 8 * i, pattern);
      forall p | dest + 8 * i <= p < dest + 8 * i + 8 ensures m[p] == byte {
        PatternIs(byte, p - dest - 8 * i);
        assert m[dest + 8 * i + (p - dest - 8 * i)] == ByteOf(pattern, p - dest - 8 * i);
      }
      i := i + 1;
    }
    i := words * 8;
    while i < n
      invariant words * 8 <= i <= n
      invariant forall p | dest <= p < dest + i :: m[p] == byte
      invariant forall p | 0 <= p < m.Length && !(dest <= p < dest + i) :: m[p] == old(m[p])
    {
      m[dest + i] := byte;
      i := i + 1;
    }
  }
}
