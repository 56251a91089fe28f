/** The argument block at the top of a new user stack, and how the program reads it. */
module UserStack {
  import opened Types

  const MAX_ARGS: int := 8
  /** The stack page, below USER_STACK_TOP. */
  const BASE: nat := 0x7000_0000_0000 - PAGE_SIZE

  // ----- Little-endian words and C strings

  function Pow(n: nat): nat { if n == 0 then 1 else 256 * Pow(n - 1) }

  function Le(v: nat, n: nat): (r: seq<byte>)
    ensures |r| == n
  {
    if n == 0 then [] else [(v % 256) as byte] + Le(v / 256, n - 1)
  }

  function Value(b: seq<byte>): nat { if b == [] then 0 else b[0] as nat + 256 * Value(b[1..]) }

  lemma {:induction false} LeRoundTrip(v: nat, n: nat)
    requires v < Pow(n)
    ensures Value(Le(v, n)) == v
  {
    if n > 0 {
      LeRoundTrip(v / 256, n - 1);
      assert Le(v, n)[1..] == Le(v / 256, n - 1);
    }
  }

  lemma Pow8()
    ensures Pow(8) == 0x1_0000_0000_0000_0000
  {
    assert Pow(2) == 0x10000;
    assert Pow(4) == 0x1_0000_0000;
    assert Pow(6) == 0x1_0000_0000_0000;
  }

  function WordAt(m: seq<byte>, off: nat): nat
    requires off + 8 <= |m|
  {
    Value(m[off..off + 8])
  }

  /** The bytes from off up to the first zero. */
  function CString(m: seq<byte>, off: nat): seq<byte>
    decreases |m| - off
  {
    if off >= |m| || m[off] == 0 then [] else [m[off]] + CString(m, off + 1)
  }

  ghost predicate Put(m: seq<byte>, off: nat, s: seq<byte>) { off + |s| <= |m| && m[off..off + |s|] == s }

  lemma {:induction false} CStringIs(m: seq<byte>, off: nat, s: seq<byte>)
    requires Put(m, off, s + [0]) && 0 !in s
    ensures CString(m, off) == s
    decreases |s|
  {
    var t := s + [0];
    assert m[off] == m[off..off + |t|][0] == t[0];
    if s != [] {
      assert m[off + 1..off + |t|] == m[off..off + |t|][1..] == s[1..] + [0];
      CStringIs(m, off + 1, s[1..]);
    }
  }

  /** A write elsewhere leaves an area as it was. */
  lemma PutKeeps(was: seq<byte>, now: seq<byte>, at: nat, w: seq<byte>, off: nat, s: seq<byte>)
    requires at + |w| <= |was| && now == was[..at] + w + was[at + |w|..] && Put(was, off, s) && (off + |s| <= at || at + |w| <= off)
    ensures Put(now, off, s)
  {
    assert now[off..off + |s|] == was[off..off + |s|];
  }

  // ----- The layout

  /** Bytes taken by the first k strings and their terminators. */
  function Size(argv: seq<seq<byte>>, k: nat): nat
    requires k <= |argv|
  {
    if k == 0 then 0 else Size(argv, k - 1) + |argv[k - 1]| + 1
  }

  lemma {:induction false} SizeGrows(argv: seq<seq<byte>>, j: nat, k: nat)
    requires j <= k <= |argv|
    ensures Size(argv, j) <= Size(argv, k) && (j < k ==> Size(argv, j) + |argv[j]| + 1 <= Size(argv, k))
    decreases k
  {
    if j < k { SizeGrows(argv, j, k - 1); }
  }

  /** Offset of string j in the page. */
  function StringAt(argv: seq<seq<byte>>, j: nat): int
    requires j < |argv|
  {
    PAGE_SIZE - Size(argv, j + 1)
  }

  /** Strings, then the pointer array, then two words, all in one page. */
  predicate Fits(argv: seq<seq<byte>>, argc: nat)
    requires argc <= |argv|
  {
    Size(argv, argc) <= PAGE_SIZE && (PAGE_SIZE - Size(argv, argc)) / 8 * 8 >= (argc + 1) * 8 + 16
  }

  /** What crt0 finds: argc, a pointer to argc string pointers and a null pointer. */
  ghost predicate ReadsAs(m: seq<byte>, rsp: nat, argc: nat, argv: seq<seq<byte>>)
    requires argc <= |argv|
  {
    && |m| == PAGE_SIZE && BASE <= rsp && rsp % 8 == 0 && rsp + 16 + 8 * (argc + 1) <= BASE + PAGE_SIZE
    && var o := rsp - BASE;
    && WordAt(m, o) == argc && WordAt(m, o + 8) == rsp + 16
    && WordAt(m, o + 16 + 8 * argc) == 0
    && forall i: nat | i < argc :: ArgReads(m, o + 16, i, argv[i], rsp + 16 + 8 * (argc + 1))
  }

  /** Pointer i leads to the given string, at or above address lo, inside the page. */
  ghost predicate ArgReads(m: seq<byte>, array_: nat, i: nat, s: seq<byte>, lo: nat) {
    && array_ + 8 * i + 8 <= |m|
    && var a := WordAt(m, array_ + 8 * i);
    lo <= a && BASE <= a && a + |s| < BASE + |m| && CString(m, a - BASE) == s
  }

  // ----- Writing it

  method PutBytes(m: array<byte>, off: nat, s: seq<byte>)
    requires off + |s| <= m.Length
    modifies m
    ensures m[..] == old(m[..off]) + s + old(m[off + |s|..])
  {
    var i := 0;
    while i < |s|
      invariant i <= |s|
      invariant forall p | 0 <= p < m.Length :: m[p] == if off <= p < off + i then s[p - off] else old(m[p])
    {
      m[off + i] := s[i];
      i := i + 1;
    }
  }

  ghost predicate StringsPut(m: seq<byte>, argv: seq<seq<byte>>, k: nat)
    requires k <= |argv|
  {
    Size(argv, k) <= |m| == PAGE_SIZE && forall j: nat {:trigger argv[j]} | j < k :: StringAt(argv, j) >= 0 && Put(m, StringAt(argv, j), argv[j] + [0])
  }

  lemma StringsKeep(was: seq<byte>, now: seq<byte>, at: nat, w: seq<byte>, argv: seq<seq<byte>>, k: nat)
    requires k <= |argv| && StringsPut(was, argv, k) && at + |w| <= PAGE_SIZE - Size(argv, k) && now == was[..at] + w + was[at + |w|..]
    ensures StringsPut(now, argv, k)
  {
    hide Put;
    forall j: nat | j < k ensures StringAt(argv, j) >= 0 && Put(now, StringAt(argv, j), argv[j] + [0]) {
      SizeGrows(argv, j + 1, k);
      PutKeeps(was, now, at, w, StringAt(argv, j), argv[j] + [0]);
    }
  }

  lemma PutHere(was: seq<byte>, now: seq<byte>, at: nat, w: seq<byte>)
    requires at + |w| <= |was| && now == was[..at] + w + was[at + |w|..]
    ensures Put(now, at, w) && |now| == |was|
  {
  }

  /** The strings, from the top of the page down. */
  method PutStrings(m: array<byte>, argv: seq<seq<byte>>, argc: nat) returns (ok: bool, cur: nat, addrs: seq<nat>)
    requires m.Length == PAGE_SIZE && argc <= |argv|
    modifies m
    ensures ok <==> Size(argv, argc) <= PAGE_SIZE
    ensures ok ==> cur == BASE + PAGE_SIZE - Size(argv, argc) && StringsPut(m[..], argv, argc)
    ensures ok ==> |addrs| == argc && forall j: nat | j < argc :: addrs[j] == BASE + StringAt(argv, j)
  {
    hide Put;
    cur, addrs := BASE + PAGE_SIZE, [];
    var i := 0;
    while i < argc
      invariant i <= argc && Size(argv, i) <= PAGE_SIZE && cur == BASE + PAGE_SIZE - Size(argv, i) && StringsPut(m[..], argv, i)
      invariant |addrs| == i && forall j: nat | j < i :: addrs[j] == BASE + StringAt(argv, j)
    {
      var len := |argv[i]| + 1;
      SizeGrows(argv, i, argc);
      if cur - BASE < len { return false, 0, []; }
      cur := cur - len;
      ghost var was := m[..];
      PutBytes(m, cur - BASE, argv[i] + [0]);
      StringsKeep(was, m[..], cur - BASE, argv[i] + [0], argv, i);
      PutHere(was, m[..], cur - BASE, argv[i] + [0]);
      addrs := addrs + [cur];
      i := i + 1;
    }
    ok := true;
  }

  ghost predicate WordsPut(m: seq<byte>, at: nat, words: seq<nat>) {
    forall j: nat {:trigger words[j]} | j < |words| :: Put(m, at + 8 * j, Le(words[j], 8))
  }

  /** A run of 8-byte words, written in order. */
  method PutWords(m: array<byte>, at: nat, words: seq<nat>, ghost argv: seq<seq<byte>>, ghost k: nat)
    requires m.Length == PAGE_SIZE && k <= |argv| && StringsPut(m[..], argv, k) && at + 8 * |words| <= PAGE_SIZE - Size(argv, k)
    modifies m
    ensures StringsPut(m[..], argv, k) && WordsPut(m[..], at, words)
    ensures m[..at] == old(m[..at]) && m[at + 8 * |words|..] == old(m[at + 8 * |words|..])
  {
    hide Put;
    var i := 0;
    while i < |words|
      invariant i <= |words| && StringsPut(m[..], argv, k) && WordsPut(m[..], at, words[..i])
      invariant m[..at] == old(m[..at]) && m[at + 8 * i..] == old(m[at + 8 * i..])
    {
      ghost var was := m[..];
      PutBytes(m, at + 8 * i, Le(words[i], 8));
      StringsKeep(was, m[..], at + 8 * i, Le(words[i], 8), argv, k);
      WordsStep(was, m[..], at, words, i);
      i := i + 1;
    }
    assert words[..|words|] == words;
  }

  lemma WordsStep(was: seq<byte>, now: seq<byte>, at: nat, words: seq<nat>, i: nat)
    requires i < |words| && WordsPut(was, at, words[..i]) && at + 8 * i + 8 <= |was|
    requires now == was[..at + 8 * i] + Le(words[i], 8) + was[at + 8 * i + 8..]
    ensures WordsPut(now, at, words[..i + 1])
    ensures now[..at] == was[..at] && now[at + 8 * (i + 1)..] == was[at + 8 * (i + 1)..]
  {
    hide Put;
    var w := words[..i + 1];
    forall j: nat | j < |w| ensures Put(now, at + 8 * j, Le(w[j], 8)) {
      if j < i {
        assert words[..i][j] == w[j];
        PutKeeps(was, now, at + 8 * i, Le(words[i], 8), at + 8 * j, Le(w[j], 8));
      } else {
        PutHere(was, now, at + 8 * i, Le(words[i], 8));
      }
    }
  }

  /** setup_user_stack_args: the initial stack pointer, or 0. */
  method SetupUserStackArgs(m: array<byte>, argc: int, argv: seq<seq<byte>>) returns (rsp: nat)
    requires m.Length == PAGE_SIZE && (0 < argc <= MAX_ARGS ==> argc <= |argv| && forall j: nat | j < argc :: 0 !in argv[j])
    modifies m
    ensures rsp == 0 <==> !(0 < argc <= MAX_ARGS) || !Fits(argv, argc)
    ensures rsp != 0 ==> ReadsAs(m[..], rsp, argc, argv)
  {
    hide Put, WordsPut, StringsPut, ReadsAs;
    if argc <= 0 || argc > MAX_ARGS { return 0; }
    var ok, cur, addrs := PutStrings(m, argv, argc);
    if !ok { return 0; }
    cur := cur / 8 * 8;
    CursorAligned(argv, argc);
    if cur - BASE < (argc + 1) * 8 { return 0; }
    cur := cur - (argc + 1) * 8;
    var array_ := cur;
    ghost var words := addrs + [0];
    PutWords(m, cur - BASE, addrs + [0], argv, argc);
    if cur - BASE < 16 { return 0; }
    cur := cur - 16;
    ghost var was := m[..];
    PutWords(m, cur - BASE, [argc, array_], argv, argc);
    WordsKeep(was, m[..], array_ - BASE, words);
    rsp := cur;
    BlockReads(m[..], rsp, argc, argv, addrs);
  }

  lemma CursorAligned(argv: seq<seq<byte>>, argc: nat)
    requires argc <= |argv| && Size(argv, argc) <= PAGE_SIZE
    ensures (BASE + PAGE_SIZE - Size(argv, argc)) / 8 * 8 == BASE + (PAGE_SIZE - Size(argv, argc)) / 8 * 8
  {
  }

  lemma WordsKeep(was: seq<byte>, now: seq<byte>, at: nat, words: seq<nat>)
    requires WordsPut(was, at, words) && at + 8 * |words| <= |was| && |now| == |was| && now[at..] == was[at..]
    ensures WordsPut(now, at, words)
  {
    forall j: nat | j < |words| ensures Put(now, at + 8 * j, Le(words[j], 8)) {
      assert was[at + 8 * j..at + 8 * j + 8] == was[at..][8 * j..8 * j + 8] == now[at + 8 * j..at + 8 * j + 8];
    }
  }

  /** A written word reads back. */
  lemma WordReads(m: seq<byte>, at: nat, words: seq<nat>, j: nat)
    requires WordsPut(m, at, words) && j < |words| && words[j] < 0x1_0000_0000_0000_0000
    ensures at + 8 * j + 8 <= |m| && WordAt(m, at + 8 * j) == words[j]
  {
    assert Put(m, at + 8 * j, Le(words[j], 8));
    Pow8();
    LeRoundTrip(words[j], 8);
  }

  lemma BlockReads(m: seq<byte>, rsp: nat, argc: nat, argv: seq<seq<byte>>, addrs: seq<nat>)
    requires 0 < argc <= |argv| && StringsPut(m, argv, argc) && (forall j: nat | j < argc :: 0 !in argv[j])
    requires |addrs| == argc && forall j: nat | j < argc :: addrs[j] == BASE + StringAt(argv, j)
    requires BASE <= rsp && rsp % 8 == 0 && rsp + 16 + 8 * (argc + 1) <= BASE + PAGE_SIZE - Size(argv, argc)
    requires WordsPut(m, rsp - BASE, [argc, rsp + 16]) && WordsPut(m, rsp - BASE + 16, addrs + [0])
    ensures ReadsAs(m, rsp, argc, argv)
  {
    hide WordsPut, Put, WordAt, ArgReads, StringAt;
    var o := rsp - BASE;
    var head, tail := [argc, rsp + 16], addrs + [0];
    WordReads(m, o, head, 0);
    WordReads(m, o, head, 1);
    WordReads(m, o + 16, tail, argc);
    forall i: nat | i < argc ensures ArgReads(m, o + 16, i, argv[i], rsp + 16 + 8 * (argc + 1)) {
      OneArgReads(m, o + 16, argc, argv, addrs, i, rsp + 16 + 8 * (argc + 1));
    }
  }

  lemma OneArgReads(m: seq<byte>, array_: nat, argc: nat, argv: seq<seq<byte>>, addrs: seq<nat>, i: nat, lo: nat)
    requires i < argc <= |argv| && StringsPut(m, argv, argc) && 0 !in argv[i] && lo <= BASE + PAGE_SIZE - Size(argv, argc)
    requires |addrs| == argc && addrs[i] == BASE + StringAt(argv, i) && WordsPut(m, array_, addrs + [0])
    ensures ArgReads(m, array_, i, argv[i], lo)
  {
    hide WordsPut, WordAt, CString;
    SizeGrows(argv, i + 1, argc);
    WordReads(m, array_, addrs + [0], i);
    assert Put(m, StringAt(argv, i), argv[i] + [0]);
    CStringIs(m, StringAt(argv, i), argv[i]);
  }
}
