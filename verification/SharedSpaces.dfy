/** Threads sharing a page table through a reference counter: who destroys it, and when. */
module SharedSpaces {
  import opened Types

  /** table is the process's cr3; counter is the address of its vm_refcount, 0 if null. */
  datatype Holder = Holder(table: nat, counter: nat, dead: bool)

  /** kernel is the kernel's own table, which no process owns. */
  datatype Spaces = Spaces(procs: map<nat, Holder>, counters: map<nat, nat>, tables: set<nat>, kernel: nat)

  function CounterOf(s: Spaces, p: nat): nat { if p in s.procs then s.procs[p].counter else 0 }

  ghost function Sharers(s: Spaces, c: nat): set<nat> { set p | p in s.procs && s.procs[p].counter == c }

  ghost predicate HolderOk(s: Spaces, p: nat)
    requires p in s.procs
  {
    var h := s.procs[p];
    && (h.table == s.kernel || h.table in s.tables)
    && (h.counter != 0 ==> h.table != s.kernel && h.counter in s.counters)
  }

  ghost predicate CounterOk(s: Spaces, c: nat)
    requires c in s.counters
  {
    c != 0 && s.counters[c] == |Sharers(s, c)| > 0
  }

  /** A table is shared only through one counter, and a counter counts one table. */
  ghost predicate PairOk(s: Spaces, p: nat, q: nat)
    requires p in s.procs && q in s.procs
  {
    var g, h := s.procs[p], s.procs[q];
    && (p != q && g.table == h.table && g.table != s.kernel ==> g.counter == h.counter != 0)
    && (g.counter == h.counter != 0 ==> g.table == h.table)
  }

  ghost predicate Held(s: Spaces, t: nat) { exists p :: p in s.procs && s.procs[p].table == t }

  ghost predicate SpacesOk(s: Spaces) {
    && s.kernel !in s.tables
    && (forall p {:trigger HolderOk(s, p)} | p in s.procs :: HolderOk(s, p))
    && (forall c {:trigger CounterOk(s, c)} | c in s.counters :: CounterOk(s, c))
    && (forall p, q {:trigger PairOk(s, p, q)} | p in s.procs && q in s.procs :: PairOk(s, p, q))
    && (forall t {:trigger Held(s, t)} | t in s.tables :: Held(s, t))
  }

  // ----- Operations; each also gives the tables it destroys

  /** create_user_process, after the image is loaded into table t. */
  function Create(s: Spaces, p: nat, t: nat): Spaces {
    s.(procs := s.procs[p := Holder(t, 0, false)], tables := s.tables + {t})
  }

  /** The counter of a process, seeded at 1 in cell c the first time it is shared. */
  function Seed(s: Spaces, parent: nat, c: nat): Spaces
    requires parent in s.procs
  {
    if s.procs[parent].counter != 0 then s
    else s.(procs := s.procs[parent := s.procs[parent].(counter := c)], counters := s.counters[c := 1])
  }

  /** p becomes one more holder of its parent's table. */
  function Join(t: Spaces, parent: nat, p: nat): Spaces
    requires parent in t.procs && t.procs[parent].counter in t.counters
  {
    var h := t.procs[parent];
    t.(procs := t.procs[p := h.(dead := false)], counters := t.counters[h.counter := t.counters[h.counter] + 1])
  }

  /** clone_process with CLONE_VM; cell is where a counter could be allocated, and made
      says whether the child itself could be allocated. */
  function CloneVm(s: Spaces, parent: nat, p: nat, cell: Option<nat>, made: bool): Spaces
    requires parent in s.procs
  {
    if s.procs[parent].counter == 0 && cell.None? then s
    else
      var t := if s.procs[parent].counter != 0 then s else Seed(s, parent, cell.value);
      var h := t.procs[parent];
      if !made || h.counter !in t.counters then t else Join(t, parent, p)
  }

  /** clone_process without CLONE_VM: t is the copied table, if one could be made. */
  function Fork(s: Spaces, p: nat, table: Option<nat>, made: bool): (Spaces, Option<nat>) {
    if table.None? then (s, None)
    else if !made then (s, Some(table.value))
    else (s.(procs := s.procs[p := Holder(table.value, 0, false)], tables := s.tables + {table.value}), None)
  }

  function Exit(s: Spaces, p: nat): Spaces
    requires p in s.procs
  {
    s.(procs := s.procs[p := s.procs[p].(dead := true)])
  }

  /** destroy_process_vm and the removal of the process. */
  function Reap(s: Spaces, p: nat): (Spaces, Option<nat>)
    requires p in s.procs
  {
    var h, rest := s.procs[p], s.(procs := s.procs - {p});
    if h.table == s.kernel then (rest, None)
    else if h.counter != 0 && h.counter in s.counters && s.counters[h.counter] > 1
    then (rest.(counters := s.counters[h.counter := s.counters[h.counter] - 1]), None)
    else (rest.(counters := s.counters - {h.counter}, tables := s.tables - {h.table}), Some(h.table))
  }

  /** exec_process after the new image is loaded into table t: the counter is not looked at. */
  function Exec(s: Spaces, p: nat, t: nat): (Spaces, Option<nat>)
    requires p in s.procs
  {
    (s.(procs := s.procs[p := s.procs[p].(table := t)], tables := s.tables - {s.procs[p].table} + {t}), Some(s.procs[p].table))
  }

  // ----- Each operation keeps the counters exact

  lemma CreateOk(s: Spaces, p: nat, t: nat)
    requires SpacesOk(s) && p !in s.procs && t !in s.tables && t != s.kernel
    ensures SpacesOk(Create(s, p, t))
  {
    var r := Create(s, p, t);
    Unshared(s, r);
    forall q | q in r.procs ensures HolderOk(r, q) { if q != p { assert HolderOk(s, q); } }
    forall a, b | a in r.procs && b in r.procs ensures PairOk(r, a, b) {
      if a != p { assert HolderOk(s, a); }
      if b != p { assert HolderOk(s, b); }
      if a != p && b != p { assert PairOk(s, a, b); }
    }
    forall u | u in r.tables ensures Held(r, u) {
      if u == t { assert r.procs[p].table == u; }
      else { assert Held(s, u); var q :| q in s.procs && s.procs[q].table == u; assert r.procs[q].table == u; }
    }
  }

  /** Counters stay exact when every counter keeps its sharers. */
  lemma Unshared(s: Spaces, r: Spaces)
    requires r.counters == s.counters && (forall c {:trigger CounterOk(s, c)} | c in s.counters :: CounterOk(s, c))
    requires forall p :: CounterOf(r, p) == CounterOf(s, p)
    ensures forall c {:trigger CounterOk(r, c)} | c in r.counters :: CounterOk(r, c)
  {
    forall c | c in r.counters ensures CounterOk(r, c) {
      assert CounterOk(s, c);
      assert forall p :: p in Sharers(r, c) <==> CounterOf(r, p) == c;
      assert forall p :: p in Sharers(s, c) <==> CounterOf(s, p) == c;
      assert Sharers(r, c) == Sharers(s, c);
    }
  }

  lemma SeedOk(s: Spaces, parent: nat, c: nat)
    requires SpacesOk(s) && parent in s.procs && s.procs[parent].counter == 0 && s.procs[parent].table != s.kernel && c != 0 && c !in s.counters
    ensures SpacesOk(Seed(s, parent, c))
  {
    var r := Seed(s, parent, c);
    assert forall q | q in s.procs :: s.procs[q].counter != c by {
      forall q | q in s.procs ensures s.procs[q].counter != c { assert HolderOk(s, q); }
    }
    assert Sharers(r, c) == {parent};
    forall d | d in r.counters ensures CounterOk(r, d) {
      if d != c { assert CounterOk(s, d); assert Sharers(r, d) == Sharers(s, d); }
    }
    forall q | q in r.procs ensures HolderOk(r, q) { assert HolderOk(s, q); }
    forall a, b | a in r.procs && b in r.procs ensures PairOk(r, a, b) { assert PairOk(s, a, b) && PairOk(s, b, a); }
    forall u | u in r.tables ensures Held(r, u) {
      assert Held(s, u);
      var q :| q in s.procs && s.procs[q].table == u;
      assert r.procs[q].table == u;
    }
  }

  lemma JoinCounters(t: Spaces, parent: nat, p: nat)
    requires SpacesOk(t) && parent in t.procs && p !in t.procs && t.procs[parent].counter in t.counters
    ensures var r := Join(t, parent, p); forall d {:trigger CounterOk(r, d)} | d in r.counters :: CounterOk(r, d)
  {
    var r, c := Join(t, parent, p), t.procs[parent].counter;
    forall d | d in r.counters ensures CounterOk(r, d) {
      assert CounterOk(t, d);
      assert Sharers(r, d) == if d == c then Sharers(t, d) + {p} else Sharers(t, d);
    }
  }

  lemma JoinPairs(t: Spaces, parent: nat, p: nat)
    requires SpacesOk(t) && parent in t.procs && p !in t.procs && t.procs[parent].counter in t.counters
    ensures var r := Join(t, parent, p); forall a, b {:trigger PairOk(r, a, b)} | a in r.procs && b in r.procs :: PairOk(r, a, b)
  {
    var r := Join(t, parent, p);
    assert CounterOk(t, t.procs[parent].counter);
    forall a, b | a in r.procs && b in r.procs ensures PairOk(r, a, b) {
      var x, y := if a == p then parent else a, if b == p then parent else b;
      assert PairOk(t, x, y);
    }
  }

  lemma JoinOk(t: Spaces, parent: nat, p: nat)
    requires SpacesOk(t) && parent in t.procs && p !in t.procs && t.procs[parent].counter != 0
    ensures t.procs[parent].counter in t.counters && SpacesOk(Join(t, parent, p))
  {
    hide CounterOk, PairOk;
    assert HolderOk(t, parent);
    JoinCounters(t, parent, p);
    JoinPairs(t, parent, p);
    var r := Join(t, parent, p);
    forall q | q in r.procs ensures HolderOk(r, q) { assert HolderOk(t, if q == p then parent else q); }
    forall u | u in r.tables ensures Held(r, u) {
      assert Held(t, u);
      var q :| q in t.procs && t.procs[q].table == u;
      assert r.procs[q].table == u;
    }
  }

  /** clone with CLONE_VM, whichever of its two allocations fails. */
  lemma CloneVmOk(s: Spaces, parent: nat, p: nat, cell: Option<nat>, made: bool)
    requires SpacesOk(s) && parent in s.procs && p !in s.procs && s.procs[parent].table != s.kernel
    requires cell.Some? ==> cell.value != 0 && cell.value !in s.counters
    ensures SpacesOk(CloneVm(s, parent, p, cell, made))
  {
    hide SpacesOk;
    if s.procs[parent].counter != 0 || cell.Some? {
      if s.procs[parent].counter == 0 { SeedOk(s, parent, cell.value); }
      var t := if s.procs[parent].counter != 0 then s else Seed(s, parent, cell.value);
      if made { JoinOk(t, parent, p); }
    }
  }

  lemma ForkOk(s: Spaces, p: nat, table: Option<nat>, made: bool)
    requires SpacesOk(s) && p !in s.procs && (table.Some? ==> table.value !in s.tables && table.value != s.kernel)
    ensures SpacesOk(Fork(s, p, table, made).0)
  {
    hide SpacesOk;
    if table.Some? && made { CreateOk(s, p, table.value); }
  }

  lemma ExitOk(s: Spaces, p: nat)
    requires SpacesOk(s) && p in s.procs
    ensures SpacesOk(Exit(s, p))
  {
    var r := Exit(s, p);
    Unshared(s, r);
    forall q | q in r.procs ensures HolderOk(r, q) { assert HolderOk(s, q); }
    forall a, b | a in r.procs && b in r.procs ensures PairOk(r, a, b) { assert PairOk(s, a, b); }
    forall u | u in r.tables ensures Held(r, u) {
      assert Held(s, u);
      var q :| q in s.procs && s.procs[q].table == u;
      assert r.procs[q].table == u;
    }
  }

  /** The counter says whether the process is its table's last holder. */
  lemma LastHolder(s: Spaces, p: nat)
    requires SpacesOk(s) && p in s.procs && s.procs[p].table != s.kernel
    ensures var h := s.procs[p];
      (h.counter != 0 && h.counter in s.counters && s.counters[h.counter] > 1) <==> exists q :: q in s.procs && q != p && s.procs[q].table == h.table
    ensures s.procs[p].counter != 0 ==> p in Sharers(s, s.procs[p].counter)
  {
    var h := s.procs[p];
    assert HolderOk(s, p);
    if q :| q in s.procs && q != p && s.procs[q].table == h.table {
      assert PairOk(s, p, q) && CounterOk(s, h.counter);
      assert {p, q} <= Sharers(s, h.counter);
      Bigger({p, q}, Sharers(s, h.counter));
    }
    if h.counter != 0 && s.counters[h.counter] > 1 {
      assert CounterOk(s, h.counter);
      var others := Sharers(s, h.counter) - {p};
      assert |others| > 0;
      var q :| q in others;
      assert PairOk(s, p, q);
    }
  }

  lemma Bigger(a: set<nat>, b: set<nat>)
    requires a <= b
    ensures |a| <= |b|
  {
    assert |b - a| == |b| - |a|;
  }

  lemma ReapCounters(s: Spaces, p: nat)
    requires SpacesOk(s) && p in s.procs
    ensures var r := Reap(s, p).0; forall d {:trigger CounterOk(r, d)} | d in r.counters :: CounterOk(r, d)
  {
    var r, h := Reap(s, p).0, s.procs[p];
    assert HolderOk(s, p);
    forall d | d in r.counters ensures CounterOk(r, d) {
      assert CounterOk(s, d);
      assert Sharers(r, d) == Sharers(s, d) - {p};
      if d == h.counter { assert p in Sharers(s, d); }
    }
  }

  /** Reaping destroys the table exactly when nobody else holds it. */
  lemma ReapOk(s: Spaces, p: nat)
    requires SpacesOk(s) && p in s.procs
    ensures var (r, gone) := Reap(s, p); var t := s.procs[p].table;
      && SpacesOk(r)
      && (gone.Some? <==> t != s.kernel && forall q | q in s.procs && q != p :: s.procs[q].table != t)
      && (gone.Some? ==> gone.value == t && t in s.tables && r.tables == s.tables - {t})
      && (gone.None? ==> r.tables == s.tables)
  {
    var (r, gone) := Reap(s, p);
    var h := s.procs[p];
    assert HolderOk(s, p);
    ReapCounters(s, p);
    if h.table != s.kernel { LastHolder(s, p); }
    forall q | q in r.procs ensures HolderOk(r, q) {
      assert HolderOk(s, q);
      if s.procs[q].counter == h.counter != 0 { assert PairOk(s, p, q); }
    }
    forall a, b | a in r.procs && b in r.procs ensures PairOk(r, a, b) { assert PairOk(s, a, b); }
    forall u | u in r.tables ensures Held(r, u) {
      assert Held(s, u);
      var q :| q in s.procs && s.procs[q].table == u;
      if q == p {
        var o :| o in s.procs && o != p && s.procs[o].table == u;
        assert r.procs[o].table == u;
      } else { assert r.procs[q].table == u; }
    }
  }

  /** execve keeps the counters exact if and only if nobody shares the caller's table. */
  lemma ExecOkIffSole(s: Spaces, p: nat, t: nat)
    requires SpacesOk(s) && p in s.procs && s.procs[p].table != s.kernel && t !in s.tables && t != s.kernel
    ensures SpacesOk(Exec(s, p, t).0) <==> (s.procs[p].counter == 0 || (s.procs[p].counter in s.counters && s.counters[s.procs[p].counter] == 1))
  {
    var r, h := Exec(s, p, t).0, s.procs[p];
    assert HolderOk(s, p);
    LastHolder(s, p);
    if h.counter != 0 { assert CounterOk(s, h.counter); }
    if q :| q in s.procs && q != p && s.procs[q].table == h.table {
      assert !HolderOk(r, q);
    } else {
      Unshared(s, r);
      forall q | q in r.procs ensures HolderOk(r, q) { assert HolderOk(s, q); }
      forall a, b | a in r.procs && b in r.procs ensures PairOk(r, a, b) { assert PairOk(s, a, b) && HolderOk(s, a) && HolderOk(s, b); }
      ExecHeld(s, p, t);
    }
  }

  lemma ExecHeld(s: Spaces, p: nat, t: nat)
    requires SpacesOk(s) && p in s.procs
    ensures var r := Exec(s, p, t).0; forall u {:trigger Held(r, u)} | u in r.tables :: Held(r, u)
  {
    var r := Exec(s, p, t).0;
    forall u | u in r.tables ensures Held(r, u) {
      if u == t { assert r.procs[p].table == u; }
      else { assert Held(s, u); var q :| q in s.procs && s.procs[q].table == u; assert r.procs[q].table == u; }
    }
  }

  /** A process creates a thread and then calls execve: the table its thread runs on is
      destroyed. */
  lemma ExecUnderThread()
    ensures var s := CloneVm(Create(Spaces(map[], map[], {}, 0), 1, 10), 1, 2, Some(50), true);
      && SpacesOk(s) && 1 in s.procs && 2 in s.procs && s.procs[2].table == 10
      && Exec(s, 1, 20).1 == Some(10) && !SpacesOk(Exec(s, 1, 20).0)
  {
    var none := Spaces(map[], map[], {}, 0);
    CreateOk(none, 1, 10);
    var one := Create(none, 1, 10);
    CloneVmOk(one, 1, 2, Some(50), true);
    var s := CloneVm(one, 1, 2, Some(50), true);
    ExecOkIffSole(s, 1, 20);
  }
}
