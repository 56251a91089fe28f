/** Runs of processes and threads that share page tables. */
module SharedSpaceRuns {
  import opened Sequences
  import opened Types
  import opened SharedSpaces

  /** A failed create or exec may have built a table, which it destroys again. */
  datatype Event =
    | CreateProcess(p: nat, t: nat, made: bool)
    | CloneThread(parent: nat, p: nat, cell: Option<nat>, made: bool)
    | ForkProcess(parent: nat, p: nat, table: Option<nat>, made: bool)
    | ExecImage(p: nat, t: nat, made: bool)
    | ExitProcess(p: nat)
    | ReapProcess(p: nat)

  predicate NewTable(s: Spaces, t: nat) { t !in s.tables && t != s.kernel }

  predicate Alive(s: Spaces, p: nat) { p in s.procs && !s.procs[p].dead && s.procs[p].table != s.kernel }

  /** Nobody else is counted on the caller's table. */
  predicate Sole(s: Spaces, p: nat)
    requires p in s.procs
  {
    s.procs[p].counter == 0 || (s.procs[p].counter in s.counters && s.counters[s.procs[p].counter] == 1)
  }

  predicate Enabled(s: Spaces, e: Event) {
    match e
    case CreateProcess(p, t, _) => p !in s.procs && NewTable(s, t)
    case CloneThread(parent, p, cell, _) => Alive(s, parent) && p !in s.procs && (cell.Some? ==> cell.value != 0 && cell.value !in s.counters)
    case ForkProcess(parent, p, table, _) => Alive(s, parent) && p !in s.procs && (table.Some? ==> NewTable(s, table.value))
    case ExecImage(p, t, _) => Alive(s, p) && NewTable(s, t)
    case ExitProcess(p) => Alive(s, p)
    case ReapProcess(p) => p in s.procs && s.procs[p].dead
  }

  function Maybe(x: Option<nat>): multiset<nat> { if x.Some? then multiset{x.value} else multiset{} }

  /** The next state, the tables built and the tables destroyed. */
  function Step(s: Spaces, e: Event): (Spaces, multiset<nat>, multiset<nat>)
    requires Enabled(s, e)
  {
    match e
    case CreateProcess(p, t, made) => if made then (Create(s, p, t), multiset{t}, multiset{}) else (s, multiset{t}, multiset{t})
    case CloneThread(parent, p, cell, made) => (CloneVm(s, parent, p, cell, made), multiset{}, multiset{})
    case ForkProcess(parent, p, table, made) =>
      var r := Fork(s, p, table, made);
      (r.0, Maybe(table), Maybe(r.1))
    case ExecImage(p, t, made) =>
      if made then var r := SharedSpaces.Exec(s, p, t); (r.0, multiset{t}, Maybe(r.1)) else (s, multiset{t}, multiset{t})
    case ExitProcess(p) => (Exit(s, p), multiset{}, multiset{})
    case ReapProcess(p) => var r := Reap(s, p); (r.0, multiset{}, Maybe(r.1))
  }

  /** No table is exchanged while another thread runs on it. */
  predicate Safe(s: Spaces, e: Event)
    requires Enabled(s, e)
  {
    e.ExecImage? && e.made ==> Sole(s, e.p)
  }

  /** One step keeps the counters exact if and only if it is no exec of a process that
      shares its table.  Every table is accounted for. */
  lemma StepOkIffSafe(s: Spaces, e: Event)
    requires SpacesOk(s) && Enabled(s, e)
    ensures var (r, made, gone) := Step(s, e);
      (SpacesOk(r) <==> Safe(s, e)) && multiset(r.tables) + gone == multiset(s.tables) + made && r.kernel == s.kernel
  {
    hide SpacesOk;
    match e
    case CreateProcess(p, t, made) => if made { CreateOk(s, p, t); }
    case CloneThread(parent, p, cell, made) => CloneVmOk(s, parent, p, cell, made);
    case ForkProcess(parent, p, table, made) => ForkOk(s, p, table, made);
    case ExecImage(p, t, made) => if made { ExecOkIffSole(s, p, t); OwnTable(s, p); }
    case ExitProcess(p) => ExitOk(s, p);
    case ReapProcess(p) => ReapOk(s, p);
  }

  lemma OwnTable(s: Spaces, p: nat)
    requires SpacesOk(s) && p in s.procs && s.procs[p].table != s.kernel
    ensures s.procs[p].table in s.tables
  {
    assert HolderOk(s, p);
  }

  ghost predicate Legal(s: Spaces, es: seq<Event>)
    decreases |es|
  {
    es == [] || (Enabled(s, es[0]) && Legal(Step(s, es[0]).0, es[1..]))
  }

  ghost function Run(s: Spaces, es: seq<Event>): (Spaces, multiset<nat>, multiset<nat>)
    requires Legal(s, es)
    decreases |es|
  {
    if es == [] then (s, multiset{}, multiset{})
    else
      var a := Step(s, es[0]);
      var b := Run(a.0, es[1..]);
      (b.0, a.1 + b.1, a.2 + b.2)
  }

  ghost predicate AllSafe(s: Spaces, es: seq<Event>)
    requires Legal(s, es)
    decreases |es|
  {
    es == [] || (Safe(s, es[0]) && AllSafe(Step(s, es[0]).0, es[1..]))
  }

  ghost predicate AlwaysOk(s: Spaces, es: seq<Event>)
    requires Legal(s, es)
    decreases |es|
  {
    SpacesOk(s) && (es == [] || AlwaysOk(Step(s, es[0]).0, es[1..]))
  }

  /** Every counter is exact all along a run if and only if no process called execve while
      it shared its table. */
  lemma {:induction false} AlwaysOkIffAllSafe(s: Spaces, es: seq<Event>)
    requires SpacesOk(s) && Legal(s, es)
    ensures AlwaysOk(s, es) <==> AllSafe(s, es)
    decreases |es|
  {
    hide SpacesOk, Step, Safe;
    if es != [] {
      StepOkIffSafe(s, es[0]);
      if Safe(s, es[0]) { AlwaysOkIffAllSafe(Step(s, es[0]).0, es[1..]); }
    }
  }

  /** Over such a run every table built is either still held or was destroyed, once. */
  lemma {:induction false} EveryTableOnce(s: Spaces, es: seq<Event>)
    requires SpacesOk(s) && Legal(s, es) && AllSafe(s, es)
    ensures var (r, made, gone) := Run(s, es); SpacesOk(r) && multiset(r.tables) + gone == multiset(s.tables) + made
    decreases |es|
  {
    hide SpacesOk, Step, Safe;
    if es != [] {
      StepOkIffSafe(s, es[0]);
      var (a, made, gone) := Step(s, es[0]);
      EveryTableOnce(a, es[1..]);
      var (b, made', gone') := Run(a, es[1..]);
      AddUp(multiset(s.tables), made, gone, multiset(a.tables), made', gone', multiset(b.tables));
    }
  }

  /** When the last process is gone, so is every table. */
  lemma NothingLeft(s: Spaces, es: seq<Event>)
    requires SpacesOk(s) && Legal(s, es) && AllSafe(s, es)
    requires forall p | p in Run(s, es).0.procs :: Run(s, es).0.procs[p].table == Run(s, es).0.kernel
    ensures var (r, made, gone) := Run(s, es); r.tables == {} && gone == multiset(s.tables) + made
  {
    hide SpacesOk, Run;
    EveryTableOnce(s, es);
    var r := Run(s, es).0;
    forall t | t in r.tables ensures t == r.kernel { TableHolder(r, t); }
    assert r.tables == {} by { KernelApart(r); }
    assert multiset(r.tables) == multiset{};
  }

  // ----- The same without counters: who runs on which table

  /** A process's table, and whether it has exited. */
  type Plain = map<nat, (nat, bool)>

  ghost function Running(ps: map<nat, Holder>): Plain { map p | p in ps :: (ps[p].table, ps[p].dead) }

  ghost function Runners(s: Spaces): Plain { Running(s.procs) }

  lemma OneRunner(ps: map<nat, Holder>, p: nat, h: Holder)
    ensures Running(ps[p := h]) == Running(ps)[p := (h.table, h.dead)] && Running(ps - {p}) == Running(ps) - {p}
    ensures forall q {:trigger q in Running(ps)} :: q in Running(ps) <==> q in ps
    ensures forall q {:trigger Running(ps)[q]} | q in ps :: Running(ps)[q] == (ps[q].table, ps[q].dead)
    ensures p in ps ==> Running(ps)[p := (ps[p].table, ps[p].dead)] == Running(ps)
  {
  }

  /** Does the step find the memory it needs?  A thread needs a counter only if its parent
      shares its table with nobody yet. */
  predicate Succeeds(s: Spaces, e: Event)
    requires Enabled(s, e)
  {
    match e
    case CreateProcess(_, _, made) => made
    case CloneThread(parent, _, cell, made) => made && (s.procs[parent].counter != 0 || cell.Some?)
    case ForkProcess(_, _, table, made) => made && table.Some?
    case ExecImage(_, _, made) => made
    case _ => true
  }

  /** A process starts on its own table, a thread on its parent's and a forked child on the
      copy; execve changes the caller's table; a failed step changes nobody's. */
  function PlainStep(m: Plain, e: Event): Plain {
    match e
    case CreateProcess(p, t, _) => m[p := (t, false)]
    case CloneThread(parent, p, _, _) => if parent in m then m[p := (m[parent].0, false)] else m
    case ForkProcess(_, p, table, _) => if table.Some? then m[p := (table.value, false)] else m
    case ExecImage(p, t, _) => if p in m then m[p := (t, m[p].1)] else m
    case ExitProcess(p) => if p in m then m[p := (m[p].0, true)] else m
    case ReapProcess(p) => m - {p}
  }

  ghost predicate Uses(s: Spaces, t: nat) { exists p :: p in s.procs && s.procs[p].table == t }

  /** The tables a step builds. */
  predicate Builds(e: Event, t: nat) {
    match e
    case CreateProcess(_, u, _) => u == t
    case ForkProcess(_, _, table, _) => table == Some(t)
    case ExecImage(_, u, _) => u == t
    case _ => false
  }

  /** Each step moves processes and tables as the machine without counters does, and
      destroys a table exactly when it was built or in use and nobody uses it any more. */
  lemma StepIsPlain(s: Spaces, e: Event)
    requires SpacesOk(s) && Enabled(s, e)
    ensures var (r, made, gone) := Step(s, e);
      && Runners(r) == (if Succeeds(s, e) then PlainStep(Runners(s), e) else Runners(s))
      && (Safe(s, e) ==> forall t | t != s.kernel :: t in gone <==> (Uses(s, t) || Builds(e, t)) && !Uses(r, t))
  {
    hide SpacesOk, Runners, Step, PlainStep, Uses, Safe;
    var (r, made, gone) := Step(s, e);
    StepRunners(s, e);
    if Safe(s, e) {
      StepOkIffSafe(s, e);
      forall t | t != s.kernel ensures t in gone <==> (Uses(s, t) || Builds(e, t)) && !Uses(r, t) {
        UsesIsTable(s, t);
        UsesIsTable(r, t);
        Destroyed(s, e, t);
      }
    }
  }

  lemma StepRunners(s: Spaces, e: Event)
    requires SpacesOk(s) && Enabled(s, e)
    ensures Runners(Step(s, e).0) == if Succeeds(s, e) then PlainStep(Runners(s), e) else Runners(s)
  {
    hide SpacesOk, Running;
    match e
    case CreateProcess(p, t, made) => OneRunner(s.procs, p, Holder(t, 0, false));
    case CloneThread(parent, p, cell, made) => CloneRunners(s, parent, p, cell, made);
    case ForkProcess(_, p, table, made) => if table.Some? { OneRunner(s.procs, p, Holder(table.value, 0, false)); }
    case ExecImage(p, t, made) => OneRunner(s.procs, p, s.procs[p].(table := t));
    case ExitProcess(p) => OneRunner(s.procs, p, s.procs[p].(dead := true));
    case ReapProcess(p) => OneRunner(s.procs, p, s.procs[p]);
  }

  lemma CloneRunners(s: Spaces, parent: nat, p: nat, cell: Option<nat>, made: bool)
    requires SpacesOk(s) && Enabled(s, CloneThread(parent, p, cell, made))
    ensures var e := CloneThread(parent, p, cell, made);
      Runners(CloneVm(s, parent, p, cell, made)) == if Succeeds(s, e) then PlainStep(Runners(s), e) else Runners(s)
  {
    hide SpacesOk, Running;
    var h := s.procs[parent];
    if h.counter != 0 { SharedIsCounted(s, parent); }
    OneRunner(s.procs, p, h.(dead := false));
    if h.counter == 0 && cell.Some? {
      var t := Seed(s, parent, cell.value);
      OneRunner(s.procs, parent, t.procs[parent]);
      OneRunner(t.procs, p, t.procs[parent].(dead := false));
    }
  }

  lemma UsesIsTable(s: Spaces, t: nat)
    requires SpacesOk(s) && t != s.kernel
    ensures Uses(s, t) <==> t in s.tables
  {
    if t in s.tables { TableHolder(s, t); }
    if p :| p in s.procs && s.procs[p].table == t { OwnTable(s, p); }
  }

  lemma Destroyed(s: Spaces, e: Event, t: nat)
    requires Enabled(s, e) && t != s.kernel
    requires var (r, made, gone) := Step(s, e); multiset(r.tables) + gone == multiset(s.tables) + made
    ensures t in Step(s, e).2 <==> (t in s.tables || Builds(e, t)) && t !in Step(s, e).0.tables
  {
    var (r, made, gone) := Step(s, e);
    assert (multiset(r.tables) + gone)[t] == (multiset(s.tables) + made)[t];
    assert made[t] == if Builds(e, t) then 1 else 0;
    assert Builds(e, t) ==> t !in s.tables;
  }

  ghost function PlainRun(s: Spaces, es: seq<Event>, m: Plain): Plain
    requires Legal(s, es)
    decreases |es|
  {
    if es == [] then m else PlainRun(Step(s, es[0]).0, es[1..], if Succeeds(s, es[0]) then PlainStep(m, es[0]) else m)
  }

  /** Over every run without an execve under a thread, counting holders is invisible: every
      process runs on the table it would run on if nothing were counted. */
  lemma {:induction false} RunIsPlain(s: Spaces, es: seq<Event>)
    requires SpacesOk(s) && Legal(s, es) && AllSafe(s, es)
    ensures Runners(Run(s, es).0) == PlainRun(s, es, Runners(s))
    decreases |es|
  {
    hide SpacesOk, Step, Safe, Runners, PlainStep;
    if es != [] {
      StepOkIffSafe(s, es[0]);
      StepIsPlain(s, es[0]);
      RunIsPlain(Step(s, es[0]).0, es[1..]);
    }
  }

  /** clone without CLONE_VM: a child on the copied table, or the copy is destroyed. */
  lemma ForkMakesChild(s: Spaces, parent: nat, p: nat, t: nat, made: bool)
    requires SpacesOk(s) && Enabled(s, ForkProcess(parent, p, Some(t), made))
    ensures var (r, built, gone) := Step(s, ForkProcess(parent, p, Some(t), made));
      && built == multiset{t} && r.counters == s.counters
      && if made then r.procs == s.procs[p := Holder(t, 0, false)] && gone == multiset{} && t in r.tables
         else r == s && gone == multiset{t}
  {
  }

  /** clone with CLONE_VM: the child holds its parent's table through its parent's counter,
      which counts one holder more. */
  lemma CloneSharesTable(s: Spaces, parent: nat, p: nat, cell: Option<nat>, made: bool)
    requires SpacesOk(s) && Enabled(s, CloneThread(parent, p, cell, made))
    ensures var (r, built, gone) := Step(s, CloneThread(parent, p, cell, made));
      && built == multiset{} == gone && r.tables == s.tables
      && (p in r.procs <==> made && (s.procs[parent].counter != 0 || cell.Some?))
      && (p in r.procs ==>
          && r.procs[p].table == s.procs[parent].table == r.procs[parent].table && !r.procs[p].dead
          && r.procs[p].counter == r.procs[parent].counter != 0 && r.procs[p].counter in r.counters
          && r.counters[r.procs[p].counter] == |Peers(s, parent)| + 1 && p !in Peers(s, parent))
      && (forall q | q in s.procs && q != parent :: q in r.procs && r.procs[q] == s.procs[q])
  {
    hide SpacesOk;
    var h := s.procs[parent];
    if h.counter != 0 { SharedIsCounted(s, parent); }
    var r := Step(s, CloneThread(parent, p, cell, made)).0;
    if p in r.procs {
      CloneVmOk(s, parent, p, cell, made);
      PeersAreSharers(r, p);
      PeersGrow(s, r, parent, p);
    }
  }

  lemma PeersGrow(s: Spaces, r: Spaces, parent: nat, p: nat)
    requires parent in s.procs && p !in s.procs && p in r.procs && r.procs.Keys == s.procs.Keys + {p} && r.procs[p].table == s.procs[parent].table
    requires forall q | q in s.procs :: r.procs[q].table == s.procs[q].table
    ensures |Peers(r, p)| == |Peers(s, parent)| + 1 && p !in Peers(s, parent)
  {
    assert Peers(r, p) == Peers(s, parent) + {p};
  }

  /** The processes on the same table. */
  ghost function Peers(s: Spaces, p: nat): set<nat>
    requires p in s.procs
  {
    set q | q in s.procs && s.procs[q].table == s.procs[p].table
  }

  lemma PeersAreSharers(s: Spaces, p: nat)
    requires SpacesOk(s) && p in s.procs && s.procs[p].counter != 0
    ensures s.procs[p].counter in s.counters && s.counters[s.procs[p].counter] == |Peers(s, p)|
  {
    assert HolderOk(s, p) && CounterOk(s, s.procs[p].counter);
    forall q | q in s.procs ensures q in Peers(s, p) <==> s.procs[q].counter == s.procs[p].counter { assert PairOk(s, p, q); }
    assert Peers(s, p) == Sharers(s, s.procs[p].counter);
  }

  /** Exit marks exactly the caller; execve gives it the new table and destroys the old. */
  lemma ExitAndExec(s: Spaces, p: nat, t: nat, made: bool)
    requires SpacesOk(s) && Enabled(s, ExitProcess(p)) && Enabled(s, ExecImage(p, t, made))
    ensures var (r, built, gone) := Step(s, ExitProcess(p));
      r.procs == s.procs[p := s.procs[p].(dead := true)] && r.tables == s.tables && r.counters == s.counters && built == multiset{} == gone
    ensures var (r, built, gone) := Step(s, ExecImage(p, t, made));
      && built == multiset{t} && r.counters == s.counters
      && if made then r.procs == s.procs[p := s.procs[p].(table := t)] && gone == multiset{s.procs[p].table} else r == s && gone == multiset{t}
  {
  }

  lemma TableHolder(s: Spaces, t: nat)
    requires SpacesOk(s) && t in s.tables
    ensures exists p :: p in s.procs && s.procs[p].table == t
  {
    assert Held(s, t);
  }

  lemma KernelApart(s: Spaces)
    requires SpacesOk(s)
    ensures s.kernel !in s.tables
  {
  }

  // ----- The operations in place

  class VmTable {
    var table: map<nat, nat>
    var counter: map<nat, nat>
    var dead: map<nat, bool>
    var counters: map<nat, nat>
    var tables: set<nat>
    var kernel: nat

    ghost function View(): Spaces
      reads this
      requires Same()
    {
      Spaces(map p | p in table :: Holder(table[p], counter[p], dead[p]), counters, tables, kernel)
    }

    ghost predicate Same()
      reads this
    {
      table.Keys == counter.Keys == dead.Keys
    }

    /** The child becomes one more holder of its parent's table. */
    method AddHolder(parent: nat, p: nat)
      requires Same() && parent in table && p !in table && counter[parent] in counters
      modifies this
      ensures Same() && p in table && View() == Join(old(View()), parent, p)
    {
      ghost var s := View();
      table := table[p := table[parent]];
      counter := counter[p := counter[parent]];
      dead := dead[p := false];
      counters := counters[counter[parent] := counters[counter[parent]] + 1];
      assert View().procs == s.procs[p := s.procs[parent].(dead := false)];
    }

    /** clone_process with CLONE_VM: the parent's counter is made on first use. */
    method ShareSpace(parent: nat, p: nat, cell: Option<nat>, made: bool) returns (ok: bool)
      requires Same() && SpacesOk(View()) && parent in table && p !in table && table[parent] != kernel
      requires cell.Some? ==> cell.value != 0 && cell.value !in counters
      modifies this
      ensures Same() && View() == CloneVm(old(View()), parent, p, cell, made) && SpacesOk(View())
      ensures ok <==> p in table
    {
      hide SpacesOk;
      ghost var s := View();
      CloneVmOk(s, parent, p, cell, made);
      if counter[parent] == 0 {
        if cell.None? { return false; }
        counter := counter[parent := cell.value];
        counters := counters[cell.value := 1];
        SeedOk(s, parent, cell.value);
        assert View().procs == Seed(s, parent, cell.value).procs;
      }
      SharedIsCounted(View(), parent);
      if !made { return false; }
      AddHolder(parent, p);
      ok := true;
    }

    /** destroy_process_vm of a dead process, then the process itself is freed. */
    method ReapVm(p: nat) returns (gone: Option<nat>)
      requires Same() && SpacesOk(View()) && p in table && dead[p]
      modifies this
      ensures Same() && (View(), gone) == Reap(old(View()), p) && SpacesOk(View())
    {
      hide SpacesOk;
      ghost var s := View();
      ReapOk(s, p);
      gone := None;
      if table[p] != kernel {
        var last := true;
        if counter[p] != 0 {
          SharedIsCounted(s, p);
          counters := counters[counter[p] := counters[counter[p]] - 1];
          last := counters[counter[p]] == 0;
        }
        if last {
          counters := counters - {counter[p]};
          gone := Some(table[p]);
          tables := tables - {table[p]};
        }
      }
      assert counters == Reap(s, p).0.counters && tables == Reap(s, p).0.tables;
      Drop(p);
    }

    method Drop(p: nat)
      requires Same() && p in table
      modifies this`table, this`counter, this`dead
      ensures Same() && View() == old(View()).(procs := old(View()).procs - {p})
    {
      ghost var s := View();
      table, counter, dead := table - {p}, counter - {p}, dead - {p};
      assert View().procs == s.procs - {p};
    }
  }

  lemma SharedIsCounted(s: Spaces, p: nat)
    requires SpacesOk(s) && p in s.procs && s.procs[p].counter != 0
    ensures s.procs[p].counter in s.counters && s.counters[s.procs[p].counter] > 0
  {
    assert HolderOk(s, p) && CounterOk(s, s.procs[p].counter);
  }
}
