/** A ready process that is on no queue: when schedule creates one, and that it is never
    run again. */
module SchedulerLosses {
  import opened Types
  import opened Scheduler
  import opened SchedulerInvariant
  import opened SchedulerRuns

  /** Ready, but on no ready queue. */
  ghost predicate Unqueued(s: Sched, p: nat) {
    |s.ready| == LEVELS && p in s.procs && s.procs[p].state == Ready && !Queued(s, p)
  }

  /** Ready, on no queue, and not running either. */
  ghost predicate Stranded(s: Sched, p: nat) { Unqueued(s, p) && p != s.current }

  ghost predicate NoneStranded(s: Sched) { forall p {:trigger Stranded(s, p)} :: !Stranded(s, p) }

  /** A step that calls schedule for a process that already picked itself once. */
  ghost predicate Loses(s: Sched, e: Event) {
    Unqueued(s, s.current) && (e == CallSchedule || (e == TimerTick && s.global + 1 >= BOOST))
  }

  // ----- Which unqueued processes an operation leaves

  lemma EnqueueUnqueued(s: Sched, x: nat, p: nat)
    requires |s.ready| == LEVELS && x in s.procs && s.procs[x].state != Dead && s.procs[x].priority < LEVELS
    ensures Unqueued(Enqueue(s, x), p) <==> Unqueued(s, p) && p != x
  {
    var t, i := Enqueue(s, x), s.procs[x].priority;
    assert x in t.ready[i];
    assert forall j: nat | j < LEVELS :: p in t.ready[j] <==> p in s.ready[j] || (j == i && p == x);
  }

  lemma {:induction false} WakeBlockedUnqueued(s: Sched, n: nat, p: nat)
    requires SchedOk(s) && n <= |s.ring|
    ensures Unqueued(WakeBlocked(s, n), p) <==> Unqueued(s, p)
  {
    hide SchedOk, Unqueued;
    if n > 0 {
      WakeBlockedUnqueued(s, n - 1, p);
      WakeBlockedOk(s, n - 1);
      var t, x := WakeBlocked(s, n - 1), s.ring[n - 1];
      if x != s.current && x in t.procs && t.procs[x].state == Blocked {
        Basics(t, x);
        EnqueueUnqueued(t, x, p);
        BlockedNotUnqueued(t, x);
      }
    }
  }

  lemma BlockedNotUnqueued(t: Sched, x: nat)
    requires x in t.procs && t.procs[x].state != Ready
    ensures !Unqueued(t, x)
  {
  }

  lemma PrepareUnqueued(s: Sched, p: nat)
    requires SchedOk(s)
    ensures Unqueued(Prepare(s), p) <==> Unqueued(s, p)
  {
    hide SchedOk, Survivors;
    ReapZombiesOk(s);
    var t := ReapZombies(s);
    assert Unqueued(t, p) <==> Unqueued(s, p);
    WakeBlockedUnqueued(t, |t.ring|, p);
    WakeBlockedOk(t, |t.ring|);
    var u := WakeBlocked(t, |t.ring|);
    Basics(u, u.current);
    if u.procs[u.current].state == Running && u.current != u.idle {
      EnqueueUnqueued(u, u.current, p);
    }
  }

  lemma PickUnqueued(s: Sched, p: nat)
    requires SchedOk(s)
    ensures var r := Pick(s); Unqueued(r.0, p) <==> Unqueued(s, p) || r.1 == Some(p)
  {
    var (t, pick) := Pick(s);
    var i := Level(s.ready, 0);
    if pick.Some? {
      PickedOut(s);
      assert s.ready[i] == [pick.value] + s.ready[i][1..];
      assert Queued(s, pick.value);
      assert forall j: nat | j < LEVELS && p != pick.value :: p in t.ready[j] <==> p in s.ready[j];
    }
  }

  /** After schedule, the stranded are those that were unqueued before it. */
  lemma ScheduleStranded(s: Sched, p: nat)
    requires SchedOk(s)
    ensures Stranded(Schedule(s).0, p) <==> Unqueued(s, p)
    ensures Unqueued(s, p) ==> p !in Picked(Schedule(s).1)
  {
    hide SchedOk, Prepare, Pick;
    PrepareOk(s);
    PrepareUnqueued(s, p);
    var q := Prepare(s);
    PickOk(q);
    PickFields(q);
    PickUnqueued(q, p);
    var (t, pick) := Pick(q);
    Basics(t, t.current);
    Basics(q, q.current);
    PickWasQueued(q, p);
    assert !Unqueued(t, t.idle);
  }

  lemma PickWasQueued(s: Sched, p: nat)
    requires SchedOk(s)
    ensures Pick(s).1 == Some(p) ==> !Unqueued(s, p)
  {
    var i := Level(s.ready, 0);
    if Pick(s).1 == Some(p) { assert p in s.ready[i]; }
  }

  lemma BoostedUnqueued(s: Sched, p: nat)
    requires SchedOk(s)
    ensures Unqueued(Boosted(s), p) <==> Unqueued(s, p)
  {
    GlobalOk(s, 0);
    BoostAllOk(s.(global := 0));
    assert ReadyOk(s, 0) && ReadyOk(s, 1) && ReadyOk(s, 2) && ReadyOk(s, 3);
    assert Queued(Boosted(s), p) <==> Queued(s, p);
  }

  lemma TickStranded(s: Sched, p: nat)
    requires SchedOk(s)
    ensures Stranded(Tick(s).0, p) <==> if s.global + 1 >= BOOST then Unqueued(s, p) else Stranded(s, p)
    ensures Stranded(s, p) ==> p !in Picked(Tick(s).1)
  {
    hide SchedOk, Schedule, Boosted, BoostAll;
    Basics(s, s.current);
    if s.global + 1 >= BOOST {
      BoostedOk(s);
      BoostedUnqueued(s, p);
      ScheduleStranded(Boosted(s), p);
    } else if s.procs[s.current].state == Running {
      GlobalOk(s, s.global + 1);
      var g, x := s.(global := s.global + 1), s.procs[s.current];
      OnlyReadyQueued(g, s.current);
      AccountOk(g, s.current, Charge(x));
      var t := SetProc(g, s.current, Charge(x));
      assert Unqueued(t, p) <==> Unqueued(s, p);
      assert !Unqueued(s, s.current);
      ScheduleStranded(t, p);
    }
  }

  // ----- Steps

  lemma WakeOneStranded(s: Sched, w: nat, p: nat)
    requires SchedOk(s)
    ensures Stranded(WakeOne(s, w), p) <==> Stranded(s, p)
  {
    var q := Parked(s, w);
    if q != [] {
      assert ParkedOk(s, w);
      assert ProcOk(s, q[0]);
      EnqueueUnqueued(s.(waits := s.waits[w := q[1..]]), q[0], p);
    }
  }

  lemma {:induction false} WakeAllStranded(s: Sched, w: nat, p: nat)
    requires SchedOk(s)
    ensures Stranded(WakeAll(s, w), p) <==> Stranded(s, p)
    decreases |Parked(s, w)|
  {
    hide SchedOk, Stranded;
    if Parked(s, w) != [] {
      WakeOneOk(s, w);
      WakeOneStranded(s, w, p);
      WakeAllStranded(WakeOne(s, w), w, p);
    }
  }

  /** The stranded after a step: those before it, and the process the step loses. */
  lemma StepStranded(s: Sched, e: Event, p: nat)
    requires SchedOk(s) && Enabled(s, e)
    ensures Stranded(Step(s, e).0, p) <==> Stranded(s, p) || (Loses(s, e) && p == s.current)
    ensures Stranded(s, p) ==> p !in Step(s, e).1
  {
    hide SchedOk, Schedule, Tick, WakeAll, FindDead;
    Basics(s, s.current);
    match e
    case SpawnProcess(x, pid) =>
      EnqueueUnqueued(s.(procs := s.procs[x := Proc(Ready, 0, 0, s.current, pid, 0)], ring := s.ring + [x]), x, p);
      assert !Unqueued(s, x);
    case TimerTick => TickStranded(s, p);
    case CallSchedule => ScheduleStranded(s, p);
    case Wake(w) => WakeOneStranded(s, w, p);
    case WakeEveryone(w) => WakeAllStranded(s, w, p);
    case Reap(only) => ReapStranded(s, only, p);
    case _ =>
  }

  lemma ReapStranded(s: Sched, only: Option<nat>, p: nat)
    ensures Stranded(ReapChild(s, only), p) <==> Stranded(s, p)
  {
  }

  // ----- Runs

  /** A stranded process stays stranded and is never picked, whatever happens. */
  lemma {:induction false} StrandedForever(s: Sched, es: seq<Event>, p: nat)
    requires SchedOk(s) && Legal(s, es) && Stranded(s, p)
    ensures var r := Exec(s, es); Stranded(r.0, p) && p !in r.1
    decreases |es|
  {
    hide SchedOk, Step, Stranded, Loses;
    if es != [] {
      StepOk(s, es[0]);
      StepStranded(s, es[0], p);
      StrandedForever(Step(s, es[0]).0, es[1..], p);
    }
  }

  ghost predicate NeverLoses(s: Sched, es: seq<Event>)
    requires Legal(s, es)
    decreases |es|
  {
    es == [] || (!Loses(s, es[0]) && NeverLoses(Step(s, es[0]).0, es[1..]))
  }

  /** A run strands nobody exactly when none of its steps calls schedule for a process
      that is ready but already off the queues. */
  lemma {:induction false} StrandsIffLoses(s: Sched, es: seq<Event>)
    requires SchedOk(s) && Legal(s, es) && NoneStranded(s)
    ensures NoneStranded(Exec(s, es).0) <==> NeverLoses(s, es)
    decreases |es|
  {
    hide SchedOk, Step, Stranded, Loses;
    if es != [] {
      var t := Step(s, es[0]).0;
      StepOk(s, es[0]);
      forall p ensures Stranded(t, p) <==> Loses(s, es[0]) && p == s.current { StepStranded(s, es[0], p); }
      if Loses(s, es[0]) {
        StrandedForever(t, es[1..], s.current);
      } else {
        StrandsIffLoses(t, es[1..]);
      }
    }
  }

  // ----- It happens: a lone process that uses up its time slice

  function Ticking(n: nat): (es: seq<Event>)
    ensures |es| == n && forall i | 0 <= i < n :: es[i] == TimerTick
  {
    seq(n, i => TimerTick)
  }

  /** A process that picked itself and keeps the CPU is lost at the next boost. */
  lemma {:induction false} LostAtBoost(s: Sched, n: nat)
    requires SchedOk(s) && Unqueued(s, s.current) && s.global + n == BOOST
    ensures Legal(s, Ticking(n)) && Stranded(Exec(s, Ticking(n)).0, s.current)
    decreases n
  {
    hide SchedOk, Unqueued, Schedule, Stranded;
    GlobalBelow(s);
    Basics(s, s.current);
    assert Ticking(n)[1..] == Ticking(n - 1);
    var t := Step(s, TimerTick).0;
    if n == 1 {
      StepStranded(s, TimerTick, s.current);
      assert Ticking(0) == [];
    } else {
      assert Unqueued(s, s.current) ==> s.procs[s.current].state == Ready by { UnqueuedIs(s); }
      assert t == s.(global := s.global + 1);
      StepOk(s, TimerTick);
      SameLosses(s, t);
      LostAtBoost(t, n - 1);
    }
  }

  lemma UnqueuedIs(s: Sched)
    ensures Unqueued(s, s.current) ==> s.current in s.procs && s.procs[s.current].state == Ready
  {
  }

  lemma SameLosses(s: Sched, t: Sched)
    requires t == s.(global := t.global)
    ensures Unqueued(t, t.current) <==> Unqueued(s, s.current)
  {
  }

  function Boot(): Sched {
    Sched(map[1 := Proc(Running, 3, 0, 0, 1, 0)], [1], [[], [], [], []], map[], 1, 1, 0)
  }

  lemma BootOk()
    ensures SchedOk(Boot()) && NoneStranded(Boot())
  {
    var s := Boot();
    forall i: nat | i < LEVELS ensures ReadyOk(s, i) {}
    forall w ensures ParkedOk(s, w) {}
    forall v, w ensures Apart(s, v, w) {}
    forall p ensures !Stranded(s, p) {}
  }

  /** Idle and process 2, in the given state. */
  function Lone(x: State, level: nat, ticks: nat, queue: seq<nat>, current: nat, global: nat): Sched
    requires level < LEVELS
  {
    Sched(map[1 := Proc(Running, 3, 0, 0, 1, 0), 2 := Proc(x, level, ticks, 1, 2, 0)], [1, 2], [[], [], [], []][level := queue], map[], current, 1, global)
  }

  lemma LoneSpawn()
    ensures Spawn(Boot(), 2, 2, 1) == Lone(Ready, 0, 0, [2], 1, 0)
  {
    var u := Lone(Ready, 0, 0, [], 1, 0);
    assert [] + [2] == [2] && [1] + [2] == [1, 2] && Boot().procs[2 := Proc(Ready, 0, 0, 1, 2, 0)] == u.procs;
    assert Spawn(Boot(), 2, 2, 1) == Enqueue(u, 2);
    assert Enqueue(u, 2).procs == u.procs;
  }

  lemma LoneStarts()
    ensures Schedule(Lone(Ready, 0, 0, [2], 1, 0)) == (Lone(Running, 0, 0, [], 2, 0), Some(2))
  {
    hide Prepare;
    var s := Lone(Ready, 0, 0, [2], 1, 0);
    LoneSchedule(s);
    assert [2][1..] == [] && s.ready[0 := []] == [[], [], [], []] == Lone(Ready, 0, 0, [], 1, 0).ready;
    assert s.ready[0] == [2] && Level(s.ready, 0) == 0;
    assert Pick(s) == (Lone(Ready, 0, 0, [], 1, 0), Some(2));
    assert Lone(Ready, 0, 0, [], 1, 0).procs[2 := Proc(Running, 0, 0, 1, 2, 0)] == Lone(Running, 0, 0, [], 2, 0).procs;
  }

  /** The slice ends at the second tick: process 2 goes to queue 1 and picks itself. */
  lemma LoneTicks()
    ensures Tick(Lone(Running, 0, 0, [], 2, 0)) == (Lone(Running, 0, 1, [], 2, 1), None)
    ensures Tick(Lone(Running, 0, 1, [], 2, 1)) == (Lone(Ready, 1, 0, [], 2, 2), Some(2))
  {
    hide Schedule;
    var s, u := Lone(Running, 0, 0, [], 2, 0), Lone(Running, 0, 1, [], 2, 1);
    assert s.procs[2 := Proc(Running, 0, 1, 1, 2, 0)] == u.procs;
    var r := Lone(Running, 1, 0, [], 2, 2);
    assert u.procs[2 := Proc(Running, 1, 0, 1, 2, 0)] == r.procs && r.ready == u.ready;
    assert Tick(u) == Schedule(r);
    LonePicksItself();
  }

  lemma LonePicksItself()
    ensures Schedule(Lone(Running, 1, 0, [], 2, 2)) == (Lone(Ready, 1, 0, [], 2, 2), Some(2))
  {
    hide Prepare;
    var r, q := Lone(Running, 1, 0, [], 2, 2), Lone(Ready, 1, 0, [2], 2, 2);
    LoneSchedule(r);
    assert [] + [2] == [2] && Enqueue(r, 2).procs == q.procs && Enqueue(r, 2) == q;
    assert [2][1..] == [] && q.ready[1 := []] == [[], [], [], []] == Lone(Ready, 1, 0, [], 2, 2).ready;
    assert q.ready[1] == [2];
    assert Level(q.ready, 0) == Level(q.ready, 1) == 1;
    assert Pick(q) == (Lone(Ready, 1, 0, [], 2, 2), Some(2));
  }

  /** Process 2 is started and runs undisturbed.  It picks itself when its first slice
      ends, and the boost at tick 100 loses it. */
  lemma LoneProcessIsLost()
    ensures var es := [SpawnProcess(2, 2), CallSchedule] + Ticking(BOOST); Legal(Boot(), es) && Stranded(Exec(Boot(), es).0, 2)
  {
    hide Schedule, Spawn, Tick, SchedOk, Stranded;
    LoneSpawn();
    LoneStarts();
    var es, rest := [SpawnProcess(2, 2), CallSchedule] + Ticking(BOOST), [CallSchedule] + Ticking(BOOST);
    assert es[1..] == rest && rest[1..] == Ticking(BOOST);
    assert Active(Boot());
    LoneRun();
    assert Legal(Lone(Ready, 0, 0, [2], 1, 0), rest);
    assert Legal(Boot(), es);
  }

  lemma LoneRun()
    ensures var s := Lone(Running, 0, 0, [], 2, 0); Legal(s, Ticking(BOOST)) && Stranded(Exec(s, Ticking(BOOST)).0, 2)
  {
    hide Tick, Schedule, Spawn, SchedOk, Stranded, Unqueued;
    LoneTicks();
    LoneOk();
    var s, u, v := Lone(Running, 0, 0, [], 2, 0), Lone(Running, 0, 1, [], 2, 1), Lone(Ready, 1, 0, [], 2, 2);
    assert Ticking(BOOST)[1..] == Ticking(BOOST - 1) && Ticking(BOOST - 1)[1..] == Ticking(BOOST - 2);
    LostAtBoost(v, BOOST - 2);
    assert Legal(u, Ticking(BOOST - 1)) && Exec(u, Ticking(BOOST - 1)).0 == Exec(v, Ticking(BOOST - 2)).0;
    assert Legal(s, Ticking(BOOST)) && Exec(s, Ticking(BOOST)).0 == Exec(u, Ticking(BOOST - 1)).0;
  }

  lemma LoneOk()
    ensures var s := Lone(Ready, 1, 0, [], 2, 2); SchedOk(s) && Unqueued(s, s.current)
  {
    var s := Lone(Ready, 1, 0, [], 2, 2);
    forall i: nat | i < LEVELS ensures ReadyOk(s, i) {}
    forall w ensures ParkedOk(s, w) {}
    forall v, w ensures Apart(s, v, w) {}
  }

  /** With two processes and nobody dead or blocked, schedule only moves process 2. */
  lemma LoneSchedule(s: Sched)
    requires s.ring == [1, 2] && s.procs.Keys == {1, 2} && s.idle == 1 && s.current in {1, 2}
    requires s.procs[1].state == Running && s.procs[2].state in {Ready, Running} && |s.ready| == LEVELS && s.procs[2].priority < LEVELS
    ensures Prepare(s) == if s.current == 2 && s.procs[2].state == Running then Enqueue(s, 2) else s
  {
    var t := ReapZombies(s);
    assert Survivors(s, [1, 2]) == [1, 2] by {
      assert [1][..0] == [] && !Orphan(s, 1) && !Orphan(s, 2);
      assert Survivors(s, [1]) == [] + [1] == [1];
      assert [1, 2][..1] == [1];
    }
    assert t.procs == s.procs;
    assert t == s;
    assert WakeBlocked(s, 2) == WakeBlocked(s, 1) == WakeBlocked(s, 0) == s;
  }

  // ----- It happens too: a zombie that nobody can collect

  lemma {:induction false} SurvivorsAll(s: Sched, q: seq<nat>)
    requires forall p | p in q :: !Orphan(s, p)
    ensures Survivors(s, q) == q
  {
    if q != [] {
      SurvivorsAll(s, q[..|q| - 1]);
      assert q[..|q| - 1] + [q[|q| - 1]] == q;
    }
  }

  lemma {:induction false} WakeNone(s: Sched, n: nat)
    requires n <= |s.ring| && forall p | p in s.ring && p in s.procs :: s.procs[p].state != Blocked
    ensures WakeBlocked(s, n) == s
  {
    if n > 0 { WakeNone(s, n - 1); }
  }

  /** With nobody to reap, to wake or to queue, schedule goes straight to picking. */
  lemma QuietPrepare(s: Sched)
    requires (forall p | p in s.procs :: !Orphan(s, p) && s.procs[p].state != Blocked) && (forall p | p in s.ring :: p in s.procs)
    requires s.current in s.procs && (s.procs[s.current].state != Running || s.current == s.idle)
    ensures Prepare(s) == s
  {
    SurvivorsAll(s, s.ring);
    assert ReapZombies(s).procs == s.procs;
    assert ReapZombies(s) == s;
    WakeNone(s, |s.ring|);
  }

  /** Idle, process 2 and its child 3. */
  function Family(x: State, y: State, code: int, queue: seq<nat>, current: nat): Sched {
    Sched(map[1 := Proc(Running, 3, 0, 0, 1, 0), 2 := Proc(x, 0, 0, 1, 2, 0), 3 := Proc(y, 0, 0, 2, 3, code)], [1, 2, 3],
          [queue, [], [], []], map[], current, 1, 0)
  }

  lemma FamilyBegins()
    ensures var s := Lone(Running, 0, 0, [], 2, 0);
      Active(s) && Spawn(s, 3, 3, 2) == Family(Running, Ready, 0, [3], 2) && Become(Family(Running, Ready, 0, [3], 2), Dead, 0) == Family(Dead, Ready, 0, [3], 2)
  {
    var s, f := Lone(Running, 0, 0, [], 2, 0), Family(Running, Ready, 0, [3], 2);
    var u := s.(procs := s.procs[3 := Proc(Ready, 0, 0, 2, 3, 0)], ring := s.ring + [3]);
    assert [1, 2] + [3] == [1, 2, 3] && [] + [3] == [3] && u.procs == f.procs && s.ready[0] == [];
    assert s.ready[0 := [3]] == f.ready;
    assert Enqueue(u, 3).procs == f.procs && Enqueue(u, 3).ready == f.ready;
    assert f.procs[2 := Proc(Dead, 0, 0, 1, 2, 0)] == Family(Dead, Ready, 0, [3], 2).procs;
  }

  lemma FamilyEnds()
    ensures Schedule(Family(Dead, Ready, 0, [3], 2)) == (Family(Dead, Running, 0, [], 3), Some(3))
    ensures Become(Family(Dead, Running, 0, [], 3), Dead, 7) == Family(Dead, Dead, 7, [], 3)
    ensures Schedule(Family(Dead, Dead, 7, [], 3)) == (Family(Dead, Dead, 7, [], 1), None)
  {
    hide Prepare;
    var s, t := Family(Dead, Ready, 0, [3], 2), Family(Dead, Dead, 7, [], 3);
    QuietPrepare(s);
    QuietPrepare(t);
    assert [3][1..] == [] && s.ready[0 := []] == [[], [], [], []] && Level(s.ready, 0) == 0;
    assert Pick(s) == (Family(Dead, Ready, 0, [], 2), Some(3));
    assert Family(Dead, Ready, 0, [], 2).procs[3 := Proc(Running, 0, 0, 2, 3, 0)] == Family(Dead, Running, 0, [], 3).procs;
    assert Family(Dead, Running, 0, [], 3).procs[3 := Proc(Dead, 0, 0, 2, 3, 7)] == t.procs;
    NothingQueued(t.ready);
    assert Pick(t) == (t, None);
    assert t.procs[1 := Proc(Running, 3, 0, 0, 1, 0)] == t.procs;
  }

  lemma NothingQueued(ready: seq<seq<nat>>)
    requires ready == [[], [], [], []]
    ensures Level(ready, 0) == 4
  {
    assert Level(ready, 3) == Level(ready, 4) == 4;
    assert Level(ready, 1) == Level(ready, 2) == Level(ready, 3);
  }

  /** Process 2 starts process 3 and exits, then 3 exits with status 7: from here on 3 is
      kept for ever, unless a new process is put at the address of 2. */
  lemma OrphanExample(more: seq<Event>)
    ensures var es := [SpawnProcess(2, 2), CallSchedule, SpawnProcess(3, 3), Exit(0), CallSchedule, Exit(7), CallSchedule];
      Legal(Boot(), es) && Exec(Boot(), es).0 == Family(Dead, Dead, 7, [], 1)
    ensures var s := Family(Dead, Dead, 7, [], 1);
      SchedOk(s) && (Legal(s, more) && NeverSpawned(more, 2) ==> 3 in Exec(s, more).0.procs && Exec(s, more).0.procs[3].code == 7)
  {
    hide Schedule, Spawn, Become, SchedOk;
    FamilyRun();
    var s := Family(Dead, Dead, 7, [], 1);
    BootOk();
    var es := [SpawnProcess(2, 2), CallSchedule, SpawnProcess(3, 3), Exit(0), CallSchedule, Exit(7), CallSchedule];
    EveryRunOk(Boot(), es);
    if Legal(s, more) && NeverSpawned(more, 2) { OrphanStays(s, more, 3); }
  }

  lemma OneStep(s: Sched, e: Event, t: Sched, es: seq<Event>)
    requires |s.ready| == LEVELS && s.current in s.procs && Enabled(s, e) && Step(s, e).0 == t && Legal(t, es)
    ensures Legal(s, [e] + es) && Exec(s, [e] + es).0 == Exec(t, es).0
  {
    hide Step, Enabled;
    assert ([e] + es)[1..] == es;
  }

  lemma FamilyRun()
    ensures var es := [SpawnProcess(2, 2), CallSchedule, SpawnProcess(3, 3), Exit(0), CallSchedule, Exit(7), CallSchedule];
      Legal(Boot(), es) && Exec(Boot(), es).0 == Family(Dead, Dead, 7, [], 1)
  {
    hide Schedule, Spawn, Become, Legal, Exec;
    LoneSpawn();
    LoneStarts();
    FamilyTail();
    FamilyBegins();
    var tail := [CallSchedule, Exit(7), CallSchedule];
    var c, d := Family(Dead, Ready, 0, [3], 2), Family(Running, Ready, 0, [3], 2);
    OneStep(d, Exit(0), c, tail);
    OneStep(Lone(Running, 0, 0, [], 2, 0), SpawnProcess(3, 3), d, [Exit(0)] + tail);
    OneStep(Lone(Ready, 0, 0, [2], 1, 0), CallSchedule, Lone(Running, 0, 0, [], 2, 0), [SpawnProcess(3, 3)] + ([Exit(0)] + tail));
    OneStep(Boot(), SpawnProcess(2, 2), Lone(Ready, 0, 0, [2], 1, 0), [CallSchedule] + ([SpawnProcess(3, 3)] + ([Exit(0)] + tail)));
    assert [SpawnProcess(2, 2)] + ([CallSchedule] + ([SpawnProcess(3, 3)] + ([Exit(0)] + tail)))
      == [SpawnProcess(2, 2), CallSchedule, SpawnProcess(3, 3), Exit(0), CallSchedule, Exit(7), CallSchedule];
  }

  lemma FamilyTail()
    ensures var c, es := Family(Dead, Ready, 0, [3], 2), [CallSchedule, Exit(7), CallSchedule];
      Legal(c, es) && Exec(c, es).0 == Family(Dead, Dead, 7, [], 1)
  {
    hide Schedule, Spawn, Become, Legal, Exec;
    FamilyEnds();
    var a, b, c := Family(Dead, Dead, 7, [], 3), Family(Dead, Running, 0, [], 3), Family(Dead, Ready, 0, [3], 2);
    NoSteps(Family(Dead, Dead, 7, [], 1));
    OneStep(a, CallSchedule, Family(Dead, Dead, 7, [], 1), []);
    OneStep(b, Exit(7), a, [CallSchedule] + []);
    OneStep(c, CallSchedule, b, [Exit(7)] + ([CallSchedule] + []));
    assert [CallSchedule] + ([Exit(7)] + ([CallSchedule] + [])) == [CallSchedule, Exit(7), CallSchedule];
  }

  lemma NoSteps(s: Sched)
    ensures Legal(s, []) && Exec(s, []).0 == s
  {
  }
}
