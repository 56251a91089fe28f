/** Priority and used time as a function of the ticks charged to a process. */
module TimeAccounting {
  import opened Scheduler
  import opened SchedulerInvariant
  import opened SchedulerRuns

  /** Level and ticks used at it, n charged ticks after creation or a boost. */
  function Account(n: nat): (nat, nat) {
    if n < 2 then (0, n) else if n < 6 then (1, n - 2) else if n < 12 then (2, n - 6) else (3, (n - 12) % 8)
  }

  ghost predicate AccountIs(s: Sched, p: nat, n: nat) {
    p in s.procs ==> (s.procs[p].priority, s.procs[p].ticks) == Account(n)
  }

  /** What a step adds to p's charged ticks: yielding, blocking and waking add nothing. */
  ghost function Charged(s: Sched, e: Event, p: nat, n: nat): nat
    requires |s.ready| == LEVELS && s.current in s.procs
  {
    match e
    case SpawnProcess(q, _) => if q == p then 0 else n
    case TimerTick =>
      if s.global + 1 >= BOOST then
        if p in s.ready[1] + s.ready[2] + s.ready[3] || (p == s.current && p != s.idle) then 0 else n
      else if p == s.current && s.procs[p].state == Running then n + 1 else n
    case _ => n
  }

  lemma ChargeAdvances(x: Proc, n: nat)
    requires (x.priority, x.ticks) == Account(n)
    ensures (Charge(x).priority, Charge(x).ticks) == Account(n + 1)
  {
  }

  /** Nobody's accounting changes, and nobody new appears. */
  ghost predicate SameAccounts(s: Sched, t: Sched) {
    forall p | p in t.procs ::
      p in s.procs && t.procs[p].priority == s.procs[p].priority && t.procs[p].ticks == s.procs[p].ticks
  }

  lemma {:induction false} WakeBlockedAccounts(s: Sched, n: nat)
    requires n <= |s.ring|
    ensures SameAccounts(s, WakeBlocked(s, n))
  {
    if n > 0 { WakeBlockedAccounts(s, n - 1); }
  }

  lemma {:induction false} WakeAllAccounts(s: Sched, w: nat)
    ensures SameAccounts(s, WakeAll(s, w))
    decreases |Parked(s, w)|
  {
    if Parked(s, w) != [] {
      assert SameAccounts(s, WakeOne(s, w));
      WakeAllAccounts(WakeOne(s, w), w);
    }
  }

  lemma ScheduleAccounts(s: Sched)
    ensures SameAccounts(s, Schedule(s).0)
  {
    hide Survivors, Level;
    var t := ReapZombies(s);
    WakeBlockedAccounts(t, |t.ring|);
    assert SameAccounts(s, Prepare(s));
  }

  lemma TickAccounts(s: Sched, p: nat, n: nat)
    requires |s.ready| == LEVELS && s.current in s.procs && AccountIs(s, p, n)
    ensures AccountIs(Tick(s).0, p, Charged(s, TimerTick, p, n))
  {
    hide Schedule;
    var x := s.procs[s.current];
    if s.global + 1 >= BOOST {
      ScheduleAccounts(Boosted(s));
    } else if x.state == Running {
      if p == s.current { ChargeAdvances(x, n); }
      ScheduleAccounts(SetProc(s.(global := s.global + 1), s.current, Charge(x)));
    }
  }

  lemma StepAccounts(s: Sched, e: Event, p: nat, n: nat)
    requires SchedOk(s) && Enabled(s, e) && AccountIs(s, p, n)
    ensures AccountIs(Step(s, e).0, p, Charged(s, e, p, n))
  {
    hide SchedOk, Schedule, Tick, WakeAll, FindDead;
    Basics(s, s.current);
    match e
    case TimerTick => TickAccounts(s, p, n);
    case CallSchedule => ScheduleAccounts(s);
    case WakeEveryone(w) => WakeAllAccounts(s, w);
    case _ =>
  }

  ghost function ChargedBy(s: Sched, es: seq<Event>, p: nat, n: nat): nat
    requires Legal(s, es)
    decreases |es|
  {
    if es == [] then n else ChargedBy(Step(s, es[0]).0, es[1..], p, Charged(s, es[0], p, n))
  }

  /** Over every run, level and used time are the closed form of the charged ticks. */
  lemma {:induction false} AccountOfRun(s: Sched, es: seq<Event>, p: nat, n: nat)
    requires SchedOk(s) && Legal(s, es) && AccountIs(s, p, n)
    ensures AccountIs(Exec(s, es).0, p, ChargedBy(s, es, p, n))
    decreases |es|
  {
    hide SchedOk, Step, AccountIs, Charged;
    if es != [] {
      StepOk(s, es[0]);
      StepAccounts(s, es[0], p, n);
      AccountOfRun(Step(s, es[0]).0, es[1..], p, Charged(s, es[0], p, n));
    }
  }
}
