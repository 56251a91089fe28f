/** Whole runs of the scheduler: who is served when, who is lost, and how time is charged. */
module SchedulerRuns {
  import opened Sequences
  import opened Types
  import opened Scheduler
  import opened SchedulerInvariant

  /** Steps: the running process acts, an interrupt wakes a waiter, or the timer ticks. */
  datatype Event =
    | SpawnProcess(p: nat, pid: nat)
    | TimerTick
    | CallSchedule
    | Block
    | WaitOn(w: nat)
    | Wake(w: nat)
    | WakeEveryone(w: nat)
    | Exit(code: int)
    | Reap(only: Option<nat>)

  ghost predicate Enabled(s: Sched, e: Event) {
    match e
    case SpawnProcess(p, _) => Active(s) && p != 0 && p !in s.procs
    case Block => Active(s) && s.current != s.idle
    case WaitOn(_) => Active(s) && s.current != s.idle
    case Exit(_) => Active(s) && s.current != s.idle
    case Reap(_) => Active(s) && s.current != s.idle
    case _ => true
  }

  function Picked(pick: Option<nat>): seq<nat> { if pick.Some? then [pick.value] else [] }

  /** The next state, and the process picked on the way. */
  function Step(s: Sched, e: Event): (Sched, seq<nat>)
    requires |s.ready| == LEVELS && s.current in s.procs
  {
    match e
    case SpawnProcess(p, pid) => (Spawn(s, p, pid, s.current), [])
    case TimerTick => var r := Tick(s); (r.0, Picked(r.1))
    case CallSchedule => var r := Schedule(s); (r.0, Picked(r.1))
    case Block => (Become(s, Blocked, s.procs[s.current].code), [])
    case WaitOn(w) => (Park(s, w), [])
    case Wake(w) => (WakeOne(s, w), [])
    case WakeEveryone(w) => (WakeAll(s, w), [])
    case Exit(code) => (Become(s, Dead, code), [])
    case Reap(only) => (ReapChild(s, only), [])
  }

  lemma StepOk(s: Sched, e: Event)
    requires SchedOk(s) && Enabled(s, e)
    ensures SchedOk(Step(s, e).0)
  {
    hide SchedOk;
    Basics(s, s.current);
    match e
    case SpawnProcess(p, pid) => SpawnOk(s, p, pid, s.current);
    case TimerTick => TickOk(s);
    case CallSchedule => ScheduleOk(s);
    case Block => BecomeOk(s, Blocked, s.procs[s.current].code);
    case WaitOn(w) => ParkOk(s, w);
    case Wake(w) => WakeOneOk(s, w);
    case WakeEveryone(w) => WakeAllOk(s, w);
    case Exit(code) => BecomeOk(s, Dead, code);
    case Reap(only) => ReapChildOk(s, only);
  }

  ghost predicate Legal(s: Sched, es: seq<Event>)
    decreases |es|
  {
    es == [] || (|s.ready| == LEVELS && s.current in s.procs && Enabled(s, es[0]) && Legal(Step(s, es[0]).0, es[1..]))
  }

  /** The state after a run and every process picked during it, in order. */
  ghost function Exec(s: Sched, es: seq<Event>): (Sched, seq<nat>)
    requires Legal(s, es)
    decreases |es|
  {
    if es == [] then (s, [])
    else
      var t := Step(s, es[0]);
      var r := Exec(t.0, es[1..]);
      (r.0, t.1 + r.1)
  }

  lemma {:induction false} EveryRunOk(s: Sched, es: seq<Event>)
    requires SchedOk(s) && Legal(s, es)
    ensures SchedOk(Exec(s, es).0)
    decreases |es|
  {
    hide SchedOk, Step;
    if es != [] {
      StepOk(s, es[0]);
      EveryRunOk(Step(s, es[0]).0, es[1..]);
    }
  }

  // ----- Queue 0 is served in order

  /** The front of queue q is served first, and what is not served yet moved up. */
  ghost predicate Served(q: seq<nat>, picks: seq<nat>, r: seq<nat>) {
    forall j: nat {:trigger q[j]} | j < |q| ::
      if j < |picks| then picks[j] == q[j] else j - |picks| < |r| && r[j - |picks|] == q[j]
  }

  lemma ServedTrans(q: seq<nat>, a: seq<nat>, r: seq<nat>, b: seq<nat>, t: seq<nat>)
    requires Served(q, a, r) && Served(r, b, t)
    ensures Served(q, a + b, t)
  {
    forall j: nat | j < |q| ensures if j < |a + b| then (a + b)[j] == q[j] else j - |a + b| < |t| && t[j - |a + b|] == q[j] {
      if j >= |a| { assert r[j - |a|] == q[j]; }
    }
  }

  /** Level by level, queues only grow at the back. */
  ghost predicate Extends(s: Sched, t: Sched) {
    |s.ready| == |t.ready| == LEVELS && forall i: nat {:trigger t.ready[i]} | i < LEVELS :: s.ready[i] <= t.ready[i]
  }

  lemma EnqueueExtends(s: Sched, p: nat)
    requires |s.ready| == LEVELS
    ensures Extends(s, Enqueue(s, p))
  {
  }

  lemma {:induction false} WakeBlockedExtends(s: Sched, n: nat)
    requires |s.ready| == LEVELS && n <= |s.ring|
    ensures Extends(s, WakeBlocked(s, n))
  {
    if n > 0 {
      WakeBlockedExtends(s, n - 1);
      var t := WakeBlocked(s, n - 1);
      EnqueueExtends(t, s.ring[n - 1]);
    }
  }

  lemma PrepareExtends(s: Sched)
    requires |s.ready| == LEVELS
    ensures Extends(s, Prepare(s))
  {
    var t := ReapZombies(s);
    WakeBlockedExtends(t, |t.ring|);
    var u := WakeBlocked(t, |t.ring|);
    EnqueueExtends(u, u.current);
  }

  lemma {:induction false} WakeAllExtends(s: Sched, w: nat)
    requires |s.ready| == LEVELS
    ensures Extends(s, WakeAll(s, w))
    decreases |Parked(s, w)|
  {
    if Parked(s, w) != [] {
      var q := Parked(s, w);
      EnqueueExtends(s.(waits := s.waits[w := q[1..]]), q[0]);
      WakeAllExtends(WakeOne(s, w), w);
    }
  }

  lemma ScheduleServes(s: Sched)
    requires |s.ready| == LEVELS
    ensures var r := Schedule(s); |r.0.ready| == LEVELS && Served(s.ready[0], Picked(r.1), r.0.ready[0])
    ensures forall p | Queued(s, p) :: p in Picked(Schedule(s).1) || Queued(Schedule(s).0, p)
  {
    hide Prepare;
    PrepareExtends(s);
    var p := Prepare(s);
    var i := Level(p.ready, 0);
    assert s.ready[0] <= p.ready[0] && s.ready[1] <= p.ready[1] && s.ready[2] <= p.ready[2] && s.ready[3] <= p.ready[3];
    if i < LEVELS { assert p.ready[i] == [p.ready[i][0]] + p.ready[i][1..]; }
  }

  lemma TickServes(s: Sched)
    requires |s.ready| == LEVELS && s.current in s.procs
    ensures var r := Tick(s); |r.0.ready| == LEVELS && Served(s.ready[0], Picked(r.1), r.0.ready[0])
    ensures forall p | Queued(s, p) :: p in Picked(Tick(s).1) || Queued(Tick(s).0, p)
    ensures s.global + 1 >= BOOST ==> forall p | Queued(s, p) :: p in Picked(Tick(s).1) || p in Tick(s).0.ready[0]
  {
    hide Schedule;
    if s.global + 1 >= BOOST {
      var b := Boosted(s);
      assert b.ready[0] == s.ready[0] + (s.ready[1] + s.ready[2] + s.ready[3]);
      ScheduleServes(b);
      assert Served(s.ready[0], [], b.ready[0]);
      ServedTrans(s.ready[0], [], b.ready[0], Picked(Tick(s).1), Tick(s).0.ready[0]);
      assert [] + Picked(Tick(s).1) == Picked(Tick(s).1);
      forall p | Queued(s, p) ensures p in Picked(Tick(s).1) || p in Tick(s).0.ready[0] { ServedMember(b.ready[0], Picked(Tick(s).1), Tick(s).0.ready[0], p); }
    } else if s.procs[s.current].state == Running {
      ScheduleServes(SetProc(s.(global := s.global + 1), s.current, Charge(s.procs[s.current])));
    }
  }

  lemma ServedMember(q: seq<nat>, picks: seq<nat>, r: seq<nat>, p: nat)
    requires Served(q, picks, r) && p in q
    ensures p in picks || p in r
    ensures |picks| >= |q| ==> p in picks
  {
    var j: nat :| j < |q| && q[j] == p;
    if j < |picks| { assert picks[j] == p; } else { assert r[j - |picks|] == p; }
  }

  lemma StepServes(s: Sched, e: Event)
    requires SchedOk(s) && Enabled(s, e)
    ensures var r := Step(s, e); |r.0.ready| == LEVELS && Served(s.ready[0], r.1, r.0.ready[0])
    ensures forall p | Queued(s, p) :: p in Step(s, e).1 || Queued(Step(s, e).0, p)
  {
    hide Schedule, Tick, SchedOk, ReapChild, WakeAll;
    Basics(s, s.current);
    var t := Step(s, e).0;
    match e
    case SpawnProcess(p, pid) => EnqueueExtends(s.(procs := s.procs[p := Proc(Ready, 0, 0, s.current, pid, 0)], ring := s.ring + [p]), p);
    case TimerTick => TickServes(s);
    case CallSchedule => ScheduleServes(s);
    case Wake(w) =>
      if Parked(s, w) != [] { EnqueueExtends(s.(waits := s.waits[w := Parked(s, w)[1..]]), Parked(s, w)[0]); }
    case WakeEveryone(w) => WakeAllExtends(s, w);
    case Reap(only) => ReapReady(s, only);
    case _ =>
    assert e !in {TimerTick, CallSchedule} ==> Extends(s, t);
    assert e !in {TimerTick, CallSchedule} ==> s.ready[0] <= t.ready[0] && s.ready[1] <= t.ready[1] && s.ready[2] <= t.ready[2] && s.ready[3] <= t.ready[3];
  }

  lemma ReapReady(s: Sched, only: Option<nat>)
    ensures ReapChild(s, only).ready == s.ready
  {
  }

  /** The process at index k of queue 0 is the (k+1)-th one picked from now on. */
  lemma {:induction false} ServedInOrder(s: Sched, es: seq<Event>)
    requires SchedOk(s) && Legal(s, es)
    ensures var r := Exec(s, es); |r.0.ready| == LEVELS && Served(s.ready[0], r.1, r.0.ready[0])
    decreases |es|
  {
    hide SchedOk, Step;
    if es == [] { Basics(s, s.current); } else {
      var t := Step(s, es[0]);
      StepOk(s, es[0]);
      StepServes(s, es[0]);
      ServedInOrder(t.0, es[1..]);
      var r := Exec(t.0, es[1..]);
      ServedTrans(s.ready[0], t.1, t.0.ready[0], r.1, r.0.ready[0]);
    }
  }

  function Ticks(es: seq<Event>): nat {
    if es == [] then 0 else (if es[0] == TimerTick then 1 else 0) + Ticks(es[1..])
  }

  lemma StepGlobal(s: Sched, e: Event)
    requires SchedOk(s) && Enabled(s, e)
    ensures Step(s, e).0.global == if e != TimerTick then s.global else if s.global + 1 >= BOOST then 0 else s.global + 1
  {
    hide SchedOk, Schedule, BoostAll, WakeAll, Enqueue, FindDead;
    Basics(s, s.current);
    if e == CallSchedule { ScheduleGlobal(s); }
    if e == TimerTick {
      ScheduleGlobal(Boosted(s));
      ScheduleGlobal(SetProc(s.(global := s.global + 1), s.current, Charge(s.procs[s.current])));
    }
    if e.WakeEveryone? { WakeAllGlobal(s, e.w); }
    EnqueueGlobal(s);
  }

  lemma EnqueueGlobal(s: Sched)
    ensures forall t: Sched, p {:trigger Enqueue(t, p)} :: Enqueue(t, p).global == t.global
    ensures |s.ready| == LEVELS ==> BoostAll(s.(global := 0)).global == 0
  {
  }

  lemma ScheduleGlobal(s: Sched)
    ensures Schedule(s).0.global == s.global
  {
    var t := ReapZombies(s);
    WakeBlockedGlobal(t, |t.ring|);
  }

  lemma {:induction false} WakeBlockedGlobal(s: Sched, n: nat)
    requires n <= |s.ring|
    ensures WakeBlocked(s, n).global == s.global
  {
    if n > 0 { WakeBlockedGlobal(s, n - 1); }
  }

  lemma {:induction false} WakeAllGlobal(s: Sched, w: nat)
    ensures WakeAll(s, w).global == s.global
    decreases |Parked(s, w)|
  {
    if Parked(s, w) != [] { WakeAllGlobal(WakeOne(s, w), w); }
  }

  /** Once the tick counter has gone round, a queued process is in queue 0 or was picked. */
  lemma {:induction false} BoostReachesAll(s: Sched, es: seq<Event>, p: nat)
    requires SchedOk(s) && Legal(s, es) && Queued(s, p) && s.global + Ticks(es) >= BOOST
    ensures var r := Exec(s, es); p in r.1 || (|r.0.ready| == LEVELS && p in r.0.ready[0])
    decreases |es|
  {
    hide SchedOk, Step;
    assert s.global < BOOST by { GlobalBelow(s); }
    var t := Step(s, es[0]);
    StepOk(s, es[0]);
    StepServes(s, es[0]);
    StepGlobal(s, es[0]);
    if p in t.1 {
    } else if es[0] == TimerTick && s.global + 1 >= BOOST {
      BoostStep(s, p);
      ServedInOrder(t.0, es[1..]);
      var r := Exec(t.0, es[1..]);
      ServedMember(t.0.ready[0], r.1, r.0.ready[0], p);
    } else {
      BoostReachesAll(t.0, es[1..], p);
    }
  }

  lemma GlobalBelow(s: Sched)
    requires SchedOk(s)
    ensures s.global < BOOST
  {
  }

  lemma BoostStep(s: Sched, p: nat)
    requires SchedOk(s) && Queued(s, p) && s.global + 1 >= BOOST
    ensures var r := Step(s, TimerTick); p in r.1 || (|r.0.ready| == LEVELS && p in r.0.ready[0])
  {
    hide SchedOk, Tick;
    Basics(s, s.current);
    TickServes(s);
  }

  /** As many picks as there are processes serve everyone who was in queue 0. */
  lemma PicksServe(t: Sched, b: seq<Event>, p: nat)
    requires SchedOk(t) && Legal(t, b) && p in t.ready[0] && |Exec(t, b).1| >= |t.ring|
    ensures p in Exec(t, b).1
  {
    hide Exec;
    assert ReadyOk(t, 0);
    NoDupWithin(t.ready[0], t.ring);
    ServedInOrder(t, b);
    ServedMember(t.ready[0], Exec(t, b).1, Exec(t, b).0.ready[0], p);
  }

  /** The boost tick picks somebody when anybody is queued. */
  lemma BoostPicks(s: Sched, p: nat)
    requires SchedOk(s) && Queued(s, p) && s.global + 1 >= BOOST
    ensures |Step(s, TimerTick).1| == 1
  {
    hide SchedOk, Prepare;
    Basics(s, s.current);
    var b := Boosted(s);
    assert b.ready[0] == s.ready[0] + (s.ready[1] + s.ready[2] + s.ready[3]);
    PrepareExtends(b);
    assert b.ready[0] <= Prepare(b).ready[0];
  }

  /** While a process waits on a queue, every boost interval sees a pick. */
  lemma {:induction false} PicksPerBoost(s: Sched, es: seq<Event>, p: nat)
    requires SchedOk(s) && Legal(s, es) && Queued(s, p)
    ensures var r := Exec(s, es); p in r.1 || (r.0.global < BOOST && BOOST * |r.1| + r.0.global >= s.global + Ticks(es))
    decreases |es|
  {
    hide SchedOk, Step;
    GlobalBelow(s);
    if es != [] {
      var t := Step(s, es[0]);
      StepOk(s, es[0]);
      StepServes(s, es[0]);
      StepGlobal(s, es[0]);
      if p !in t.1 {
        if es[0] == TimerTick && s.global + 1 >= BOOST { BoostPicks(s, p); }
        PicksPerBoost(t.0, es[1..], p);
      }
    }
  }

  /** No queued process starves: within one boost interval it reaches queue 0, and within
      one more for each process there is then, it is picked. */
  lemma NoStarvation(s: Sched, a: seq<Event>, b: seq<Event>, p: nat)
    requires SchedOk(s) && Legal(s, a) && Legal(Exec(s, a).0, b) && Queued(s, p)
    requires s.global + Ticks(a) >= BOOST && Exec(s, a).0.global + Ticks(b) >= BOOST * |Exec(s, a).0.ring|
    ensures p in Exec(s, a).1 || p in Exec(Exec(s, a).0, b).1
  {
    hide Exec, SchedOk;
    var t := Exec(s, a).0;
    BoostReachesAll(s, a, p);
    EveryRunOk(s, a);
    if p !in Exec(s, a).1 {
      PicksPerBoost(t, b, p);
      if p !in Exec(t, b).1 { PicksServe(t, b, p); }
    }
  }

  // ----- Blocked processes get their turn

  /** After the sweep only its caller can be blocked. */
  lemma {:induction false} WakeBlockedWakes(s: Sched, n: nat, i: nat)
    requires SchedOk(s) && i < n <= |s.ring| && s.ring[i] != s.current
    ensures var t := WakeBlocked(s, n); s.ring[i] in t.procs && t.procs[s.ring[i]].state != Blocked
  {
    hide SchedOk;
    WakeBlockedOk(s, n - 1);
    Basics(s, s.ring[i]);
    Basics(WakeBlocked(s, n - 1), s.ring[n - 1]);
    if i < n - 1 { WakeBlockedWakes(s, n - 1, i); }
  }

  lemma QueuedStays(t: Sched, u: Sched, q: nat)
    requires Extends(t, u) && Queued(t, q)
    ensures Queued(u, q)
  {
    assert t.ready[0] <= u.ready[0] && t.ready[1] <= u.ready[1] && t.ready[2] <= u.ready[2] && t.ready[3] <= u.ready[3];
  }

  /** A blocked process that the sweep has changed is queued. */
  lemma {:induction false} SettledIsQueued(s: Sched, n: nat, p: nat)
    requires SchedOk(s) && n <= |s.ring| && p in s.procs && s.procs[p].state == Blocked
    ensures var t := WakeBlocked(s, n); |t.ready| == LEVELS && (p in t.procs && t.procs[p].state != Blocked ==> Queued(t, p))
  {
    hide SchedOk;
    WakeBlockedOk(s, n);
    Basics(WakeBlocked(s, n), p);
    if n > 0 {
      SettledIsQueued(s, n - 1, p);
      WakeBlockedOk(s, n - 1);
      var t, q := WakeBlocked(s, n - 1), s.ring[n - 1];
      Basics(t, q);
      if q != s.current && q in t.procs && t.procs[q].state == Blocked {
        EnqueueExtends(t, q);
        if Queued(t, p) { QueuedStays(t, Enqueue(t, q), p); }
        assert Enqueue(t, q).ready[t.procs[q].priority] == t.ready[t.procs[q].priority] + [q];
      }
    }
  }

  /** Whoever calls schedule, every other blocked process is picked or queued by it. */
  lemma ScheduleWakesBlocked(s: Sched, p: nat)
    requires SchedOk(s) && p in s.procs && s.procs[p].state == Blocked && p != s.current
    ensures var r := Schedule(s); |r.0.ready| == LEVELS && (p in Picked(r.1) || Queued(r.0, p))
  {
    hide SchedOk, Survivors;
    ReapZombiesOk(s);
    var t := ReapZombies(s);
    Basics(t, p);
    var i: nat :| i < |t.ring| && t.ring[i] == p;
    WakeBlockedWakes(t, |t.ring|, i);
    SettledIsQueued(t, |t.ring|, p);
    var u := WakeBlocked(t, |t.ring|);
    assert Queued(u, p);
    EnqueueExtends(u, u.current);
    QueuedStays(u, Enqueue(u, u.current), p);
    assert Queued(Prepare(s), p);
    PickKeeps(Prepare(s), p);
  }

  lemma PickKeeps(s: Sched, p: nat)
    requires |s.ready| == LEVELS && Queued(s, p)
    ensures var r := Pick(s); |r.0.ready| == LEVELS && (p in Picked(r.1) || Queued(r.0, p))
  {
    var i := Level(s.ready, 0);
    if i < LEVELS { assert s.ready[i] == [s.ready[i][0]] + s.ready[i][1..]; }
  }

  // ----- A zombie waits for its parent

  ghost predicate SameRecord(x: Proc, y: Proc) { y.state == Dead && y.pid == x.pid && y.code == x.code && y.parent == x.parent }

  /** Nobody new appears, and what is dead in s is still there in t with its record, or had
      no parent. */
  ghost predicate DeadKept(s: Sched, t: Sched) {
    t.procs.Keys <= s.procs.Keys && forall p | p in s.procs && s.procs[p].state == Dead ::
      if p in t.procs then SameRecord(s.procs[p], t.procs[p]) else s.procs[p].parent == 0
  }

  lemma {:induction false} WakeBlockedKeepsDead(s: Sched, n: nat)
    requires n <= |s.ring|
    ensures DeadKept(s, WakeBlocked(s, n))
  {
    if n > 0 { WakeBlockedKeepsDead(s, n - 1); }
  }

  lemma {:induction false} WakeAllKeepsDead(s: Sched, w: nat)
    ensures DeadKept(s, WakeAll(s, w))
    decreases |Parked(s, w)|
  {
    if Parked(s, w) != [] {
      assert DeadKept(s, WakeOne(s, w));
      WakeAllKeepsDead(WakeOne(s, w), w);
    }
  }

  lemma ScheduleKeepsDead(s: Sched)
    requires SchedOk(s)
    ensures DeadKept(s, Schedule(s).0)
  {
    hide SchedOk, Survivors, Level, Pick;
    ReapZombiesOk(s);
    var t := ReapZombies(s);
    WakeBlockedKeepsDead(t, |t.ring|);
    WakeBlockedOk(t, |t.ring|);
    PrepareOk(s);
    assert DeadKept(s, Prepare(s));
    PickOk(Prepare(s));
    PickFields(Prepare(s));
    Basics(Prepare(s), s.idle);
  }

  lemma TickKeepsDead(s: Sched)
    requires SchedOk(s)
    ensures s.current in s.procs && |s.ready| == LEVELS && DeadKept(s, Tick(s).0)
  {
    hide SchedOk, Schedule;
    Basics(s, s.current);
    if s.global + 1 >= BOOST {
      BoostedOk(s);
      ScheduleKeepsDead(Boosted(s));
      forall p | p in s.procs && s.procs[p].state == Dead ensures !Queued(s, p) { OnlyReadyQueued(s, p); }
      assert DeadKept(s, Boosted(s));
    } else if s.procs[s.current].state == Running {
      GlobalOk(s, s.global + 1);
      var g := s.(global := s.global + 1);
      OnlyReadyQueued(g, s.current);
      AccountOk(g, s.current, Charge(s.procs[s.current]));
      ScheduleKeepsDead(SetProc(g, s.current, Charge(s.procs[s.current])));
    }
  }

  /** Does this step reap p on behalf of its parent? */
  ghost predicate Collects(s: Sched, e: Event, p: nat) { e.Reap? && FindDead(s, s.ring, s.current, e.only) == Some(p) }

  /** A dead process keeps its pid and status through every step but its own reaping;
      with a parent, only that parent's wait removes it. */
  lemma StepKeepsDead(s: Sched, e: Event, p: nat)
    requires SchedOk(s) && Enabled(s, e) && p in s.procs && s.procs[p].state == Dead && s.procs[p].parent != 0
    ensures var t := Step(s, e).0;
      if Collects(s, e, p) then p !in t.procs && s.procs[p].parent == s.current else p in t.procs && SameRecord(s.procs[p], t.procs[p])
  {
    hide SchedOk, Schedule, Tick, WakeAll, FindDead;
    Basics(s, s.current);
    match e
    case TimerTick => TickKeepsDead(s);
    case CallSchedule => ScheduleKeepsDead(s);
    case WakeEveryone(w) => WakeAllKeepsDead(s, w);
    case _ =>
  }

  ghost predicate Collected(s: Sched, es: seq<Event>, p: nat)
    requires Legal(s, es)
    decreases |es|
  {
    es != [] && (Collects(s, es[0], p) || Collected(Step(s, es[0]).0, es[1..], p))
  }

  /** Over every run a zombie waits, pid and exit status unchanged, until its parent
      collects it. */
  lemma {:induction false} ZombieWaits(s: Sched, es: seq<Event>, p: nat)
    requires SchedOk(s) && Legal(s, es) && p in s.procs && s.procs[p].state == Dead && s.procs[p].parent != 0 && !Collected(s, es, p)
    ensures var t := Exec(s, es).0; p in t.procs && SameRecord(s.procs[p], t.procs[p])
    decreases |es|
  {
    hide SchedOk, Step, Collects;
    if es != [] {
      StepOk(s, es[0]);
      StepKeepsDead(s, es[0], p);
      ZombieWaits(Step(s, es[0]).0, es[1..], p);
    }
  }

  /** The process at this address has exited, or is not there. */
  ghost predicate Ended(s: Sched, x: nat) { x !in s.procs || s.procs[x].state == Dead }

  lemma StepKeepsEnded(s: Sched, e: Event, x: nat)
    requires SchedOk(s) && Enabled(s, e) && Ended(s, x) && (e.SpawnProcess? ==> e.p != x)
    ensures Ended(Step(s, e).0, x)
  {
    hide SchedOk, Schedule, Tick, WakeAll, FindDead;
    Basics(s, s.current);
    match e
    case TimerTick => TickKeepsDead(s);
    case CallSchedule => ScheduleKeepsDead(s);
    case WakeEveryone(w) => WakeAllKeepsDead(s, w);
    case _ =>
  }

  ghost predicate NeverSpawned(es: seq<Event>, x: nat) { forall e | e in es :: e.SpawnProcess? ==> e.p != x }

  /** A zombie whose parent ended first is never removed: its parent pointer still stands,
      so no sweep takes it, and nobody can wait for it. */
  lemma {:induction false} OrphanStays(s: Sched, es: seq<Event>, p: nat)
    requires SchedOk(s) && Legal(s, es) && p in s.procs && s.procs[p].state == Dead && s.procs[p].parent != 0
    requires Ended(s, s.procs[p].parent) && NeverSpawned(es, s.procs[p].parent)
    ensures var t := Exec(s, es).0; p in t.procs && SameRecord(s.procs[p], t.procs[p])
    decreases |es|
  {
    hide SchedOk, Step, Collects, Ended;
    if es != [] {
      assert es[0] in es && NeverSpawned(es[1..], s.procs[p].parent);
      StepOk(s, es[0]);
      NobodyCollects(s, es[0], p);
      StepKeepsDead(s, es[0], p);
      StepKeepsEnded(s, es[0], s.procs[p].parent);
      OrphanStays(Step(s, es[0]).0, es[1..], p);
    }
  }

  lemma NobodyCollects(s: Sched, e: Event, p: nat)
    requires Enabled(s, e) && p in s.procs && Ended(s, s.procs[p].parent)
    ensures !Collects(s, e, p)
  {
    hide FindDead;
  }
}
