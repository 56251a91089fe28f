/** Whose turn it is: exactly what each scheduler step does to queues, processes and the
    CPU, said from the state before the step. */
module SchedulerTurns {
  import opened Sequences
  import opened Types
  import opened Scheduler
  import opened SchedulerInvariant
  import opened SchedulerRuns

  // ----- schedule

  /** A blocked process of level i that the caller of schedule will wake. */
  predicate Sleeps(s: Sched, p: nat, i: nat) {
    p in s.procs && p != s.current && s.procs[p].state == Blocked && s.procs[p].priority == i
  }

  function Sleepers(s: Sched, q: seq<nat>, i: nat): seq<nat> {
    if q == [] then [] else Sleepers(s, q[..|q| - 1], i) + if Sleeps(s, q[|q| - 1], i) then [q[|q| - 1]] else []
  }

  /** Who waits at level i when schedule picks: the queue, then the woken in ring order, then
      the caller if it could go on running. */
  ghost function Line(s: Sched, i: nat): seq<nat>
    requires i < |s.ready|
  {
    s.ready[i] + Sleepers(s, s.ring, i) + Caller(s, i)
  }

  ghost function Caller(s: Sched, i: nat): seq<nat> {
    if s.current in s.procs && s.procs[s.current].state == Running && s.current != s.idle && s.procs[s.current].priority == i then [s.current] else []
  }

  lemma {:induction false} SleepersIgnore(s: Sched, t: Sched, q: seq<nat>, i: nat)
    requires forall p | p in q :: Sleeps(s, p, i) <==> Sleeps(t, p, i)
    ensures Sleepers(s, q, i) == Sleepers(t, q, i)
  {
    if q != [] { SleepersIgnore(s, t, q[..|q| - 1], i); }
  }

  /** Reaping takes no sleeper. */
  lemma {:induction false} SleepersSurvive(s: Sched, q: seq<nat>, i: nat)
    ensures Sleepers(s, Survivors(s, q), i) == Sleepers(s, q, i)
  {
    if q != [] {
      var init, p := q[..|q| - 1], q[|q| - 1];
      SleepersSurvive(s, init, i);
      if !Orphan(s, p) {
        var kept := Survivors(s, init) + [p];
        assert kept[..|kept| - 1] == Survivors(s, init) && Survivors(s, q) == kept;
      } else {
        assert Survivors(s, init) + [] == Survivors(s, init);
      }
    }
  }

  /** What the sweep has done once it has passed the ring nodes q. */
  ghost predicate Swept(s: Sched, q: seq<nat>, t: Sched) {
    && |s.ready| == |t.ready| == LEVELS && t.procs.Keys == s.procs.Keys
    && t == s.(ready := t.ready, procs := t.procs)
    && (forall i: nat | i < LEVELS :: t.ready[i] == s.ready[i] + Sleepers(s, q, i))
    && (forall p {:trigger t.procs[p]} | p in s.procs ::
        t.procs[p] == if p in q && p != s.current && s.procs[p].state == Blocked then s.procs[p].(state := Ready) else s.procs[p])
  }

  lemma RingOf(s: Sched)
    requires SchedOk(s)
    ensures NoDup(s.ring) && forall p :: p in s.ring <==> p in s.procs
    ensures forall p | p in s.procs :: s.procs[p].priority < LEVELS
  {
    forall p | p in s.procs ensures s.procs[p].priority < LEVELS { assert ProcOk(s, p); }
  }

  lemma SleepersNext(s: Sched, q: seq<nat>, p: nat, i: nat)
    ensures Sleepers(s, q + [p], i) == Sleepers(s, q, i) + if Sleeps(s, p, i) then [p] else []
  {
    assert (q + [p])[..|q|] == q;
  }

  lemma SweepOne(s: Sched, q: seq<nat>, p: nat, t: Sched)
    requires Swept(s, q, t) && p !in q && p in s.procs && s.procs[p].priority < LEVELS
    ensures Swept(s, q + [p], if p != s.current && p in t.procs && t.procs[p].state == Blocked then Enqueue(t, p) else t)
  {
    hide Sleepers;
    assert t.procs[p] == s.procs[p];
    forall i: nat ensures Sleepers(s, q + [p], i) == Sleepers(s, q, i) + if Sleeps(s, p, i) then [p] else [] { SleepersNext(s, q, p, i); }
    var u := if p != s.current && p in t.procs && t.procs[p].state == Blocked then Enqueue(t, p) else t;
    forall i: nat | i < LEVELS ensures u.ready[i] == s.ready[i] + Sleepers(s, q + [p], i) {
      assert t.ready[i] + [] == t.ready[i];
    }
  }

  lemma {:induction false} SweepIs(s: Sched, n: nat)
    requires SchedOk(s) && n <= |s.ring|
    ensures Swept(s, s.ring[..n], WakeBlocked(s, n))
  {
    hide SchedOk, Sleepers, Swept, Enqueue;
    RingOf(s);
    if n == 0 {
      Basics(s, s.current);
      assert s.ring[..0] == [];
      SweptNone(s);
    } else {
      SweepIs(s, n - 1);
      assert s.ring[..n] == s.ring[..n - 1] + [s.ring[n - 1]];
      assert s.ring[n - 1] in s.ring && s.ring[n - 1] !in s.ring[..n - 1];
      SweepOne(s, s.ring[..n - 1], s.ring[n - 1], WakeBlocked(s, n - 1));
    }
  }

  lemma SweptNone(s: Sched)
    requires |s.ready| == LEVELS
    ensures Swept(s, [], s)
  {
    forall i: nat | i < LEVELS ensures s.ready[i] + [] == s.ready[i] {}
  }

  /** Who schedule makes ready: the blocked, and its caller if it could go on running. */
  predicate Requeues(s: Sched, p: nat)
    requires p in s.procs
  {
    if p == s.current then s.procs[p].state == Running && p != s.idle else s.procs[p].state == Blocked
  }

  /** What schedule does before it picks. */
  lemma PrepareIs(s: Sched)
    requires SchedOk(s)
    ensures var t := Prepare(s);
      && |s.ready| == |t.ready| == LEVELS && t == s.(ready := t.ready, procs := t.procs, ring := Survivors(s, s.ring))
      && (forall i: nat | i < LEVELS :: t.ready[i] == Line(s, i))
      && (forall p :: p in t.procs <==> p in s.procs && !Orphan(s, p))
      && (forall p {:trigger t.procs[p]} | p in t.procs :: t.procs[p] == s.procs[p].(state :=
            if Requeues(s, p) then Ready else s.procs[p].state))
  {
    hide SchedOk, Sleepers, Survivors;
    Basics(s, s.current);
    ReapZombiesOk(s);
    var t := ReapZombies(s);
    SweepIs(t, |t.ring|);
    RingOf(t);
    assert t.ring[..|t.ring|] == t.ring;
    forall i: nat | i < LEVELS ensures Sleepers(t, t.ring, i) == Sleepers(s, s.ring, i) {
      SleepersIgnore(t, s, t.ring, i);
      SleepersSurvive(s, s.ring, i);
    }
    var u := WakeBlocked(t, |t.ring|);
    var v := Prepare(s);
    forall i: nat | i < LEVELS ensures v.ready[i] == Line(s, i) {
      assert u.ready[i] + [] == u.ready[i];
    }
  }

  /** The first level with somebody in line is i. */
  ghost predicate Front(s: Sched, i: nat) {
    |s.ready| == LEVELS && i < LEVELS && Line(s, i) != [] && forall j: nat | j < i :: Line(s, j) == []
  }

  ghost predicate NobodyInLine(s: Sched) { |s.ready| == LEVELS && forall i: nat | i < LEVELS :: Line(s, i) == [] }

  ghost predicate Precedes(q: seq<nat>, a: nat, b: nat) { exists i, j :: 0 <= i < j < |q| && q[i] == a && q[j] == b }

  /** From s the CPU goes to the first in line at the first level that has anybody, to idle if
      there is nobody; exactly the dead parentless processes but the caller disappear. */
  ghost predicate Handover(s: Sched, t: Sched, picks: seq<nat>) {
    && |s.ready| == |t.ready| == LEVELS && t.waits == s.waits && t.idle == s.idle && t.global == s.global
    && (NobodyInLine(s) ==> picks == [] && t.current == s.idle && forall i: nat | i < LEVELS :: t.ready[i] == [])
    && (!NobodyInLine(s) ==> exists i: nat :: Front(s, i))
    && (forall i: nat {:trigger Front(s, i)} | Front(s, i) ::
        && picks == [Line(s, i)[0]] && t.current == Line(s, i)[0] && t.ready[i] == Line(s, i)[1..]
        && forall j: nat | j < LEVELS && j != i :: t.ready[j] == Line(s, j))
    && (forall p :: p in t.procs <==> p in s.procs && !(s.procs[p].state == Dead && p != s.current && s.procs[p].parent == 0))
    && (forall p | p in t.procs :: t.procs[p] == s.procs[p].(state :=
          if p == t.current && p != s.current then Running else if Requeues(s, p) then Ready else s.procs[p].state))
    && (forall a, b :: Precedes(t.ring, a, b) <==> Precedes(s.ring, a, b) && a in t.procs && b in t.procs)
  }

  lemma PrecedesNext(q: seq<nat>, p: nat, a: nat, b: nat)
    ensures Precedes(q + [p], a, b) <==> Precedes(q, a, b) || (a in q && b == p)
  {
    var r := q + [p];
    if Precedes(q, a, b) {
      var i, j :| 0 <= i < j < |q| && q[i] == a && q[j] == b;
      assert r[i] == a && r[j] == b;
    }
    if a in q && b == p {
      var i :| 0 <= i < |q| && q[i] == a;
      assert r[i] == a && r[|q|] == b;
    }
  }

  lemma {:induction false} SurvivorsOrder(s: Sched, q: seq<nat>, a: nat, b: nat)
    requires NoDup(q)
    ensures Precedes(Survivors(s, q), a, b) <==> Precedes(q, a, b) && !Orphan(s, a) && !Orphan(s, b)
  {
    if q != [] {
      var init, p := q[..|q| - 1], q[|q| - 1];
      assert q == init + [p];
      SurvivorsOrder(s, init, a, b);
      SurvivorsAre(s, init);
      PrecedesNext(init, p, a, b);
      PrecedesNext(Survivors(s, init), p, a, b);
      assert Survivors(s, init) + [] == Survivors(s, init);
      if Orphan(s, p) && Precedes(init, a, b) {
        var i, j :| 0 <= i < j < |init| && init[i] == a && init[j] == b;
      }
    }
  }

  lemma FrontExists(s: Sched)
    requires |s.ready| == LEVELS
    ensures NobodyInLine(s) || exists i: nat :: Front(s, i)
    ensures forall i: nat | Front(s, i) :: !NobodyInLine(s)
  {
    hide Line;
    if !NobodyInLine(s) {
      if Line(s, 0) != [] { assert Front(s, 0); }
      else if Line(s, 1) != [] { assert Front(s, 1); }
      else if Line(s, 2) != [] { assert Front(s, 2); }
      else { assert Front(s, 3); }
    }
  }

  lemma ScheduleExact(s: Sched)
    requires SchedOk(s)
    ensures Handover(s, Schedule(s).0, Picked(Schedule(s).1))
  {
    hide Schedule, Sleepers, Survivors, SchedOk, Line, Precedes, Requeues;
    Basics(s, s.current);
    FrontExists(s);
    PassesCpu(s);
    ChangesProcs(s);
    KeepsRing(s);
  }

  lemma PassesCpu(s: Sched)
    requires SchedOk(s)
    ensures var (t, pick) := Schedule(s);
      && |s.ready| == |t.ready| == LEVELS && t.waits == s.waits && t.idle == s.idle && t.global == s.global
      && (NobodyInLine(s) ==> pick == None && t.current == s.idle && forall i: nat | i < LEVELS :: t.ready[i] == [])
      && (forall i: nat {:trigger Front(s, i)} | Front(s, i) ::
          && pick == Some(Line(s, i)[0]) && t.current == Line(s, i)[0] && t.ready[i] == Line(s, i)[1..]
          && forall j: nat | j < LEVELS && j != i :: t.ready[j] == Line(s, j))
  {
    hide Prepare, Sleepers, Survivors, SchedOk, Line, Precedes, Requeues;
    PrepareIs(s);
    var m := Prepare(s);
    PrepareOk(s);
    Basics(m, m.current);
    PickOk(m);
    var i := Level(m.ready, 0);
    if i < LEVELS { assert Front(s, i); } else { assert NobodyInLine(s); }
  }

  lemma ChangesProcs(s: Sched)
    requires SchedOk(s)
    ensures var t := Schedule(s).0;
      && (forall p :: p in t.procs <==> p in s.procs && !Orphan(s, p))
      && (forall p | p in t.procs :: t.procs[p] == s.procs[p].(state :=
            if p == t.current && p != s.current then Running else if Requeues(s, p) then Ready else s.procs[p].state))
  {
    hide Prepare, Sleepers, Survivors, SchedOk, Line, Level;
    PrepareIs(s);
    var m := Prepare(s);
    PrepareOk(s);
    Basics(m, m.current);
    PickOk(m);
  }

  lemma KeepsRing(s: Sched)
    requires SchedOk(s)
    ensures var t := Schedule(s).0;
      forall a, b :: Precedes(t.ring, a, b) <==> Precedes(s.ring, a, b) && a in t.procs && b in t.procs
  {
    hide Prepare, Sleepers, Survivors, SchedOk, Line, Precedes, Level;
    ChangesProcs(s);
    PrepareIs(s);
    RingOf(s);
    var t := Schedule(s).0;
    assert t.ring == Survivors(s, s.ring);
    forall a, b ensures Precedes(t.ring, a, b) <==> Precedes(s.ring, a, b) && a in t.procs && b in t.procs {
      SurvivorsOrder(s, s.ring, a, b);
      if Precedes(s.ring, a, b) { PrecedesIn(s.ring, a, b); }
    }
  }

  lemma PrecedesIn(q: seq<nat>, a: nat, b: nat)
    requires Precedes(q, a, b)
    ensures a in q && b in q
  {
  }

  // ----- The tick

  /** A tick that neither boosts nor ends a slice charges the running process, and nothing else. */
  lemma SliceGoesOn(s: Sched)
    requires SchedOk(s) && s.global + 1 < 100
    requires s.procs[s.current].state != Running || s.procs[s.current].ticks + 1 < 2 + 2 * s.procs[s.current].priority
    ensures var x := s.procs[s.current]; var (t, picks) := Step(s, TimerTick);
      && picks == [] && t.global == s.global + 1 && t == s.(global := t.global, procs := t.procs)
      && t.procs == s.procs[s.current := x.(ticks := if x.state == Running then x.ticks + 1 else x.ticks)]
  {
  }

  /** The state in which a process whose slice ran out gives up the CPU: one level further
      down, if there is one, with a new slice. */
  function Expired(s: Sched): Sched
    requires s.current in s.procs
  {
    var x := s.procs[s.current];
    s.(global := s.global + 1, procs := s.procs[s.current := x.(priority := if x.priority < 3 then x.priority + 1 else 3, ticks := 0)])
  }

  /** The end of a slice: the process joins the back of its new level, and the first in line
      at the first level that has anybody is picked and becomes current. */
  lemma SliceEnds(s: Sched)
    requires SchedOk(s) && s.global + 1 < 100
    requires s.procs[s.current].state == Running && s.procs[s.current].ticks + 1 >= 2 + 2 * s.procs[s.current].priority
    ensures var u := Expired(s); var (t, picks) := Step(s, TimerTick);
      && Handover(u, t, picks)
      && (s.current != s.idle ==>
          && s.current in Line(u, u.procs[s.current].priority)
          && exists i: nat :: Front(u, i) && picks == [Line(u, i)[0]] && t.current == picks[0])
  {
    hide SchedOk, Schedule, Sleepers;
    Basics(s, s.current);
    var x, u := s.procs[s.current], Expired(s);
    GlobalOk(s, s.global + 1);
    OnlyReadyQueued(s.(global := s.global + 1), s.current);
    AccountOk(s.(global := s.global + 1), s.current, u.procs[s.current]);
    assert Tick(s) == Schedule(u);
    ScheduleExact(u);
    if s.current != s.idle {
      var l := u.procs[s.current].priority;
      assert s.current in Caller(u, l);
      assert Line(u, l) != [];
    }
  }

  /** The boost: everybody queued moves to level 0 in level order with a new slice, the
      current process too, and then the CPU is handed over. */
  lemma BoostTick(s: Sched)
    requires SchedOk(s) && s.global + 1 >= 100
    ensures BoostedFrom(s, Boosted(s))
    ensures Handover(Boosted(s), Step(s, TimerTick).0, Step(s, TimerTick).1)
  {
    hide Schedule, SchedOk, Boosted, BoostedFrom, Handover;
    Basics(s, s.current);
    BoostedIs(s);
    BoostedOk(s);
    ScheduleExact(Boosted(s));
  }

  ghost predicate BoostedFrom(s: Sched, u: Sched) {
    && |s.ready| == LEVELS && u.procs.Keys == s.procs.Keys
    && u == s.(global := 0, ready := [s.ready[0] + s.ready[1] + s.ready[2] + s.ready[3], [], [], []], procs := u.procs)
    && forall p | p in s.procs ::
        var resets := p in s.ready[1] || p in s.ready[2] || p in s.ready[3] || (p == s.current && p != s.idle);
        u.procs[p] == if resets then s.procs[p].(priority := 0, ticks := 0) else s.procs[p]
  }

  lemma BoostedIs(s: Sched)
    requires SchedOk(s)
    ensures BoostedFrom(s, Boosted(s))
  {
    hide ProcOk, ParkedOk, Apart, RingIs;
    assert s.ready[0] + (s.ready[1] + s.ready[2] + s.ready[3]) == s.ready[0] + s.ready[1] + s.ready[2] + s.ready[3];
    assert ReadyOk(s, 1) && ReadyOk(s, 2) && ReadyOk(s, 3);
  }

  // ----- How long a process is charged

  predicate Charged(s: Sched, e: Event, p: nat)
    requires s.current in s.procs
  {
    e == TimerTick && s.global + 1 < 100 && s.current == p && s.procs[p].state == Running
  }

  /** How often a run charges p for its time. */
  ghost function Charges(s: Sched, es: seq<Event>, p: nat): nat
    requires Legal(s, es)
    decreases |es|
  {
    if es == [] then 0 else (if Charged(s, es[0], p) then 1 else 0) + Charges(Step(s, es[0]).0, es[1..], p)
  }

  lemma TickKeeps(s: Sched, p: nat)
    requires SchedOk(s) && p != s.idle && Step(s, TimerTick).1 == []
    ensures var t := Step(s, TimerTick).0;
      && t.idle == s.idle && (t.current == p ==> s.current == p && p in t.procs)
      && (t.current == p ==> t.procs[p].priority == s.procs[p].priority && t.procs[p].ticks == s.procs[p].ticks + if Charged(s, TimerTick, p) then 1 else 0)
      && (t.current != p && s.current == p ==> !Charged(s, TimerTick, p))
  {
    hide SchedOk, Tick, Line, Schedule, Boosted;
    Basics(s, s.current);
    var x := s.procs[s.current];
    if s.global + 1 >= 100 { BoostTick(s); }
    else if x.state == Running && x.ticks + 1 >= 2 + 2 * x.priority { SliceEnds(s); }
    else { SliceGoesOn(s); }
  }

  lemma ScheduleKeeps(s: Sched, p: nat)
    requires SchedOk(s) && p != s.idle && Schedule(s).1 == None
    ensures Schedule(s).0.idle == s.idle && Schedule(s).0.current == s.idle
  {
    hide SchedOk, Schedule, Line;
    ScheduleExact(s);
  }

  /** A step that picks nobody lets the running process be, or idles. */
  lemma StepKeeps(s: Sched, e: Event, p: nat)
    requires SchedOk(s) && Enabled(s, e) && p != s.idle && Step(s, e).1 == []
    ensures var t := Step(s, e).0;
      && t.idle == s.idle && (t.current == p ==> s.current == p && p in t.procs)
      && (t.current == p ==> t.procs[p].priority == s.procs[p].priority && t.procs[p].ticks == s.procs[p].ticks + if Charged(s, e, p) then 1 else 0)
      && (t.current != p && s.current == p ==> !Charged(s, e, p))
  {
    hide SchedOk, Tick, Schedule, WakeAll;
    Basics(s, s.current);
    match e
    case TimerTick => TickKeeps(s, p);
    case CallSchedule => ScheduleKeeps(s, p);
    case WakeEveryone(w) => WakeAllKeeps(s, w);
    case Reap(only) => if Active(s) { assert FindDead(s, s.ring, s.current, only) != Some(s.current); }
    case _ =>
  }

  lemma {:induction false} WakeAllKeeps(s: Sched, w: nat)
    requires s.current in s.procs
    ensures var t := WakeAll(s, w);
      && t.idle == s.idle && t.current == s.current && t.current in t.procs
      && t.procs[t.current] == s.procs[s.current].(state := t.procs[t.current].state)
    decreases |Parked(s, w)|
  {
    if Parked(s, w) != [] { WakeAllKeeps(WakeOne(s, w), w); }
  }

  /** As long as nobody is picked, the running process is charged for less than its level
      allows, and nobody else is charged. */
  lemma {:induction false} SliceBounds(s: Sched, es: seq<Event>, p: nat)
    requires SchedOk(s) && Legal(s, es) && p != s.idle && Exec(s, es).1 == []
    ensures s.current != p ==> Charges(s, es, p) == 0
    ensures s.current == p ==> s.procs[p].ticks + Charges(s, es, p) < 2 + 2 * s.procs[p].priority
    decreases |es|
  {
    hide SchedOk, Step;
    Basics(s, p);
    Basics(s, s.current);
    if es != [] {
      StepKeeps(s, es[0], p);
      StepOk(s, es[0]);
      SliceBounds(Step(s, es[0]).0, es[1..], p);
    }
  }

  // ----- The order within a level

  /** Between two states a queue keeps its order and grows at the back, unless its head was
      the one picked. */
  ghost predicate Moved(q: seq<nat>, picks: seq<nat>, r: seq<nat>) {
    q <= r || (q != [] && picks == [q[0]] && q[1..] <= r)
  }

  ghost predicate Boosts(s: Sched, e: Event) { e == TimerTick && s.global + 1 >= 100 }

  /** From a state u with the queues of s, the hand-over keeps each level in order and takes
      from a level only what is first there, and only if all levels above are empty. */
  lemma HandoverMoves(s: Sched, u: Sched, t: Sched, picks: seq<nat>, i: nat)
    requires Handover(u, t, picks) && u.ready == s.ready && i < LEVELS
    ensures Moved(s.ready[i], picks, t.ready[i])
    ensures !(s.ready[i] <= t.ready[i]) ==> forall j | 0 <= j < i :: s.ready[j] == []
  {
    hide Sleepers, Caller, Requeues;
    if k: nat :| Front(u, k) {
      assert s.ready[i] <= Line(u, i);
      if k == i && s.ready[i] != [] {
        assert Line(u, i)[0] == s.ready[i][0];
        forall j | 0 <= j < i ensures s.ready[j] == [] { assert s.ready[j] <= Line(u, j); }
      }
    } else {
      assert Line(u, i) == [];
      assert s.ready[i] <= Line(u, i);
    }
  }

  /** Every step but the boost serves each level first in, first out, and serves a level only
      when all above it are empty. */
  lemma StepMoves(s: Sched, e: Event, i: nat)
    requires SchedOk(s) && Enabled(s, e) && i < LEVELS && !Boosts(s, e)
    ensures var (t, picks) := Step(s, e);
      && |t.ready| == LEVELS && Moved(s.ready[i], picks, t.ready[i])
      && (!(s.ready[i] <= t.ready[i]) ==> forall j | 0 <= j < i :: s.ready[j] == [])
  {
    hide SchedOk, Tick, Schedule, WakeAll, Enqueue, Handover;
    Basics(s, s.current);
    var t := Step(s, e).0;
    match e
    case SpawnProcess(p, pid) => EnqueueExtends(s.(procs := s.procs[p := Proc(Ready, 0, 0, s.current, pid, 0)], ring := s.ring + [p]), p);
    case TimerTick => TickMoves(s, i);
    case CallSchedule => ScheduleExact(s); HandoverMoves(s, s, t, Step(s, e).1, i); Basics(t, s.current) by { StepOk(s, e); }
    case Wake(w) =>
      if Parked(s, w) != [] { EnqueueExtends(s.(waits := s.waits[w := Parked(s, w)[1..]]), Parked(s, w)[0]); }
    case WakeEveryone(w) => WakeAllExtends(s, w);
    case Reap(only) => ReapReady(s, only);
    case _ =>
    assert e !in {TimerTick, CallSchedule} ==> Extends(s, t);
    assert e !in {TimerTick, CallSchedule} ==> s.ready[i] <= t.ready[i];
  }

  lemma TickMoves(s: Sched, i: nat)
    requires SchedOk(s) && i < LEVELS && s.global + 1 < 100
    ensures var (t, picks) := Step(s, TimerTick);
      && |t.ready| == LEVELS && Moved(s.ready[i], picks, t.ready[i])
      && (!(s.ready[i] <= t.ready[i]) ==> forall j | 0 <= j < i :: s.ready[j] == [])
  {
    hide SchedOk, Tick, Handover;
    Basics(s, s.current);
    var x, t := s.procs[s.current], Step(s, TimerTick).0;
    if x.state == Running && x.ticks + 1 >= 2 + 2 * x.priority {
      SliceEnds(s);
      HandoverMoves(s, Expired(s), t, Step(s, TimerTick).1, i);
      StepOk(s, TimerTick);
      Basics(t, s.current);
    } else { SliceGoesOn(s); }
  }

  /** q can be had from r by leaving some of r out. */
  predicate Within(q: seq<nat>, r: seq<nat>) {
    q == [] || (r != [] && if q[0] == r[0] then Within(q[1..], r[1..]) else Within(q, r[1..]))
  }

  lemma {:induction false} WithinJoin(a: seq<nat>, picks: seq<nat>, q: seq<nat>, r: seq<nat>)
    requires |picks| <= 1 && (a == [] || a == picks) && Within(q, r)
    ensures Within(a + q, picks + r)
  {
    if picks == [] { assert a + q == q && picks + r == r; }
    else if a == [] {
      assert a + q == q && (picks + r)[1..] == r;
      if q != [] && q[0] == picks[0] { WithinTail(q, r); }
    } else {
      assert (a + q)[1..] == q && (picks + r)[1..] == r;
    }
  }

  lemma {:induction false} WithinTail(q: seq<nat>, r: seq<nat>)
    requires Within(q, r) && q != []
    ensures Within(q[1..], r)
  {
    if q[0] == r[0] {
      if q[1..] != [] {
        if q[1] == r[0] { WithinTail(q[1..], r[1..]); }
      }
    } else {
      WithinTail(q, r[1..]);
      if q[1..] != [] && q[1] == r[0] { WithinTail(q[1..], r[1..]); }
    }
  }

  lemma {:induction false} WithinPrefix(q: seq<nat>, r: seq<nat>, n: nat)
    requires Within(q, r) && n <= |q|
    ensures Within(q[..n], r)
    decreases |r|
  {
    if n > 0 {
      if q[0] == r[0] {
        WithinPrefix(q[1..], r[1..], n - 1);
        assert q[..n][1..] == q[1..][..n - 1];
      } else { WithinPrefix(q, r[1..], n); }
    }
  }

  /** Between boosts each level is first in, first out: some front part of its queue was
      picked, in that order, and the rest is still in front of the queue. */
  lemma {:induction false} LevelInOrder(s: Sched, es: seq<Event>, i: nat) returns (n: nat)
    requires SchedOk(s) && Legal(s, es) && i < LEVELS && s.global + Ticks(es) < 100
    ensures var (t, picks) := Exec(s, es);
      && n <= |s.ready[i]| && |t.ready| == LEVELS
      && Within(s.ready[i][..n], picks) && s.ready[i][n..] <= t.ready[i]
    decreases |es|
  {
    hide SchedOk, Step, Within, Moved;
    if es == [] {
      n := 0;
      Basics(s, s.current);
      assert Within(s.ready[i][..0], []) by { NothingWithin([]); }
    } else {
      var (u, picks) := Step(s, es[0]);
      StepMoves(s, es[0], i);
      StepGlobal(s, es[0]);
      StepOk(s, es[0]);
      var m := LevelInOrder(u, es[1..], i);
      var (t, more) := Exec(u, es[1..]);
      StepPicksOne(s, es[0]);
      n := OrderStep(s.ready[i], picks, u.ready[i], m, more, t.ready[i]);
    }
  }

  lemma NothingWithin(r: seq<nat>)
    ensures Within([], r)
  {
  }

  lemma StepPicksOne(s: Sched, e: Event)
    requires |s.ready| == LEVELS && s.current in s.procs
    ensures |Step(s, e).1| <= 1
  {
  }

  lemma PrefixCut(q: seq<nat>, u: seq<nat>, m: nat, n: nat)
    requires q <= u && m <= |u| && n == if m <= |q| then m else |q|
    ensures u[..m][..n] == q[..n] && q[n..] <= u[m..]
  {
    assert u[..|q|] == q;
    if m <= |q| { assert u[m..][..|q| - m] == u[..|q|][m..]; }
  }

  lemma OrderStep(q: seq<nat>, picks: seq<nat>, u: seq<nat>, m: nat, more: seq<nat>, t: seq<nat>) returns (n: nat)
    requires Moved(q, picks, u) && m <= |u| && Within(u[..m], more) && u[m..] <= t && |picks| <= 1
    ensures n <= |q| && Within(q[..n], picks + more) && q[n..] <= t
  {
    hide Within;
    var k := if q <= u then 0 else 1;
    var rest := q[k..];
    var l := if m <= |rest| then m else |rest|;
    n := k + l;
    PrefixCut(rest, u, m, l);
    WithinPrefix(u[..m], more, l);
    WithinJoin(q[..k], picks, rest[..l], more);
    assert q[..k] + rest[..l] == q[..n] && rest[l..] == q[n..];
  }

  // ----- Waking, parking, reaping

  /** Those of q that run at level i. */
  function AtLevel(s: Sched, q: seq<nat>, i: nat): seq<nat> {
    if q == [] then [] else (if q[0] in s.procs && s.procs[q[0]].priority == i then [q[0]] else []) + AtLevel(s, q[1..], i)
  }

  /** t is s once the waiters q of w have joined the back of the ready queues of their own
      levels, in waiting order, and nothing else changed. */
  ghost predicate Joined(s: Sched, w: nat, q: seq<nat>, t: Sched) {
    && |s.ready| == |t.ready| == LEVELS && t.procs.Keys == s.procs.Keys
    && t == s.(ready := t.ready, procs := t.procs, waits := t.waits)
    && (forall i: nat | i < LEVELS :: t.ready[i] == s.ready[i] + AtLevel(s, q, i))
    && (forall p | p in s.procs :: t.procs[p] == if p in q then s.procs[p].(state := Ready) else s.procs[p])
    && (forall v :: v != w ==> Parked(t, v) == Parked(s, v)) && Parked(s, w) == q + Parked(t, w)
  }

  lemma WakeOneJoins(s: Sched, w: nat)
    requires SchedOk(s)
    ensures Joined(s, w, Parked(s, w)[..if Parked(s, w) == [] then 0 else 1], Step(s, Wake(w)).0)
  {
    hide Apart, RingIs;
    var q, t := Parked(s, w), Step(s, Wake(w)).0;
    if q != [] {
      assert ParkedOk(s, w) && q[0] in q;
      assert ProcOk(s, q[0]);
      assert q == [q[0]] + q[1..] && q[..1] == [q[0]];
      forall i: nat | i < LEVELS ensures t.ready[i] == s.ready[i] + AtLevel(s, q[..1], i) {
        assert q[..1][1..] == [];
      }
    }
  }

  lemma {:induction false} WakeAllJoins(s: Sched, w: nat)
    requires SchedOk(s)
    ensures Joined(s, w, Parked(s, w), Step(s, WakeEveryone(w)).0)
    decreases |Parked(s, w)|
  {
    hide SchedOk, AtLevel, Enqueue, Joined;
    Basics(s, s.current);
    WakeOneJoins(s, w);
    WakeOneOk(s, w);
    var q, t := Parked(s, w), WakeOne(s, w);
    if q == [] {
      assert q[..0] == q;
    } else {
      QueueNoDup(s, w);
      Basics(t, t.current);
      WakeAllJoins(t, w);
      JoinedTwice(s, w, q, t, WakeAll(t, w));
    }
  }

  lemma QueueNoDup(s: Sched, w: nat)
    requires SchedOk(s)
    ensures NoDup(Parked(s, w))
  {
    assert ParkedOk(s, w);
  }

  lemma AtLevelJoin(s: Sched, t: Sched, q: seq<nat>, i: nat)
    requires q != [] && s.procs.Keys == t.procs.Keys && forall p | p in s.procs :: t.procs[p].priority == s.procs[p].priority
    ensures AtLevel(s, q[..1], i) + AtLevel(t, q[1..], i) == AtLevel(s, q, i)
  {
    AtLevelSame(s, t, q[1..], i);
    assert q[..1][1..] == [] && q[..1][0] == q[0];
  }

  lemma JoinedTwice(s: Sched, w: nat, q: seq<nat>, t: Sched, u: Sched)
    requires q != [] && NoDup(q) && Joined(s, w, q[..1], t) && Joined(t, w, q[1..], u)
    ensures Joined(s, w, q, u)
  {
    hide AtLevel, NoDup;
    assert q == q[..1] + q[1..];
    forall i: nat | i < LEVELS ensures u.ready[i] == s.ready[i] + AtLevel(s, q, i) {
      AtLevelJoin(s, t, q, i);
    }
    forall v | v != w ensures Parked(u, v) == Parked(s, v) { assert Parked(t, v) == Parked(s, v); }
  }

  lemma {:induction false} AtLevelSame(s: Sched, t: Sched, q: seq<nat>, i: nat)
    requires s.procs.Keys == t.procs.Keys && forall p | p in s.procs :: t.procs[p].priority == s.procs[p].priority
    ensures AtLevel(s, q, i) == AtLevel(t, q, i)
  {
    if q != [] { AtLevelSame(s, t, q[1..], i); }
  }

  /** What the running process does to itself, and who it creates. */
  lemma ActsExactly(s: Sched, e: Event)
    requires SchedOk(s) && Enabled(s, e) && (e.SpawnProcess? || e.Block? || e.WaitOn? || e.Exit?)
    ensures var (t, picks) := Step(s, e); var x := s.procs[s.current];
      && picks == [] && t.current == s.current && t.idle == s.idle && t.global == s.global
      && (e.SpawnProcess? ==>
          && t.procs == s.procs[e.p := Proc(Ready, 0, 0, s.current, e.pid, 0)]
          && t.ring == s.ring + [e.p] && t.waits == s.waits
          && t.ready == [s.ready[0] + [e.p], s.ready[1], s.ready[2], s.ready[3]])
      && (!e.SpawnProcess? ==>
          && t.ready == s.ready && t.ring == s.ring
          && t.procs == s.procs[s.current := if e.Block? then x.(state := Blocked) else if e.WaitOn? then x.(state := Waiting) else x.(state := Dead, code := e.code)]
          && forall v :: Parked(t, v) == if e == WaitOn(v) then Parked(s, v) + [s.current] else Parked(s, v))
  {
    hide ParkedOk, Apart, RingIs, ReadyOk, ProcOk;
  }

  /** A dead child of the caller, with the process id asked for if there is one. */
  predicate Collectable(s: Sched, p: nat, only: Option<nat>) {
    p in s.procs && s.procs[p].state == Dead && s.procs[p].parent == s.current && (only == None || only == Some(s.procs[p].pid))
  }

  ghost predicate FirstCollectable(s: Sched, i: nat, only: Option<nat>)
    requires i < |s.ring|
  {
    Collectable(s, s.ring[i], only) && forall j: nat | j < i :: !Collectable(s, s.ring[j], only)
  }

  /** Reaping takes the first collectable process of the ring out, and nothing else. */
  lemma ReapExact(s: Sched, only: Option<nat>)
    requires SchedOk(s) && Active(s)
    ensures var t := Step(s, Reap(only)).0;
      && ((forall p | p in s.procs :: !Collectable(s, p, only)) ==> t == s)
      && (forall i: nat | i < |s.ring| && FirstCollectable(s, i, only) ::
          t == s.(ring := s.ring[..i] + s.ring[i + 1..], procs := s.procs - {s.ring[i]}))
  {
    hide SchedOk, Remove, FirstCollectable;
    RingOf(s);
    forall i: nat | i < |s.ring| && FirstCollectable(s, i, only)
      ensures Step(s, Reap(only)).0 == s.(ring := s.ring[..i] + s.ring[i + 1..], procs := s.procs - {s.ring[i]})
    {
      ReapsAt(s, i, only);
    }
  }

  lemma ReapsAt(s: Sched, i: nat, only: Option<nat>)
    requires i < |s.ring| && FirstCollectable(s, i, only) && NoDup(s.ring)
    ensures ReapChild(s, only) == s.(ring := s.ring[..i] + s.ring[i + 1..], procs := s.procs - {s.ring[i]})
  {
    hide Remove;
    FirstDead(s, s.ring, i, only);
    RemoveAt(s.ring, i);
  }

  lemma {:induction false} FirstDead(s: Sched, q: seq<nat>, i: nat, only: Option<nat>)
    requires i < |q| && Collectable(s, q[i], only) && forall j: nat | j < i :: !Collectable(s, q[j], only)
    ensures FindDead(s, q, s.current, only) == Some(q[i])
  {
    if i > 0 {
      assert !Collectable(s, q[0], only);
      FirstDead(s, q[1..], i - 1, only);
    }
  }

  lemma {:induction false} RemoveAt(q: seq<nat>, i: nat)
    requires NoDup(q) && i < |q|
    ensures Remove(q, q[i]) == q[..i] + q[i + 1..]
  {
    if i > 0 {
      assert q[0] != q[i];
      RemoveAt(q[1..], i - 1);
      assert [q[0]] + (q[1..][..i - 1] + q[1..][i..]) == q[..i] + q[i + 1..];
    }
  }
}
