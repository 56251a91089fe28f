/** Every scheduler operation keeps processes in at most one place. */
module SchedulerInvariant {
  import opened Sequences
  import opened Types
  import opened Scheduler

  ghost predicate Nowhere(s: Sched, p: nat) {
    |s.ready| == LEVELS && !Queued(s, p) && forall w :: p !in Parked(s, w)
  }

  /** All of SchedOk, except that p's own state is still to be settled. */
  ghost predicate OkBut(s: Sched, x: nat) {
    && |s.ready| == LEVELS && s.global < BOOST && RingIs(s)
    && s.current in s.procs && s.idle in s.procs && s.procs[s.idle].state == Running
    && (forall i: nat {:trigger ReadyOk(s, i)} | i < LEVELS :: ReadyOk(s, i))
    && (forall w {:trigger ParkedOk(s, w)} :: ParkedOk(s, w))
    && (forall v, w {:trigger Apart(s, v, w)} :: Apart(s, v, w))
    && (forall p {:trigger ProcOk(s, p)} | p in s.procs && p != x :: ProcOk(s, p))
  }

  lemma SameParked(s: Sched, t: Sched)
    requires t.waits == s.waits && forall p | p in s.procs && s.procs[p].state == Waiting && (exists w :: p in Parked(s, w)) ::
      p in t.procs && t.procs[p].state == Waiting
    requires forall w {:trigger ParkedOk(s, w)} :: ParkedOk(s, w)
    requires forall v, w {:trigger Apart(s, v, w)} :: Apart(s, v, w)
    ensures forall w {:trigger ParkedOk(t, w)} :: ParkedOk(t, w)
    ensures forall v, w {:trigger Apart(t, v, w)} :: Apart(t, v, w)
    ensures forall w :: Parked(t, w) == Parked(s, w)
  {
    forall w ensures ParkedOk(t, w) { assert ParkedOk(s, w); }
    forall v, w ensures Apart(t, v, w) { assert Apart(s, v, w) && Parked(t, v) == Parked(s, v) && Parked(t, w) == Parked(s, w); }
  }

  lemma EnqueueOk(s: Sched, p: nat)
    requires OkBut(s, p) && p in s.procs && p != 0 && p != s.idle && Nowhere(s, p)
    requires s.procs[p].state != Dead && s.procs[p].priority < LEVELS && s.procs[p].ticks < Quantum(s.procs[p].priority)
    ensures SchedOk(Enqueue(s, p)) && p in Enqueue(s, p).ready[s.procs[p].priority]
  {
    var t := Enqueue(s, p);
    forall i: nat | i < LEVELS ensures ReadyOk(t, i) { assert ReadyOk(s, i); }
    SameParked(s, t);
    forall q | q in t.procs ensures ProcOk(t, q) {
      if q != p {
        assert ProcOk(s, q);
      }
    }
  }

  lemma SchedIsOkBut(s: Sched, p: nat)
    requires SchedOk(s)
    ensures OkBut(s, p)
  {
    forall i: nat | i < LEVELS ensures ReadyOk(s, i) {}
    forall w ensures ParkedOk(s, w) {}
    forall v, w ensures Apart(s, v, w) {}
  }

  /** What only Ready and Waiting processes have. */
  lemma OnlyReadyQueued(s: Sched, p: nat)
    requires SchedOk(s) && p in s.procs
    ensures Queued(s, p) ==> s.procs[p].state == Ready
    ensures s.procs[p].state !in {Ready, Waiting} ==> Nowhere(s, p)
    ensures s.procs[p].state == Ready && !Queued(s, p) ==> Nowhere(s, p)
  {
    assert ReadyOk(s, 0) && ReadyOk(s, 1) && ReadyOk(s, 2) && ReadyOk(s, 3);
    forall w ensures p in Parked(s, w) ==> s.procs[p].state == Waiting { assert ParkedOk(s, w); }
  }

  lemma {:induction false} WakeBlockedOk(s: Sched, n: nat)
    requires SchedOk(s) && n <= |s.ring|
    ensures var t := WakeBlocked(s, n);
      && SchedOk(t) && t.procs.Keys == s.procs.Keys && t.idle == s.idle && t.procs[s.current] == s.procs[s.current]
      && (forall w :: Parked(t, w) == Parked(s, w))
  {
    hide SchedOk, Parked, Enqueue;
    if n > 0 {
      WakeBlockedOk(s, n - 1);
      var t, p := WakeBlocked(s, n - 1), s.ring[n - 1];
      if p != s.current && p in t.procs && t.procs[p].state == Blocked {
        Basics(s, s.current);
        RequeueOk(t, p);
      }
    } else { Basics(s, s.current); }
  }

  /** Queueing a blocked process touches nobody else. */
  lemma RequeueOk(t: Sched, p: nat)
    requires SchedOk(t) && p in t.procs && t.procs[p].state == Blocked
    ensures var u := Enqueue(t, p);
      && SchedOk(u) && u.procs.Keys == t.procs.Keys && u.idle == t.idle
      && (forall q | q in t.procs && q != p :: u.procs[q] == t.procs[q]) && (forall w :: Parked(u, w) == Parked(t, w))
  {
    hide SchedOk;
    OnlyReadyQueued(t, p);
    SchedIsOkBut(t, p);
    Basics(t, p);
    EnqueueOk(t, p);
  }

  lemma Basics(s: Sched, p: nat)
    requires SchedOk(s)
    ensures |s.ready| == LEVELS && s.current in s.procs && s.idle in s.procs && s.procs[s.idle].state == Running
    ensures p in s.procs ==> p != 0 && s.procs[p].priority < LEVELS && s.procs[p].ticks < Quantum(s.procs[p].priority)
    ensures p in s.procs && s.procs[p].state == Running ==> p == s.current || p == s.idle
    ensures p in s.ring <==> p in s.procs
  {
    if p in s.procs { assert ProcOk(s, p); }
  }

  lemma {:induction false} SurvivorsAre(s: Sched, q: seq<nat>)
    requires NoDup(q)
    ensures NoDup(Survivors(s, q)) && forall p :: p in Survivors(s, q) <==> p in q && !Orphan(s, p)
  {
    if q != [] {
      SurvivorsAre(s, q[..|q| - 1]);
      assert q == q[..|q| - 1] + [q[|q| - 1]];
    }
  }

  /** Reaping removes exactly the dead parentless processes, and no queue had them. */
  lemma ReapZombiesOk(s: Sched)
    requires SchedOk(s)
    ensures SchedOk(ReapZombies(s))
  {
    var t := ReapZombies(s);
    SurvivorsAre(s, s.ring);
    forall i: nat | i < LEVELS ensures ReadyOk(t, i) { assert ReadyOk(s, i); }
    SameParked(s, t);
    forall p | p in t.procs ensures ProcOk(t, p) {
      assert ProcOk(s, p);
    }
  }

  lemma PrepareOk(s: Sched)
    requires SchedOk(s)
    ensures var t := Prepare(s);
      && SchedOk(t) && t.current == s.current && t.idle == s.idle
      && (t.procs[t.current].state == Running ==> t.current == t.idle)
  {
    hide SchedOk, Survivors;
    ReapZombiesOk(s);
    var t := ReapZombies(s);
    WakeBlockedOk(t, |t.ring|);
    var u := WakeBlocked(t, |t.ring|);
    Basics(u, u.current);
    if u.procs[u.current].state == Running && u.current != u.idle {
      OnlyReadyQueued(u, u.current);
      SchedIsOkBut(u, u.current);
      EnqueueOk(u, u.current);
    }
    Basics(Prepare(s), s.current);
  }

  lemma PickOk(s: Sched)
    requires SchedOk(s)
    ensures var r := Pick(s);
      && SchedOk(r.0)
      && (r.1.Some? ==> r.1.value in s.procs && r.1.value != s.idle && r.0.procs[r.1.value].state == Ready && Nowhere(r.0, r.1.value))
      && (r.1.None? ==> forall i | 0 <= i < LEVELS :: s.ready[i] == [])
  {
    hide Quantum;
    var (t, pick) := Pick(s);
    forall i: nat | i < LEVELS ensures ReadyOk(t, i) { assert ReadyOk(s, i); }
    SameParked(s, t);
    forall p | p in t.procs ensures ProcOk(t, p) {
      assert ProcOk(s, p);
    }
    if pick.Some? { PickedOut(s); OnlyReadyQueued(t, pick.value); }
  }

  /** The picked process leaves its only queue. */
  lemma PickedOut(s: Sched)
    requires SchedOk(s) && Pick(s).1.Some?
    ensures var (t, p) := Pick(s); p.value in s.procs && s.procs[p.value].state == Ready && |t.ready| == LEVELS && !Queued(t, p.value)
  {
    var i := Level(s.ready, 0);
    assert ReadyOk(s, i);
    var p := s.ready[i][0];
    forall j: nat | j < LEVELS && j != i ensures p !in s.ready[j] { assert ReadyOk(s, j); }
    assert p !in s.ready[i][1..];
  }

  /** Handing the CPU to next. */
  lemma SwitchOk(t: Sched, next: nat)
    requires SchedOk(t) && next in t.procs && (t.procs[t.current].state == Running ==> t.current == t.idle)
    requires next == t.idle || (t.procs[next].state == Ready && Nowhere(t, next))
    ensures SchedOk(t.(current := next, procs := t.procs[next := t.procs[next].(state := Running)]))
  {
    hide Quantum;
    var u := t.(current := next, procs := t.procs[next := t.procs[next].(state := Running)]);
    forall i: nat | i < LEVELS ensures ReadyOk(u, i) { assert ReadyOk(t, i); }
    SameParked(t, u);
    forall p | p in u.procs ensures ProcOk(u, p) {
      assert ProcOk(t, p);
    }
  }

  lemma ScheduleOk(s: Sched)
    requires SchedOk(s)
    ensures SchedOk(Schedule(s).0)
  {
    hide SchedOk, Prepare, Pick;
    PrepareOk(s);
    var p := Prepare(s);
    PickOk(p);
    var (t, pick) := Pick(p);
    PickFields(p);
    Basics(t, t.current);
    var next := if pick.None? then t.idle else pick.value;
    if next != t.current { SwitchOk(t, next); }
  }

  lemma PickFields(s: Sched)
    ensures var t := Pick(s).0; t.procs == s.procs && t.current == s.current && t.idle == s.idle && t.waits == s.waits && t.ring == s.ring && t.global == s.global
  {
  }

  // ----- Ticks

  lemma BoostAllOk(s: Sched)
    requires SchedOk(s)
    ensures var t := BoostAll(s);
      && SchedOk(t) && (forall p | p in s.procs && p !in t.ready[0] :: t.procs[p] == s.procs[p])
      && (forall p | p in s.procs :: p in t.procs && t.procs[p].state == s.procs[p].state)
  {
    hide Quantum;
    var t, low := BoostAll(s), s.ready[1] + s.ready[2] + s.ready[3];
    assert ReadyOk(s, 0) && ReadyOk(s, 1) && ReadyOk(s, 2) && ReadyOk(s, 3);
    BoostOrder(s);
    forall i: nat | i < LEVELS ensures ReadyOk(t, i) {}
    SameParked(s, t);
    assert Quantum(0) > 0 by { QuantumIs(0); }
    forall p | p in t.procs ensures ProcOk(t, p) { assert ProcOk(s, p); }
  }

  /** Queues of different levels share no process, so joining them repeats none. */
  lemma BoostOrder(s: Sched)
    requires SchedOk(s)
    ensures NoDup(s.ready[0] + (s.ready[1] + s.ready[2] + s.ready[3]))
  {
    assert ReadyOk(s, 0) && ReadyOk(s, 1) && ReadyOk(s, 2) && ReadyOk(s, 3);
    JoinNoDup(s.ready[1], s.ready[2]);
    JoinNoDup(s.ready[1] + s.ready[2], s.ready[3]);
    JoinNoDup(s.ready[0], s.ready[1] + s.ready[2] + s.ready[3]);
  }

  lemma QuantumIs(i: nat)
    ensures Quantum(i) == 2 + 2 * i
  {
  }

  /** Changing only the accounting of an unqueued process, or of one at level 0. */
  lemma AccountOk(s: Sched, p: nat, x: Proc)
    requires SchedOk(s) && p in s.procs && x.state == s.procs[p].state && x.priority < LEVELS && x.ticks < Quantum(x.priority)
    requires !Queued(s, p) || x.priority == s.procs[p].priority
    ensures SchedOk(SetProc(s, p, x))
  {
    hide Quantum;
    var t := SetProc(s, p, x);
    forall i: nat | i < LEVELS ensures ReadyOk(t, i) { assert ReadyOk(s, i); }
    SameParked(s, t);
    forall q | q in t.procs ensures ProcOk(t, q) { assert ProcOk(s, q); }
  }

  lemma GlobalOk(s: Sched, g: nat)
    requires SchedOk(s) && g < BOOST
    ensures SchedOk(s.(global := g))
  {
    var t := s.(global := g);
    forall i: nat | i < LEVELS ensures ReadyOk(t, i) { assert ReadyOk(s, i); }
    SameParked(s, t);
    forall q | q in t.procs ensures ProcOk(t, q) { assert ProcOk(s, q); }
  }

  lemma BoostedOk(s: Sched)
    requires SchedOk(s)
    ensures SchedOk(Boosted(s))
  {
    hide SchedOk, Quantum;
    GlobalOk(s, 0);
    var g := s.(global := 0);
    BoostAllOk(g);
    var t := BoostAll(g);
    Basics(t, t.current);
    QuantumIs(0);
    if t.current != t.idle {
      OnlyQueueZero(t, t.current);
      AccountOk(t, t.current, t.procs[t.current].(priority := 0, ticks := 0));
    }
  }

  lemma OnlyQueueZero(t: Sched, p: nat)
    requires SchedOk(t) && t.ready[1] == t.ready[2] == t.ready[3] == []
    ensures Queued(t, p) ==> p in t.procs && t.procs[p].priority == 0
  {
    assert ReadyOk(t, 0);
  }

  lemma TickOk(s: Sched)
    requires SchedOk(s)
    ensures SchedOk(Tick(s).0)
  {
    hide SchedOk, Boosted, Schedule;
    Basics(s, s.current);
    if s.global + 1 >= BOOST {
      BoostedOk(s);
      ScheduleOk(Boosted(s));
    } else {
      var g, x := s.(global := s.global + 1), s.procs[s.current];
      GlobalOk(s, s.global + 1);
      if x.state == Running {
        OnlyReadyQueued(g, s.current);
        AccountOk(g, s.current, Charge(x));
        ScheduleOk(SetProc(g, s.current, Charge(x)));
      }
    }
  }

  // ----- Wait queues

  lemma UnparkQueues(s: Sched, w: nat)
    requires SchedOk(s) && Parked(s, w) != []
    ensures var t, p := s.(waits := s.waits[w := Parked(s, w)[1..]]), Parked(s, w)[0];
      && (forall v :: Parked(t, v) == if v == w then Parked(s, w)[1..] else Parked(s, v))
      && (forall v {:trigger ParkedOk(t, v)} :: ParkedOk(t, v)) && (forall u, v {:trigger Apart(t, u, v)} :: Apart(t, u, v))
      && (forall v :: p !in Parked(t, v)) && p in s.procs && s.procs[p].state == Waiting
      && (forall v, r {:trigger r in Parked(s, v)} | r in Parked(s, v) && r != p :: r in Parked(t, v))
  {
    hide Quantum, ReadyOk, ProcOk, RingIs;
    var q := Parked(s, w);
    var t, p := s.(waits := s.waits[w := q[1..]]), q[0];
    assert ParkedOk(s, w) && p in q;
    assert forall v :: Parked(t, v) == if v == w then q[1..] else Parked(s, v);
    forall v ensures ParkedOk(t, v) && p !in Parked(t, v) { assert ParkedOk(s, v) && Apart(s, w, v); }
    forall u, v ensures Apart(t, u, v) { assert Apart(s, u, v); }
  }

  /** The longest waiter, taken off its wait queue. */
  lemma UnparkOk(s: Sched, w: nat)
    requires SchedOk(s) && Parked(s, w) != []
    ensures var t, p := s.(waits := s.waits[w := Parked(s, w)[1..]]), Parked(s, w)[0];
      && OkBut(t, p) && Nowhere(t, p) && p in t.procs && p != t.idle && t.procs[p].state == Waiting
      && (forall v :: Parked(t, v) == if v == w then Parked(s, w)[1..] else Parked(s, v))
  {
    hide Quantum, ParkedOk, Apart, Parked;
    var q := Parked(s, w);
    var t, p := s.(waits := s.waits[w := q[1..]]), q[0];
    UnparkQueues(s, w);
    OnlyReadyQueued(s, p);
    forall i: nat | i < LEVELS ensures ReadyOk(t, i) { assert ReadyOk(s, i); }
    forall r | r in t.procs && r != p ensures ProcOk(t, r) {
      assert ProcOk(s, r);
      if t.procs[r].state == Waiting { var v :| r in Parked(s, v); assert r in Parked(t, v); }
    }
  }

  lemma WakeOneOk(s: Sched, w: nat)
    requires SchedOk(s)
    ensures SchedOk(WakeOne(s, w))
    ensures Parked(WakeOne(s, w), w) == if Parked(s, w) == [] then [] else Parked(s, w)[1..]
  {
    hide SchedOk, OkBut, Nowhere;
    if Parked(s, w) != [] {
      var p := Parked(s, w)[0];
      UnparkOk(s, w);
      Basics(s, p);
      EnqueueOk(s.(waits := s.waits[w := Parked(s, w)[1..]]), p);
    }
  }

  lemma {:induction false} WakeAllOk(s: Sched, w: nat)
    requires SchedOk(s)
    ensures SchedOk(WakeAll(s, w)) && Parked(WakeAll(s, w), w) == []
    decreases |Parked(s, w)|
  {
    hide SchedOk;
    if Parked(s, w) != [] {
      WakeOneOk(s, w);
      WakeAllOk(WakeOne(s, w), w);
    }
  }

  // ----- What the running process does

  /** The current process can act: it has not yet given up the CPU. */
  ghost predicate Active(s: Sched) {
    s.current in s.procs && |s.ready| == LEVELS &&
    (s.procs[s.current].state == Running || (s.procs[s.current].state == Ready && !Queued(s, s.current)))
  }

  lemma BecomeOk(s: Sched, x: State, code: int)
    requires SchedOk(s) && Active(s) && s.current != s.idle && x in {Blocked, Dead}
    ensures SchedOk(Become(s, x, code))
  {
    hide Quantum;
    var t, p := Become(s, x, code), s.current;
    OnlyReadyQueued(s, p);
    forall i: nat | i < LEVELS ensures ReadyOk(t, i) { assert ReadyOk(s, i); }
    SameParked(s, t);
    forall q | q in t.procs ensures ProcOk(t, q) { assert ProcOk(s, q); }
  }

  /** One more waiter at the back of one wait queue. */
  lemma ParkQueues(s: Sched, w: nat)
    requires SchedOk(s) && s.current in s.procs && Nowhere(s, s.current)
    ensures var t := Park(s, w);
      && (forall v :: Parked(t, v) == if v == w then Parked(s, w) + [s.current] else Parked(s, v))
      && (forall v {:trigger ParkedOk(t, v)} :: ParkedOk(t, v)) && (forall u, v {:trigger Apart(t, u, v)} :: Apart(t, u, v))
  {
    hide Quantum, ReadyOk, ProcOk, RingIs;
    var t, p := Park(s, w), s.current;
    assert forall v :: Parked(t, v) == if v == w then Parked(s, w) + [p] else Parked(s, v);
    forall v ensures ParkedOk(t, v) { assert ParkedOk(s, v); }
    forall u, v ensures Apart(t, u, v) { assert Apart(s, u, v); }
  }

  lemma ParkOk(s: Sched, w: nat)
    requires SchedOk(s) && Active(s) && s.current != s.idle
    ensures SchedOk(Park(s, w))
  {
    hide Quantum, ParkedOk, Apart, Parked, RingIs;
    var t, p := Park(s, w), s.current;
    OnlyReadyQueued(s, p);
    ParkQueues(s, w);
    assert RingIs(t) by { RingStays(s, t); }
    forall i: nat | i < LEVELS ensures ReadyOk(t, i) { assert ReadyOk(s, i); }
    assert p in Parked(t, w);
    forall q | q in t.procs ensures ProcOk(t, q) {
      assert ProcOk(s, q);
      if q != p && t.procs[q].state == Waiting { var v :| q in Parked(s, v); assert q in Parked(t, v); }
    }
  }

  lemma RingStays(s: Sched, t: Sched)
    requires RingIs(s) && t.ring == s.ring && t.procs.Keys == s.procs.Keys
    ensures RingIs(t)
  {
  }

  lemma SpawnOk(s: Sched, p: nat, pid: nat, parent: nat)
    requires SchedOk(s) && p != 0 && p !in s.procs
    ensures SchedOk(Spawn(s, p, pid, parent))
  {
    hide Quantum;
    var t := s.(procs := s.procs[p := Proc(Ready, 0, 0, parent, pid, 0)], ring := s.ring + [p]);
    QuantumIs(0);
    forall i: nat | i < LEVELS ensures ReadyOk(t, i) && p !in s.ready[i] { assert ReadyOk(s, i); }
    SameParked(s, t);
    forall w ensures p !in Parked(t, w) { assert ParkedOk(s, w); }
    forall q | q in t.procs && q != p ensures ProcOk(t, q) { assert ProcOk(s, q); }
    EnqueueOk(t, p);
  }

  lemma ReapChildOk(s: Sched, only: Option<nat>)
    requires SchedOk(s) && Active(s)
    ensures SchedOk(ReapChild(s, only))
  {
    hide Quantum, Remove;
    var c, t := FindDead(s, s.ring, s.current, only), ReapChild(s, only);
    if c.Some? {
      Removed(s.ring, c.value);
      forall i: nat | i < LEVELS ensures ReadyOk(t, i) { assert ReadyOk(s, i); }
      SameParked(s, t);
      forall q | q in t.procs ensures ProcOk(t, q) { assert ProcOk(s, q); }
    }
  }
}
