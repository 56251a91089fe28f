/** The scheduler as it runs: processes with link fields, queue heads and tails. */
module SchedulerKernel {
  import opened Sequences
  import opened Types
  import opened Scheduler
  import opened SchedulerInvariant
  import opened SchedulerLinks

  function At(m: map<nat, nat>, w: nat): nat { if w in m then m[w] else 0 }

  ghost predicate ReadyTies(next: Links, prev: Links, heads: seq<nat>, tails: seq<nat>, ready: seq<seq<nat>>) {
    && |heads| == |tails| == |ready| == LEVELS
    && forall i: nat {:trigger Fifo(next, prev, heads[i], tails[i], ready[i])} | i < LEVELS :: Fifo(next, prev, heads[i], tails[i], ready[i])
  }

  ghost predicate WaitTies(next: Links, prev: Links, heads: map<nat, nat>, tails: map<nat, nat>, s: Sched) {
    forall w {:trigger Parked(s, w)} :: Fifo(next, prev, At(heads, w), At(tails, w), Parked(s, w))
  }

  /** Ready queues hold different processes. */
  ghost predicate Disjoint(ready: seq<seq<nat>>, i: nat, j: nat)
    requires i < |ready| && j < |ready|
  {
    i != j ==> forall x | x in ready[i] :: x !in ready[j]
  }

  lemma ReadyDisjoint(s: Sched, i: nat, j: nat)
    requires SchedOk(s) && i < LEVELS && j < LEVELS
    ensures Disjoint(s.ready, i, j)
  {
    assert ReadyOk(s, i) && ReadyOk(s, j);
  }

  lemma PushTies(next: Links, prev: Links, heads: seq<nat>, tails: seq<nat>, ready: seq<seq<nat>>, i: nat, p: nat)
    requires ReadyTies(next, prev, heads, tails, ready) && i < LEVELS && p != 0
    requires forall j: nat | j < LEVELS :: p !in ready[j] && Disjoint(ready, j, i)
    ensures ReadyTies(PushNext(next, tails[i], p), prev[p := tails[i]], heads[i := if heads[i] == 0 then p else heads[i]], tails[i := p],
      ready[i := ready[i] + [p]])
    ensures heads[i] == 0 <==> tails[i] == 0
  {
    hide Fifo;
    var n, v := PushNext(next, tails[i], p), prev[p := tails[i]];
    var hs, ts, rs := heads[i := if heads[i] == 0 then p else heads[i]], tails[i := p], ready[i := ready[i] + [p]];
    assert Fifo(next, prev, heads[i], tails[i], ready[i]);
    FifoPush(next, prev, heads[i], tails[i], ready[i], p);
    TailIs(next, prev, heads[i], tails[i], ready[i]);
    forall j: nat | j < LEVELS ensures Fifo(n, v, hs[j], ts[j], rs[j]) {
      assert Fifo(next, prev, heads[j], tails[j], ready[j]) && Disjoint(ready, j, i);
      if j != i { FifoPushOther(next, prev, heads[j], tails[j], ready[j], tails[i], ready[i], p); }
    }
  }

  lemma TailIs(next: Links, prev: Links, head: nat, tail: nat, q: seq<nat>)
    requires Fifo(next, prev, head, tail, q)
    ensures tail == Last(q) && head == First(q) && (head == 0 <==> q == [])
    ensures q != [] ==> head == q[0] && head in next && next[head] == After(q, 0)
  {
    if q != [] { assert NodeOk(next, prev, q, 0); }
  }

  lemma PopTies(next: Links, prev: Links, heads: seq<nat>, tails: seq<nat>, ready: seq<seq<nat>>, i: nat)
    requires ReadyTies(next, prev, heads, tails, ready) && i < LEVELS && ready[i] != []
    requires forall j: nat | j < LEVELS :: Disjoint(ready, i, j)
    ensures heads[i] == ready[i][0] && heads[i] != 0 && heads[i] in next
    ensures var second := next[heads[i]];
      ReadyTies(PopNext(next, heads[i]), PopPrev(prev, second, heads[i]), heads[i := second], tails[i := if second == 0 then 0 else tails[i]], ready[i := ready[i][1..]])
  {
    hide Fifo;
    assert Fifo(next, prev, heads[i], tails[i], ready[i]);
    TailIs(next, prev, heads[i], tails[i], ready[i]);
    FifoPop(next, prev, heads[i], tails[i], ready[i]);
    var second := next[heads[i]];
    var n, v, hs, ts, rs := PopNext(next, heads[i]), PopPrev(prev, second, heads[i]), heads[i := second],
      tails[i := if second == 0 then 0 else tails[i]], ready[i := ready[i][1..]];
    forall j: nat | j < LEVELS ensures Fifo(n, v, hs[j], ts[j], rs[j]) {
      assert Fifo(next, prev, heads[j], tails[j], ready[j]) && Disjoint(ready, i, j);
      if j != i { FifoPopOther(next, prev, ready[i], heads[j], tails[j], ready[j], second); }
    }
  }

  class Kernel {
    var procs: map<nat, Proc>
    var queueNext: Links
    var queuePrev: Links
    var waitNext: Links
    var waitPrev: Links
    var ringNext: Links
    var ringPrev: Links
    var heads: seq<nat>
    var tails: seq<nat>
    var waitHeads: map<nat, nat>
    var waitTails: map<nat, nat>
    var processQueue: nat
    var current: nat
    var idle: nat
    var global: nat
    ghost var sys: Sched

    ghost predicate Ties()
      reads this
    {
      && procs == sys.procs && current == sys.current && idle == sys.idle && global == sys.global
      && ReadyTies(queueNext, queuePrev, heads, tails, sys.ready)
      && WaitTies(waitNext, waitPrev, waitHeads, waitTails, sys)
      && Ring(ringNext, ringPrev, processQueue, sys.ring)
    }

    ghost predicate Valid()
      reads this
    {
      SchedOk(sys) && Ties()
    }

    /** init_scheduler: only the idle process, and it runs. */
    constructor (p: nat, pid: nat)
      requires p != 0
      ensures Valid() && sys == Sched(map[p := Proc(Running, 3, 0, 0, pid, 0)], [p], [[], [], [], []], map[], p, p, 0)
    {
      procs := map[p := Proc(Running, 3, 0, 0, pid, 0)];
      queueNext, queuePrev, waitNext, waitPrev := map[p := 0], map[p := 0], map[p := 0], map[p := 0];
      ringNext, ringPrev, processQueue := map[p := p], map[p := p], p;
      heads, tails, waitHeads, waitTails := [0, 0, 0, 0], [0, 0, 0, 0], map[], map[];
      current, idle, global := p, p, 0;
      sys := Sched(map[p := Proc(Running, 3, 0, 0, pid, 0)], [p], [[], [], [], []], map[], p, p, 0);
      new;
      BootStateOk(p, pid);
      assert RingNode(ringNext, ringPrev, [p], 0);
    }

    /** mlfq_enqueue */
    method Enqueue(p: nat)
      requires |heads| == |tails| == LEVELS && p != 0 && p in procs && procs[p].priority < LEVELS
      requires heads[procs[p].priority] == 0 <==> tails[procs[p].priority] == 0
      modifies this`procs, this`queueNext, this`queuePrev, this`heads, this`tails
      ensures var x, i := old(procs[p]), old(procs[p].priority);
        if x.state == Dead then procs == old(procs) && queueNext == old(queueNext) && queuePrev == old(queuePrev) && heads == old(heads) && tails == old(tails)
        else
          && procs == old(procs)[p := x.(state := Ready)]
          && queueNext == PushNext(old(queueNext), old(tails[i]), p) && queuePrev == old(queuePrev)[p := old(tails[i])]
          && heads == old(heads)[i := if old(heads[i]) == 0 then p else old(heads[i])] && tails == old(tails)[i := p]
    {
      if procs[p].state == Dead {
        return;
      }
      queueNext := queueNext[p := 0];
      procs := procs[p := procs[p].(state := Ready)];
      var i := procs[p].priority;
      if heads[i] == 0 {
        queuePrev := queuePrev[p := 0];
        heads := heads[i := p];
        tails := tails[i := p];
      } else {
        queuePrev := queuePrev[p := tails[i]];
        queueNext := queueNext[tails[i] := p];
        tails := tails[i := p];
      }
    }

    /** Enqueueing a process that is on no queue. */
    method EnqueueNew(p: nat)
      requires Ties() && p != 0 && p in procs && procs[p].priority < LEVELS && procs[p].state != Dead
      requires forall j: nat | j < LEVELS :: p !in sys.ready[j] && Disjoint(sys.ready, j, procs[p].priority)
      modifies this`procs, this`queueNext, this`queuePrev, this`heads, this`tails, this`sys
      ensures Ties() && sys == Scheduler.Enqueue(old(sys), p)
    {
      hide Fifo, Ring, Disjoint, PushNext;
      var i := procs[p].priority;
      PushTies(queueNext, queuePrev, heads, tails, sys.ready, i, p);
      Enqueue(p);
      sys := Scheduler.Enqueue(sys, p);
      SameWaits(waitNext, waitPrev, waitHeads, waitTails, old(sys), sys);
    }

    /** The link fields after the head of level i is taken off. */
    method UnlinkHead(i: nat) returns (p: nat)
      requires |heads| == |tails| == LEVELS && i < LEVELS && heads[i] in queueNext
      modifies this`queueNext, this`queuePrev, this`heads, this`tails
      ensures p == old(heads[i])
      ensures var second := old(queueNext[heads[i]]);
        && queueNext == PopNext(old(queueNext), p) && queuePrev == PopPrev(old(queuePrev), second, p)
        && heads == old(heads)[i := second] && tails == old(tails)[i := if second == 0 then 0 else old(tails[i])]
    {
      p := heads[i];
      heads := heads[i := queueNext[p]];
      if heads[i] != 0 {
        queuePrev := queuePrev[heads[i] := 0];
      } else {
        tails := tails[i := 0];
      }
      queueNext := queueNext[p := 0];
      queuePrev := queuePrev[p := 0];
    }

    /** Takes the first process off level i. */
    method PopHead(i: nat) returns (p: nat)
      requires Valid() && i < LEVELS && sys.ready[i] != []
      modifies this`queueNext, this`queuePrev, this`heads, this`tails, this`sys
      ensures Ties() && p == old(sys).ready[i][0] && p != 0
      ensures sys == old(sys).(ready := old(sys).ready[i := old(sys).ready[i][1..]])
    {
      hide Fifo, Ring, SchedOk, Disjoint, PopNext, PopPrev;
      forall j: nat | j < LEVELS ensures Disjoint(sys.ready, i, j) { ReadyDisjoint(sys, i, j); }
      PopTies(queueNext, queuePrev, heads, tails, sys.ready, i);
      p := UnlinkHead(i);
      hide ReadyTies;
      sys := sys.(ready := sys.ready[i := sys.ready[i][1..]]);
      SameWaits(waitNext, waitPrev, waitHeads, waitTails, old(sys), sys);
    }

    /** mlfq_pick_next; 0 when every queue is empty. */
    method PickNext() returns (p: nat)
      requires Valid()
      modifies this`queueNext, this`queuePrev, this`heads, this`tails, this`sys
      ensures Ties() && (sys, if p == 0 then None else Some(p)) == Pick(old(sys))
    {
      hide Fifo, Ring, SchedOk, WaitTies;
      var i := 0;
      while i < LEVELS
        invariant i <= LEVELS && Valid() && sys == old(sys) && (forall j: nat | j < i :: sys.ready[j] == [])
      {
        assert Fifo(queueNext, queuePrev, heads[i], tails[i], sys.ready[i]);
        TailIs(queueNext, queuePrev, heads[i], tails[i], sys.ready[i]);
        if heads[i] != 0 {
          p := PopHead(i);
          return;
        }
        i := i + 1;
      }
      p := 0;
    }

    /** One level appended to level 0, link by link. */
    method DrainLinks(i: nat, ghost s: Sched)
      requires SchedOk(s) && 1 <= i < LEVELS && procs == s.procs && ReadyTies(queueNext, queuePrev, heads, tails, s.ready)
      modifies this`procs, this`queueNext, this`queuePrev, this`heads, this`tails
      ensures procs == Drained(s, i, |s.ready[i]|).procs && ReadyTies(queueNext, queuePrev, heads, tails, Drained(s, i, |s.ready[i]|).ready)
    {
      hide Fifo, Forward, SchedOk, Disjoint, Draining, Drained;
      ghost var k := 0;
      DrainBegins(queueNext, queuePrev, heads, tails, s, i);
      while heads[i] != 0
        invariant k <= |s.ready[i]| && procs == Drained(s, i, k).procs && |heads| == |tails| == LEVELS
        invariant Draining(queueNext, queuePrev, heads, tails, s, i, k)
        decreases |s.ready[i]| - k
      {
        DrainSteps(queueNext, queuePrev, heads, tails, s, i, k);
        var p := heads[i];
        heads := heads[i := queueNext[p]];
        procs := procs[p := procs[p].(priority := 0, ticks := 0)];
        Enqueue(p);
        k := k + 1;
      }
      DrainEnds(queueNext, queuePrev, heads, tails, s, i, k);
      tails := tails[i := 0];
    }

    /** Moves every process of one level to level 0. */
    method DrainLevel(i: nat)
      requires Valid() && 1 <= i < LEVELS
      modifies this`procs, this`queueNext, this`queuePrev, this`heads, this`tails, this`sys
      ensures Valid() && sys == Drained(old(sys), i, |old(sys).ready[i]|)
    {
      hide Ring, SchedOk, WaitTies, ReadyTies;
      ghost var s := sys;
      ReadySize(s);
      DrainLinks(i, s);
      sys := Drained(s, i, |s.ready[i]|);
      DrainedOk(s, i);
      SameWaits(waitNext, waitPrev, waitHeads, waitTails, s, sys);
    }

    /** mlfq_boost_all */
    method BoostAll()
      requires Valid()
      modifies this`procs, this`queueNext, this`queuePrev, this`heads, this`tails, this`sys
      ensures Valid() && sys == Scheduler.BoostAll(old(sys))
    {
      hide SchedOk, Drained, Scheduler.BoostAll, ReadyTies, Kernel.Ties;
      ReadySize(sys);
      DrainAll(sys);
      DrainLevel(1);
      DrainLevel(2);
      DrainLevel(3);
    }

    /** wait_queue_push */
    method WaitQueuePush(w: nat, p: nat)
      requires WaitTies(waitNext, waitPrev, waitHeads, waitTails, sys) && p != 0
      requires forall v :: p !in Parked(sys, v) && Apart(sys, v, w)
      modifies this`waitNext, this`waitPrev, this`waitHeads, this`waitTails, this`sys
      ensures sys == old(sys).(waits := old(sys).waits[w := Parked(old(sys), w) + [p]])
      ensures WaitTies(waitNext, waitPrev, waitHeads, waitTails, sys)
    {
      hide Fifo, WaitTies, Apart;
      PushWaits(waitNext, waitPrev, waitHeads, waitTails, sys, w, p);
      waitNext := waitNext[p := 0];
      waitPrev := waitPrev[p := At(waitTails, w)];
      if At(waitTails, w) != 0 {
        waitNext := waitNext[At(waitTails, w) := p];
      } else {
        waitHeads := waitHeads[w := p];
      }
      waitTails := waitTails[w := p];
      sys := sys.(waits := sys.waits[w := Parked(sys, w) + [p]]);
    }

    /** wait_queue_pop; 0 when nobody waits. */
    method WaitQueuePop(w: nat) returns (p: nat)
      requires WaitTies(waitNext, waitPrev, waitHeads, waitTails, sys) && forall v {:trigger Apart(sys, w, v)} :: Apart(sys, w, v)
      modifies this`waitNext, this`waitPrev, this`waitHeads, this`waitTails, this`sys
      ensures p == First(Parked(old(sys), w)) && (p == 0 <==> Parked(old(sys), w) == [])
      ensures sys == if p == 0 then old(sys) else old(sys).(waits := old(sys).waits[w := Parked(old(sys), w)[1..]])
      ensures WaitTies(waitNext, waitPrev, waitHeads, waitTails, sys)
    {
      hide Fifo, WaitTies, Apart;
      PopWaits(waitNext, waitPrev, waitHeads, waitTails, sys, w);
      p := At(waitHeads, w);
      if p != 0 {
        var second := waitNext[p];
        waitHeads := waitHeads[w := second];
        if second != 0 {
          waitPrev := waitPrev[second := 0];
        } else {
          waitTails := waitTails[w := 0];
        }
        waitNext := waitNext[p := 0];
        waitPrev := waitPrev[p := 0];
        sys := sys.(waits := sys.waits[w := Parked(sys, w)[1..]]);
      }
    }

    /** Wakes the process that has waited longest, if any. */
    method WakeOne(w: nat)
      requires Valid()
      modifies this
      ensures Valid() && sys == Scheduler.WakeOne(old(sys), w)
    {
      hide Fifo, Ring, SchedOk, Disjoint, ReadyTies;
      ghost var s := sys;
      WakeOneOk(s, w);
      WakeReady(s, w);
      var p := WaitQueuePop(w);
      if p != 0 { EnqueueNew(p); }
    }

    /** wake_all */
    method WakeAll(w: nat)
      requires Valid()
      modifies this
      ensures Valid() && sys == Scheduler.WakeAll(old(sys), w)
    {
      hide Fifo, Ring, SchedOk, ReadyTies, Scheduler.WakeOne;
      ghost var s := sys;
      HeadWaits(waitNext, waitPrev, waitHeads, waitTails, sys, w);
      while At(waitHeads, w) != 0
        invariant Valid() && (At(waitHeads, w) == 0 <==> Parked(sys, w) == []) && Scheduler.WakeAll(sys, w) == Scheduler.WakeAll(s, w)
        decreases |Parked(sys, w)|
      {
        WakeOneOk(sys, w);
        WakeOne(w);
        HeadWaits(waitNext, waitPrev, waitHeads, waitTails, sys, w);
      }
    }

    /** A process that puts itself on a wait queue; it will call schedule next. */
    method Park(w: nat)
      requires Valid() && Active(sys) && sys.current != sys.idle
      modifies this
      ensures Valid() && sys == Scheduler.Park(old(sys), w)
    {
      hide Fifo, Ring, SchedOk, ReadyTies, WaitTies;
      ghost var s := sys;
      ParkOk(s, w);
      ParkReady(s, w);
      procs := procs[current := procs[current].(state := Waiting)];
      WaitQueuePush(w, current);
      sys := Scheduler.Park(s, w);
      SameWaits(waitNext, waitPrev, waitHeads, waitTails, s.(waits := sys.waits), sys);
    }

    // ----- The process ring

    /** enqueue_process */
    method EnqueueProcess(p: nat)
      requires Ring(ringNext, ringPrev, processQueue, sys.ring) && p != 0 && p !in sys.ring
      modifies this`ringNext, this`ringPrev, this`processQueue
      ensures Ring(ringNext, ringPrev, processQueue, sys.ring + [p])
    {
      hide Ring;
      RingAppend(ringNext, ringPrev, processQueue, sys.ring, p);
      if processQueue == 0 {
        assert sys.ring + [p] == [p];
        processQueue := p;
        ringNext := ringNext[p := p];
        ringPrev := ringPrev[p := p];
      } else {
        var last := ringPrev[processQueue];
        ringPrev := ringPrev[p := last];
        ringNext := ringNext[p := processQueue];
        ringNext := ringNext[last := p];
        ringPrev := ringPrev[processQueue := p];
      }
    }

    /** Takes one node out of the ring, moving the head on if it was the node. */
    method Unlink(victim: nat, ghost q: seq<nat>, ghost i: nat)
      requires Ring(ringNext, ringPrev, processQueue, q) && i < |q| && q[i] == victim
      modifies this`ringNext, this`ringPrev, this`processQueue
      ensures Ring(ringNext, ringPrev, processQueue, q[..i] + q[i + 1..])
    {
      hide Ring;
      RingUnlink(ringNext, ringPrev, processQueue, q, i);
      var before, after := ringPrev[victim], ringNext[victim];
      ringNext := ringNext[before := after];
      ringPrev := ringPrev[after := before];
      if processQueue == victim {
        processQueue := if after != victim then after else 0;
      }
    }

    /** Walks once round the ring. */
    method CountRing() returns (count: nat)
      requires Ring(ringNext, ringPrev, processQueue, sys.ring) && sys.ring != []
      ensures count == |sys.ring|
    {
      hide Ring;
      RingStart(ringNext, ringPrev, processQueue, sys.ring);
      RingWalk(ringNext, ringPrev, processQueue, sys.ring, 0);
      count := 1;
      var p := ringNext[processQueue];
      while p != processQueue
        invariant 1 <= count <= |sys.ring| && p == (if count < |sys.ring| then sys.ring[count] else sys.ring[0])
        decreases |sys.ring| - count
      {
        RingWalk(ringNext, ringPrev, processQueue, sys.ring, count);
        count := count + 1;
        p := ringNext[p];
      }
      if count < |sys.ring| {
        RingApart(ringNext, ringPrev, processQueue, sys.ring, count);
        assert false;
      }
    }

    /** One node of the sweep: an orphan is unlinked and freed, anyone else stays. */
    method ReapNode(victim: nat, ghost s: Sched, ghost i: nat) returns (node: nat)
      requires SchedOk(s) && i < |s.ring| && victim == s.ring[i] && current == s.current
      requires Ring(ringNext, ringPrev, processQueue, Survivors(s, s.ring[..i]) + s.ring[i..]) && procs == Spared(s, s.ring[..i])
      modifies this`procs, this`ringNext, this`ringPrev, this`processQueue
      ensures Ring(ringNext, ringPrev, processQueue, Survivors(s, s.ring[..i + 1]) + s.ring[i + 1..]) && procs == Spared(s, s.ring[..i + 1])
      ensures i + 1 < |s.ring| ==> node == s.ring[i + 1]
      ensures processQueue != 0
    {
      hide Ring, SchedOk, Survivors, Spared;
      ReapSteps(s, ringNext, ringPrev, processQueue, i);
      SparedSteps(s, i);
      node := ringNext[victim];
      if procs[victim].state == Dead && victim != current && procs[victim].parent == 0 {
        Unlink(victim, Survivors(s, s.ring[..i]) + s.ring[i..], |Survivors(s, s.ring[..i])|);
        procs := procs - {victim};
      }
      RingStart(ringNext, ringPrev, processQueue, Survivors(s, s.ring[..i + 1]) + s.ring[i + 1..]);
    }

    /** One walk round the ring; it never becomes empty, since the current process stays. */
    method SweepRing()
      requires SchedOk(sys) && procs == sys.procs && current == sys.current && Ring(ringNext, ringPrev, processQueue, sys.ring)
      modifies this`procs, this`ringNext, this`ringPrev, this`processQueue
      ensures Ring(ringNext, ringPrev, processQueue, Scheduler.ReapZombies(sys).ring) && procs == Scheduler.ReapZombies(sys).procs
    {
      hide Ring, SchedOk, Survivors, Spared, Scheduler.ReapZombies;
      ghost var s, q := sys, sys.ring;
      Basics(s, s.current);
      RingStart(ringNext, ringPrev, processQueue, q);
      var count := CountRing();
      var node := processQueue;
      var i := 0;
      ReapBegins(s);
      while i < count
        invariant i <= count == |q|
        invariant Ring(ringNext, ringPrev, processQueue, Survivors(s, q[..i]) + q[i..])
        invariant i < count ==> node == q[i]
        invariant procs == Spared(s, q[..i])
      {
        node := ReapNode(node, s, i);
        if processQueue == 0 { assert false; }
        i := i + 1;
      }
      ReapEnds(s);
    }

    /** reap_zombies */
    method ReapZombies()
      requires Valid()
      modifies this`procs, this`ringNext, this`ringPrev, this`processQueue, this`sys
      ensures Valid() && sys == Scheduler.ReapZombies(old(sys))
    {
      hide Ring, SchedOk, ReadyTies, WaitTies, Survivors, Fifo;
      ghost var s := sys;
      SweepRing();
      ReapZombiesOk(s);
      sys := Scheduler.ReapZombies(s);
      SameWaits(waitNext, waitPrev, waitHeads, waitTails, s, sys);
    }

    /** wake_blocked_processes, on behalf of the current process. */
    method WakeBlockedProcesses()
      requires Valid()
      modifies this`procs, this`queueNext, this`queuePrev, this`heads, this`tails, this`sys
      ensures Valid() && sys == WakeBlocked(old(sys), |old(sys).ring|)
    {
      hide Ring, SchedOk, ReadyTies, WaitTies, Disjoint, Scheduler.Enqueue, Fifo;
      ghost var s, q := sys, sys.ring;
      Basics(s, s.current);
      RingStart(ringNext, ringPrev, processQueue, q);
      var count := CountRing();
      var node := processQueue;
      var i := 0;
      while i < count
        invariant i <= count == |q| && Valid() && sys == WakeBlocked(s, i) && sys.ring == q
        invariant node == if i < count then q[i] else q[0]
      {
        RingWalk(ringNext, ringPrev, processQueue, q, i);
        var cand := node;
        node := ringNext[node];
        Basics(sys, cand);
        if cand != current && procs[cand].state == Blocked {
          EnqueueReady(sys, cand);
          EnqueueNew(cand);
        }
        i := i + 1;
        WakeBlockedOk(s, i);
      }
    }

    /** What schedule does before it picks. */
    method PrepareQueues()
      requires Valid()
      modifies this
      ensures Valid() && sys == Prepare(old(sys))
    {
      hide Ring, SchedOk, ReadyTies, WaitTies, Disjoint, Scheduler.Enqueue, Fifo, WakeBlocked, Scheduler.ReapZombies;
      ghost var s := sys;
      PrepareOk(s);
      ReapZombies();
      WakeBlockedProcesses();
      Basics(sys, current);
      if procs[current].state == Running && current != idle {
        EnqueueReady(sys, current);
        EnqueueNew(current);
      }
    }

    /** schedule_locked; pick is 0 when no process was queued. */
    method Schedule() returns (pick: nat)
      requires Valid()
      modifies this
      ensures Valid() && (sys, if pick == 0 then None else Some(pick)) == Scheduler.Schedule(old(sys))
    {
      hide Ring, SchedOk, ReadyTies, WaitTies, Fifo, Prepare, Pick;
      ghost var s := sys;
      PrepareOk(s);
      ScheduleOk(s);
      PickFields(Prepare(s));
      PickOk(Prepare(s));
      PrepareQueues();
      var prev := current;
      pick := PickNext();
      Basics(sys, sys.current);
      var next := if pick == 0 then idle else pick;
      if prev == next { return; }
      current := next;
      procs := procs[next := procs[next].(state := Running)];
      ghost var t := sys;
      sys := sys.(current := next, procs := procs);
      SameWaits(waitNext, waitPrev, waitHeads, waitTails, t, sys);
    }

    method SetGlobal(g: nat)
      requires Ties()
      modifies this`global, this`sys
      ensures Ties() && sys == old(sys).(global := g)
    {
      hide ReadyTies, WaitTies, Ring;
      ghost var s := sys;
      global := g;
      sys := s.(global := g);
      SameWaits(waitNext, waitPrev, waitHeads, waitTails, s, sys);
    }

    /** The tick that boosts everybody, up to its call of schedule. */
    method BoostTick(ghost s: Sched)
      requires SchedOk(s) && Ties() && sys == s.(global := s.global + 1)
      modifies this
      ensures Valid() && |s.ready| == LEVELS && s.current in s.procs && sys == Boosted(s)
    {
      hide Ring, SchedOk, ReadyTies, WaitTies, Fifo, Scheduler.BoostAll;
      Basics(s, s.current);
      SetGlobal(0);
      GlobalOk(s, 0);
      BoostAll();
      BoostedOk(s);
      Basics(sys, sys.current);
      if current != idle {
        procs := procs[current := procs[current].(priority := 0, ticks := 0)];
        sys := Boosted(s);
        SameWaits(waitNext, waitPrev, waitHeads, waitTails, Scheduler.BoostAll(s.(global := 0)), sys);
      }
    }

    /** mlfq_on_tick */
    method OnTick() returns (pick: nat)
      requires Valid()
      modifies this
      ensures Valid() && |old(sys).ready| == LEVELS && old(sys).current in old(sys).procs
      ensures (sys, if pick == 0 then None else Some(pick)) == Tick(old(sys))
    {
      hide Ring, SchedOk, ReadyTies, WaitTies, Fifo, Scheduler.Schedule, Scheduler.BoostAll;
      ghost var s := sys;
      Basics(s, s.current);
      SetGlobal(global + 1);
      if global >= BOOST {
        BoostTick(s);
        pick := Schedule();
        return;
      }
      GlobalOk(s, global);
      if procs[current].state != Running { return 0; }
      OnlyReadyQueued(sys, current);
      AccountOk(sys, current, Charge(procs[current]));
      var x := procs[current].(ticks := procs[current].ticks + 1);
      var expired := x.ticks >= Quantum(x.priority);
      if expired {
        x := x.(priority := if x.priority < LEVELS - 1 then x.priority + 1 else x.priority, ticks := 0);
      }
      procs := procs[current := x];
      ghost var g := sys;
      sys := SetProc(sys, current, x);
      SameWaits(waitNext, waitPrev, waitHeads, waitTails, g, sys);
      if expired { pick := Schedule(); } else { pick := 0; }
    }

    /** A new process enters the ring and the top ready queue. */
    method SpawnProcess(p: nat, pid: nat, parent: nat)
      requires Valid() && p != 0 && p !in procs
      modifies this
      ensures Valid() && sys == Spawn(old(sys), p, pid, parent)
    {
      hide Ring, SchedOk, ReadyTies, WaitTies, Disjoint, Scheduler.Enqueue, Fifo;
      ghost var s := sys;
      SpawnOk(s, p, pid, parent);
      NewcomerReady(s, p);
      Basics(s, p);
      procs := procs[p := Proc(Ready, 0, 0, parent, pid, 0)];
      EnqueueProcess(p);
      sys := s.(procs := procs, ring := s.ring + [p]);
      SameWaits(waitNext, waitPrev, waitHeads, waitTails, s, sys);
      EnqueueNew(p);
    }

    /** Looks for the first dead child of the current process, walking the ring. */
    method FindChild(only: Option<nat>) returns (found: nat, hasChildren: bool, ghost at: nat)
      requires Valid()
      ensures FindDead(sys, sys.ring, sys.current, only) == if found == 0 then None else Some(found)
      ensures found != 0 ==> at < |sys.ring| && sys.ring[at] == found && hasChildren
      ensures found == 0 ==> (hasChildren <==> exists c :: c in sys.procs && sys.procs[c].parent == sys.current)
    {
      hide Ring, SchedOk, ReadyTies, WaitTies, FindDead, AnyChild, DeadChild, Fifo;
      ghost var s, q := sys, sys.ring;
      Basics(s, s.current);
      RingMembers(s);
      RingStart(ringNext, ringPrev, processQueue, q);
      var count := CountRing();
      var node := processQueue;
      hasChildren, found, at := false, 0, 0;
      var i := 0;
      assert q[0..] == q && q[..0] == [];
      AnyChildEnds(s, current);
      while i < count && found == 0
        invariant i <= count == |q| && node == (if i < count then q[i] else q[0])
        invariant hasChildren <==> AnyChild(s, q[..i], current)
        invariant found == 0 ==> FindDead(s, q, current, only) == FindDead(s, q[i..], current, only)
        invariant found != 0 ==> hasChildren && at < |q| && q[at] == found && FindDead(s, q, current, only) == Some(found)
        decreases count - i
      {
        RingWalk(ringNext, ringPrev, processQueue, q, i);
        FindStep(s, q, i, current, only);
        AnyChildStep(s, q, i, current, only);
        var cand := node;
        node := ringNext[node];
        if procs[cand].parent == current {
          hasChildren := true;
          if procs[cand].state == Dead && (only.None? || only.value == procs[cand].pid) {
            found, at := cand, i;
          }
        }
        i := i + 1;
      }
      FindNone(s, current, only);
      if i == count { assert q[i..] == [] && q[..i] == q; }
    }

    /** wait_reap_child for the current process: the pid and exit status of a reaped
        child, 0 if every child still lives, -1 if there is none. */
    method WaitReapChild(only: Option<nat>) returns (r: int, status: int)
      requires Valid() && Active(sys)
      modifies this`procs, this`ringNext, this`ringPrev, this`processQueue, this`sys
      ensures Valid() && sys == ReapChild(old(sys), only)
      ensures var s := old(sys); var c := FindDead(s, s.ring, s.current, only);
        if c.Some? then c.value in s.procs && r == s.procs[c.value].pid && status == s.procs[c.value].code
        else r == if exists x :: x in s.procs && s.procs[x].parent == s.current then 0 else -1
    {
      hide Ring, SchedOk, ReadyTies, WaitTies, FindDead, Remove, Fifo, Kernel.Ties;
      ghost var s := sys;
      var found, hasChildren, at := FindChild(only);
      if found == 0 {
        return if hasChildren then 0 else -1, 0;
      }
      ReapChildOk(s, only);
      Basics(s, found);
      ProcsAre();
      r, status := procs[found].pid, procs[found].code;
      RemoveChild(found, at);
    }

    lemma ProcsAre()
      requires Ties()
      ensures procs == sys.procs
    {
    }

    method RemoveChild(found: nat, ghost at: nat)
      requires Valid() && at < |sys.ring| && sys.ring[at] == found
      modifies this`procs, this`ringNext, this`ringPrev, this`processQueue, this`sys
      ensures Ties() && sys == old(sys).(ring := Remove(old(sys).ring, found), procs := old(sys).procs - {found})
    {
      hide Ring, SchedOk, ReadyTies, WaitTies, Remove, Fifo;
      ghost var s := sys;
      RingMembers(s);
      RemoveIndex(s.ring, at);
      Unlink(found, s.ring, at);
      procs := procs - {found};
      sys := s.(ring := Remove(s.ring, found), procs := procs);
      SameWaits(waitNext, waitPrev, waitHeads, waitTails, s, sys);
    }
  }

  lemma ReadySize(s: Sched)
    requires SchedOk(s)
    ensures |s.ready| == LEVELS
  {
  }

  lemma SameWaits(next: Links, prev: Links, hs: map<nat, nat>, ts: map<nat, nat>, s: Sched, t: Sched)
    requires WaitTies(next, prev, hs, ts, s) && t.waits == s.waits
    ensures WaitTies(next, prev, hs, ts, t)
  {
    forall w ensures Fifo(next, prev, At(hs, w), At(ts, w), Parked(t, w)) { assert Parked(t, w) == Parked(s, w); }
  }

  // ----- Emptying one level into level 0

  /** The first k processes of level i have moved to level 0. */
  ghost function Drained(s: Sched, i: nat, k: nat): Sched
    requires |s.ready| == LEVELS && 1 <= i < LEVELS && k <= |s.ready[i]|
  {
    var q := s.ready[i];
    s.(ready := s.ready[0 := s.ready[0] + q[..k]][i := q[k..]],
       procs := map p | p in s.procs :: if p in q[..k] then s.procs[p].(state := Ready, priority := 0, ticks := 0) else s.procs[p])
  }

  ghost predicate Draining(next: Links, prev: Links, heads: seq<nat>, tails: seq<nat>, s: Sched, i: nat, k: nat)
    requires |s.ready| == LEVELS && 1 <= i < LEVELS && k <= |s.ready[i]|
  {
    && |heads| == |tails| == LEVELS && Forward(next, heads[i], s.ready[i][k..])
    && forall j: nat {:trigger Fifo(next, prev, heads[j], tails[j], Drained(s, i, k).ready[j])} | j < LEVELS && j != i ::
      Fifo(next, prev, heads[j], tails[j], Drained(s, i, k).ready[j])
  }

  lemma DrainBegins(next: Links, prev: Links, heads: seq<nat>, tails: seq<nat>, s: Sched, i: nat)
    requires SchedOk(s) && ReadyTies(next, prev, heads, tails, s.ready) && 1 <= i < LEVELS
    ensures Draining(next, prev, heads, tails, s, i, 0) && Drained(s, i, 0).procs == s.procs
  {
    hide SchedOk, Fifo, Forward;
    assert Fifo(next, prev, heads[i], tails[i], s.ready[i]);
    FifoForward(next, prev, heads[i], tails[i], s.ready[i]);
    assert s.ready[i][0..] == s.ready[i] && s.ready[0] + s.ready[i][..0] == s.ready[0];
    forall j: nat | j < LEVELS && j != i ensures Fifo(next, prev, heads[j], tails[j], Drained(s, i, 0).ready[j]) {
      assert Fifo(next, prev, heads[j], tails[j], s.ready[j]);
    }
  }

  lemma DrainSteps(next: Links, prev: Links, heads: seq<nat>, tails: seq<nat>, s: Sched, i: nat, k: nat)
    requires SchedOk(s) && 1 <= i < LEVELS && k <= |s.ready[i]| && Draining(next, prev, heads, tails, s, i, k) && heads[i] != 0
    ensures k < |s.ready[i]| && heads[i] in next && heads[i] in Drained(s, i, k).procs && Drained(s, i, k).procs[heads[i]].state == Ready
    ensures heads[0] == 0 <==> tails[0] == 0
    ensures var p := heads[i];
      && Drained(s, i, k).procs[p := Drained(s, i, k).procs[p].(state := Ready, priority := 0, ticks := 0)] == Drained(s, i, k + 1).procs
      && Draining(PushNext(next, tails[0], p), prev[p := tails[0]],
        heads[i := next[p]][0 := if heads[0] == 0 then p else heads[0]], tails[0 := p], s, i, k + 1)
  {
    hide SchedOk, Fifo, PushNext;
    ReadySize(s);
    var q, p := s.ready[i], heads[i];
    var d, e := Drained(s, i, k), Drained(s, i, k + 1);
    DrainFacts(s, i, k);
    assert Fifo(next, prev, heads[0], tails[0], d.ready[0]);
    TailIs(next, prev, heads[0], tails[0], d.ready[0]);
    FifoPush(next, prev, heads[0], tails[0], d.ready[0], p);
    ForwardStep(next, p, q[k..], tails[0], d.ready[0]);
    assert q[k..][1..] == q[k + 1..];
    var n, v := PushNext(next, tails[0], p), prev[p := tails[0]];
    var hs, ts := heads[i := next[p]][0 := if heads[0] == 0 then p else heads[0]], tails[0 := p];
    forall j: nat | j < LEVELS && j != i ensures Fifo(n, v, hs[j], ts[j], e.ready[j]) {
      assert Fifo(next, prev, heads[j], tails[j], d.ready[j]);
      if j != 0 { FifoPushOther(next, prev, heads[j], tails[j], d.ready[j], tails[0], d.ready[0], p); }
    }
  }

  lemma DrainFacts(s: Sched, i: nat, k: nat)
    requires SchedOk(s) && 1 <= i < LEVELS && k < |s.ready[i]|
    ensures var q, d, e := s.ready[i], Drained(s, i, k), Drained(s, i, k + 1);
      && q[k] in d.procs && d.procs[q[k]].state == Ready && q[k] !in d.ready[0] && d.ready[0] + [q[k]] == e.ready[0]
      && d.procs[q[k] := d.procs[q[k]].(state := Ready, priority := 0, ticks := 0)] == e.procs
      && (forall x | x in q[k..] :: x !in d.ready[0])
      && (forall j: nat, x | 0 < j < LEVELS && j != i && x in d.ready[j] :: x !in d.ready[0] && x != q[k])
  {
    hide Drained, SchedOk, ReadyOk;
    DrainQueues(s, i, k);
    DrainProcs(s, i, k);
  }

  lemma DrainQueues(s: Sched, i: nat, k: nat)
    requires SchedOk(s) && 1 <= i < LEVELS && k < |s.ready[i]|
    ensures var q, d, e := s.ready[i], Drained(s, i, k), Drained(s, i, k + 1);
      && q[k] !in d.ready[0] && d.ready[0] + [q[k]] == e.ready[0]
      && (forall x | x in q[k..] :: x !in d.ready[0])
      && (forall j: nat, x | 0 < j < LEVELS && j != i && x in d.ready[j] :: x !in d.ready[0] && x != q[k])
  {
    var q, d := s.ready[i], Drained(s, i, k);
    assert ReadyOk(s, i) && ReadyOk(s, 0);
    assert q[k] in q && q[..k + 1] == q[..k] + [q[k]] && q == q[..k] + q[k..];
    forall j: nat, x | 0 < j < LEVELS && j != i && x in d.ready[j] ensures x !in d.ready[0] && x != q[k] { assert ReadyOk(s, j); }
  }

  lemma DrainProcs(s: Sched, i: nat, k: nat)
    requires SchedOk(s) && 1 <= i < LEVELS && k < |s.ready[i]|
    ensures var q, d, e := s.ready[i], Drained(s, i, k), Drained(s, i, k + 1);
      && q[k] in d.procs && d.procs[q[k]].state == Ready
      && d.procs[q[k] := d.procs[q[k]].(state := Ready, priority := 0, ticks := 0)] == e.procs
  {
    var q := s.ready[i];
    assert ReadyOk(s, i);
    hide SchedOk;
    assert q[k] in q && q[..k + 1] == q[..k] + [q[k]];
  }

  lemma DrainEnds(next: Links, prev: Links, heads: seq<nat>, tails: seq<nat>, s: Sched, i: nat, k: nat)
    requires SchedOk(s) && 1 <= i < LEVELS && k <= |s.ready[i]| && Draining(next, prev, heads, tails, s, i, k) && heads[i] == 0
    ensures k == |s.ready[i]| && ReadyTies(next, prev, heads, tails[i := 0], Drained(s, i, k).ready)
    ensures Drained(s, i, k) == s.(ready := Drained(s, i, k).ready, procs := Drained(s, i, k).procs)
  {
    hide SchedOk;
    ReadySize(s);
    var q := s.ready[i];
    if k < |q| { assert false; }
    forall j: nat | j < LEVELS ensures Fifo(next, prev, heads[j], tails[i := 0][j], Drained(s, i, k).ready[j]) {
      if j != i { assert Fifo(next, prev, heads[j], tails[j], Drained(s, i, k).ready[j]); }
    }
  }

  lemma DrainedOk(s: Sched, i: nat)
    requires SchedOk(s) && 1 <= i < LEVELS
    ensures SchedOk(Drained(s, i, |s.ready[i]|))
  {
    hide Quantum;
    var q := s.ready[i];
    var t := Drained(s, i, |q|);
    assert q[..|q|] == q && ReadyOk(s, i) && ReadyOk(s, 0);
    JoinNoDup(s.ready[0], q);
    forall j: nat | j < LEVELS ensures ReadyOk(t, j) { assert ReadyOk(s, j); }
    SameParked(s, t);
    assert Quantum(0) > 0 by { QuantumIs(0); }
    forall p | p in t.procs ensures ProcOk(t, p) { assert ProcOk(s, p); }
  }

  /** Emptying levels 1, 2 and 3 in turn is the boost. */
  lemma DrainAll(s: Sched)
    requires SchedOk(s)
    ensures var a := Drained(s, 1, |s.ready[1]|); var b := Drained(a, 2, |a.ready[2]|);
      Drained(b, 3, |b.ready[3]|) == Scheduler.BoostAll(s)
  {
    var a := Drained(s, 1, |s.ready[1]|);
    var b := Drained(a, 2, |a.ready[2]|);
    var c, d := Drained(b, 3, |b.ready[3]|), Scheduler.BoostAll(s);
    assert a.ready[2] == s.ready[2] && b.ready[3] == s.ready[3];
    DrainedProcs(s);
    hide SchedOk;
    assert c.ready[0] == d.ready[0];
    assert |c.ready| == 4 && c.ready[1] == [] && c.ready[2] == [] && c.ready[3] == [];
  }

  lemma DrainedProcs(s: Sched)
    requires |s.ready| == LEVELS
    ensures var a := Drained(s, 1, |s.ready[1]|); var b := Drained(a, 2, |a.ready[2]|);
      Drained(b, 3, |b.ready[3]|).procs == Scheduler.BoostAll(s).procs
  {
    var a := Drained(s, 1, |s.ready[1]|);
    var b := Drained(a, 2, |a.ready[2]|);
    assert s.ready[1][..|s.ready[1]|] == s.ready[1] && a.ready[2][..|a.ready[2]|] == s.ready[2] && b.ready[3][..|b.ready[3]|] == s.ready[3];
  }

  // ----- Wait queues

  lemma PushWaits(next: Links, prev: Links, heads: map<nat, nat>, tails: map<nat, nat>, s: Sched, w: nat, p: nat)
    requires WaitTies(next, prev, heads, tails, s) && p != 0 && forall v :: p !in Parked(s, v) && Apart(s, v, w)
    ensures var tail := At(tails, w);
      WaitTies(PushNext(next, tail, p), prev[p := tail], if tail == 0 then heads[w := p] else heads, tails[w := p],
        s.(waits := s.waits[w := Parked(s, w) + [p]]))
  {
    hide Fifo;
    var tail := At(tails, w);
    var n, v, hs, ts := PushNext(next, tail, p), prev[p := tail], if tail == 0 then heads[w := p] else heads, tails[w := p];
    var t := s.(waits := s.waits[w := Parked(s, w) + [p]]);
    FifoPush(next, prev, At(heads, w), tail, Parked(s, w), p);
    TailIs(next, prev, At(heads, w), tail, Parked(s, w));
    forall u ensures Fifo(n, v, At(hs, u), At(ts, u), Parked(t, u)) {
      assert Apart(s, u, w) && p !in Parked(s, u);
      if u != w { FifoPushOther(next, prev, At(heads, u), At(tails, u), Parked(s, u), tail, Parked(s, w), p); }
    }
  }

  lemma PopWaits(next: Links, prev: Links, heads: map<nat, nat>, tails: map<nat, nat>, s: Sched, w: nat)
    requires WaitTies(next, prev, heads, tails, s) && forall v {:trigger Apart(s, w, v)} :: Apart(s, w, v)
    ensures var p, q := At(heads, w), Parked(s, w);
      && p == First(q) && (p == 0 <==> q == [])
      && (p != 0 ==> p in next && WaitTies(PopNext(next, p), PopPrev(prev, next[p], p), heads[w := next[p]],
        if next[p] == 0 then tails[w := 0] else tails, s.(waits := s.waits[w := q[1..]])))
  {
    hide Fifo;
    var p, q := At(heads, w), Parked(s, w);
    TailIs(next, prev, p, At(tails, w), q);
    if p != 0 {
      FifoPop(next, prev, p, At(tails, w), q);
      var second := next[p];
      var n, v, hs, ts := PopNext(next, p), PopPrev(prev, second, p), heads[w := second], if second == 0 then tails[w := 0] else tails;
      var t := s.(waits := s.waits[w := q[1..]]);
      forall u ensures Fifo(n, v, At(hs, u), At(ts, u), Parked(t, u)) {
        assert Apart(s, w, u) && Fifo(next, prev, At(heads, u), At(tails, u), Parked(s, u));
        if u != w { FifoPopOther(next, prev, q, At(heads, u), At(tails, u), Parked(s, u), second); }
      }
    }
  }

  lemma HeadWaits(next: Links, prev: Links, heads: map<nat, nat>, tails: map<nat, nat>, s: Sched, w: nat)
    requires WaitTies(next, prev, heads, tails, s)
    ensures At(heads, w) == 0 <==> Parked(s, w) == []
  {
    TailIs(next, prev, At(heads, w), At(tails, w), Parked(s, w));
  }

  /** The longest waiting process is on no ready queue. */
  lemma WakeReady(s: Sched, w: nat)
    requires SchedOk(s)
    ensures forall v {:trigger Apart(s, w, v)} :: Apart(s, w, v)
    ensures Parked(s, w) != [] ==>
      var p := Parked(s, w)[0];
      p in s.procs && s.procs[p].state != Dead && s.procs[p].priority < LEVELS
      && forall j: nat | j < LEVELS :: p !in s.ready[j] && Disjoint(s.ready, j, s.procs[p].priority)
  {
    forall v ensures Apart(s, w, v) {}
    assert ParkedOk(s, w);
    if Parked(s, w) != [] {
      var p := Parked(s, w)[0];
      Basics(s, p);
      forall j: nat | j < LEVELS ensures p !in s.ready[j] && Disjoint(s.ready, j, s.procs[p].priority) {
        assert ReadyOk(s, j);
        ReadyDisjoint(s, j, s.procs[p].priority);
      }
    }
  }

  lemma ParkReady(s: Sched, w: nat)
    requires SchedOk(s) && Active(s)
    ensures s.current in s.procs && s.current != 0 && forall v :: s.current !in Parked(s, v) && Apart(s, v, w)
  {
    Basics(s, s.current);
    OnlyReadyQueued(s, s.current);
  }

  // ----- The ring

  lemma RingStart(next: Links, prev: Links, head: nat, q: seq<nat>)
    requires Ring(next, prev, head, q) && q != []
    ensures head == q[0] && head != 0
  {
    assert RingNode(next, prev, q, 0);
  }

  lemma RingWalk(next: Links, prev: Links, head: nat, q: seq<nat>, i: nat)
    requires Ring(next, prev, head, q) && i < |q|
    ensures q[i] != 0 && q[i] in next && next[q[i]] == Succ(q, i)
  {
    assert RingNode(next, prev, q, i);
  }

  lemma RingApart(next: Links, prev: Links, head: nat, q: seq<nat>, i: nat)
    requires Ring(next, prev, head, q) && 0 < i < |q|
    ensures q[i] != q[0]
  {
  }

  /** The processes left once the orphans among q are freed. */
  ghost function Spared(s: Sched, q: seq<nat>): map<nat, Proc> {
    map p | p in s.procs && !(Orphan(s, p) && p in q) :: s.procs[p]
  }

  lemma ReapBegins(s: Sched)
    ensures Survivors(s, s.ring[..0]) + s.ring[0..] == s.ring && Spared(s, s.ring[..0]) == s.procs
  {
  }

  lemma ReapSteps(s: Sched, next: Links, prev: Links, head: nat, i: nat)
    requires SchedOk(s) && i < |s.ring| && Ring(next, prev, head, Survivors(s, s.ring[..i]) + s.ring[i..])
    ensures var q, v, before := s.ring, s.ring[i], Survivors(s, s.ring[..i]);
      var r := before + q[i..];
      && v in next && (i + 1 < |q| ==> next[v] == q[i + 1]) && r[|before|] == v && |before| < |r|
      && Survivors(s, q[..i + 1]) + q[i + 1..] == (if Orphan(s, v) then r[..|before|] + r[|before| + 1..] else r)
      && Survivors(s, q[..i + 1]) + q[i + 1..] != []
  {
    hide Ring, SchedOk, Survivors, Orphan;
    var q, v, before := s.ring, s.ring[i], Survivors(s, s.ring[..i]);
    var r := before + q[i..];
    RingWalk(next, prev, head, r, |before|);
    SurvivorsStep(s, q, i);
    Around(before, q, i);
    ReapKeepsCurrent(s, i + 1);
  }

  /** Node i of q behind the list b, kept and taken out. */
  lemma Around(b: seq<nat>, q: seq<nat>, i: nat)
    requires i < |q|
    ensures var r := b + q[i..];
      && |b| < |r| && r[|b|] == q[i] && (i + 1 < |q| ==> |b| + 1 < |r| && r[|b| + 1] == q[i + 1])
      && (b + [q[i]]) + q[i + 1..] == r && (b + []) + q[i + 1..] == r[..|b|] + r[|b| + 1..]
  {
    assert q[i..] == [q[i]] + q[i + 1..];
  }

  lemma SurvivorsStep(s: Sched, q: seq<nat>, i: nat)
    requires i < |q|
    ensures Survivors(s, q[..i + 1]) == Survivors(s, q[..i]) + (if Orphan(s, q[i]) then [] else [q[i]])
  {
    assert q[..i + 1][..i] == q[..i];
  }

  lemma ReapKeepsCurrent(s: Sched, i: nat)
    requires SchedOk(s) && i <= |s.ring|
    ensures Survivors(s, s.ring[..i]) + s.ring[i..] != []
  {
    hide Survivors;
    Basics(s, s.current);
    SurvivorsAre(s, s.ring[..i]);
    assert s.ring == s.ring[..i] + s.ring[i..];
  }

  lemma SparedSteps(s: Sched, i: nat)
    requires SchedOk(s) && i < |s.ring|
    ensures var q, v := s.ring, s.ring[i];
      && v in s.procs && v in Spared(s, q[..i]) && Spared(s, q[..i])[v] == s.procs[v]
      && Spared(s, q[..i + 1]) == (if Orphan(s, v) then Spared(s, q[..i]) - {v} else Spared(s, q[..i]))
  {
    hide SchedOk;
    var q, v := s.ring, s.ring[i];
    RingMembers(s);
    assert q[..i + 1] == q[..i] + [v] && v !in q[..i];
  }

  lemma RingMembers(s: Sched)
    requires SchedOk(s)
    ensures NoDup(s.ring) && forall p :: p in s.ring <==> p in s.procs
  {
  }

  lemma ReapEnds(s: Sched)
    requires SchedOk(s)
    ensures var q := s.ring; Scheduler.ReapZombies(s) == s.(ring := Survivors(s, q[..|q|]) + q[|q|..], procs := Spared(s, q[..|q|]))
  {
    assert s.ring[..|s.ring|] == s.ring;
  }

  /** A blocked or running process is on no ready queue. */
  lemma EnqueueReady(s: Sched, p: nat)
    requires SchedOk(s) && p in s.procs && s.procs[p].state in {Blocked, Running} && p != s.idle
    ensures p != 0 && s.procs[p].priority < LEVELS && |s.ready| == LEVELS
    ensures forall j: nat | j < LEVELS :: p !in s.ready[j] && Disjoint(s.ready, j, s.procs[p].priority)
    ensures SchedOk(Scheduler.Enqueue(s, p))
  {
    Basics(s, p);
    OnlyReadyQueued(s, p);
    forall j: nat | j < LEVELS ensures p !in s.ready[j] && Disjoint(s.ready, j, s.procs[p].priority) {
      assert ReadyOk(s, j);
      ReadyDisjoint(s, j, s.procs[p].priority);
    }
    SchedIsOkBut(s, p);
    EnqueueOk(s, p);
  }

  lemma NewcomerReady(s: Sched, p: nat)
    requires SchedOk(s) && p !in s.procs
    ensures |s.ready| == LEVELS && forall j: nat | j < LEVELS :: p !in s.ready[j] && Disjoint(s.ready, j, 0)
  {
    forall j: nat | j < LEVELS ensures p !in s.ready[j] && Disjoint(s.ready, j, 0) {
      assert ReadyOk(s, j);
      ReadyDisjoint(s, j, 0);
    }
  }

  lemma FindStep(s: Sched, q: seq<nat>, i: nat, parent: nat, only: Option<nat>)
    requires i < |q|
    ensures FindDead(s, q[i..], parent, only) == if DeadChild(s, q[i], parent, only) then Some(q[i]) else FindDead(s, q[i + 1..], parent, only)
  {
    assert q[i..][1..] == q[i + 1..];
  }

  ghost predicate AnyChild(s: Sched, q: seq<nat>, parent: nat) { exists c :: c in q && c in s.procs && s.procs[c].parent == parent }

  lemma AnyChildStep(s: Sched, q: seq<nat>, i: nat, parent: nat, only: Option<nat>)
    requires i < |q| && forall p :: p in q <==> p in s.procs
    ensures q[i] in s.procs && (AnyChild(s, q[..i + 1], parent) <==> AnyChild(s, q[..i], parent) || s.procs[q[i]].parent == parent)
    ensures DeadChild(s, q[i], parent, only) <==>
      s.procs[q[i]].parent == parent && s.procs[q[i]].state == Dead && (only.None? || only.value == s.procs[q[i]].pid)
  {
    assert q[i] in q && q[..i + 1] == q[..i] + [q[i]];
  }

  lemma AnyChildEnds(s: Sched, parent: nat)
    requires forall p :: p in s.ring <==> p in s.procs
    ensures !AnyChild(s, [], parent) && (AnyChild(s, s.ring, parent) <==> exists c :: c in s.procs && s.procs[c].parent == parent)
  {
  }

  lemma FindNone(s: Sched, parent: nat, only: Option<nat>)
    ensures FindDead(s, [], parent, only) == None
  {
  }

  lemma BootStateOk(p: nat, pid: nat)
    requires p != 0
    ensures SchedOk(Sched(map[p := Proc(Running, 3, 0, 0, pid, 0)], [p], [[], [], [], []], map[], p, p, 0))
  {
    var s := Sched(map[p := Proc(Running, 3, 0, 0, pid, 0)], [p], [[], [], [], []], map[], p, p, 0);
    forall i: nat | i < LEVELS ensures ReadyOk(s, i) {}
    forall w ensures ParkedOk(s, w) {}
    forall v, w ensures Apart(s, v, w) {}
  }
}
