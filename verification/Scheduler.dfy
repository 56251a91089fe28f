/** The multi-level feedback queue, the wait queues and the process ring, on values. */
module Scheduler {
  import opened Sequences
  import opened Types

  const LEVELS: nat := 4
  const BOOST: nat := 100

  function Quantum(level: nat): nat { 2 + 2 * level }

  /** Waiting stands for the three states of a process parked on a wait queue. */
  datatype State = Ready | Running | Blocked | Waiting | Dead

  /** parent 0 is the null pointer; code is the exit status of a dead process. */
  datatype Proc = Proc(state: State, priority: nat, ticks: nat, parent: nat, pid: nat, code: int)

  datatype Sched = Sched(procs: map<nat, Proc>, ring: seq<nat>, ready: seq<seq<nat>>, waits: map<nat, seq<nat>>,
                         current: nat, idle: nat, global: nat)

  function Parked(s: Sched, w: nat): seq<nat> { if w in s.waits then s.waits[w] else [] }

  predicate Queued(s: Sched, p: nat)
    requires |s.ready| == LEVELS
  {
    p in s.ready[0] || p in s.ready[1] || p in s.ready[2] || p in s.ready[3]
  }

  // ----- What every reachable state satisfies

  ghost predicate ReadyOk(s: Sched, i: nat)
    requires i < |s.ready|
  {
    NoDup(s.ready[i]) && forall p | p in s.ready[i] :: p in s.procs && s.procs[p].state == Ready && s.procs[p].priority == i
  }

  ghost predicate ParkedOk(s: Sched, w: nat) {
    NoDup(Parked(s, w)) && forall p | p in Parked(s, w) :: p in s.procs && s.procs[p].state == Waiting
  }

  ghost predicate Apart(s: Sched, v: nat, w: nat) {
    v != w ==> forall p | p in Parked(s, v) :: p !in Parked(s, w)
  }

  ghost predicate ProcOk(s: Sched, p: nat)
    requires p in s.procs
  {
    var x := s.procs[p];
    && p != 0 && x.priority < LEVELS && x.ticks < Quantum(x.priority)
    && (x.state == Running ==> p == s.current || p == s.idle)
    && (x.state == Waiting ==> exists w :: p in Parked(s, w))
  }

  ghost predicate RingIs(s: Sched) {
    NoDup(s.ring) && forall p :: p in s.ring <==> p in s.procs
  }

  ghost predicate SchedOk(s: Sched) {
    && |s.ready| == LEVELS && s.global < BOOST && RingIs(s)
    && s.current in s.procs && s.idle in s.procs && s.procs[s.idle].state == Running
    && (forall i: nat {:trigger ReadyOk(s, i)} | i < LEVELS :: ReadyOk(s, i))
    && (forall w {:trigger ParkedOk(s, w)} :: ParkedOk(s, w))
    && (forall v, w {:trigger Apart(s, v, w)} :: Apart(s, v, w))
    && (forall p {:trigger ProcOk(s, p)} | p in s.procs :: ProcOk(s, p))
  }

  /** A process is at one place at most: one index of one ready queue or of one wait
      queue; and a dead process is nowhere. */
  lemma OnePlace(s: Sched, p: nat, i: nat, j: nat, v: nat, w: nat)
    requires SchedOk(s) && i < LEVELS && j < LEVELS
    ensures p in s.ready[i] && p in s.ready[j] ==> i == j
    ensures p in Parked(s, v) && p in Parked(s, w) ==> v == w
    ensures !(p in s.ready[i] && p in Parked(s, w))
    ensures p in s.procs && s.procs[p].state == Dead ==> p !in s.ready[i] && p !in Parked(s, w)
    ensures forall m, n | 0 <= m < n < |s.ready[i]| :: s.ready[i][m] != s.ready[i][n]
    ensures forall m, n | 0 <= m < n < |Parked(s, w)| :: Parked(s, w)[m] != Parked(s, w)[n]
  {
    assert ReadyOk(s, i) && ReadyOk(s, j) && ParkedOk(s, w) && Apart(s, v, w);
  }

  // ----- Operations

  function SetProc(s: Sched, p: nat, x: Proc): Sched { s.(procs := s.procs[p := x]) }

  /** mlfq_enqueue: a dead process stays out. */
  function Enqueue(s: Sched, p: nat): Sched {
    if p !in s.procs || s.procs[p].state == Dead || s.procs[p].priority >= |s.ready| then s
    else
      var i := s.procs[p].priority;
      s.(procs := s.procs[p := s.procs[p].(state := Ready)], ready := s.ready[i := s.ready[i] + [p]])
  }

  /** The first non-empty level from i on. */
  function Level(ready: seq<seq<nat>>, i: nat): (r: nat)
    ensures i <= r && (i <= |ready| ==> r <= |ready|)
    ensures r < |ready| ==> ready[r] != []
    ensures forall j | i <= j < r && j < |ready| :: ready[j] == []
    decreases |ready| - i
  {
    if i >= |ready| || ready[i] != [] then i else Level(ready, i + 1)
  }

  /** mlfq_pick_next */
  function Pick(s: Sched): (Sched, Option<nat>) {
    var i := Level(s.ready, 0);
    if i >= |s.ready| then (s, None) else (s.(ready := s.ready[i := s.ready[i][1..]]), Some(s.ready[i][0]))
  }

  /** mlfq_boost_all: every queued process moves to level 0, in level order. */
  function BoostAll(s: Sched): Sched
    requires |s.ready| == LEVELS
  {
    var low := s.ready[1] + s.ready[2] + s.ready[3];
    s.(ready := [s.ready[0] + low, [], [], []],
       procs := map p | p in s.procs :: if p in low then s.procs[p].(state := Ready, priority := 0, ticks := 0) else s.procs[p])
  }

  /** wait_queue_pop followed by mlfq_enqueue. */
  function WakeOne(s: Sched, w: nat): Sched {
    var q := Parked(s, w);
    if q == [] then s else Enqueue(s.(waits := s.waits[w := q[1..]]), q[0])
  }

  /** wake_all */
  function WakeAll(s: Sched, w: nat): Sched
    decreases |Parked(s, w)|
  {
    if Parked(s, w) == [] then s else WakeAll(WakeOne(s, w), w)
  }

  /** wake_blocked_processes over the first n ring nodes. */
  function WakeBlocked(s: Sched, n: nat): Sched
    requires n <= |s.ring|
    ensures WakeBlocked(s, n).ring == s.ring && WakeBlocked(s, n).current == s.current
  {
    if n == 0 then s
    else
      var t, p := WakeBlocked(s, n - 1), s.ring[n - 1];
      if p != s.current && p in t.procs && t.procs[p].state == Blocked then Enqueue(t, p) else t
  }

  predicate Orphan(s: Sched, p: nat) {
    p in s.procs && s.procs[p].state == Dead && p != s.current && s.procs[p].parent == 0
  }

  function Survivors(s: Sched, q: seq<nat>): seq<nat> {
    if q == [] then [] else Survivors(s, q[..|q| - 1]) + (if Orphan(s, q[|q| - 1]) then [] else [q[|q| - 1]])
  }

  /** reap_zombies */
  function ReapZombies(s: Sched): Sched {
    s.(ring := Survivors(s, s.ring), procs := map p | p in s.procs && !Orphan(s, p) :: s.procs[p])
  }

  /** Everything schedule does before it picks. */
  function Prepare(s: Sched): Sched {
    var t := ReapZombies(s);
    var u := WakeBlocked(t, |t.ring|);
    if u.current in u.procs && u.procs[u.current].state == Running && u.current != u.idle then Enqueue(u, u.current) else u
  }

  /** schedule_locked: also says which process was picked, if any was queued. */
  function Schedule(s: Sched): (Sched, Option<nat>) {
    var (t, pick) := Pick(Prepare(s));
    var next := if pick.None? then t.idle else pick.value;
    if next == t.current || next !in t.procs then (t, pick)
    else (t.(current := next, procs := t.procs[next := t.procs[next].(state := Running)]), pick)
  }

  /** A tick that neither boosts nor ends a time slice. */
  function Charge(x: Proc): Proc {
    if x.ticks + 1 >= Quantum(x.priority)
    then x.(priority := if x.priority < LEVELS - 1 then x.priority + 1 else x.priority, ticks := 0)
    else x.(ticks := x.ticks + 1)
  }

  function Boosted(s: Sched): Sched
    requires |s.ready| == LEVELS && s.current in s.procs
  {
    var t := BoostAll(s.(global := 0));
    if t.current != t.idle then SetProc(t, t.current, t.procs[t.current].(priority := 0, ticks := 0)) else t
  }

  /** mlfq_on_tick */
  function Tick(s: Sched): (Sched, Option<nat>)
    requires |s.ready| == LEVELS && s.current in s.procs
  {
    var g := s.(global := s.global + 1);
    var x := s.procs[s.current];
    if s.global + 1 >= BOOST then Schedule(Boosted(s))
    else if x.state != Running then (g, None)
    else
      var t := SetProc(g, s.current, Charge(x));
      if x.ticks + 1 >= Quantum(x.priority) then Schedule(t) else (t, None)
  }

  /** enqueue_process and mlfq_enqueue of a new process. */
  function Spawn(s: Sched, p: nat, pid: nat, parent: nat): Sched {
    Enqueue(s.(procs := s.procs[p := Proc(Ready, 0, 0, parent, pid, 0)], ring := s.ring + [p]), p)
  }

  /** A process that parks itself, then will call schedule. */
  function Park(s: Sched, w: nat): Sched
    requires s.current in s.procs
  {
    SetProc(s, s.current, s.procs[s.current].(state := Waiting)).(waits := s.waits[w := Parked(s, w) + [s.current]])
  }

  function Become(s: Sched, x: State, code: int): Sched
    requires s.current in s.procs
  {
    SetProc(s, s.current, s.procs[s.current].(state := x, code := code))
  }

  predicate DeadChild(s: Sched, c: nat, parent: nat, only: Option<nat>) {
    c in s.procs && s.procs[c].parent == parent && s.procs[c].state == Dead && (only.None? || only.value == s.procs[c].pid)
  }

  /** wait_reap_child: the first dead child in ring order. */
  function FindDead(s: Sched, q: seq<nat>, parent: nat, only: Option<nat>): (r: Option<nat>)
    ensures r.Some? ==> r.value in q && DeadChild(s, r.value, parent, only)
    ensures r.None? ==> forall c | c in q :: !DeadChild(s, c, parent, only)
  {
    if q == [] then None else if DeadChild(s, q[0], parent, only) then Some(q[0]) else FindDead(s, q[1..], parent, only)
  }

  function ReapChild(s: Sched, only: Option<nat>): Sched {
    var c := FindDead(s, s.ring, s.current, only);
    if c.None? then s else s.(ring := Remove(s.ring, c.value), procs := s.procs - {c.value})
  }
}
