/** Any number of processes reading from and writing to pipes, one loop pass at a
    time and in any order. */
module PipeTraffic {
  import opened Sequences
  import opened Types
  import opened PipeBuffer

  type PipeId = nat

  /** What a process is doing: nothing, or inside pipe_read / pipe_write. */
  datatype Task =
    | Idle
    | Reading(pipe: PipeId, want: nat, got: seq<byte>)
    | Writing(pipe: PipeId, data: seq<byte>, done: nat)

  /** A pipe with everything that ever went in and out of it. */
  datatype Channel = Channel(pipe: Pipe, sent: seq<byte>, received: seq<byte>)

  type Tasks = map<Pid, Task>

  predicate ReadsFrom(t: Task, x: PipeId) { t.Reading? && t.pipe == x }
  predicate WritesTo(t: Task, x: PipeId) { t.Writing? && t.pipe == x }

  /** Readers of x that were woken and have not run since. */
  ghost function WokenReaders(tasks: Tasks, woken: set<Pid>, x: PipeId): set<Pid> {
    set p | p in woken && p in tasks && ReadsFrom(tasks[p], x)
  }

  ghost function WokenWriters(tasks: Tasks, woken: set<Pid>, x: PipeId): set<Pid> {
    set p | p in woken && p in tasks && WritesTo(tasks[p], x)
  }

  /** A task on pipe x that has bytes left to move. */
  predicate Unfinished(t: Task, x: PipeId) {
    (ReadsFrom(t, x) ==> |t.got| < t.want) && (WritesTo(t, x) ==> t.done < |t.data|)
  }

  /** A parked reader still wants bytes and has not been woken. */
  ghost predicate ParkedReader(tasks: Tasks, woken: set<Pid>, x: PipeId, p: Pid) {
    p in tasks && ReadsFrom(tasks[p], x) && |tasks[p].got| < tasks[p].want && p !in woken
  }

  ghost predicate ParkedWriter(tasks: Tasks, woken: set<Pid>, x: PipeId, p: Pid) {
    p in tasks && WritesTo(tasks[p], x) && tasks[p].done < |tasks[p].data| && p !in woken
  }

  /** Nobody is parked for nothing: while a reader is parked there are at most as
      many buffered bytes as woken readers still to run, and the other way round
      for writers; and the other end is open. */
  ghost predicate NoLostWakeup(p: Pipe, tasks: Tasks, woken: set<Pid>, x: PipeId) {
    && (p.readWaiters != [] ==> p.writers > 0 && p.count <= |WokenReaders(tasks, woken, x)|)
    && (p.writeWaiters != [] ==> p.readers > 0 && SIZE - p.count <= |WokenWriters(tasks, woken, x)|)
  }

  ghost predicate QueuesOk(p: Pipe, tasks: Tasks, woken: set<Pid>, x: PipeId) {
    && NoDup(p.readWaiters) && NoDup(p.writeWaiters)
    && (forall i {:trigger p.readWaiters[i]} | 0 <= i < |p.readWaiters| :: ParkedReader(tasks, woken, x, p.readWaiters[i]))
    && (forall i {:trigger p.writeWaiters[i]} | 0 <= i < |p.writeWaiters| :: ParkedWriter(tasks, woken, x, p.writeWaiters[i]))
    && (forall w | w in woken && w in tasks :: Unfinished(tasks[w], x))
  }

  /** Bytes come out in the order they went in, none lost, none invented. */
  ghost predicate StreamOk(c: Channel) {
    RingOk(c.pipe) && c.sent == c.received + Buffered(c.pipe)
  }

  ghost predicate ChannelOk(c: Channel, tasks: Tasks, woken: set<Pid>, x: PipeId) {
    StreamOk(c) && QueuesOk(c.pipe, tasks, woken, x) && NoLostWakeup(c.pipe, tasks, woken, x)
  }

  // ----- One pass of a loop

  function Wake(woken: set<Pid>, me: Pid, w: Option<Pid>): set<Pid> {
    woken - {me} + (if w.Some? then {w.value} else {})
  }

  /** Process me runs one pass on channel c: its new channel, task and woken set. */
  function Pass(c: Channel, t: Task, woken: set<Pid>, me: Pid): (Channel, Task, set<Pid>)
    requires RingOk(c.pipe)
  {
    match t
    case Idle => (c, t, woken)
    case Reading(x, want, got) =>
      if |got| >= want then (c, Idle, woken - {me})
      else
        var r := ReadOnce(c.pipe, me);
        (match r.1
         case Moved(b, w) => (Channel(r.0, c.sent, c.received + [b]), t.(got := got + [b]), Wake(woken, me, w))
         case Ended => (c, Idle, woken - {me})
         case Parked => (c.(pipe := r.0), t, woken - {me}))
    case Writing(x, data, done) =>
      if done >= |data| then (c, Idle, woken - {me})
      else
        var r := WriteOnce(c.pipe, me, data[done]);
        (match r.1
         case Moved(b, w) => (Channel(r.0, c.sent + [b], c.received), t.(done := done + 1), Wake(woken, me, w))
         case Ended => (c, Idle, woken - {me})
         case Parked => (c.(pipe := r.0), t, woken - {me}))
  }

  ghost predicate Runnable(c: Channel, tasks: Tasks, me: Pid, x: PipeId) {
    && me in tasks && (ReadsFrom(tasks[me], x) || WritesTo(tasks[me], x))
    && me !in c.pipe.readWaiters && me !in c.pipe.writeWaiters
  }

  lemma PassKeepsStream(c: Channel, t: Task, woken: set<Pid>, me: Pid)
    requires StreamOk(c)
    ensures StreamOk(Pass(c, t, woken, me).0)
  {
    if t.Reading? && |t.got| < t.want {
      ReadTakesOldest(c.pipe, me);
      var r := ReadOnce(c.pipe, me);
      if r.1.Moved? {
        assert c.received + Buffered(c.pipe) == c.received + [r.1.b] + Buffered(r.0);
      }
    } else if t.Writing? && t.done < |t.data| {
      WriteAddsNewest(c.pipe, me, t.data[t.done]);
      var r := WriteOnce(c.pipe, me, t.data[t.done]);
      if r.1.Moved? {
        assert c.received + Buffered(r.0) == c.received + Buffered(c.pipe) + [r.1.b];
      }
    }
  }

  lemma PassKeepsQueues(c: Channel, tasks: Tasks, woken: set<Pid>, me: Pid, x: PipeId)
    requires ChannelOk(c, tasks, woken, x) && Runnable(c, tasks, me, x)
    ensures var r := Pass(c, tasks[me], woken, me); QueuesOk(r.0.pipe, tasks[me := r.1], r.2, x)
  {
    hide WokenReaders, WokenWriters, Buffered, RingOk, NoLostWakeup;
    var r := Pass(c, tasks[me], woken, me);
    var q, tasks' := r.0.pipe, tasks[me := r.1];
    forall i | 0 <= i < |q.readWaiters| ensures ParkedReader(tasks', r.2, x, q.readWaiters[i]) {
      if q.readWaiters[i] != me { assert q.readWaiters[i] in c.pipe.readWaiters; }
    }
    forall i | 0 <= i < |q.writeWaiters| ensures ParkedWriter(tasks', r.2, x, q.writeWaiters[i]) {
      if q.writeWaiters[i] != me { assert q.writeWaiters[i] in c.pipe.writeWaiters; }
    }
  }

  ghost predicate MayWake(tasks: Tasks, woken: set<Pid>, me: Pid, w: Option<Pid>, x: PipeId) {
    w.Some? ==> w.value in tasks && w.value !in woken && w.value != me && tasks[w.value] != Idle && tasks[w.value].pipe == x
  }

  ghost predicate SameKind(t: Task, u: Task, x: PipeId) {
    u == Idle || (ReadsFrom(t, x) && ReadsFrom(u, x)) || (WritesTo(t, x) && WritesTo(u, x))
  }

  lemma WokenAfter(tasks: Tasks, woken: set<Pid>, me: Pid, t: Task, w: Option<Pid>, x: PipeId)
    requires me in tasks && SameKind(tasks[me], t, x) && MayWake(tasks, woken, me, w, x)
    ensures var tasks', woken' := tasks[me := t], Wake(woken, me, w);
      && WokenReaders(tasks', woken', x) == WokenReaders(tasks, woken, x) - {me}
           + (if w.Some? && tasks[w.value].Reading? then {w.value} else {})
      && WokenWriters(tasks', woken', x) == WokenWriters(tasks, woken, x) - {me}
           + (if w.Some? && tasks[w.value].Writing? then {w.value} else {})
  {
  }

  lemma WokenCounts(tasks: Tasks, woken: set<Pid>, me: Pid, t: Task, w: Option<Pid>, x: PipeId)
    requires me in tasks && SameKind(tasks[me], t, x) && MayWake(tasks, woken, me, w, x)
    ensures var tasks', woken' := tasks[me := t], Wake(woken, me, w);
      && |WokenReaders(tasks', woken', x)| == |WokenReaders(tasks, woken, x)|
           - (if me in woken && ReadsFrom(tasks[me], x) then 1 else 0) + (if w.Some? && tasks[w.value].Reading? then 1 else 0)
      && |WokenWriters(tasks', woken', x)| == |WokenWriters(tasks, woken, x)|
           - (if me in woken && WritesTo(tasks[me], x) then 1 else 0) + (if w.Some? && tasks[w.value].Writing? then 1 else 0)
  {
    WokenAfter(tasks, woken, me, t, w, x);
    assert w.Some? ==> w.value !in WokenReaders(tasks, woken, x) && w.value !in WokenWriters(tasks, woken, x);
  }

  /** What the pass moved: did a byte move, and whom did it wake. */
  function Woke(c: Channel, t: Task): Option<Pid> {
    if t.Reading? && |t.got| < t.want && c.pipe.count > 0 then Head(c.pipe.writeWaiters)
    else if t.Writing? && t.done < |t.data| && c.pipe.readers > 0 && c.pipe.count < SIZE then Head(c.pipe.readWaiters)
    else None
  }

  lemma PassKeepsWakeups(c: Channel, tasks: Tasks, woken: set<Pid>, me: Pid, x: PipeId)
    requires ChannelOk(c, tasks, woken, x) && Runnable(c, tasks, me, x)
    ensures var r := Pass(c, tasks[me], woken, me); NoLostWakeup(r.0.pipe, tasks[me := r.1], r.2, x)
  {
    hide NoDup, Buffered, WokenReaders, WokenWriters;
    var p, t, r, w := c.pipe, tasks[me], Pass(c, tasks[me], woken, me), Woke(c, tasks[me]);
    if w.Some? { assert w.value == if t.Reading? then p.writeWaiters[0] else p.readWaiters[0]; }
    assert r.2 == Wake(woken, me, w);
    WokenCounts(tasks, woken, me, r.1, w, x);
  }

  /** Every pass of every loop keeps the channel's invariant. */
  lemma PassKeepsChannel(c: Channel, tasks: Tasks, woken: set<Pid>, me: Pid, x: PipeId)
    requires ChannelOk(c, tasks, woken, x) && Runnable(c, tasks, me, x)
    ensures var r := Pass(c, tasks[me], woken, me); ChannelOk(r.0, tasks[me := r.1], r.2, x)
  {
    hide NoLostWakeup, QueuesOk;
    PassKeepsStream(c, tasks[me], woken, me);
    PassKeepsQueues(c, tasks, woken, me, x);
    PassKeepsWakeups(c, tasks, woken, me, x);
  }

  /** A task of another pipe can change freely, and its waiters can wake. */
  lemma OtherPipesUnmoved(c: Channel, tasks: Tasks, woken: set<Pid>, x: PipeId, tasks': Tasks, woken': set<Pid>)
    requires ChannelOk(c, tasks, woken, x)
    requires forall p | p in tasks && tasks[p] != Idle && tasks[p].pipe == x :: p in tasks' && tasks'[p] == tasks[p] && (p in woken' <==> p in woken)
    requires forall p | p in tasks' && tasks'[p] != Idle && tasks'[p].pipe == x :: p in tasks && tasks[p] == tasks'[p]
    ensures ChannelOk(c, tasks', woken', x)
  {
    assert WokenReaders(tasks', woken', x) == WokenReaders(tasks, woken, x);
    assert WokenWriters(tasks', woken', x) == WokenWriters(tasks, woken, x);
    forall i | 0 <= i < |c.pipe.readWaiters| ensures ParkedReader(tasks', woken', x, c.pipe.readWaiters[i]) {}
    forall i | 0 <= i < |c.pipe.writeWaiters| ensures ParkedWriter(tasks', woken', x, c.pipe.writeWaiters[i]) {}
  }

  /** Both ends can never be stuck together, and nobody stays parked once the
      other end is gone. */
  lemma NeverBothStuck(c: Channel, tasks: Tasks, woken: set<Pid>, x: PipeId)
    requires ChannelOk(c, tasks, woken, x)
    ensures c.pipe.readWaiters != [] && c.pipe.writeWaiters != [] ==>
      WokenReaders(tasks, woken, x) != {} || WokenWriters(tasks, woken, x) != {}
    ensures c.pipe.writers == 0 ==> c.pipe.readWaiters == []
    ensures c.pipe.readers == 0 ==> c.pipe.writeWaiters == []
    ensures WokenReaders(tasks, woken, x) == {} && c.pipe.readWaiters != [] ==> Buffered(c.pipe) == []
    ensures WokenWriters(tasks, woken, x) == {} && c.pipe.writeWaiters != [] ==> |Buffered(c.pipe)| == SIZE
  {
  }
}

/** File-descriptor tables, the pipes they name, and the processes using them. */
module PipeSystem {
  import opened Types
  import opened PipeBuffer
  import opened PipeTraffic

  const MAX_FDS: nat := 32

  datatype Fd = Closed | File | End(pipe: PipeId, readEnd: bool)

  type Table = seq<Fd>
  type Slot = (Pid, nat)

  /** Every live process has a table and a task. */
  datatype Sys = Sys(chans: map<PipeId, Channel>, tables: map<Pid, Table>, tasks: Tasks, woken: set<Pid>)

  /** The slots, over all tables, that hold one end of pipe x. */
  ghost function Holders(tables: map<Pid, Table>, x: PipeId, readEnd: bool): set<Slot> {
    set p, i: nat | p in tables && i < |tables[p]| && tables[p][i] == End(x, readEnd) :: (p, i)
  }

  /** The end counts are exactly the open slots, and a pipe without slots is gone. */
  ghost predicate CountsOk(s: Sys, x: PipeId) {
    if x in s.chans then
      && s.chans[x].pipe.readers == |Holders(s.tables, x, true)|
      && s.chans[x].pipe.writers == |Holders(s.tables, x, false)|
      && s.chans[x].pipe.readers + s.chans[x].pipe.writers > 0
    else Holders(s.tables, x, true) == {} && Holders(s.tables, x, false) == {}
  }

  /** A process inside pipe_read or pipe_write holds that end open itself. */
  ghost predicate TaskOk(s: Sys, p: Pid)
    requires p in s.tasks
  {
    && p in s.tables && |s.tables[p]| == MAX_FDS
    && (s.tasks[p] != Idle ==> s.tasks[p].pipe in s.chans && End(s.tasks[p].pipe, s.tasks[p].Reading?) in s.tables[p])
  }

  ghost predicate SysOk(s: Sys) {
    && s.tasks.Keys == s.tables.Keys
    && (forall p | p in s.woken :: p in s.tasks && s.tasks[p] != Idle)
    && (forall x {:trigger CountsOk(s, x)} :: CountsOk(s, x))
    && (forall p {:trigger TaskOk(s, p)} | p in s.tasks :: TaskOk(s, p))
    && (forall x {:trigger s.chans[x]} | x in s.chans :: ChannelOk(s.chans[x], s.tasks, s.woken, x))
  }

  // ----- Opening and closing one slot

  function Among(q: seq<Pid>): set<Pid> { set w | w in q }

  function SetSlot(s: Sys, p: Pid, i: nat, fd: Fd): Sys
    requires p in s.tables && i < |s.tables[p]|
  {
    s.(tables := s.tables[p := s.tables[p][i := fd]])
  }

  /** One more slot names this end. */
  function AddEnd(s: Sys, fd: Fd): Sys {
    if !fd.End? || fd.pipe !in s.chans then s
    else
      var c := s.chans[fd.pipe];
      s.(chans := s.chans[fd.pipe := c.(pipe := WithEnd(c.pipe, fd.readEnd))])
  }

  /** pipe_close_end: everybody parked is woken, and the pipe is freed when both counts
      are zero. */
  function DropEnd(s: Sys, fd: Fd): Sys {
    if !fd.End? || fd.pipe !in s.chans then s
    else
      var c := s.chans[fd.pipe];
      var r := CloseEnd(c.pipe, fd.readEnd);
      s.(woken := s.woken + Among(r.1),
         chans := if r.0.readers == 0 && r.0.writers == 0 then s.chans - {fd.pipe} else s.chans[fd.pipe := c.(pipe := r.0)])
  }

  /** Slot i of process p becomes another reference to an end that is already open. */
  function OpenSlot(s: Sys, p: Pid, i: nat, fd: Fd): Sys
    requires p in s.tables && i < |s.tables[p]|
  {
    AddEnd(SetSlot(s, p, i, fd), fd)
  }

  /** Slot i of process p is closed. */
  function CloseSlot(s: Sys, p: Pid, i: nat): Sys
    requires p in s.tables && i < |s.tables[p]|
  {
    SetSlot(DropEnd(s, s.tables[p][i]), p, i, Closed)
  }

  lemma HoldersAfterSet(tables: map<Pid, Table>, p: Pid, i: nat, fd: Fd, x: PipeId, readEnd: bool)
    requires p in tables && i < |tables[p]|
    ensures Holders(tables[p := tables[p][i := fd]], x, readEnd) ==
      Holders(tables, x, readEnd) - {(p, i)} + (if fd == End(x, readEnd) then {(p, i)} else {})
    ensures (p, i) in Holders(tables, x, readEnd) <==> tables[p][i] == End(x, readEnd)
  {
    var t := tables[p := tables[p][i := fd]];
    forall k: Slot ensures k in Holders(t, x, readEnd) <==>
        k in Holders(tables, x, readEnd) - {(p, i)} + (if fd == End(x, readEnd) then {(p, i)} else {})
    {
      assert k == (k.0, k.1);
    }
  }

  lemma OpenCounts(s: Sys, p: Pid, i: nat, fd: Fd, x: PipeId)
    requires SysOk(s) && p in s.tables && i < |s.tables[p]| && s.tables[p][i] == Closed && (fd.End? ==> fd.pipe in s.chans)
    ensures CountsOk(OpenSlot(s, p, i, fd), x)
  {
    hide ChannelOk, TaskOk, Holders;
    assert CountsOk(s, x);
    HoldersAfterSet(s.tables, p, i, fd, x, true);
    HoldersAfterSet(s.tables, p, i, fd, x, false);
  }

  lemma OpenTasks(s: Sys, p: Pid, i: nat, fd: Fd)
    requires SysOk(s) && p in s.tables && i < |s.tables[p]| && s.tables[p][i] == Closed
    ensures var t := OpenSlot(s, p, i, fd); forall r {:trigger TaskOk(t, r)} | r in t.tasks :: TaskOk(t, r)
  {
    hide CountsOk, ChannelOk;
    var t := OpenSlot(s, p, i, fd);
    forall r | r in t.tasks ensures TaskOk(t, r) {
      assert TaskOk(s, r);
      if s.tasks[r] != Idle && r == p { StaysIn(s.tables[p], i, fd, End(s.tasks[r].pipe, s.tasks[r].Reading?)); }
    }
  }

  /** One more slot changes nothing a channel's invariant speaks of, except that more
      ends are open. */
  lemma OpenChannel(c: Channel, tasks: Tasks, woken: set<Pid>, x: PipeId, readEnd: bool)
    requires ChannelOk(c, tasks, woken, x)
    ensures ChannelOk(c.(pipe := WithEnd(c.pipe, readEnd)), tasks, woken, x)
  {
    hide WokenReaders, WokenWriters;
    assert Buffered(WithEnd(c.pipe, readEnd)) == Buffered(c.pipe);
  }

  lemma OpenSlotOk(s: Sys, p: Pid, i: nat, fd: Fd)
    requires SysOk(s) && p in s.tables && i < |s.tables[p]| && s.tables[p][i] == Closed && (fd.End? ==> fd.pipe in s.chans)
    ensures SysOk(OpenSlot(s, p, i, fd))
  {
    hide CountsOk, TaskOk, ChannelOk;
    var t := OpenSlot(s, p, i, fd);
    forall x ensures CountsOk(t, x) { OpenCounts(s, p, i, fd, x); }
    OpenTasks(s, p, i, fd);
    forall x | x in t.chans ensures ChannelOk(t.chans[x], t.tasks, t.woken, x) {
      assert ChannelOk(s.chans[x], s.tasks, s.woken, x);
      if fd.End? && fd.pipe == x { OpenChannel(s.chans[x], s.tasks, s.woken, x, fd.readEnd); }
    }
  }

  lemma StaysIn(t: Table, i: nat, fd: Fd, held: Fd)
    requires i < |t| && held in t && t[i] != held
    ensures held in t[i := fd]
  {
    var j :| 0 <= j < |t| && t[j] == held;
    assert t[i := fd][j] == held;
  }

  /** An open slot names a pipe that exists. */
  lemma SlotNamesPipe(s: Sys, p: Pid, i: nat)
    requires SysOk(s) && p in s.tables && i < |s.tables[p]|
    ensures s.tables[p][i].End? ==> s.tables[p][i].pipe in s.chans
  {
    hide ChannelOk, TaskOk;
    var fd := s.tables[p][i];
    if fd.End? {
      assert CountsOk(s, fd.pipe);
      assert (p, i) in Holders(s.tables, fd.pipe, fd.readEnd);
    }
  }

  lemma CloseCounts(s: Sys, p: Pid, i: nat, x: PipeId)
    requires SysOk(s) && p in s.tables && i < |s.tables[p]| && (s.tables[p][i].End? ==> s.tables[p][i].pipe in s.chans)
    ensures CountsOk(CloseSlot(s, p, i), x)
  {
    hide ChannelOk, TaskOk, Holders;
    assert CountsOk(s, x);
    var fd, t := s.tables[p][i], CloseSlot(s, p, i);
    HoldersAfterClose(s.tables, p, i, x, true);
    HoldersAfterClose(s.tables, p, i, x, false);
    if fd.End? && fd.pipe == x {
      var r := CloseEnd(s.chans[x].pipe, fd.readEnd).0;
      assert r.readers == |Holders(t.tables, x, true)| && r.writers == |Holders(t.tables, x, false)|;
    }
  }

  lemma HoldersAfterClose(tables: map<Pid, Table>, p: Pid, i: nat, x: PipeId, readEnd: bool)
    requires p in tables && i < |tables[p]|
    ensures var h, h' := Holders(tables, x, readEnd), Holders(tables[p := tables[p][i := Closed]], x, readEnd);
      if tables[p][i] == End(x, readEnd) then |h'| == |h| - 1 else h' == h
  {
    hide Holders;
    HoldersAfterSet(tables, p, i, Closed, x, readEnd);
  }

  /** Everybody parked on a channel wakes; nothing else about it changes. */
  lemma WakeAllOk(c: Channel, tasks: Tasks, woken: set<Pid>, x: PipeId, readEnd: bool)
    requires ChannelOk(c, tasks, woken, x)
    ensures var r := CloseEnd(c.pipe, readEnd);
      ChannelOk(c.(pipe := r.0), tasks, woken + Among(r.1), x)
  {
    hide WokenReaders, WokenWriters;
    var r := CloseEnd(c.pipe, readEnd);
    assert Buffered(r.0) == Buffered(c.pipe);
    forall w | w in r.1 && w in tasks ensures Unfinished(tasks[w], x) {
      assert w in c.pipe.readWaiters || w in c.pipe.writeWaiters;
    }
  }

  lemma WaitersAreOn(c: Channel, tasks: Tasks, woken: set<Pid>, x: PipeId)
    requires QueuesOk(c.pipe, tasks, woken, x)
    ensures forall w | w in c.pipe.writeWaiters + c.pipe.readWaiters :: w in tasks && tasks[w] != Idle && tasks[w].pipe == x
  {
  }

  lemma CloseChannels(s: Sys, p: Pid, i: nat)
    requires SysOk(s) && p in s.tables && i < |s.tables[p]| && (s.tables[p][i].End? ==> s.tables[p][i].pipe in s.chans)
    ensures var t := CloseSlot(s, p, i); forall x | x in t.chans :: ChannelOk(t.chans[x], t.tasks, t.woken, x)
  {
    hide CountsOk, TaskOk, Holders, NoLostWakeup, StreamOk;
    var t, fd := CloseSlot(s, p, i), s.tables[p][i];
    forall x | x in t.chans ensures ChannelOk(t.chans[x], t.tasks, t.woken, x) {
      if fd.End? {
        assert ChannelOk(s.chans[fd.pipe], s.tasks, s.woken, fd.pipe);
        if fd.pipe == x {
          WakeAllOk(s.chans[x], s.tasks, s.woken, x, fd.readEnd);
        } else {
          WaitersAreOn(s.chans[fd.pipe], s.tasks, s.woken, fd.pipe);
          OtherPipesUnmoved(s.chans[x], s.tasks, s.woken, x, t.tasks, t.woken);
        }
      }
    }
  }

  lemma ClosersWakeTasks(s: Sys, p: Pid, i: nat)
    requires SysOk(s) && p in s.tables && i < |s.tables[p]|
    ensures forall w | w in CloseSlot(s, p, i).woken :: w in s.tasks && s.tasks[w] != Idle
  {
    hide CountsOk, TaskOk, Holders, NoLostWakeup, StreamOk;
    var fd := s.tables[p][i];
    if fd.End? && fd.pipe in s.chans {
      assert ChannelOk(s.chans[fd.pipe], s.tasks, s.woken, fd.pipe);
      WaitersAreOn(s.chans[fd.pipe], s.tasks, s.woken, fd.pipe);
    }
  }

  /** Closing a slot of an idle process keeps everything, and frees the pipe
      exactly when that was its last slot. */
  lemma CloseSlotOk(s: Sys, p: Pid, i: nat)
    requires SysOk(s) && p in s.tables && i < |s.tables[p]| && p in s.tasks && s.tasks[p] == Idle
    ensures SysOk(CloseSlot(s, p, i))
    ensures forall x | x in s.chans ::
      x !in CloseSlot(s, p, i).chans <==> Holders(CloseSlot(s, p, i).tables, x, true) == {} && Holders(CloseSlot(s, p, i).tables, x, false) == {}
  {
    hide Holders, ChannelOk;
    SlotNamesPipe(s, p, i);
    var t := CloseSlot(s, p, i);
    forall x ensures CountsOk(t, x) { CloseCounts(s, p, i, x); }
    ClosersWakeTasks(s, p, i);
    CloseChannels(s, p, i);
    forall r | r in t.tasks ensures TaskOk(t, r) {
      assert TaskOk(s, r);
      if t.tasks[r] != Idle {
        assert CountsOk(t, t.tasks[r].pipe);
        StillHeld(t, r);
      }
    }
    forall x | x in s.chans ensures
      x !in t.chans <==> Holders(t.tables, x, true) == {} && Holders(t.tables, x, false) == {} { assert CountsOk(t, x); }
  }

  lemma StillHeld(s: Sys, p: Pid)
    requires p in s.tables && p in s.tasks && s.tasks[p] != Idle && End(s.tasks[p].pipe, s.tasks[p].Reading?) in s.tables[p]
    ensures Holders(s.tables, s.tasks[p].pipe, s.tasks[p].Reading?) != {}
  {
    var j :| 0 <= j < |s.tables[p]| && s.tables[p][j] == End(s.tasks[p].pipe, s.tasks[p].Reading?);
    assert (p, j) in Holders(s.tables, s.tasks[p].pipe, s.tasks[p].Reading?);
  }
}
