/** Runs of the pipe system: system calls on descriptors and passes of the blocking
    loops, interleaved in any order. */
module PipeRuns {
  import opened Types
  import opened PipeBuffer
  import opened PipeTraffic
  import opened PipeSystem

  datatype Reply = Fds(r: nat, w: nat) | NewFd(fd: nat) | Done | Ebadf | Emfile | Enomem | Efault

  /** The lowest closed slot at or after `from`. */
  function LowestClosed(t: Table, from: nat): (r: Option<nat>)
    ensures r.Some? ==> from <= r.value < |t| && t[r.value] == Closed && forall j | from <= j < r.value :: t[j] != Closed
    ensures r.None? ==> forall j | from <= j < |t| :: t[j] != Closed
    decreases |t| - from
  {
    if from >= |t| then None else if t[from] == Closed then Some(from) else LowestClosed(t, from + 1)
  }

  /** SYS_pipe; x is the allocated pipe, if any, and `copied` whether the two
      numbers could be written back to the caller. */
  function PipeCall(s: Sys, p: Pid, x: Option<PipeId>, copied: bool): (Sys, Reply)
    requires p in s.tables
  {
    var t := s.tables[p];
    var r := LowestClosed(t, 3);
    var w := if r.Some? then LowestClosed(t, r.value + 1) else None;
    if r.None? || w.None? then (s, Emfile)
    else if x.None? then (s, Enomem)
    else
      var u := MakePipe(s, p, x.value, r.value, w.value);
      if copied then (u, Fds(r.value, w.value)) else (UndoPipe(u, p, x.value, r.value, w.value), Efault)
  }

  /** A new pipe, with slot r for its read end and slot w for its write end. */
  function MakePipe(s: Sys, p: Pid, x: PipeId, r: nat, w: nat): Sys
    requires p in s.tables && r < |s.tables[p]| && w < |s.tables[p]|
  {
    SetSlot(SetSlot(s.(chans := s.chans[x := Channel(Fresh(), [], [])]), p, r, End(x, true)), p, w, End(x, false))
  }

  /** Both ends are closed, then both slots are cleared. */
  function UndoPipe(s: Sys, p: Pid, x: PipeId, r: nat, w: nat): Sys
    requires p in s.tables && r < |s.tables[p]| && w < |s.tables[p]|
  {
    SetSlot(SetSlot(DropEnd(DropEnd(s, End(x, true)), End(x, false)), p, r, Closed), p, w, Closed)
  }

  /** Undoing a new pipe frees it and restores the caller's table. */
  lemma UndoRestores(s: Sys, p: Pid, x: PipeId, r: nat, w: nat)
    requires p in s.tables && r < |s.tables[p]| && w < |s.tables[p]| && r != w && s.tables[p][r] == s.tables[p][w] == Closed && x !in s.chans
    ensures UndoPipe(MakePipe(s, p, x, r, w), p, x, r, w) == s
  {
    var u := MakePipe(s, p, x, r, w);
    var one := DropEnd(u, End(x, true));
    assert one.chans == s.chans[x := Channel(Fresh().(readers := 0), [], [])] && one.woken == s.woken;
    var two := DropEnd(one, End(x, false));
    assert two.chans == s.chans && two.woken == s.woken;
    assert u.tables[p][r := Closed][w := Closed] == s.tables[p];
    assert UndoPipe(u, p, x, r, w).tables == s.tables;
  }

  function DupCall(s: Sys, p: Pid, oldfd: int): (Sys, Reply)
    requires p in s.tables
  {
    var t := s.tables[p];
    if oldfd < 0 || oldfd >= |t| || t[oldfd] == Closed then (s, Ebadf)
    else
      var n := LowestClosed(t, 3);
      if n.None? then (s, Emfile) else (OpenSlot(s, p, n.value, t[oldfd]), NewFd(n.value))
  }

  function Dup2Call(s: Sys, p: Pid, oldfd: int, newfd: int): (Sys, Reply)
    requires p in s.tables
  {
    var t := s.tables[p];
    if oldfd < 0 || oldfd >= |t| || newfd < 0 || newfd >= |t| || t[oldfd] == Closed then (s, Ebadf)
    else if newfd == oldfd then (s, NewFd(newfd))
    else
      var u := CloseSlot(s, p, newfd);
      (OpenSlot(u, p, newfd, u.tables[p][oldfd]), NewFd(newfd))
  }

  function CloseCall(s: Sys, p: Pid, fd: int): (Sys, Reply)
    requires p in s.tables
  {
    if 3 <= fd < |s.tables[p]| then (CloseSlot(s, p, fd), Done) else (s, Ebadf)
  }

  function OpenCall(s: Sys, p: Pid): (Sys, Reply)
    requires p in s.tables
  {
    var n := LowestClosed(s.tables[p], 3);
    if n.None? then (s, Emfile) else (OpenSlot(s, p, n.value, File), NewFd(n.value))
  }

  /** A new process starts with every slot closed. */
  function AddProcess(s: Sys, child: Pid): Sys {
    s.(tables := s.tables[child := seq(MAX_FDS, i => Closed)], tasks := s.tasks[child := Idle])
  }

  /** fork: the child's slots [0, n) have been copied from table t and counted. */
  function CopySlots(s: Sys, child: Pid, t: Table, n: nat): (u: Sys)
    requires child in s.tables && |s.tables[child]| == |t| && n <= |t|
    ensures child in u.tables && |u.tables[child]| == |t|
  {
    if n == 0 then s else OpenSlot(CopySlots(s, child, t, n - 1), child, n - 1, t[n - 1])
  }

  function ForkCall(s: Sys, p: Pid, child: Pid): Sys
    requires p in s.tables && |s.tables[p]| == MAX_FDS
  {
    CopySlots(AddProcess(s, child), child, s.tables[p], MAX_FDS)
  }

  /** exit: slots [0, n) of p have been closed. */
  function CloseSlots(s: Sys, p: Pid, n: nat): (u: Sys)
    requires p in s.tables && n <= |s.tables[p]|
    ensures p in u.tables && |u.tables[p]| == |s.tables[p]|
  {
    if n == 0 then s else CloseSlot(CloseSlots(s, p, n - 1), p, n - 1)
  }

  function Without(s: Sys, p: Pid): Sys { s.(tables := s.tables - {p}, tasks := s.tasks - {p}, woken := s.woken - {p}) }

  /** The process is gone once its slots are closed. */
  function ExitCall(s: Sys, p: Pid): Sys
    requires p in s.tables
  {
    Without(CloseSlots(s, p, |s.tables[p]|), p)
  }

  /** SYS_read and SYS_write enter the blocking loops. */
  function StartRead(s: Sys, p: Pid, fd: nat, n: nat): Sys
    requires p in s.tables && fd < |s.tables[p]|
  {
    var e := s.tables[p][fd];
    if (fd == 0 || fd >= 3) && e.End? && e.readEnd then s.(tasks := s.tasks[p := Reading(e.pipe, n, [])]) else s
  }

  function StartWrite(s: Sys, p: Pid, fd: nat, data: seq<byte>): Sys
    requires p in s.tables && fd < |s.tables[p]|
  {
    var e := s.tables[p][fd];
    if (fd == 1 || fd >= 3) && e.End? && !e.readEnd then s.(tasks := s.tasks[p := Writing(e.pipe, data, 0)]) else s
  }

  /** One pass of process p's loop. */
  function RunPass(s: Sys, p: Pid): Sys
    requires p in s.tasks && s.tasks[p] != Idle && s.tasks[p].pipe in s.chans && RingOk(s.chans[s.tasks[p].pipe].pipe)
  {
    var x := s.tasks[p].pipe;
    var r := Pass(s.chans[x], s.tasks[p], s.woken, p);
    s.(chans := s.chans[x := r.0], tasks := s.tasks[p := r.1], woken := r.2)
  }

  // ----- Each of them keeps the system's invariant

  lemma {:induction false} CopySlotsOk(s: Sys, child: Pid, t: Table, n: nat)
    requires SysOk(s) && child in s.tables && |s.tables[child]| == |t| && n <= |t|
    requires forall i | 0 <= i < |t| :: s.tables[child][i] == Closed && (t[i].End? ==> t[i].pipe in s.chans)
    ensures var u := CopySlots(s, child, t, n);
      && SysOk(u) && u.tables.Keys == s.tables.Keys && u.tasks == s.tasks && u.woken == s.woken && u.chans.Keys == s.chans.Keys
      && (forall i | 0 <= i < |t| :: u.tables[child][i] == if i < n then t[i] else Closed)
      && (forall q | q in s.tables && q != child :: u.tables[q] == s.tables[q])
  {
    hide SysOk;
    if n > 0 {
      CopySlotsOk(s, child, t, n - 1);
      OpenSlotOk(CopySlots(s, child, t, n - 1), child, n - 1, t[n - 1]);
    }
  }

  lemma {:induction false} CloseSlotsOk(s: Sys, p: Pid, n: nat)
    requires SysOk(s) && p in s.tables && p in s.tasks && s.tasks[p] == Idle && n <= |s.tables[p]|
    ensures var u := CloseSlots(s, p, n);
      && SysOk(u) && u.tables.Keys == s.tables.Keys && u.tasks == s.tasks
      && (forall i | 0 <= i < |s.tables[p]| :: u.tables[p][i] == if i < n then Closed else s.tables[p][i])
      && (forall q | q in s.tables && q != p :: u.tables[q] == s.tables[q])
  {
    hide SysOk;
    if n > 0 {
      CloseSlotsOk(s, p, n - 1);
      CloseSlotOk(CloseSlots(s, p, n - 1), p, n - 1);
    }
  }

  lemma AddProcessOk(s: Sys, child: Pid)
    requires SysOk(s) && child !in s.tables
    ensures SysOk(AddProcess(s, child))
  {
    hide NoLostWakeup, QueuesOk, StreamOk;
    var u := AddProcess(s, child);
    forall x ensures CountsOk(u, x) {
      assert CountsOk(s, x);
      assert Holders(u.tables, x, true) == Holders(s.tables, x, true);
      assert Holders(u.tables, x, false) == Holders(s.tables, x, false);
    }
    forall q | q in u.tasks ensures TaskOk(u, q) { if q != child { assert TaskOk(s, q); } }
    forall x | x in u.chans ensures ChannelOk(u.chans[x], u.tasks, u.woken, x) {
      OtherPipesUnmoved(s.chans[x], s.tasks, s.woken, x, u.tasks, u.woken);
    }
  }

  lemma RemoveProcessOk(s: Sys, p: Pid)
    requires SysOk(s) && p in s.tables && p in s.tasks && s.tasks[p] == Idle && forall i | 0 <= i < |s.tables[p]| :: s.tables[p][i] == Closed
    ensures SysOk(Without(s, p))
  {
    hide NoLostWakeup, QueuesOk, StreamOk;
    var u := Without(s, p);
    forall x ensures CountsOk(u, x) {
      assert CountsOk(s, x);
      assert Holders(u.tables, x, true) == Holders(s.tables, x, true);
      assert Holders(u.tables, x, false) == Holders(s.tables, x, false);
    }
    forall q | q in u.tasks ensures TaskOk(u, q) { assert TaskOk(s, q); }
    forall x | x in u.chans ensures ChannelOk(u.chans[x], u.tasks, u.woken, x) {
      OtherPipesUnmoved(s.chans[x], s.tasks, s.woken, x, u.tasks, u.woken);
    }
  }

  lemma TableSize(s: Sys, p: Pid)
    requires SysOk(s) && p in s.tables
    ensures p in s.tasks && |s.tables[p]| == MAX_FDS
  {
    assert TaskOk(s, p);
  }

  lemma ForkOk(s: Sys, p: Pid, child: Pid)
    requires SysOk(s) && p in s.tables && child !in s.tables
    ensures |s.tables[p]| == MAX_FDS && SysOk(ForkCall(s, p, child))
    ensures ForkCall(s, p, child).tables == s.tables[child := s.tables[p]]
  {
    hide SysOk;
    TableSize(s, p);
    var u := AddProcess(s, child);
    AddProcessOk(s, child);
    forall i | 0 <= i < MAX_FDS ensures s.tables[p][i].End? ==> s.tables[p][i].pipe in s.chans { SlotNamesPipe(s, p, i); }
    CopySlotsOk(u, child, s.tables[p], MAX_FDS);
    var v := ForkCall(s, p, child);
    assert v.tables[child] == s.tables[p];
    assert v.tables == s.tables[child := s.tables[p]];
  }

  lemma ExitOk(s: Sys, p: Pid)
    requires SysOk(s) && p in s.tables && p in s.tasks && s.tasks[p] == Idle
    ensures SysOk(ExitCall(s, p)) && ExitCall(s, p).tables == s.tables - {p}
  {
    hide SysOk;
    CloseSlotsOk(s, p, |s.tables[p]|);
    RemoveProcessOk(CloseSlots(s, p, |s.tables[p]|), p);
  }

  lemma NewPipeHolders(tables: map<Pid, Table>, p: Pid, r: nat, w: nat, x: PipeId, y: PipeId, readEnd: bool)
    requires p in tables && r < |tables[p]| && w < |tables[p]| && r != w && tables[p][r] == Closed && tables[p][w] == Closed
    requires Holders(tables, x, true) == {} && Holders(tables, x, false) == {}
    ensures var t := tables[p := tables[p][r := End(x, true)]];
      Holders(t[p := t[p][w := End(x, false)]], y, readEnd) == if y == x then {(p, if readEnd then r else w)} else Holders(tables, y, readEnd)
  {
    hide Holders;
    var t := tables[p := tables[p][r := End(x, true)]];
    HoldersAfterSet(tables, p, r, End(x, true), y, readEnd);
    HoldersAfterSet(t, p, w, End(x, false), y, readEnd);
  }

  lemma PipeCallOk(s: Sys, p: Pid, x: Option<PipeId>, copied: bool)
    requires SysOk(s) && p in s.tables && p in s.tasks && s.tasks[p] == Idle && (x.Some? ==> x.value !in s.chans)
    ensures var (t, reply) := PipeCall(s, p, x, copied);
      && SysOk(t) && (!reply.Fds? ==> t == s)
      && (reply.Fds? ==>
          && 3 <= reply.r < reply.w < |s.tables[p]| && s.tables[p][reply.r] == s.tables[p][reply.w] == Closed
          && x.Some? && t.chans == s.chans[x.value := Channel(Fresh(), [], [])]
          && t.tables == s.tables[p := s.tables[p][reply.r := End(x.value, true)][reply.w := End(x.value, false)]])
  {
    hide SysOk, CloseEnd;
    var t := s.tables[p];
    var r := LowestClosed(t, 3);
    var w := if r.Some? then LowestClosed(t, r.value + 1) else None;
    if r.Some? && w.Some? && x.Some? {
      NewPipeOk(s, p, x.value, r.value, w.value);
      UndoRestores(s, p, x.value, r.value, w.value);
      var u := MakePipe(s, p, x.value, r.value, w.value);
      assert u.tables == s.tables[p := t[r.value := End(x.value, true)][w.value := End(x.value, false)]];
    }
  }

  lemma NewPipeOk(s: Sys, p: Pid, x: PipeId, r: nat, w: nat)
    requires SysOk(s) && p in s.tables && p in s.tasks && s.tasks[p] == Idle && x !in s.chans
    requires r < |s.tables[p]| && w < |s.tables[p]| && r != w && s.tables[p][r] == s.tables[p][w] == Closed
    ensures SysOk(MakePipe(s, p, x, r, w))
  {
    hide Holders, ChannelOk;
    var u := MakePipe(s, p, x, r, w);
    assert CountsOk(s, x);
    forall y ensures CountsOk(u, y) {
      assert CountsOk(s, y);
      NewPipeHolders(s.tables, p, r, w, x, y, true);
      NewPipeHolders(s.tables, p, r, w, x, y, false);
    }
    forall q | q in u.tasks ensures TaskOk(u, q) { assert TaskOk(s, q); }
    forall y | y in u.chans ensures ChannelOk(u.chans[y], u.tasks, u.woken, y) {
      if y == x { FreshChannelOk(s, y); }
    }
  }

  lemma FreshChannelOk(s: Sys, x: PipeId)
    requires SysOk(s) && x !in s.chans
    ensures ChannelOk(Channel(Fresh(), [], []), s.tasks, s.woken, x)
  {
    hide Holders, CountsOk;
    forall w | w in s.woken && w in s.tasks ensures Unfinished(s.tasks[w], x) { assert TaskOk(s, w); }
    assert Buffered(Fresh()) == [];
  }

  lemma StartOk(s: Sys, p: Pid, fd: nat, n: nat, data: seq<byte>)
    requires SysOk(s) && p in s.tables && p in s.tasks && s.tasks[p] == Idle && fd < |s.tables[p]|
    ensures SysOk(StartRead(s, p, fd, n)) && SysOk(StartWrite(s, p, fd, data))
  {
    hide Holders, NoLostWakeup, QueuesOk, StreamOk;
    SlotNamesPipe(s, p, fd);
    StartTaskOk(s, p, fd, StartRead(s, p, fd, n).tasks[p]);
    StartTaskOk(s, p, fd, StartWrite(s, p, fd, data).tasks[p]);
    assert s.tasks[p := Idle] == s.tasks;
  }

  lemma StartTaskOk(s: Sys, p: Pid, fd: nat, t: Task)
    requires SysOk(s) && p in s.tables && p in s.tasks && s.tasks[p] == Idle && fd < |s.tables[p]|
    requires t != Idle ==> t.pipe in s.chans && s.tables[p][fd] == End(t.pipe, t.Reading?)
    ensures SysOk(s.(tasks := s.tasks[p := t]))
  {
    hide Holders, ChannelOk;
    var u := s.(tasks := s.tasks[p := t]);
    forall x ensures CountsOk(u, x) { assert CountsOk(s, x); }
    forall q | q in u.tasks ensures TaskOk(u, q) { assert TaskOk(s, q); }
    forall x | x in u.chans ensures ChannelOk(u.chans[x], u.tasks, u.woken, x) {
      NewTaskOk(s.chans[x], s.tasks, s.woken, x, p, t);
    }
  }

  lemma NewTaskOk(c: Channel, tasks: Tasks, woken: set<Pid>, x: PipeId, p: Pid, t: Task)
    requires ChannelOk(c, tasks, woken, x) && p in tasks && tasks[p] == Idle && p !in woken
    ensures ChannelOk(c, tasks[p := t], woken, x)
  {
    assert WokenReaders(tasks[p := t], woken, x) == WokenReaders(tasks, woken, x);
    assert WokenWriters(tasks[p := t], woken, x) == WokenWriters(tasks, woken, x);
  }

  lemma RunPassOk(s: Sys, p: Pid)
    requires SysOk(s) && p in s.tasks && s.tasks[p] != Idle
    ensures s.tasks[p].pipe in s.chans && RingOk(s.chans[s.tasks[p].pipe].pipe)
    ensures Runnable(s.chans[s.tasks[p].pipe], s.tasks, p, s.tasks[p].pipe) ==> SysOk(RunPass(s, p))
  {
    hide Holders, NoLostWakeup, QueuesOk;
    assert TaskOk(s, p);
    var x := s.tasks[p].pipe;
    assert ChannelOk(s.chans[x], s.tasks, s.woken, x);
    if Runnable(s.chans[x], s.tasks, p, x) {
      hide StreamOk, ChannelOk, CountsOk, TaskOk, Pass;
      PassKeepsChannel(s.chans[x], s.tasks, s.woken, p, x);
      PassKeepsCounts(s, p);
      PassWakesTasks(s, p);
      PassKeepsOthers(s, p);
    }
  }

  lemma PassKeepsOthers(s: Sys, p: Pid)
    requires SysOk(s) && p in s.tasks && s.tasks[p] != Idle && s.tasks[p].pipe in s.chans && RingOk(s.chans[s.tasks[p].pipe].pipe)
    requires Runnable(s.chans[s.tasks[p].pipe], s.tasks, p, s.tasks[p].pipe)
    ensures var u := RunPass(s, p); forall y | y in u.chans && y != s.tasks[p].pipe :: ChannelOk(u.chans[y], u.tasks, u.woken, y)
  {
    hide Holders, CountsOk, TaskOk, ChannelOk, RingOk;
    var x, u := s.tasks[p].pipe, RunPass(s, p);
    PassWakesTasks(s, p);
    PassTask(s, p);
    hide Pass;
    forall y | y in u.chans && y != x ensures ChannelOk(u.chans[y], u.tasks, u.woken, y) {
      OtherPipesUnmoved(s.chans[y], s.tasks, s.woken, y, u.tasks, u.woken);
    }
  }

  lemma PassTask(s: Sys, p: Pid)
    requires p in s.tasks && s.tasks[p] != Idle && s.tasks[p].pipe in s.chans && RingOk(s.chans[s.tasks[p].pipe].pipe)
    ensures var u := RunPass(s, p); u.tasks[p] == Idle || u.tasks[p].pipe == s.tasks[p].pipe
    ensures forall w | w in s.woken && w != p :: w in RunPass(s, p).woken
  {
  }

  lemma PassKeepsCounts(s: Sys, p: Pid)
    requires SysOk(s) && p in s.tasks && s.tasks[p] != Idle && s.tasks[p].pipe in s.chans && RingOk(s.chans[s.tasks[p].pipe].pipe)
    ensures var u := RunPass(s, p); (forall x :: CountsOk(u, x)) && (forall q | q in u.tasks :: TaskOk(u, q))
  {
    hide Holders, ChannelOk;
    var u := RunPass(s, p);
    forall y ensures CountsOk(u, y) { assert CountsOk(s, y); }
    forall q | q in u.tasks ensures TaskOk(u, q) { assert TaskOk(s, q); }
  }

  lemma PassWakesTasks(s: Sys, p: Pid)
    requires SysOk(s) && p in s.tasks && s.tasks[p] != Idle && s.tasks[p].pipe in s.chans && RingOk(s.chans[s.tasks[p].pipe].pipe)
    requires Runnable(s.chans[s.tasks[p].pipe], s.tasks, p, s.tasks[p].pipe)
    ensures var u := RunPass(s, p);
      && (forall w | w in u.woken :: w in u.tasks && u.tasks[w] != Idle)
      && (forall w | w in u.woken && w !in s.woken :: w in s.tasks && s.tasks[w] != Idle && s.tasks[w].pipe == s.tasks[p].pipe)
  {
    hide Holders, CountsOk, TaskOk, NoLostWakeup, StreamOk;
    var x, u := s.tasks[p].pipe, RunPass(s, p);
    assert ChannelOk(s.chans[x], s.tasks, s.woken, x);
    WaitersAreOn(s.chans[x], s.tasks, s.woken, x);
    forall w | w in u.woken && w !in s.woken
      ensures w != p && w in s.chans[x].pipe.writeWaiters + s.chans[x].pipe.readWaiters {}
  }

  lemma DupOk(s: Sys, p: Pid, oldfd: int)
    requires SysOk(s) && p in s.tables
    ensures SysOk(DupCall(s, p, oldfd).0)
  {
    hide SysOk;
    if 0 <= oldfd < |s.tables[p]| && DupCall(s, p, oldfd).1.NewFd? {
      SlotNamesPipe(s, p, oldfd);
      OpenSlotOk(s, p, LowestClosed(s.tables[p], 3).value, s.tables[p][oldfd]);
    }
  }

  /** dup2 first closes the target slot; that never frees the pipe it duplicates,
      because the slot it duplicates is still open. */
  lemma Dup2Ok(s: Sys, p: Pid, oldfd: int, newfd: int)
    requires SysOk(s) && p in s.tables && p in s.tasks && s.tasks[p] == Idle
    ensures SysOk(Dup2Call(s, p, oldfd, newfd).0)
    ensures 0 <= oldfd < |s.tables[p]| && 0 <= newfd < |s.tables[p]| && oldfd != newfd && s.tables[p][oldfd].End? ==>
      s.tables[p][oldfd].pipe in CloseSlot(s, p, newfd).chans
  {
    hide SysOk;
    var t := s.tables[p];
    if 0 <= oldfd < |t| && 0 <= newfd < |t| && oldfd != newfd && t[oldfd] != Closed {
      CloseSlotOk(s, p, newfd);
      var u := CloseSlot(s, p, newfd);
      SlotNamesPipe(u, p, oldfd);
      OpenSlotOk(u, p, newfd, u.tables[p][oldfd]);
    }
  }

  lemma OpenCallOk(s: Sys, p: Pid)
    requires SysOk(s) && p in s.tables
    ensures SysOk(OpenCall(s, p).0)
  {
    hide SysOk;
    var n := LowestClosed(s.tables[p], 3);
    if n.Some? { OpenSlotOk(s, p, n.value, File); }
  }

  // ----- Whole runs

  datatype Event =
    | Create(p: Pid)
    | SysPipe(p: Pid, x: Option<PipeId>, copied: bool)
    | SysDup(p: Pid, oldfd: int)
    | SysDup2(p: Pid, oldfd: int, newfd: int)
    | SysClose(p: Pid, fd: int)
    | SysOpen(p: Pid)
    | SysFork(p: Pid, child: Pid)
    | SysExit(p: Pid)
    | SysRead(p: Pid, from: nat, n: nat)
    | SysWrite(p: Pid, to: nat, data: seq<byte>)
    | LoopPass(p: Pid)

  /** A process makes a call when it is not inside one, and runs a loop pass when
      it is inside one and not parked. */
  ghost predicate Enabled(s: Sys, e: Event) {
    if e.Create? then e.p !in s.tables
    else
    && e.p in s.tables && e.p in s.tasks
    && match e
       case LoopPass(p) => s.tasks[p] != Idle && s.tasks[p].pipe in s.chans && Runnable(s.chans[s.tasks[p].pipe], s.tasks, p, s.tasks[p].pipe)
       case SysFork(p, child) => s.tasks[p] == Idle && child !in s.tables
       case SysPipe(p, x, _) => s.tasks[p] == Idle && (x.Some? ==> x.value !in s.chans)
       case SysRead(p, fd, _) => s.tasks[p] == Idle && fd < |s.tables[p]|
       case SysWrite(p, fd, _) => s.tasks[p] == Idle && fd < |s.tables[p]|
       case _ => s.tasks[e.p] == Idle
  }

  ghost function Step(s: Sys, e: Event): Sys
    requires SysOk(s) && Enabled(s, e)
  {
    match e
    case Create(p) => AddProcess(s, p)
    case SysPipe(p, x, copied) => PipeCall(s, p, x, copied).0
    case SysDup(p, oldfd) => DupCall(s, p, oldfd).0
    case SysDup2(p, oldfd, newfd) => Dup2Call(s, p, oldfd, newfd).0
    case SysClose(p, fd) => CloseCall(s, p, fd).0
    case SysOpen(p) => OpenCall(s, p).0
    case SysFork(p, child) => TableSize(s, p); ForkCall(s, p, child)
    case SysExit(p) => ExitCall(s, p)
    case SysRead(p, fd, n) => StartRead(s, p, fd, n)
    case SysWrite(p, fd, data) => StartWrite(s, p, fd, data)
    case LoopPass(p) => RunPassOk(s, p); RunPass(s, p)
  }

  lemma StepOk(s: Sys, e: Event)
    requires SysOk(s) && Enabled(s, e)
    ensures SysOk(Step(s, e))
  {
    hide SysOk, Runnable;
    match e
    case Create(p) => AddProcessOk(s, p);
    case SysPipe(p, x, copied) => PipeCallOk(s, p, x, copied);
    case SysDup(p, oldfd) => DupOk(s, p, oldfd);
    case SysDup2(p, oldfd, newfd) => Dup2Ok(s, p, oldfd, newfd);
    case SysClose(p, fd) => if 3 <= fd < |s.tables[p]| { CloseSlotOk(s, p, fd); }
    case SysOpen(p) => OpenCallOk(s, p);
    case SysFork(p, child) => ForkOk(s, p, child);
    case SysExit(p) => ExitOk(s, p);
    case SysRead(p, fd, n) => StartOk(s, p, fd, n, []);
    case SysWrite(p, fd, data) => StartOk(s, p, fd, 0, data);
    case LoopPass(p) => RunPassOk(s, p);
  }

  ghost predicate Legal(s: Sys, es: seq<Event>)
    requires SysOk(s)
    decreases |es|
  {
    es == [] || (Enabled(s, es[0]) && (StepOk(s, es[0]); Legal(Step(s, es[0]), es[1..])))
  }

  ghost function Exec(s: Sys, es: seq<Event>): Sys
    requires SysOk(s) && Legal(s, es)
    decreases |es|
  {
    if es == [] then s else StepOk(s, es[0]); Exec(Step(s, es[0]), es[1..])
  }

  /** What every interleaving keeps: exact end counts, pipes exactly as long as
      they have slots, FIFO streams, and no lost wakeup. */
  lemma {:induction false} EveryRun(s: Sys, es: seq<Event>)
    requires SysOk(s) && Legal(s, es)
    ensures var t := Exec(s, es);
      && SysOk(t)
      && (forall x | x in t.chans :: var c := t.chans[x];
            && c.sent == c.received + Buffered(c.pipe) && c.pipe.head == (c.pipe.tail + c.pipe.count) % SIZE
            && c.pipe.readers == |Holders(t.tables, x, true)| && c.pipe.writers == |Holders(t.tables, x, false)|
            && NoLostWakeup(c.pipe, t.tasks, t.woken, x))
      && (forall p | p in t.tasks && t.tasks[p] != Idle :: t.tasks[p].pipe in t.chans)
    decreases |es|
  {
    if es == [] {
      forall x | x in s.chans ensures CountsOk(s, x) && ChannelOk(s.chans[x], s.tasks, s.woken, x) {}
      forall p | p in s.tasks && s.tasks[p] != Idle ensures s.tasks[p].pipe in s.chans { assert TaskOk(s, p); }
    } else {
      StepOk(s, es[0]);
      EveryRun(Step(s, es[0]), es[1..]);
    }
  }

  /** Every state the kernel can reach from its start is in order. */
  lemma EveryRunFromStart(es: seq<Event>)
    ensures SysOk(Sys(map[], map[], map[], {}))
    ensures Legal(Sys(map[], map[], map[], {}), es) ==> SysOk(Exec(Sys(map[], map[], map[], {}), es))
  {
    hide Legal, Exec;
    var s := Sys(map[], map[], map[], {});
    forall x ensures CountsOk(s, x) { assert Holders(s.tables, x, true) == {} && Holders(s.tables, x, false) == {}; }
    if Legal(s, es) { EveryRun(s, es); }
  }

  /** What pipe_read or pipe_write returns when its loop ends. */
  function Returned(t: Task): int {
    match t
    case Reading(_, _, got) => |got|
    case Writing(_, data, done) => if done >= |data| || done > 0 then done else -1
    case Idle => 0
  }

  /** A call is cut short only at an empty buffer with no write slot left, or with no read
      slot left; and -1 means that nothing could be written. */
  lemma ShortOnlyAtTheEnd(s: Sys, p: Pid)
    requires SysOk(s) && Enabled(s, LoopPass(p)) && Step(s, LoopPass(p)).tasks[p] == Idle
    ensures Step(s, LoopPass(p)).chans == s.chans
    ensures var r, x := Returned(s.tasks[p]), s.tasks[p].pipe;
      && x in s.chans
      && match s.tasks[p]
         case Reading(_, want, got) =>
           r == |got| && (r < want ==> Buffered(s.chans[x].pipe) == [] && Holders(s.tables, x, false) == {})
         case Writing(_, data, done) =>
           && -1 <= r && (r == -1 <==> data != [] && done == 0) && (r < |data| ==> Holders(s.tables, x, true) == {})
         case Idle => false
  {
    RunPassOk(s, p);
    assert CountsOk(s, s.tasks[p].pipe);
    hide SysOk, Holders, CountsOk, Runnable;
    EndingKeeps(s, p);
  }

  /** A pass that ends its call moves nothing. */
  lemma EndingKeeps(s: Sys, p: Pid)
    requires p in s.tasks && s.tasks[p] != Idle && s.tasks[p].pipe in s.chans && RingOk(s.chans[s.tasks[p].pipe].pipe)
    requires RunPass(s, p).tasks[p] == Idle
    ensures RunPass(s, p).chans == s.chans
    ensures var c := s.chans[s.tasks[p].pipe];
      match s.tasks[p]
      case Reading(_, want, got) => |got| < want ==> Buffered(c.pipe) == [] && c.pipe.writers == 0
      case Writing(_, data, done) => done < |data| ==> c.pipe.readers == 0
      case Idle => true
  {
    assert s.chans[s.tasks[p].pipe := s.chans[s.tasks[p].pipe]] == s.chans;
  }
}
