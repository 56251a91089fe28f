/** The pipe object and the descriptor system calls as the kernel runs them: fields
    and slots updated in place, tables scanned by loops. */
module PipeKernel {
  import opened Types
  import opened PipeBuffer
  import opened PipeTraffic
  import opened PipeSystem
  import opened PipeRuns

  class PipeObject {
    ghost const id: PipeId
    const buf: array<byte>
    var head: nat
    var tail: nat
    var count: nat
    var readers: nat
    var writers: nat
    var readWaiters: seq<Pid>
    var writeWaiters: seq<Pid>

    ghost function Model(): Pipe
      reads this, buf
    {
      Pipe(buf[..], head, tail, count, readers, writers, readWaiters, writeWaiters)
    }

    /** pipe_create; id is the address it is allocated at. */
    constructor (ghost id: PipeId)
      ensures this.id == id && fresh(buf) && Model() == Fresh() && RingOk(Model())
    {
      this.id := id;
      buf := new byte[SIZE](i => 0);
      head, tail, count := 0, 0, 0;
      readers, writers := 1, 1;
      readWaiters, writeWaiters := [], [];
      new;
      assert buf[..] == Fresh().buf;
    }

    method ReadPass(me: Pid) returns (o: Outcome)
      requires RingOk(Model())
      modifies this
      ensures (Model(), o) == ReadOnce(old(Model()), me)
    {
      if count > 0 {
        var b := buf[tail];
        tail := (tail + 1) % SIZE;
        count := count - 1;
        var waiter := None;
        if writeWaiters != [] {
          waiter := Some(writeWaiters[0]);
          writeWaiters := writeWaiters[1..];
        }
        return Moved(b, waiter);
      }
      if writers == 0 {
        return Ended;
      }
      readWaiters := readWaiters + [me];
      return Parked;
    }

    method WritePass(me: Pid, b: byte) returns (o: Outcome)
      requires RingOk(Model())
      modifies this, buf
      ensures (Model(), o) == WriteOnce(old(Model()), me, b)
    {
      if readers == 0 {
        return Ended;
      }
      if count < SIZE {
        buf[head] := b;
        head := (head + 1) % SIZE;
        count := count + 1;
        var waiter := None;
        if readWaiters != [] {
          waiter := Some(readWaiters[0]);
          readWaiters := readWaiters[1..];
        }
        return Moved(b, waiter);
      }
      writeWaiters := writeWaiters + [me];
      return Parked;
    }

    /** One more descriptor names this end. */
    method Add(readEnd: bool)
      modifies this
      ensures Model() == WithEnd(old(Model()), readEnd)
    {
      if readEnd { readers := readers + 1; } else { writers := writers + 1; }
    }

    /** Drops one end and wakes both sides; true if the pipe must be freed. */
    method Close(readEnd: bool) returns (woken: seq<Pid>, free: bool)
      modifies this
      ensures (Model(), woken) == CloseEnd(old(Model()), readEnd)
      ensures free <==> readers == 0 && writers == 0
    {
      if readEnd {
        if readers > 0 { readers := readers - 1; }
      } else {
        if writers > 0 { writers := writers - 1; }
      }
      free := readers == 0 && writers == 0;
      woken := [];
      while writeWaiters != []
        invariant woken + writeWaiters == old(writeWaiters) && readWaiters == old(readWaiters) && buf[..] == old(buf[..])
        invariant head == old(head) && tail == old(tail) && count == old(count)
        invariant readers == CloseEnd(old(Model()), readEnd).0.readers && writers == CloseEnd(old(Model()), readEnd).0.writers
        decreases |writeWaiters|
      {
        woken := woken + [writeWaiters[0]];
        writeWaiters := writeWaiters[1..];
      }
      while readWaiters != []
        invariant woken + readWaiters == old(writeWaiters) + old(readWaiters) && writeWaiters == [] && buf[..] == old(buf[..])
        invariant head == old(head) && tail == old(tail) && count == old(count)
        invariant readers == CloseEnd(old(Model()), readEnd).0.readers && writers == CloseEnd(old(Model()), readEnd).0.writers
        decreases |readWaiters|
      {
        woken := woken + [readWaiters[0]];
        readWaiters := readWaiters[1..];
      }
      assert woken + [] == woken;
    }
  }

  /** The scan every descriptor-allocating call makes. */
  method FindClosed(t: array<Fd>, from: nat) returns (r: Option<nat>)
    ensures r == LowestClosed(t[..], from)
  {
    var i := from;
    while i < t.Length
      invariant from <= i && LowestClosed(t[..], from) == LowestClosed(t[..], i)
    {
      if t[i] == Closed { return Some(i); }
      i := i + 1;
    }
    return None;
  }

  method CopyTable(from: array<Fd>) returns (table: array<Fd>)
    ensures fresh(table) && table[..] == from[..]
  {
    table := new Fd[from.Length](i => Closed);
    forall i | 0 <= i < from.Length { table[i] := from[i]; }
  }

  /** Descriptor tables and pipes in place.  `sys` is what they stand for, with the bytes
      that ever went through each pipe. */
  class Descriptors {
    var pipes: map<PipeId, PipeObject>
    var tables: map<Pid, array<Fd>>
    var tasks: Tasks
    var woken: set<Pid>
    ghost var sys: Sys
    ghost var bufOwner: map<array<byte>, PipeId>
    ghost var tableOwner: map<array<Fd>, Pid>
    ghost var Repr: set<object>

    /** Pipes share no object and no buffer, and processes no table. */
    ghost predicate Owned()
      reads this`pipes, this`tables, this`bufOwner, this`tableOwner, this`Repr
    {
      && this !in Repr
      && (forall x | x in pipes :: pipes[x] in Repr && pipes[x].id == x)
      && (forall x | x in pipes :: pipes[x].buf in Repr && pipes[x].buf in bufOwner && bufOwner[pipes[x].buf] == x)
      && (forall p | p in tables :: tables[p] in Repr && tables[p] in tableOwner && tableOwner[tables[p]] == p)
    }

    /** The pipes and tables in memory are those of d. */
    ghost predicate Shows(d: Sys)
      reads this`pipes, this`tables, this`bufOwner, this`tableOwner, this`Repr, Repr
      requires Owned()
    {
      && pipes.Keys == d.chans.Keys && (forall x | x in pipes :: pipes[x].Model() == d.chans[x].pipe)
      && tables.Keys == d.tables.Keys && (forall p | p in tables :: tables[p][..] == d.tables[p])
    }

    ghost predicate Valid()
      reads this, Repr
    {
      Owned() && tasks == sys.tasks && woken == sys.woken && Shows(sys)
    }

    constructor ()
      ensures Valid() && sys == Sys(map[], map[], map[], {}) && Repr == {}
    {
      pipes, tables, tasks, woken := map[], map[], map[], {};
      sys, bufOwner, tableOwner, Repr := Sys(map[], map[], map[], {}), map[], map[], {};
    }

    /** Closing an end of one pipe leaves the other pipes and the tables alone. */
    method CloseNamed(x: PipeId, readEnd: bool) returns (waiters: seq<Pid>, free: bool)
      requires Owned() && x in pipes
      modifies pipes[x]
      ensures Owned() && (pipes[x].Model(), waiters) == CloseEnd(old(pipes[x].Model()), readEnd)
      ensures free <==> pipes[x].readers == 0 && pipes[x].writers == 0
      ensures forall y | y in pipes && y != x :: pipes[y].Model() == old(pipes[y].Model())
      ensures forall p | p in tables :: tables[p][..] == old(tables[p][..])
    {
      hide CloseEnd;
      var pipe := pipes[x];
      waiters, free := pipe.Close(readEnd);
    }

    /** The pipe is forgotten when it is to be freed. */
    method Forget(x: PipeId, free: bool, ghost d: Sys)
      requires Owned() && pipes.Keys == d.chans.Keys + (if free then {x} else {}) && (free ==> x in pipes && x !in d.chans)
      requires forall y | y in pipes && y in d.chans :: pipes[y].Model() == d.chans[y].pipe
      requires tables.Keys == d.tables.Keys && (forall p | p in tables :: tables[p][..] == d.tables[p])
      modifies this`pipes
      ensures Owned() && Shows(d)
    {
      if free { pipes := pipes - {x}; }
    }

    method DropNamed(fd: Fd) returns (waiters: seq<Pid>)
      requires Owned() && Shows(sys) && fd.End? && fd.pipe in pipes
      modifies this`pipes, Repr
      ensures Owned() && Shows(DropEnd(old(sys), fd)) && fd.pipe in old(sys).chans
      ensures waiters == CloseEnd(old(sys).chans[fd.pipe].pipe, fd.readEnd).1
    {
      hide CloseEnd;
      var free;
      waiters, free := CloseNamed(fd.pipe, fd.readEnd);
      Forget(fd.pipe, free, DropEnd(sys, fd));
    }

    /** pipe_close_end, on the pipe a descriptor names. */
    method Drop(fd: Fd)
      requires Valid() && (fd.End? ==> fd.pipe in pipes)
      modifies this`pipes, this`woken, this`sys, Repr
      ensures Valid() && sys == DropEnd(old(sys), fd)
    {
      hide CloseEnd, Among, Descriptors.Shows;
      if fd.End? {
        var waiters := DropNamed(fd);
        woken := woken + Among(waiters);
        sys := DropEnd(sys, fd);
      }
    }

    /** The count of the pipe a descriptor names goes up. */
    method AddNamed(fd: Fd)
      requires Owned() && Shows(sys) && (fd.End? ==> fd.pipe in pipes)
      modifies Repr
      ensures Owned() && Shows(AddEnd(sys, fd))
    {
      hide WithEnd;
      if fd.End? {
        var pipe := pipes[fd.pipe];
        pipe.Add(fd.readEnd);
      }
    }

    method Add(fd: Fd)
      requires Valid() && (fd.End? ==> fd.pipe in pipes)
      modifies this`sys, Repr
      ensures Valid() && sys == AddEnd(old(sys), fd)
    {
      hide WithEnd, Descriptors.Shows;
      AddNamed(fd);
      sys := AddEnd(sys, fd);
    }

    method StoreSlot(p: Pid, i: nat, fd: Fd)
      requires Owned() && Shows(sys) && p in tables && i < tables[p].Length
      modifies Repr
      ensures Owned() && p in sys.tables && i < |sys.tables[p]| && Shows(PipeSystem.SetSlot(sys, p, i, fd))
    {
      var table := tables[p];
      table[i] := fd;
    }

    method SetSlot(p: Pid, i: nat, fd: Fd)
      requires Valid() && p in tables && i < tables[p].Length
      modifies this`sys, Repr
      ensures Valid() && p in old(sys).tables && i < |old(sys).tables[p]| && sys == PipeSystem.SetSlot(old(sys), p, i, fd)
    {
      hide Descriptors.Shows;
      StoreSlot(p, i, fd);
      sys := PipeSystem.SetSlot(sys, p, i, fd);
    }

    // ----- System calls

    /** The process can make a call: it is not inside one. */
    ghost predicate Ready(p: Pid)
      reads this, Repr
    {
      Valid() && SysOk(sys) && p in tables && p in sys.tasks && sys.tasks[p] == Idle
    }

    /** pipe_close_end on what slot i of p names, then the slot is cleared. */
    method ReleaseSlot(p: Pid, i: nat)
      requires Ready(p) && i < tables[p].Length
      modifies this`pipes, this`woken, this`sys, Repr
      ensures Ready(p) && p in old(sys).tables && i < |old(sys).tables[p]| && sys == CloseSlot(old(sys), p, i)
    {
      hide SysOk, DropEnd;
      SlotNamesPipe(sys, p, i);
      CloseSlotOk(sys, p, i);
      DropKeeps(sys, tables[p][i]);
      Drop(tables[p][i]);
      SetSlot(p, i, Closed);
    }

    /** A closed slot is set to an end that is open, and the end's count goes up. */
    method CopySlot(p: Pid, i: nat, fd: Fd)
      requires Ready(p) && i < tables[p].Length && tables[p][i] == Closed && (fd.End? ==> fd.pipe in pipes)
      modifies this`sys, Repr
      ensures Ready(p) && p in old(sys).tables && i < |old(sys).tables[p]| && sys == OpenSlot(old(sys), p, i, fd)
    {
      hide SysOk, AddEnd;
      OpenSlotOk(sys, p, i, fd);
      AddKeeps(PipeSystem.SetSlot(sys, p, i, fd), fd);
      SetSlot(p, i, fd);
      Add(fd);
    }

    method Dup(p: Pid, oldfd: int) returns (reply: Reply)
      requires Ready(p)
      modifies this`sys, Repr
      ensures Ready(p) && p in old(sys).tables && (sys, reply) == DupCall(old(sys), p, oldfd)
    {
      hide SysOk, OpenSlot;
      var t := tables[p];
      if oldfd < 0 || oldfd >= t.Length || t[oldfd] == Closed { return Ebadf; }
      var n := FindClosed(t, 3);
      if n.None? { return Emfile; }
      SlotNamesPipe(sys, p, oldfd);
      CopySlot(p, n.value, t[oldfd]);
      return NewFd(n.value);
    }

    method Dup2(p: Pid, oldfd: int, newfd: int) returns (reply: Reply)
      requires Ready(p)
      modifies this`pipes, this`woken, this`sys, Repr
      ensures Ready(p) && p in old(sys).tables && (sys, reply) == Dup2Call(old(sys), p, oldfd, newfd)
    {
      hide SysOk, OpenSlot, DropEnd;
      var t := tables[p];
      if oldfd < 0 || oldfd >= t.Length || newfd < 0 || newfd >= t.Length || t[oldfd] == Closed { return Ebadf; }
      if newfd == oldfd { return NewFd(newfd); }
      DropKeeps(sys, t[newfd]);
      ReleaseSlot(p, newfd);
      SlotNamesPipe(sys, p, oldfd);
      CopySlot(p, newfd, t[oldfd]);
      return NewFd(newfd);
    }

    method Close(p: Pid, fd: int) returns (reply: Reply)
      requires Ready(p)
      modifies this`pipes, this`woken, this`sys, Repr
      ensures Ready(p) && p in old(sys).tables && (sys, reply) == CloseCall(old(sys), p, fd)
    {
      hide SysOk, CloseSlot;
      if 3 <= fd < tables[p].Length {
        ReleaseSlot(p, fd);
        return Done;
      }
      return Ebadf;
    }

    /** A new pipe is listed. */
    method List(x: PipeId, pipe: PipeObject)
      requires Owned() && Shows(sys) && x !in pipes && pipe.id == x && pipe !in Repr && pipe.buf !in Repr && pipe.buf !in bufOwner
      modifies this`pipes, this`bufOwner, this`Repr
      ensures Owned() && Shows(sys.(chans := sys.chans[x := Channel(pipe.Model(), [], [])])) && Repr == old(Repr) + {pipe, pipe.buf}
    {
      hide PipeObject.Model;
      pipes := pipes[x := pipe];
      bufOwner := bufOwner[pipe.buf := x];
      Repr := Repr + {pipe, pipe.buf};
    }

    /** pipe_create at a new address. */
    method CreatePipe(x: PipeId)
      requires Owned() && Shows(sys) && x !in pipes
      modifies this`pipes, this`bufOwner, this`Repr
      ensures Owned() && Shows(sys.(chans := sys.chans[x := Channel(Fresh(), [], [])])) && fresh(Repr - old(Repr))
    {
      hide Fresh;
      var pipe := new PipeObject(x);
      List(x, pipe);
    }

    method MakeEnds(p: Pid, x: PipeId, r: nat, w: nat)
      requires Valid() && p in tables && r < tables[p].Length && w < tables[p].Length && x !in pipes
      modifies this`pipes, this`bufOwner, this`Repr, this`sys, Repr
      ensures Valid() && p in old(sys).tables && r < |old(sys).tables[p]| && w < |old(sys).tables[p]| && sys == MakePipe(old(sys), p, x, r, w)
      ensures fresh(Repr - old(Repr))
    {
      hide Fresh, Descriptors.Shows;
      ghost var s := sys;
      TableIs(p);
      CreatePipe(x);
      sys := s.(chans := s.chans[x := Channel(Fresh(), [], [])]);
      SetSlot(p, r, End(x, true));
      TableIs(p);
      SetSlot(p, w, End(x, false));
    }

    method UnmakeEnds(p: Pid, x: PipeId, r: nat, w: nat)
      requires Valid() && p in tables && r < tables[p].Length && w < tables[p].Length
      requires x in pipes && x in DropEnd(sys, End(x, true)).chans
      modifies this`pipes, this`woken, this`sys, Repr
      ensures Valid() && p in old(sys).tables && r < |old(sys).tables[p]| && w < |old(sys).tables[p]| && sys == UndoPipe(old(sys), p, x, r, w)
    {
      hide DropEnd, Descriptors.Shows;
      TableIs(p);
      DropKeeps(sys, End(x, true));
      DropKeeps(DropEnd(sys, End(x, true)), End(x, false));
      Drop(End(x, true));
      TableIs(p);
      Drop(End(x, false));
      TableIs(p);
      SetSlot(p, r, Closed);
      TableIs(p);
      SetSlot(p, w, Closed);
    }

    /** SYS_pipe: when the numbers cannot be written back, the new pipe and both slots
        are given up again. */
    method Pipe(p: Pid, x: Option<PipeId>, copied: bool) returns (reply: Reply)
      requires Ready(p) && (x.Some? ==> x.value !in pipes)
      modifies this, Repr
      ensures Ready(p) && p in old(sys).tables && (sys, reply) == PipeCall(old(sys), p, x, copied) && fresh(Repr - old(Repr))
      ensures reply == Efault ==> sys == old(sys)
    {
      hide SysOk, MakePipe, UndoPipe, DropEnd, Descriptors.Shows;
      ghost var s := sys;
      TableIs(p);
      PipeCallOk(s, p, x, copied);
      var r := FindClosed(tables[p], 3);
      var w := None;
      if r.Some? { w := FindClosed(tables[p], r.value + 1); }
      if r.None? || w.None? { return Emfile; }
      if x.None? { return Enomem; }
      HalfUndone(s, p, x.value, r.value, w.value);
      MakeEnds(p, x.value, r.value, w.value);
      if !copied {
        TableIs(p);
        UnmakeEnds(p, x.value, r.value, w.value);
        return Efault;
      }
      return Fds(r.value, w.value);
    }

    lemma TableIs(p: Pid)
      requires Valid() && p in tables
      ensures p in sys.tables && tables[p][..] == sys.tables[p] && |sys.tables[p]| == tables[p].Length
      ensures pipes.Keys == sys.chans.Keys && tables.Keys == sys.tables.Keys
    {
    }

    /** The child gets its table. */
    method Adopt(child: Pid, table: array<Fd>, ghost t: Table)
      requires Owned() && Shows(sys) && child !in tables && table !in tableOwner && table !in Repr && table[..] == t && |t| == MAX_FDS
      modifies this`tables, this`tableOwner, this`Repr
      ensures Owned() && Shows(Counting(sys, child, t, 0))
      ensures tables == old(tables)[child := table] && Repr == old(Repr) + {table}
    {
      hide Counting, PipeObject.Model;
      CountNone(sys, child, t);
      tables := tables[child := table];
      tableOwner := tableOwner[table := child];
      Repr := Repr + {table};
    }

    /** Every end in the copied table is counted once more. */
    method CountTable(child: Pid, ghost s: Sys, ghost p: Pid)
      requires Valid() && SysOk(s) && p in s.tables && child !in s.tables && |s.tables[p]| == MAX_FDS
      requires child in tables && sys == Counting(s, child, s.tables[p], 0)
      modifies this`sys, Repr
      ensures Valid() && sys == ForkCall(s, p, child)
    {
      hide SysOk, AddEnd, Counting, ForkCall, Descriptors.Shows;
      ghost var t := s.tables[p];
      CountBegins(s, p, child);
      TableIs(child);
      for i := 0 to tables[child].Length
        invariant Valid() && tables[child].Length == |t| && sys == Counting(s, child, t, i)
      {
        TableIs(child);
        CountStep(s, p, child, i);
        assert tables[child][i] == t[i];
        Add(tables[child][i]);
      }
      CountEnds(s, p, child);
    }

    /** The descriptor part of clone_process: the table is copied, then its ends counted. */
    method CloneTable(p: Pid, child: Pid)
      requires Ready(p) && child !in tables
      modifies this, Repr
      ensures Ready(p) && p in old(sys).tables && |old(sys).tables[p]| == MAX_FDS && sys == ForkCall(old(sys), p, child)
      ensures fresh(Repr - old(Repr))
    {
      hide SysOk, AddEnd, Counting, ForkCall, Descriptors.Shows;
      TableIs(p);
      ghost var s := sys;
      ForkOk(s, p, child);
      CountBegins(s, p, child);
      CountEnds(s, p, child);
      var table := CopyTable(tables[p]);
      Adopt(child, table, s.tables[p]);
      tasks := tasks[child := Idle];
      sys := Counting(s, child, s.tables[p], 0);
      CountTable(child, s, p);
    }

    /** process_release_fds */
    method ReleaseSlots(p: Pid)
      requires Ready(p)
      modifies this`pipes, this`woken, this`sys, Repr
      ensures Ready(p) && p in old(sys).tables && sys == CloseSlots(old(sys), p, |old(sys).tables[p]|)
    {
      hide SysOk, CloseSlot, Descriptors.Shows;
      ghost var s := sys;
      TableIs(p);
      for i := 0 to tables[p].Length
        invariant Ready(p) && tables[p].Length == |s.tables[p]| && sys == CloseSlots(s, p, i)
      {
        ReleaseSlot(p, i);
      }
    }

    method Retire(p: Pid)
      requires Owned() && Shows(sys) && p in tables
      modifies this`tables
      ensures Owned() && Shows(Without(sys, p))
    {
      tables := tables - {p};
    }

    method Leave(p: Pid)
      requires Valid() && p in tables
      modifies this
      ensures Valid() && sys == Without(old(sys), p)
    {
      hide Descriptors.Shows;
      Retire(p);
      tasks, woken := tasks - {p}, woken - {p};
      sys := Without(sys, p);
    }

    /** An exiting process releases its descriptors, and is gone. */
    method ReleaseTable(p: Pid)
      requires Ready(p)
      modifies this, Repr
      ensures Valid() && SysOk(sys) && p in old(sys).tables && sys == ExitCall(old(sys), p)
    {
      hide SysOk, CloseSlots, Descriptors.Shows;
      TableIs(p);
      ExitOk(sys, p);
      ReleaseSlots(p);
      Leave(p);
    }

    // ----- The blocking loops

    /** SYS_read and SYS_write on a pipe descriptor enter the loops. */
    method Start(p: Pid, fd: nat, read: bool, n: nat, data: seq<byte>)
      requires Ready(p) && fd < tables[p].Length
      modifies this`tasks, this`sys
      ensures Valid() && SysOk(sys) && p in old(sys).tables && fd < |old(sys).tables[p]|
      ensures sys == if read then StartRead(old(sys), p, fd, n) else StartWrite(old(sys), p, fd, data)
    {
      hide SysOk;
      TableIs(p);
      StartOk(sys, p, fd, n, data);
      var e := tables[p][fd];
      ghost var s := sys;
      if read && (fd == 0 || fd >= 3) && e.End? && e.readEnd {
        tasks := tasks[p := Reading(e.pipe, n, [])];
      } else if !read && (fd == 1 || fd >= 3) && e.End? && !e.readEnd {
        tasks := tasks[p := Writing(e.pipe, data, 0)];
      }
      sys := if read then StartRead(s, p, fd, n) else StartWrite(s, p, fd, data);
    }

    /** One pass on the pipe itself leaves the other pipes and the tables alone. */
    method PassNamed(p: Pid, t: Task) returns (o: Outcome)
      requires Owned() && t != Idle && t.pipe in pipes && RingOk(pipes[t.pipe].Model()) && Unended(t)
      modifies pipes[t.pipe], pipes[t.pipe].buf
      ensures Owned() && (pipes[t.pipe].Model(), o) == MoveOnce(old(pipes[t.pipe].Model()), p, t)
      ensures forall y | y in pipes && y != t.pipe :: pipes[y].Model() == old(pipes[y].Model())
      ensures forall q | q in tables :: tables[q][..] == old(tables[q][..])
    {
      hide ReadOnce, WriteOnce, RingOk;
      var pipe := pipes[t.pipe];
      if t.Reading? {
        o := pipe.ReadPass(p);
      } else {
        o := pipe.WritePass(p, t.data[t.done]);
      }
    }

    method PassOn(p: Pid, t: Task) returns (o: Outcome)
      requires Owned() && Shows(sys) && CanPass(sys, p, t)
      modifies Repr
      ensures Owned() && Shows(RunPass(sys, p)) && t.pipe in sys.chans && o == MoveOnce(sys.chans[t.pipe].pipe, p, t).1
    {
      hide RingOk, MoveOnce, RunPass;
      PassMoves(sys, p, t);
      o := PassNamed(p, t);
    }

    lemma ShowsSame(d: Sys, e: Sys)
      requires Owned() && Shows(d) && e.chans == d.chans && e.tables == d.tables
      ensures Shows(e)
    {
    }

    /** One pass of process p's loop; the call's return value when it ends. */
    method Pass(p: Pid) returns (r: Option<int>)
      requires Valid() && SysOk(sys) && Enabled(sys, LoopPass(p))
      modifies this`tasks, this`woken, this`sys, Repr
      ensures Valid() && SysOk(sys) && Passable(old(sys), p) && sys == RunPass(old(sys), p)
      ensures p in sys.tasks && r == if sys.tasks[p] == Idle then Some(Returned(old(sys).tasks[p])) else None
    {
      hide SysOk, ReadOnce, WriteOnce, RingOk, Runnable, RunPass, MoveOnce, Descriptors.Shows;
      ghost var s := sys;
      RunPassOk(s, p);
      var t := tasks[p];
      if CanPass(s, p, t) { PassMoves(s, p, t); }
      r := None;
      var finished := if t.Reading? then |t.got| >= t.want else t.done >= |t.data|;
      if finished {
        FinishedKeeps(s, p, t);
        ShowsSame(s, RunPass(s, p));
        tasks, woken, r := tasks[p := Idle], woken - {p}, Some(Returned(t));
      } else {
        var o := PassOn(p, t);
        match o
        case Moved(b, w) =>
          tasks := tasks[p := if t.Reading? then t.(got := t.got + [b]) else t.(done := t.done + 1)];
          woken := Wake(woken, p, w);
        case Ended => tasks, woken, r := tasks[p := Idle], woken - {p}, Some(Returned(t));
        case Parked => woken := woken - {p};
      }
      sys := RunPass(s, p);
    }
  }

  /** There are bytes left to move. */
  predicate Unended(t: Task) { (t.Reading? ==> |t.got| < t.want) && (t.Writing? ==> t.done < |t.data|) }

  ghost function MoveOnce(pipe: Pipe, p: Pid, t: Task): (Pipe, Outcome)
    requires RingOk(pipe) && t != Idle && Unended(t)
  {
    if t.Reading? then ReadOnce(pipe, p) else WriteOnce(pipe, p, t.data[t.done])
  }

  predicate Passable(s: Sys, p: Pid) {
    p in s.tasks && s.tasks[p] != Idle && s.tasks[p].pipe in s.chans && RingOk(s.chans[s.tasks[p].pipe].pipe)
  }

  predicate CanPass(s: Sys, p: Pid, t: Task) { Passable(s, p) && t == s.tasks[p] && Unended(t) }

  /** What a pass does to the system, by what it does to its pipe. */
  lemma PassMoves(s: Sys, p: Pid, t: Task)
    requires CanPass(s, p, t)
    ensures var u, (pipe, o) := RunPass(s, p), MoveOnce(s.chans[t.pipe].pipe, p, t);
      && u.chans.Keys == s.chans.Keys && u.tables == s.tables && u.chans[t.pipe].pipe == pipe
      && (forall y | y in s.chans && y != t.pipe :: u.chans[y] == s.chans[y])
      && u.woken == (if o.Moved? then Wake(s.woken, p, o.woken) else s.woken - {p})
      && match o
         case Moved(b, _) => u.tasks == s.tasks[p := if t.Reading? then t.(got := t.got + [b]) else t.(done := t.done + 1)]
         case Ended => u.tasks == s.tasks[p := Idle]
         case Parked => u.tasks == s.tasks
  {
    assert s.tasks[p := t] == s.tasks;
  }

  lemma FinishedKeeps(s: Sys, p: Pid, t: Task)
    requires Passable(s, p) && t == s.tasks[p] && !CanPass(s, p, t)
    ensures RunPass(s, p) == s.(tasks := s.tasks[p := Idle], woken := s.woken - {p})
  {
    assert s.chans[t.pipe := s.chans[t.pipe]] == s.chans;
  }

  /** With its read end closed, a new pipe is still there. */
  lemma HalfUndone(s: Sys, p: Pid, x: PipeId, r: nat, w: nat)
    requires p in s.tables && r < |s.tables[p]| && w < |s.tables[p]|
    ensures x in DropEnd(MakePipe(s, p, x, r, w), End(x, true)).chans
    ensures MakePipe(s, p, x, r, w).tables.Keys == s.tables.Keys && |MakePipe(s, p, x, r, w).tables[p]| == |s.tables[p]|
    ensures MakePipe(s, p, x, r, w).tasks == s.tasks && x in MakePipe(s, p, x, r, w).chans
  {
  }

  /** The child has its whole table, and the first n of its slots are counted. */
  ghost function Counting(s: Sys, child: Pid, t: Table, n: nat): Sys
    requires n <= |t| == MAX_FDS
  {
    CopySlots(AddProcess(s, child), child, t, n).(tables := s.tables[child := t])
  }

  lemma CountBegins(s: Sys, p: Pid, child: Pid)
    requires p in s.tables && |s.tables[p]| == MAX_FDS
    ensures var c := Counting(s, child, s.tables[p], 0); c.tasks == s.tasks[child := Idle] && c.woken == s.woken && c.tables == s.tables[child := s.tables[p]]
  {
    CountNone(s, child, s.tables[p]);
  }

  lemma CountNone(s: Sys, child: Pid, t: Table)
    requires |t| == MAX_FDS
    ensures Counting(s, child, t, 0) == s.(tables := s.tables[child := t], tasks := s.tasks[child := Idle])
  {
  }

  lemma CountStep(s: Sys, p: Pid, child: Pid, i: nat)
    requires SysOk(s) && p in s.tables && child !in s.tables && |s.tables[p]| == MAX_FDS && i < MAX_FDS
    ensures var t := s.tables[p]; Counting(s, child, t, i + 1) == AddEnd(Counting(s, child, t, i), t[i])
    ensures var t := s.tables[p]; (t[i].End? ==> t[i].pipe in Counting(s, child, t, i).chans) && Counting(s, child, t, i).tables == s.tables[child := t]
  {
    hide SysOk;
    var t, u := s.tables[p], AddProcess(s, child);
    AddProcessOk(s, child);
    forall j | 0 <= j < MAX_FDS ensures t[j].End? ==> t[j].pipe in s.chans { SlotNamesPipe(s, p, j); }
    CopySlotsOk(u, child, t, i);
  }

  lemma CountEnds(s: Sys, p: Pid, child: Pid)
    requires SysOk(s) && p in s.tables && child !in s.tables && |s.tables[p]| == MAX_FDS
    ensures Counting(s, child, s.tables[p], MAX_FDS) == ForkCall(s, p, child) && ForkCall(s, p, child).tasks == s.tasks[child := Idle]
  {
    hide SysOk;
    ForkOk(s, p, child);
    var t := s.tables[p];
    AddProcessOk(s, child);
    forall j | 0 <= j < MAX_FDS ensures t[j].End? ==> t[j].pipe in s.chans { SlotNamesPipe(s, p, j); }
    CopySlotsOk(AddProcess(s, child), child, t, MAX_FDS);
  }

  lemma DropKeeps(s: Sys, fd: Fd)
    ensures DropEnd(s, fd).tables == s.tables && DropEnd(s, fd).tasks == s.tasks
  {
  }

  lemma AddKeeps(s: Sys, fd: Fd)
    ensures AddEnd(s, fd).tables == s.tables && AddEnd(s, fd).tasks == s.tasks && AddEnd(s, fd).chans.Keys == s.chans.Keys
  {
  }
}
