/** What a process gets for its calls: the bytes it wrote are the bytes that enter the pipe,
    the bytes it is given are the bytes that leave it, and each descriptor call changes
    exactly the slots it names. */
module PipeCalls {
  import opened Types
  import opened PipeBuffer
  import opened PipeTraffic
  import opened PipeSystem
  import opened PipeRuns

  // ----- Bytes over whole calls

  ghost function SentOf(s: Sys, x: PipeId): seq<byte> { if x in s.chans then s.chans[x].sent else [] }
  ghost function ReceivedOf(s: Sys, x: PipeId): seq<byte> { if x in s.chans then s.chans[x].received else [] }

  function Added(a: seq<byte>, b: seq<byte>): seq<byte> { if a <= b then b[|a|..] else [] }

  /** The bytes that p's own steps of a run put into pipe x. */
  ghost function Sends(s: Sys, es: seq<Event>, p: Pid, x: PipeId): seq<byte>
    requires SysOk(s) && Legal(s, es)
    decreases |es|
  {
    if es == [] then []
    else
      StepOk(s, es[0]);
      var t := Step(s, es[0]);
      (if es[0].p == p then Added(SentOf(s, x), SentOf(t, x)) else []) + Sends(t, es[1..], p, x)
  }

  /** The bytes that p's own steps of a run take out of pipe x. */
  ghost function Takes(s: Sys, es: seq<Event>, p: Pid, x: PipeId): seq<byte>
    requires SysOk(s) && Legal(s, es)
    decreases |es|
  {
    if es == [] then []
    else
      StepOk(s, es[0]);
      var t := Step(s, es[0]);
      (if es[0].p == p then Added(ReceivedOf(s, x), ReceivedOf(t, x)) else []) + Takes(t, es[1..], p, x)
  }

  /** p is inside a call, and returns from it with the last event. */
  ghost predicate Returns(s: Sys, es: seq<Event>, p: Pid)
    requires SysOk(s) && Legal(s, es)
    decreases |es|
  {
    && es != [] && p in s.tasks && s.tasks[p] != Idle
    && (StepOk(s, es[0]);
        var t := Step(s, es[0]);
        if p in t.tasks && t.tasks[p] != Idle then Returns(t, es[1..], p) else |es| == 1)
  }

  /** The number p's call returns, and the bytes in the caller's buffer by then. */
  ghost function Answer(s: Sys, es: seq<Event>, p: Pid): (int, seq<byte>)
    requires SysOk(s) && Legal(s, es) && Returns(s, es, p)
    decreases |es|
  {
    StepOk(s, es[0]);
    if |es| == 1 then (Returned(s.tasks[p]), if s.tasks[p].Reading? then s.tasks[p].got else [])
    else Answer(Step(s, es[0]), es[1..], p)
  }

  /** While p is inside a call, nobody else touches what it is doing. */
  lemma OthersLeaveTask(s: Sys, e: Event, p: Pid)
    requires SysOk(s) && Enabled(s, e) && p in s.tasks && s.tasks[p] != Idle && e.p != p
    ensures p in Step(s, e).tasks && Step(s, e).tasks[p] == s.tasks[p]
  {
    hide CountsOk, ChannelOk, Holders;
    match e
    case SysFork(q, child) =>
      TableSize(s, q);
      AddProcessOk(s, child);
      forall i | 0 <= i < MAX_FDS ensures s.tables[q][i].End? ==> s.tables[q][i].pipe in s.chans { SlotNamesPipe(s, q, i); }
      CopySlotsOk(AddProcess(s, child), child, s.tables[q], MAX_FDS);
    case SysExit(q) => CloseSlotsOk(s, q, |s.tables[q]|);
    case LoopPass(q) => RunPassOk(s, q);
    case _ =>
  }

  /** Inside a call, p's only steps are passes of its loop. */
  lemma OnlyPasses(s: Sys, e: Event)
    requires SysOk(s) && Enabled(s, e) && e.p in s.tasks && s.tasks[e.p] != Idle
    ensures e == LoopPass(e.p)
  {
    if e.Create? { assert false; }
  }

  /** One pass of a writer: nothing, or its next byte, goes in. */
  lemma WriterPass(s: Sys, p: Pid)
    requires SysOk(s) && Enabled(s, LoopPass(p)) && s.tasks[p].Writing?
    ensures var t, x := Step(s, LoopPass(p)), s.tasks[p].pipe; var Writing(_, data, done) := s.tasks[p];
      && p in t.tasks && x in t.chans && x in s.chans
      && (t.tasks[p] == Idle || t.tasks[p] == s.tasks[p] ==> t.chans[x].sent == s.chans[x].sent)
      && (t.tasks[p] != Idle && t.tasks[p] != s.tasks[p] ==>
          done < |data| && t.tasks[p] == Writing(x, data, done + 1) && t.chans[x].sent == s.chans[x].sent + [data[done]])
      && (t.tasks[p] == Idle && done < |data| ==> Returned(s.tasks[p]) == if done > 0 then done else -1)
  {
    hide SysOk, Runnable;
    RunPassOk(s, p);
  }

  lemma ReaderPass(s: Sys, p: Pid)
    requires SysOk(s) && Enabled(s, LoopPass(p)) && s.tasks[p].Reading?
    ensures var t, x := Step(s, LoopPass(p)), s.tasks[p].pipe; var Reading(_, want, got) := s.tasks[p];
      && p in t.tasks && x in t.chans && x in s.chans
      && (t.tasks[p] == Idle || t.tasks[p] == s.tasks[p] ==> t.chans[x].received == s.chans[x].received)
      && (t.tasks[p] != Idle && t.tasks[p] != s.tasks[p] ==>
          && |got| < want && t.tasks[p].Reading? && |t.tasks[p].got| == |got| + 1 && t.tasks[p] == Reading(x, want, got + [t.tasks[p].got[|got|]])
          && t.chans[x].received == s.chans[x].received + [t.tasks[p].got[|got|]])
  {
    hide SysOk, Runnable;
    RunPassOk(s, p);
  }

  lemma NextByte(data: seq<byte>, done: nat, more: seq<byte>)
    requires done < |data|
    ensures data[..done + 1] + more == data[..done] + ([data[done]] + more)
  {
  }

  lemma {:induction false} WriteProceeds(s: Sys, es: seq<Event>, p: Pid)
    requires SysOk(s) && Legal(s, es) && Returns(s, es, p) && s.tasks[p].Writing? && s.tasks[p].done <= |s.tasks[p].data|
    ensures var Writing(x, data, done) := s.tasks[p]; var r := Answer(s, es, p).0;
      && -1 <= r <= |data| && (r == -1 ==> data != [] && done == 0) && (r >= 0 ==> done <= r)
      && data[..done] + Sends(s, es, p, x) == data[..if r < 0 then 0 else r]
    decreases |es|
  {
    hide SysOk, Step, Enabled;
    var Writing(x, data, done) := s.tasks[p];
    var e := es[0];
    StepOk(s, e);
    var t, rest := Step(s, e), es[1..];
    if e.p == p {
      OnlyPasses(s, e);
      WriterPass(s, p);
      if |es| > 1 {
        WriteProceeds(t, rest, p);
        if t.tasks[p] != s.tasks[p] { NextByte(data, done, Sends(t, rest, p, x)); }
      } else {
        NothingSent(t, rest, p, x);
      }
    } else {
      OthersLeaveTask(s, e, p);
      WriteProceeds(t, rest, p);
      assert [] + Sends(t, rest, p, x) == Sends(t, rest, p, x);
    }
  }

  lemma NothingSent(s: Sys, es: seq<Event>, p: Pid, x: PipeId)
    requires SysOk(s) && es == []
    ensures Legal(s, es) && Sends(s, es, p, x) == [] && Takes(s, es, p, x) == []
  {
  }

  /** write: of the caller's bytes the first r enter the pipe of its descriptor, in order,
      when the call returns r, and none when it returns -1. */
  lemma WriteSends(s: Sys, p: Pid, to: nat, data: seq<byte>, es: seq<Event>)
    requires SysOk(s) && Enabled(s, SysWrite(p, to, data)) && (to == 1 || to >= 3)
    requires s.tables[p][to].End? && !s.tables[p][to].readEnd
    ensures var t := Step(s, SysWrite(p, to, data)); SysOk(t) && t.chans == s.chans && t.tables == s.tables
    ensures var t, x := Step(s, SysWrite(p, to, data)), s.tables[p][to].pipe;
      Legal(t, es) && Returns(t, es, p) ==>
        var r := Answer(t, es, p).0;
        -1 <= r <= |data| && (r == -1 ==> data != []) && Sends(t, es, p, x) == data[..if r < 0 then 0 else r]
  {
    hide SysOk, Returns, Answer, Sends, Legal;
    StepOk(s, SysWrite(p, to, data));
    var t := Step(s, SysWrite(p, to, data));
    if Legal(t, es) && Returns(t, es, p) {
      WriteProceeds(t, es, p);
      assert data[..0] + Sends(t, es, p, s.tables[p][to].pipe) == Sends(t, es, p, s.tables[p][to].pipe);
    }
  }

  lemma {:induction false} ReadProceeds(s: Sys, es: seq<Event>, p: Pid)
    requires SysOk(s) && Legal(s, es) && Returns(s, es, p) && s.tasks[p].Reading? && |s.tasks[p].got| <= s.tasks[p].want
    ensures var Reading(x, want, got) := s.tasks[p]; var (r, buffer) := Answer(s, es, p);
      r == |buffer| <= want && buffer == got + Takes(s, es, p, x)
    decreases |es|
  {
    hide SysOk, Step, Enabled;
    var Reading(x, want, got) := s.tasks[p];
    var e := es[0];
    StepOk(s, e);
    var t, rest := Step(s, e), es[1..];
    if e.p == p {
      OnlyPasses(s, e);
      ReaderPass(s, p);
      if |es| > 1 { ReadProceeds(t, rest, p); } else { NothingSent(t, rest, p, x); }
    } else {
      OthersLeaveTask(s, e, p);
      ReadProceeds(t, rest, p);
      assert [] + Takes(t, rest, p, x) == Takes(t, rest, p, x);
    }
  }

  /** read: the caller's buffer holds, in order, exactly the bytes its passes took out of the
      pipe of its descriptor; the call returns their number, n at most. */
  lemma ReadTakes(s: Sys, p: Pid, from: nat, n: nat, es: seq<Event>)
    requires SysOk(s) && Enabled(s, SysRead(p, from, n)) && (from == 0 || from >= 3)
    requires s.tables[p][from].End? && s.tables[p][from].readEnd
    ensures var t := Step(s, SysRead(p, from, n)); SysOk(t) && t.chans == s.chans && t.tables == s.tables
    ensures var t, x := Step(s, SysRead(p, from, n)), s.tables[p][from].pipe;
      Legal(t, es) && Returns(t, es, p) ==>
        var (r, buffer) := Answer(t, es, p); r == |buffer| <= n && buffer == Takes(t, es, p, x)
  {
    hide SysOk, Returns, Answer, Takes, Legal;
    StepOk(s, SysRead(p, from, n));
    var t := Step(s, SysRead(p, from, n));
    if Legal(t, es) && Returns(t, es, p) {
      ReadProceeds(t, es, p);
      assert [] + Takes(t, es, p, s.tables[p][from].pipe) == Takes(t, es, p, s.tables[p][from].pipe);
    }
  }

  // ----- What each descriptor call changes

  predicate Bad(t: Table, fd: int) { fd < 0 || fd >= |t| || t[fd] == Closed }

  /** The lowest closed slot from `from` on is n. */
  predicate Lowest(t: Table, from: nat, n: nat) {
    from <= n < |t| && t[n] == Closed && forall j | from <= j < n :: t[j] != Closed
  }

  predicate NoneClosed(t: Table, from: nat) { forall j | from <= j < |t| :: t[j] != Closed }

  /** dup: the lowest closed slot from 3 on becomes a copy of oldfd's, and no other slot of
      any table changes. */
  lemma DupExact(s: Sys, p: Pid, oldfd: int)
    requires SysOk(s) && Enabled(s, SysDup(p, oldfd))
    ensures var t, (u, reply) := s.tables[p], DupCall(s, p, oldfd);
      && Step(s, SysDup(p, oldfd)) == u
      && (reply == Ebadf <==> Bad(t, oldfd)) && (reply == Emfile <==> !Bad(t, oldfd) && NoneClosed(t, 3))
      && (reply in {Ebadf, Emfile} ==> u == s)
      && (reply !in {Ebadf, Emfile} ==> reply.NewFd? && Lowest(t, 3, reply.fd) && u.tables == s.tables[p := t[reply.fd := t[oldfd]]])
  {
  }

  /** dup2: slot newfd becomes a copy of slot oldfd, and no other slot of any table changes. */
  lemma Dup2Exact(s: Sys, p: Pid, oldfd: int, newfd: int)
    requires SysOk(s) && Enabled(s, SysDup2(p, oldfd, newfd))
    ensures var t, (u, reply) := s.tables[p], Dup2Call(s, p, oldfd, newfd);
      && Step(s, SysDup2(p, oldfd, newfd)) == u
      && if Bad(t, oldfd) || newfd < 0 || newfd >= |t| then reply == Ebadf && u == s
         else reply == NewFd(newfd) && u.tables == s.tables[p := t[newfd := t[oldfd]]] && (newfd == oldfd ==> u == s)
  {
    hide SysOk, CloseEnd, WithEnd;
    var t := s.tables[p];
    if !Bad(t, oldfd) && 0 <= newfd < |t| {
      if newfd == oldfd {
        assert t[newfd := t[oldfd]] == t && s.tables[p := t] == s.tables;
      } else {
        assert t[newfd := Closed][newfd := t[oldfd]] == t[newfd := t[oldfd]];
      }
    }
  }

  /** close: exactly slots 3 to 31 can be closed, and no other slot of any table changes. */
  lemma CloseExact(s: Sys, p: Pid, fd: int)
    requires SysOk(s) && Enabled(s, SysClose(p, fd))
    ensures |s.tables[p]| == 32
    ensures var t, (u, reply) := s.tables[p], CloseCall(s, p, fd);
      && Step(s, SysClose(p, fd)) == u
      && if 3 <= fd < 32 then reply == Done && u.tables == s.tables[p := t[fd := Closed]] else reply == Ebadf && u == s
  {
    TableSize(s, p);
  }

  /** open: the lowest closed slot from 3 on, if there is one. */
  lemma OpenExact(s: Sys, p: Pid)
    requires SysOk(s) && Enabled(s, SysOpen(p))
    ensures var t, (u, reply) := s.tables[p], OpenCall(s, p);
      && Step(s, SysOpen(p)) == u && u.chans == s.chans
      && if NoneClosed(t, 3) then reply == Emfile && u == s
         else reply.NewFd? && Lowest(t, 3, reply.fd) && u.tables == s.tables[p := t[reply.fd := File]]
  {
  }

  /** At least two slots from 3 on are closed. */
  predicate TwoClosed(t: Table) { exists r, w :: 3 <= r < w < |t| && t[r] == Closed && t[w] == Closed }

  /** pipe: succeeds exactly with two closed slots, memory and a writable result; the two
      slots are the lowest ones, and name the two ends of a new empty pipe. */
  lemma PipeExact(s: Sys, p: Pid, x: Option<PipeId>, copied: bool)
    requires SysOk(s) && Enabled(s, SysPipe(p, x, copied))
    ensures var t, (u, reply) := s.tables[p], PipeCall(s, p, x, copied);
      && Step(s, SysPipe(p, x, copied)) == u
      && (reply == Emfile <==> !TwoClosed(t)) && (reply == Enomem <==> TwoClosed(t) && x.None?)
      && (reply == Efault <==> TwoClosed(t) && x.Some? && !copied)
      && (reply.Fds? <==> TwoClosed(t) && x.Some? && copied) && (!reply.Fds? ==> u == s)
      && (reply.Fds? ==>
          && Lowest(t, 3, reply.r) && Lowest(t, reply.r + 1, reply.w)
          && u.tables == s.tables[p := t[reply.r := End(x.value, true)][reply.w := End(x.value, false)]]
          && u.chans.Keys == s.chans.Keys + {x.value} && u.chans[x.value].sent == [] == u.chans[x.value].received
          && forall y | y in s.chans :: u.chans[y] == s.chans[y])
  {
    hide SysOk, UndoPipe, MakePipe;
    PipeCallOk(s, p, x, copied);
    var t := s.tables[p];
    var r := LowestClosed(t, 3);
    if r.Some? && LowestClosed(t, r.value + 1).Some? {
      assert 3 <= r.value < LowestClosed(t, r.value + 1).value < |t|;
      assert TwoClosed(t);
    }
  }

  // ----- Only passes move bytes

  /** Pipes of both states have carried the same bytes. */
  ghost predicate SameTraffic(s: Sys, u: Sys) {
    forall x | x in s.chans && x in u.chans :: u.chans[x].sent == s.chans[x].sent && u.chans[x].received == s.chans[x].received
  }

  lemma {:induction false} CopyKeepsTraffic(s: Sys, child: Pid, t: Table, n: nat)
    requires child in s.tables && |s.tables[child]| == |t| && n <= |t|
    ensures SameTraffic(s, CopySlots(s, child, t, n)) && CopySlots(s, child, t, n).chans.Keys == s.chans.Keys
  {
    hide OpenSlot;
    if n > 0 {
      CopyKeepsTraffic(s, child, t, n - 1);
      SlotKeepsTraffic(CopySlots(s, child, t, n - 1), child, n - 1, t[n - 1]);
    }
  }

  lemma {:induction false} ReleaseKeepsTraffic(s: Sys, p: Pid, n: nat)
    requires p in s.tables && n <= |s.tables[p]|
    ensures SameTraffic(s, CloseSlots(s, p, n)) && CloseSlots(s, p, n).chans.Keys <= s.chans.Keys
  {
    hide CloseSlot;
    if n > 0 {
      ReleaseKeepsTraffic(s, p, n - 1);
      SlotKeepsTraffic(CloseSlots(s, p, n - 1), p, n - 1, Closed);
    }
  }

  lemma SlotKeepsTraffic(s: Sys, p: Pid, i: nat, fd: Fd)
    requires p in s.tables && i < |s.tables[p]|
    ensures SameTraffic(s, OpenSlot(s, p, i, fd)) && OpenSlot(s, p, i, fd).chans.Keys == s.chans.Keys
    ensures SameTraffic(s, CloseSlot(s, p, i)) && CloseSlot(s, p, i).chans.Keys <= s.chans.Keys
    ensures p in CloseSlot(s, p, i).tables && |CloseSlot(s, p, i).tables[p]| == |s.tables[p]|
  {
    hide CloseEnd, WithEnd;
  }

  /** A pass moves bytes on its own pipe only, and one at most, at the ends. */
  lemma PassMoves(s: Sys, p: Pid)
    requires SysOk(s) && Enabled(s, LoopPass(p))
    ensures var u := Step(s, LoopPass(p));
      && u.tables == s.tables && u.chans.Keys == s.chans.Keys
      && (forall x | x in s.chans && x != s.tasks[p].pipe :: u.chans[x] == s.chans[x])
      && (forall x | x in s.chans ::
          && s.chans[x].sent <= u.chans[x].sent && s.chans[x].received <= u.chans[x].received
          && |u.chans[x].sent| + |u.chans[x].received| <= |s.chans[x].sent| + |s.chans[x].received| + 1)
  {
    hide SysOk, Runnable;
    RunPassOk(s, p);
  }

  /** No other event moves a byte. */
  lemma OnlyPassesMove(s: Sys, e: Event)
    requires SysOk(s) && Enabled(s, e) && !e.LoopPass?
    ensures SameTraffic(s, Step(s, e))
  {
    hide SysOk, OpenSlot, CloseSlot;
    match e
    case SysPipe(p, x, copied) => PipeCallOk(s, p, x, copied);
    case SysFork(p, child) => TableSize(s, p); CopyKeepsTraffic(AddProcess(s, child), child, s.tables[p], MAX_FDS);
    case SysExit(p) => ReleaseKeepsTraffic(s, p, |s.tables[p]|);
    case SysDup(p, oldfd) =>
      var n := LowestClosed(s.tables[p], 3);
      if !Bad(s.tables[p], oldfd) && n.Some? { SlotKeepsTraffic(s, p, n.value, s.tables[p][oldfd]); }
    case SysDup2(p, oldfd, newfd) => Dup2KeepsTraffic(s, p, oldfd, newfd);
    case SysClose(p, fd) => if 3 <= fd < |s.tables[p]| { SlotKeepsTraffic(s, p, fd, Closed); }
    case SysOpen(p) =>
      var n := LowestClosed(s.tables[p], 3);
      if n.Some? { SlotKeepsTraffic(s, p, n.value, File); }
    case _ =>
  }

  lemma Dup2KeepsTraffic(s: Sys, p: Pid, oldfd: int, newfd: int)
    requires p in s.tables
    ensures SameTraffic(s, Dup2Call(s, p, oldfd, newfd).0)
  {
    hide OpenSlot;
    var t := s.tables[p];
    if !Bad(t, oldfd) && 0 <= newfd < |t| {
      SlotKeepsTraffic(s, p, newfd, Closed);
      SlotKeepsTraffic(CloseSlot(s, p, newfd), p, newfd, t[oldfd]);
    }
  }

  // ----- Who is parked, and who was woken

  /** w is parked on the pipe of its call. */
  ghost predicate Waits(s: Sys, w: Pid) {
    && w in s.tasks && s.tasks[w] != Idle && s.tasks[w].pipe in s.chans
    && var c := s.chans[s.tasks[w].pipe].pipe;
       w in if s.tasks[w].Reading? then c.readWaiters else c.writeWaiters
  }

  /** Between the two states w is not forgotten: parked or woken before, parked or
      woken after, and never parked anew. */
  ghost predicate Hands(s: Sys, t: Sys, w: Pid) {
    && (Waits(s, w) || w in s.woken <==> Waits(t, w) || w in t.woken)
    && (Waits(t, w) ==> Waits(s, w)) && (w in s.woken ==> w in t.woken)
  }

  lemma QueueWaits(s: Sys, x: PipeId, w: Pid)
    requires SysOk(s) && x in s.chans
    ensures w in s.chans[x].pipe.readWaiters ==> w in s.tasks && ReadsFrom(s.tasks[w], x) && w !in s.woken
    ensures w in s.chans[x].pipe.writeWaiters ==> w in s.tasks && WritesTo(s.tasks[w], x) && w !in s.woken
  {
    hide CountsOk, TaskOk, Holders;
    var c := s.chans[x].pipe;
    assert QueuesOk(c, s.tasks, s.woken, x);
    if i :| 0 <= i < |c.readWaiters| && c.readWaiters[i] == w { assert ParkedReader(s.tasks, s.woken, x, w); }
    if i :| 0 <= i < |c.writeWaiters| && c.writeWaiters[i] == w { assert ParkedWriter(s.tasks, s.woken, x, w); }
  }

  lemma OpenHands(s: Sys, p: Pid, i: nat, fd: Fd, w: Pid)
    requires p in s.tables && i < |s.tables[p]|
    ensures Hands(s, OpenSlot(s, p, i, fd), w)
  {
  }

  lemma CloseHands(s: Sys, p: Pid, i: nat, w: Pid)
    requires SysOk(s) && p in s.tables && i < |s.tables[p]|
    ensures Hands(s, CloseSlot(s, p, i), w)
    ensures s.tables[p][i].End? && Waits(s, w) && s.tasks[w].pipe == s.tables[p][i].pipe ==> w in CloseSlot(s, p, i).woken && !Waits(CloseSlot(s, p, i), w)
  {
    hide SysOk;
    var fd := s.tables[p][i];
    if fd.End? && fd.pipe in s.chans { QueueWaits(s, fd.pipe, w); }
  }

  lemma {:induction false} CopyHands(s: Sys, child: Pid, t: Table, n: nat, w: Pid)
    requires child in s.tables && |s.tables[child]| == |t| && n <= |t|
    ensures Hands(s, CopySlots(s, child, t, n), w)
  {
    hide Waits;
    if n > 0 {
      CopyHands(s, child, t, n - 1, w);
      OpenHands(CopySlots(s, child, t, n - 1), child, n - 1, t[n - 1], w);
    }
  }

  lemma {:induction false} ReleaseHands(s: Sys, p: Pid, n: nat, w: Pid)
    requires SysOk(s) && p in s.tables && p in s.tasks && s.tasks[p] == Idle && n <= |s.tables[p]|
    ensures Hands(s, CloseSlots(s, p, n), w)
  {
    hide Waits, SysOk;
    if n > 0 {
      ReleaseHands(s, p, n - 1, w);
      CloseSlotsOk(s, p, n - 1);
      CloseHands(CloseSlots(s, p, n - 1), p, n - 1, w);
    }
  }

  lemma PassHands(s: Sys, p: Pid, w: Pid)
    requires SysOk(s) && Enabled(s, LoopPass(p)) && w != p
    ensures Hands(s, Step(s, LoopPass(p)), w)
  {
    hide SysOk, Runnable;
    RunPassOk(s, p);
    QueueWaits(s, s.tasks[p].pipe, w);
  }

  lemma PipeHands(s: Sys, p: Pid, x: Option<PipeId>, copied: bool, w: Pid)
    requires SysOk(s) && Enabled(s, SysPipe(p, x, copied))
    ensures Hands(s, Step(s, SysPipe(p, x, copied)), w)
  {
    hide SysOk, UndoPipe;
    PipeCallOk(s, p, x, copied);
  }

  lemma Dup2Hands(s: Sys, p: Pid, oldfd: int, newfd: int, w: Pid)
    requires SysOk(s) && p in s.tables
    ensures Hands(s, Dup2Call(s, p, oldfd, newfd).0, w)
  {
    hide SysOk, Waits, OpenSlot;
    var t := s.tables[p];
    if !Bad(t, oldfd) && 0 <= newfd < |t| && newfd != oldfd {
      CloseHands(s, p, newfd, w);
      OpenHands(CloseSlot(s, p, newfd), p, newfd, t[oldfd], w);
    }
  }

  /** Opening, closing and copying slots. */
  lemma SlotHands(s: Sys, e: Event, w: Pid)
    requires SysOk(s) && Enabled(s, e) && (e.SysDup? || e.SysDup2? || e.SysClose? || e.SysOpen?)
    ensures Hands(s, Step(s, e), w)
  {
    hide SysOk, Waits, OpenSlot, CloseSlot, Dup2Call;
    var p := e.p;
    var n := LowestClosed(s.tables[p], 3);
    match e
    case SysDup(_, oldfd) => if !Bad(s.tables[p], oldfd) && n.Some? { OpenHands(s, p, n.value, s.tables[p][oldfd], w); }
    case SysDup2(_, oldfd, newfd) => Dup2Hands(s, p, oldfd, newfd, w);
    case SysClose(_, fd) => if 3 <= fd < |s.tables[p]| { CloseHands(s, p, fd, w); }
    case SysOpen(_) => if n.Some? { OpenHands(s, p, n.value, File, w); }
  }

  lemma ForkHands(s: Sys, p: Pid, child: Pid, w: Pid)
    requires SysOk(s) && Enabled(s, SysFork(p, child))
    ensures Hands(s, Step(s, SysFork(p, child)), w)
  {
    hide CopySlots;
    TableSize(s, p);
    CopyHands(AddProcess(s, child), child, s.tables[p], MAX_FDS, w);
  }

  lemma ExitHands(s: Sys, p: Pid, w: Pid)
    requires SysOk(s) && Enabled(s, SysExit(p)) && w != p
    ensures Hands(s, Step(s, SysExit(p)), w)
  {
    hide SysOk, CloseSlots;
    ReleaseHands(s, p, |s.tables[p]|, w);
  }

  lemma StartHands(s: Sys, e: Event, w: Pid)
    requires SysOk(s) && Enabled(s, e) && e.p != w && (e.SysRead? || e.SysWrite? || e.Create?)
    ensures Hands(s, Step(s, e), w)
  {
  }

  /** A process is parked by its own passes only, and leaves the queue only by being woken;
      and only a parked process is woken. */
  lemma StepHands(s: Sys, e: Event, w: Pid)
    requires SysOk(s) && Enabled(s, e) && e.p != w
    ensures Hands(s, Step(s, e), w)
  {
    hide SysOk, Step, Enabled, Hands;
    match e
    case LoopPass(p) => PassHands(s, p, w);
    case SysPipe(p, x, copied) => PipeHands(s, p, x, copied, w);
    case SysFork(p, child) => ForkHands(s, p, child, w);
    case SysExit(p) => ExitHands(s, p, w);
    case Create(_) => StartHands(s, e, w);
    case SysRead(_, _, _) => StartHands(s, e, w);
    case SysWrite(_, _, _) => StartHands(s, e, w);
    case _ => SlotHands(s, e, w);
  }

  /** Over every run in which a parked process does not get to run: it is still parked, in
      the same call, or it was woken, and not both. */
  lemma {:induction false} ParkedUntilWoken(s: Sys, es: seq<Event>, w: Pid)
    requires SysOk(s) && Legal(s, es) && (Waits(s, w) || w in s.woken) && forall e | e in es :: e.p != w
    ensures var t := Exec(s, es);
      w in s.tasks && w in t.tasks && t.tasks[w] == s.tasks[w] && (Waits(t, w) <==> w !in t.woken)
    decreases |es|
  {
    hide SysOk, Step, Enabled, Waits;
    WaiterBusy(s, w);
    if es != [] {
      StepOk(s, es[0]);
      assert es[0] in es;
      StepHands(s, es[0], w);
      OthersLeaveTask(s, es[0], w);
      ParkedUntilWoken(Step(s, es[0]), es[1..], w);
    }
  }

  lemma WaiterBusy(s: Sys, w: Pid)
    requires SysOk(s) && (Waits(s, w) || w in s.woken)
    ensures w in s.tasks && s.tasks[w] != Idle && (Waits(s, w) <==> w !in s.woken)
  {
    hide CountsOk, TaskOk, Holders;
    if Waits(s, w) {
      var x := s.tasks[w].pipe;
      assert s.chans[x] == s.chans[x];
      QueueWaits(s, x, w);
    }
  }

  /** Closing an end wakes everybody parked on the pipe. */
  lemma CloseWakes(s: Sys, p: Pid, fd: int, w: Pid)
    requires SysOk(s) && Enabled(s, SysClose(p, fd)) && 3 <= fd < |s.tables[p]| && s.tables[p][fd].End?
    requires Waits(s, w) && s.tasks[w].pipe == s.tables[p][fd].pipe
    ensures w in Step(s, SysClose(p, fd)).woken && !Waits(Step(s, SysClose(p, fd)), w)
  {
    hide SysOk, Waits, CloseSlot;
    CloseHands(s, p, fd, w);
  }

  /** Only these descriptors enter the loops; on any other, read and write leave the pipes,
      the tables and the tasks alone. */
  lemma ElseNoLoop(s: Sys, p: Pid, fd: nat, n: nat, data: seq<byte>)
    requires SysOk(s) && Enabled(s, SysRead(p, fd, n))
    ensures var end := s.tables[p][fd];
      && (Step(s, SysRead(p, fd, n)) == s <==> !(fd != 1 && fd != 2 && end.End? && end.readEnd))
      && (Step(s, SysWrite(p, fd, data)) == s <==> !(fd != 0 && fd != 2 && end.End? && !end.readEnd))
  {
    var t, u := Step(s, SysRead(p, fd, n)), Step(s, SysWrite(p, fd, data));
    assert t != s ==> t.tasks[p] != s.tasks[p];
  }
}
