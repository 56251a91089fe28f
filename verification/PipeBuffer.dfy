/** One pipe: the ring buffer, the end counts and the two wait queues, changed by
    one pass of the read or write loop, or by closing an end.

    Each interrupts-off section, with the wakeup that follows it, and the whole of
    a close are single steps. */
module PipeBuffer {
  import opened Types

  const SIZE: nat := 512

  type Pid = nat

  datatype Pipe = Pipe(
    buf: seq<byte>, head: nat, tail: nat, count: nat,
    readers: nat, writers: nat,
    readWaiters: seq<Pid>, writeWaiters: seq<Pid>)

  predicate RingOk(p: Pipe) {
    |p.buf| == SIZE && p.count <= SIZE && p.tail < SIZE && p.head == (p.tail + p.count) % SIZE
  }

  /** The buffered bytes, oldest first. */
  function Buffered(p: Pipe): (s: seq<byte>)
    requires RingOk(p)
    ensures |s| == p.count
  {
    seq(p.count, i requires 0 <= i < p.count => p.buf[(p.tail + i) % SIZE])
  }

  function Fresh(): Pipe {
    Pipe(seq(SIZE, i => 0), 0, 0, 0, 1, 1, [], [])
  }

  /** What one pass of a loop tells its process. */
  datatype Outcome = Moved(b: byte, woken: Option<Pid>) | Ended | Parked

  function Head(q: seq<Pid>): Option<Pid> { if q == [] then None else Some(q[0]) }

  function Tail(q: seq<Pid>): seq<Pid> { if q == [] then [] else q[1..] }

  /** One pass of the read loop by process me. */
  function ReadOnce(p: Pipe, me: Pid): (Pipe, Outcome)
    requires RingOk(p)
  {
    if p.count > 0 then
      (p.(tail := (p.tail + 1) % SIZE, count := p.count - 1, writeWaiters := Tail(p.writeWaiters)),
       Moved(p.buf[p.tail], Head(p.writeWaiters)))
    else if p.writers == 0 then (p, Ended)
    else (p.(readWaiters := p.readWaiters + [me]), Parked)
  }

  /** One pass of the write loop by process me, offering byte b. */
  function WriteOnce(p: Pipe, me: Pid, b: byte): (Pipe, Outcome)
    requires RingOk(p)
  {
    if p.readers == 0 then (p, Ended)
    else if p.count < SIZE then
      (p.(buf := p.buf[p.head := b], head := (p.head + 1) % SIZE, count := p.count + 1, readWaiters := Tail(p.readWaiters)),
       Moved(b, Head(p.readWaiters)))
    else (p.(writeWaiters := p.writeWaiters + [me]), Parked)
  }

  function WithEnd(p: Pipe, readEnd: bool): Pipe {
    if readEnd then p.(readers := p.readers + 1) else p.(writers := p.writers + 1)
  }

  /** Closing one end drops a count and wakes everybody. */
  function CloseEnd(p: Pipe, readEnd: bool): (Pipe, seq<Pid>) {
    (p.(readers := if readEnd && p.readers > 0 then p.readers - 1 else p.readers,
        writers := if !readEnd && p.writers > 0 then p.writers - 1 else p.writers,
        readWaiters := [], writeWaiters := []),
     p.writeWaiters + p.readWaiters)
  }

  lemma Advance(a: nat, b: nat, c: nat)
    ensures ((a + b) % SIZE + c) % SIZE == (a + (c + b)) % SIZE
  {
  }

  lemma ReadKeepsRing(p: Pipe, me: Pid)
    requires RingOk(p)
    ensures RingOk(ReadOnce(p, me).0)
  {
    if p.count > 0 { Advance(p.tail, 1, p.count - 1); }
  }

  lemma WriteKeepsRing(p: Pipe, me: Pid, b: byte)
    requires RingOk(p)
    ensures RingOk(WriteOnce(p, me, b).0)
  {
    Advance(p.tail, p.count, 1);
  }

  /** Byte i of the ring, and of a sequence of the buffered bytes. */
  lemma BufferedAt(p: Pipe, i: nat)
    requires RingOk(p) && i < p.count
    ensures Buffered(p)[i] == p.buf[(p.tail + i) % SIZE]
  {
  }

  lemma ReadShifts(p: Pipe, me: Pid, i: nat)
    requires RingOk(p) && RingOk(ReadOnce(p, me).0) && i + 1 < p.count
    ensures Buffered(ReadOnce(p, me).0)[i] == Buffered(p)[i + 1]
  {
    hide Buffered;
    BufferedAt(ReadOnce(p, me).0, i);
    BufferedAt(p, i + 1);
    Advance(p.tail, 1, i);
  }

  /** The ring is a queue: a read takes the oldest byte. */
  lemma ReadTakesOldest(p: Pipe, me: Pid)
    requires RingOk(p)
    ensures RingOk(ReadOnce(p, me).0)
    ensures p.count > 0 ==> ReadOnce(p, me).1.Moved? && [ReadOnce(p, me).1.b] + Buffered(ReadOnce(p, me).0) == Buffered(p)
    ensures p.count == 0 ==> Buffered(ReadOnce(p, me).0) == Buffered(p)
  {
    hide RingOk;
    ReadKeepsRing(p, me);
    if p.count > 0 {
      hide Buffered;
      forall i: nat | i + 1 < p.count ensures Buffered(ReadOnce(p, me).0)[i] == Buffered(p)[i + 1] { ReadShifts(p, me, i); }
      OldestIs(p);
      assert [ReadOnce(p, me).1.b] + Buffered(ReadOnce(p, me).0) == Buffered(p);
    }
  }

  lemma OldestIs(p: Pipe)
    requires RingOk(p) && p.count > 0
    ensures Buffered(p)[0] == p.buf[p.tail]
  {
  }

  lemma WriteStays(p: Pipe, me: Pid, b: byte, i: nat)
    requires RingOk(p) && RingOk(WriteOnce(p, me, b).0) && p.readers > 0 && p.count < SIZE && i <= p.count
    ensures Buffered(WriteOnce(p, me, b).0)[i] == if i < p.count then Buffered(p)[i] else b
  {
    hide Buffered;
    BufferedAt(WriteOnce(p, me, b).0, i);
    if i < p.count {
      BufferedAt(p, i);
      Apart(p.tail, p.count, i);
    }
  }

  /** ... and a write adds the newest. */
  lemma WriteAddsNewest(p: Pipe, me: Pid, b: byte)
    requires RingOk(p)
    ensures RingOk(WriteOnce(p, me, b).0)
    ensures p.readers > 0 && p.count < SIZE ==>
      WriteOnce(p, me, b).1.Moved? && Buffered(WriteOnce(p, me, b).0) == Buffered(p) + [b]
    ensures p.readers == 0 || p.count == SIZE ==> Buffered(WriteOnce(p, me, b).0) == Buffered(p)
  {
    WriteKeepsRing(p, me, b);
    hide RingOk;
    if p.readers > 0 && p.count < SIZE {
      hide Buffered;
      forall i: nat | i <= p.count ensures Buffered(WriteOnce(p, me, b).0)[i] == if i < p.count then Buffered(p)[i] else b { WriteStays(p, me, b, i); }
      assert Buffered(WriteOnce(p, me, b).0) == Buffered(p) + [b];
    }
  }

  lemma Apart(tail: nat, count: nat, i: nat)
    requires tail < SIZE && i < count < SIZE
    ensures (tail + i) % SIZE != (tail + count) % SIZE
  {
  }

  /** The longest waiting process: the queue's head, once me has joined at the back. */
  function Longest(q: seq<Pid>, me: Pid): Pid { if q == [] then me else q[0] }

  /** A reader parks on an empty pipe.  The next write wakes whoever waited longest, and
      that reader's retry gets exactly the written byte and leaves the pipe empty. */
  lemma ParkedReaderIsServed(p: Pipe, me: Pid, writer: Pid, b: byte)
    requires RingOk(p) && p.readers > 0 && ReadOnce(p, me).1.Parked?
    ensures var parked := ReadOnce(p, me).0;
      && RingOk(parked) && WriteOnce(parked, writer, b).1 == Moved(b, Some(Longest(p.readWaiters, me)))
      && var written := WriteOnce(parked, writer, b).0;
         && RingOk(written) && ReadOnce(written, Longest(p.readWaiters, me)).1 == Moved(b, Head(p.writeWaiters))
         && var again := ReadOnce(written, Longest(p.readWaiters, me)).0;
            RingOk(again) && Buffered(again) == [] && again.readWaiters == (p.readWaiters + [me])[1..]
  {
    var parked := ReadOnce(p, me).0;
    WriteAddsNewest(parked, writer, b);
    var written := WriteOnce(parked, writer, b).0;
    ReadTakesOldest(written, Longest(p.readWaiters, me));
    assert Buffered(parked) == [] && Buffered(written) == [b];
  }

  /** A writer parks on a full pipe.  The next read wakes whoever waited longest, and that
      writer's retry puts its byte behind all the others. */
  lemma ParkedWriterIsServed(p: Pipe, me: Pid, b: byte, reader: Pid, c: byte)
    requires RingOk(p) && WriteOnce(p, me, b).1.Parked?
    ensures var parked := WriteOnce(p, me, b).0;
      && RingOk(parked) && ReadOnce(parked, reader).1 == Moved(Buffered(p)[0], Some(Longest(p.writeWaiters, me)))
      && var read := ReadOnce(parked, reader).0;
         && RingOk(read) && WriteOnce(read, Longest(p.writeWaiters, me), c).1 == Moved(c, Head(p.readWaiters))
         && var again := WriteOnce(read, Longest(p.writeWaiters, me), c).0;
            RingOk(again) && Buffered(again) == Buffered(p)[1..] + [c] && again.writeWaiters == (p.writeWaiters + [me])[1..]
  {
    var parked := WriteOnce(p, me, b).0;
    ReadTakesOldest(parked, reader);
    var read := ReadOnce(parked, reader).0;
    WriteAddsNewest(read, Longest(p.writeWaiters, me), c);
    assert Buffered(parked) == Buffered(p) && Buffered(parked)[0] == Buffered(p)[0];
    assert Buffered(parked)[1..] == Buffered(read);
  }
}
