/** Batching of contiguous cache writes. Whatever is buffered when, the file ends
    up as if every write had gone straight through. */
module Coalescer {
  import opened Spans
  import opened Sched
  import opened RunModel
  import opened Cache

  const COALESCE: nat := MIB

  /** The file, what is on record of it, what waits in the buffer, and how long the
      file is to be. */
  datatype Stage = Stage(file: map<nat, Byte>, written: set<nat>, start: nat, buf: seq<Byte>, total: nat)

  datatype Op = Op(at: nat, data: seq<Byte>, coalesce: bool)

  /** A write that goes straight to disk; what lies past the file's end is not recorded. */
  function Direct(s: Stage, at: nat, data: seq<Byte>): Stage {
    s.(file := if s.total == 0 then s.file else Put(s.file, at, data),
       written := s.written + Interval(at, Min(at + |data|, s.total)))
  }

  function FlushStep(s: Stage): Stage {
    if s.buf == [] then s else Direct(s, s.start, s.buf).(buf := [])
  }

  function Joined(s: Stage, at: nat, data: seq<Byte>): Stage {
    if s.buf == [] then s.(start := at, buf := data) else s.(buf := s.buf + data)
  }

  function Buffered(s: Stage, at: nat, data: seq<Byte>): Stage {
    var joined := Joined(s, at, data);
    if |joined.buf| >= COALESCE then FlushStep(joined) else joined
  }

  function WriteStep(s: Stage, op: Op): Stage {
    if op.data == [] then s
    else if !op.coalesce then Direct(FlushStep(s), op.at, op.data)
    else if s.buf != [] && s.start + |s.buf| != op.at then Buffered(FlushStep(s), op.at, op.data)
    else Buffered(s, op.at, op.data)
  }

  ghost function Writes(s: Stage, ops: seq<Op>): Stage
    decreases |ops|
  {
    if ops == [] then s else Writes(WriteStep(s, ops[0]), ops[1..])
  }

  ghost function DirectWrites(s: Stage, ops: seq<Op>): Stage
    decreases |ops|
  {
    if ops == [] then s else DirectWrites(Direct(s, ops[0].at, ops[0].data), ops[1..])
  }

  class WriteCoalescer {
    var start: nat
    var buf: seq<Byte>

    constructor ()
      ensures start == 0 && buf == []
    {
      start, buf := 0, [];
    }

    ghost function View(sink: CacheEntry): Stage
      reads this, sink
    {
      Stage(sink.file, sink.written, start, buf, sink.g.total)
    }

    /** Accept `data` for offset `at`, to be written now or with its neighbours. */
    method Write(sink: CacheEntry, at: nat, data: seq<Byte>, coalesce: bool)
      requires sink.Valid()
      modifies this, sink
      ensures sink.Valid()
      ensures View(sink) == WriteStep(old(View(sink)), Op(at, data, coalesce))
    {
      if |data| == 0 { return; }
      if !coalesce {
        Flush(sink);
        sink.WriteRange(at, data);
        return;
      }
      if |buf| > 0 && start + |buf| != at { Flush(sink); }
      Append(sink, at, data);
    }

    method Append(sink: CacheEntry, at: nat, data: seq<Byte>)
      requires sink.Valid() && (buf != [] ==> start + |buf| == at)
      modifies this, sink
      ensures sink.Valid()
      ensures View(sink) == Buffered(old(View(sink)), at, data)
    {
      if |buf| == 0 { start := at; }
      buf := buf + data;
      assert View(sink) == Joined(old(View(sink)), at, data);
      if |buf| >= COALESCE { Flush(sink); }
    }

    method Flush(sink: CacheEntry)
      requires sink.Valid()
      modifies this, sink
      ensures sink.Valid() && buf == []
      ensures View(sink) == FlushStep(old(View(sink)))
    {
      if |buf| == 0 { return; }
      sink.WriteRange(start, buf);
      buf := [];
    }
  }

  // ---- transparency ----

  /** File and written set, whatever the buffer's old start. */
  ghost predicate SameDisk(a: Stage, b: Stage) {
    a.file == b.file && a.written == b.written && a.buf == b.buf == [] && a.total == b.total
  }

  lemma {:induction false} PutJoin(file: map<nat, Byte>, at: nat, p: seq<Byte>, q: seq<Byte>)
    ensures Put(Put(file, at, p), at + |p|, q) == Put(file, at, p + q)
    decreases |p|
  {
    if p == [] {
      assert p + q == q;
    } else {
      assert (p + q)[1..] == p[1..] + q;
      PutJoin(file[at := p[0]], at + 1, p[1..], q);
    }
  }

  lemma IntervalJoin(w: set<nat>, a: nat, m: nat, b: nat, total: nat)
    requires a <= m <= b
    ensures w + Interval(a, Min(m, total)) + Interval(m, Min(b, total)) == w + Interval(a, Min(b, total))
  {
  }

  /** Two adjacent writes are one. */
  lemma JoinedFile(s: Stage, at: nat, data: seq<Byte>)
    requires s.buf != [] && s.start + |s.buf| == at
    ensures FlushStep(Joined(s, at, data)).file == Direct(FlushStep(s), at, data).file
  {
    PutJoin(s.file, s.start, s.buf, data);
    FlushedFile(s);
    FlushedFile(Joined(s, at, data));
  }

  lemma FlushedFile(s: Stage)
    requires s.buf != []
    ensures FlushStep(s).file == if s.total == 0 then s.file else Put(s.file, s.start, s.buf)
  {
  }

  lemma JoinedWritten(s: Stage, at: nat, data: seq<Byte>)
    requires s.buf != [] && s.start + |s.buf| == at
    ensures FlushStep(Joined(s, at, data)).written == Direct(FlushStep(s), at, data).written
  {
    IntervalJoin(s.written, s.start, at, at + |data|, s.total);
  }

  lemma JoinedSettles(s: Stage, at: nat, data: seq<Byte>)
    requires data != [] && (s.buf != [] ==> s.start + |s.buf| == at)
    ensures SameDisk(FlushStep(Joined(s, at, data)), Direct(FlushStep(s), at, data))
  {
    if s.buf != [] {
      JoinedFile(s, at, data);
      JoinedWritten(s, at, data);
    }
  }

  lemma BufferedSettles(s: Stage, at: nat, data: seq<Byte>)
    requires data != [] && (s.buf != [] ==> s.start + |s.buf| == at)
    ensures SameDisk(FlushStep(Buffered(s, at, data)), Direct(FlushStep(s), at, data))
  {
    JoinedSettles(s, at, data);
  }

  lemma PutNothing(s: Stage, at: nat)
    ensures SameDisk(Direct(s.(buf := []), at, []), s.(buf := []))
  {
    assert Put(s.file, at, []) == s.file;
    assert s.written + Interval(at, Min(at, s.total)) == s.written;
  }

  /** One write, then settling, is settling, then a direct write. */
  lemma StepSettles(s: Stage, op: Op)
    ensures SameDisk(FlushStep(WriteStep(s, op)), Direct(FlushStep(s), op.at, op.data))
  {
    if op.data == [] {
      PutNothing(FlushStep(s), op.at);
    } else if op.coalesce {
      if s.buf != [] && s.start + |s.buf| != op.at {
        BufferedSettles(FlushStep(s), op.at, op.data);
      } else {
        BufferedSettles(s, op.at, op.data);
      }
    }
  }

  lemma {:induction false} SameDiskWrites(a: Stage, b: Stage, ops: seq<Op>)
    requires SameDisk(a, b)
    ensures SameDisk(DirectWrites(a, ops), DirectWrites(b, ops))
    decreases |ops|
  {
    if ops != [] { SameDiskWrites(Direct(a, ops[0].at, ops[0].data), Direct(b, ops[0].at, ops[0].data), ops[1..]); }
  }

  /** Any writes in any order with any mix of flags, then a flush: the file and
      the written set are those of writing straight through. */
  lemma {:induction false} CoalescingIsTransparent(s: Stage, ops: seq<Op>)
    ensures SameDisk(FlushStep(Writes(s, ops)), DirectWrites(FlushStep(s), ops))
    decreases |ops|
  {
    if ops != [] {
      StepSettles(s, ops[0]);
      CoalescingIsTransparent(WriteStep(s, ops[0]), ops[1..]);
      SameDiskWrites(FlushStep(WriteStep(s, ops[0])), Direct(FlushStep(s), ops[0].at, ops[0].data), ops[1..]);
    }
  }

  /** Byte `x` has been accepted: it is on disk or waits in the buffer. */
  predicate Accepted(s: Stage, x: nat) { x in s.written || s.start <= x < s.start + |s.buf| }

  lemma FlushAccepts(s: Stage, x: nat)
    requires x < s.total
    ensures Accepted(FlushStep(s), x) <==> Accepted(s, x)
  {
  }

  lemma BufferedAccepts(s: Stage, at: nat, data: seq<Byte>, x: nat)
    requires data != [] && (s.buf != [] ==> s.start + |s.buf| == at) && x < s.total
    ensures Accepted(Buffered(s, at, data), x) <==> Accepted(s, x) || at <= x < at + |data|
  {
    FlushAccepts(Joined(s, at, data), x);
  }

  /** Disk and buffer together account for every byte of the file accepted, and no other. */
  lemma WriteAccepts(s: Stage, op: Op, x: nat)
    requires x < s.total
    ensures Accepted(WriteStep(s, op), x) <==> Accepted(s, x) || op.at <= x < op.at + |op.data|
  {
    FlushAccepts(s, x);
    if op.data != [] && op.coalesce {
      if s.buf != [] && s.start + |s.buf| != op.at {
        BufferedAccepts(FlushStep(s), op.at, op.data, x);
      } else {
        BufferedAccepts(s, op.at, op.data, x);
      }
    }
  }

  // ---- durability of a stream ----

  ghost predicate Stream(from: nat, ops: seq<Op>)
    decreases |ops|
  {
    ops == [] || (ops[0].at == from && Stream(from + |ops[0].data|, ops[1..]))
  }

  function StreamEnd(from: nat, ops: seq<Op>): nat
    decreases |ops|
  {
    if ops == [] then from else StreamEnd(from + |ops[0].data|, ops[1..])
  }

  /** The buffer is a proper suffix, shorter than a block, of what was accepted,
      and all of the file that came before it since `from` is on disk. */
  ghost predicate Durable(s: Stage, from: nat, cursor: nat) {
    && |s.buf| < COALESCE && from + |s.buf| <= cursor
    && (s.buf != [] ==> s.start + |s.buf| == cursor)
    && forall x: nat :: from <= x < cursor - |s.buf| && x < s.total ==> x in s.written
  }

  /** A stream write either empties the buffer or grows it by the item, and the
      durable mark is always the cursor less what is buffered. */
  lemma StreamStep(s: Stage, from: nat, cursor: nat, op: Op)
    requires Durable(s, from, cursor) && op.at == cursor
    ensures var t := WriteStep(s, op);
            && Durable(t, from, cursor + |op.data|)
            && (op.data != [] ==> t.buf == [] || |t.buf| == |s.buf| + |op.data|)
            && (op.data != [] && !op.coalesce ==> t.buf == [])
  {
    var t := WriteStep(s, op);
    forall x: nat | from <= x < cursor + |op.data| - |t.buf| && x < t.total ensures x in t.written {}
  }

  /** At every point of a request's stream, `cursor - buffered` is durable. */
  lemma {:induction false} StreamIsDurable(s: Stage, from: nat, cursor: nat, ops: seq<Op>)
    requires Durable(s, from, cursor) && Stream(cursor, ops)
    ensures Durable(Writes(s, ops), from, StreamEnd(cursor, ops))
    decreases |ops|
  {
    if ops != [] {
      StreamStep(s, from, cursor, ops[0]);
      StreamIsDurable(WriteStep(s, ops[0]), from, cursor + |ops[0].data|, ops[1..]);
    }
  }
}
