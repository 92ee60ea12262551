/** A staged transfer as a state machine: workers claim, stream items into the
    sparse file and report; readers drain contiguous runs; the coordinator
    retunes, refocuses, sweeps, pauses and rebuilds. Every interleaving is a
    sequence of acts. A worker reads its claim's end and announces its write in
    two separate acts, as the code does. */
module RunModel {
  import opened Spans
  import opened Sched
  import opened SchedLaws
  import opened Conservation

  type Byte = bv8

  const READ_CHUNK: nat := 1024 * 1024

  /** How `fetch_claim` came back. */
  datatype Verdict = Done | Failed | Overloaded | Changed

  /** `at` is the next byte the request will deliver; `[cursor, at)` is accepted
      but still buffered; `item` bytes are in hand, `held` once announced. */
  datatype Task =
    | Idle
    | Busy(at: nat, item: nat, held: bool)
    | Reporting(verdict: Verdict, delivered: nat, issued: nat)
    | Exited

  datatype Reader = Reader(from: nat, to: nat, cursor: nat, out: seq<Byte>)

  datatype Run = Run(s: Sched, file: map<nat, Byte>, tasks: seq<Task>, readers: seq<Reader>,
                     fatal: bool, failures: nat, budget: nat)

  datatype Act =
    | Ask(w: nat, rates: Rates)
    | Quit(w: nat)
    | See(w: nat, n: nat)
    | Commit(w: nat)
    | Land(w: nat, flush: bool)
    | Flush(w: nat)
    | Report(w: nat, verdict: Verdict)
    | Note(w: nat)
    | Emit(reader: nat)
    | Tell(head: nat, ahead: nat)
    | Tune(strategy: Strategy, limit: Option<nat>)
    | Attach(from: nat, to: nat)
    | Refocus(window: nat)
    | Sweep(idle: set<nat>)
    | Staff
    | Pause(strategy: Strategy, wall: Option<nat>, staged: seq<Span>)

  function Slot(s: Sched, w: nat): nat { FindFrom(s.live, OfWorker(w), 0) }

  function Interval(a: nat, b: nat): (r: set<nat>)
    ensures forall x: nat :: x in r <==> a <= x < b
    decreases b - a
  {
    if a >= b then {} else Interval(a, b - 1) + {b - 1}
  }

  /** The file once the origin's bytes `[a, b)` have been written in place. */
  ghost function Write(file: map<nat, Byte>, origin: nat -> Byte, a: nat, b: nat): map<nat, Byte> {
    file + map x | x in Interval(a, b) :: origin(x)
  }

  /** Length of the written run at `o`, capped at `limit`. */
  ghost function RunLength(disk: set<nat>, o: nat, limit: nat): (n: nat)
    ensures n <= limit
    ensures forall x: nat :: o <= x < o + n ==> x in disk
    ensures n < limit ==> o + n !in disk
    decreases limit
  {
    if limit == 0 || o !in disk then 0 else 1 + RunLength(disk, o + 1, limit - 1)
  }

  ghost function Slice(file: map<nat, Byte>, a: nat, n: nat): (r: seq<Byte>)
    requires forall x: nat :: a <= x < a + n ==> x in file
    ensures |r| == n && forall i :: 0 <= i < n ==> r[i] == file[a + i]
    decreases n
  {
    if n == 0 then [] else Slice(file, a, n - 1) + [file[a + n - 1]]
  }

  ghost function Available(r: Run, i: nat): nat
    requires i < |r.readers| && r.readers[i].cursor <= r.readers[i].to
  {
    RunLength(r.file.Keys, r.readers[i].cursor, Min(r.readers[i].to - r.readers[i].cursor + 1, READ_CHUNK))
  }

  ghost predicate HasBusy(r: Run, w: nat) {
    w < |r.tasks| && r.tasks[w].Busy? && Slot(r.s, w) < |r.s.live|
  }

  ghost predicate Enabled(r: Run, a: Act) {
    match a
    case Ask(w, _) => w < |r.tasks| && r.tasks[w].Idle? && !r.fatal && r.s.WellFormed()
    case Quit(w) => w < |r.tasks| && r.tasks[w].Idle? && r.fatal
    case See(w, n) => HasBusy(r, w) && r.tasks[w].item == 0 && n > 0 && r.tasks[w].at <= r.s.live[Slot(r.s, w)].end
    case Commit(w) => HasBusy(r, w) && r.tasks[w].item > 0 && !r.tasks[w].held
    case Land(w, _) => HasBusy(r, w) && r.tasks[w].item > 0 && r.tasks[w].held
    case Flush(w) => HasBusy(r, w) && r.tasks[w].item == 0
    case Report(w, _) => HasBusy(r, w) && r.tasks[w].item == 0 && r.tasks[w].at == r.s.live[Slot(r.s, w)].cursor
    case Note(w) => w < |r.tasks| && r.tasks[w].Reporting?
    case Emit(i) => i < |r.readers| && r.readers[i].cursor <= r.readers[i].to && Available(r, i) > 0
    case Tell(_, _) => true
    case Tune(_, _) => true
    case Attach(from, to) => true
    case Refocus(_) => r.s.WellFormed()
    case Sweep(_) => true
    case Staff => true
    case Pause(_, _, staged) => forall x: nat :: Has(staged, x) ==> x in r.file
  }

  ghost function WithLive(r: Run, w: nat, l: Live): Sched
    requires Slot(r.s, w) < |r.s.live|
  {
    r.s.(live := r.s.live[Slot(r.s, w) := l])
  }

  /** An aborted worker is restarted at the top of its loop; its buffer is gone. */
  ghost function Restart(tasks: seq<Task>, gone: seq<nat>): seq<Task> {
    seq(|tasks|, i requires 0 <= i < |tasks| => if i in gone then Idle else tasks[i])
  }

  ghost function AskAct(r: Run, w: nat, rates: Rates): Run
    requires Enabled(r, Ask(w, rates))
  {
    var (s, l) := r.s.Claim(w, rates);
    r.(s := s, tasks := r.tasks[w := if l.Some? then Busy(l.value.start, 0, false) else Exited])
  }

  /** The end is read once per item and the item clamped to it. */
  ghost function SeeAct(r: Run, w: nat, n: nat): Run
    requires Enabled(r, See(w, n))
  {
    var t := r.tasks[w];
    r.(tasks := r.tasks[w := t.(item := Min(n, r.s.live[Slot(r.s, w)].end - t.at + 1), held := false)])
  }

  ghost function CommitAct(r: Run, w: nat): Run
    requires Enabled(r, Commit(w))
  {
    var t := r.tasks[w];
    r.(s := WithLive(r, w, r.s.live[Slot(r.s, w)].Reserve(t.at + t.item)), tasks := r.tasks[w := t.(held := true)])
  }

  /** A landing: the claim's marks and the file move together. */
  ghost function Landed(l: Live, t: Task, flush: bool): Live
    requires t.Busy?
  {
    if flush then l.AdvanceTo(t.at + t.item) else l.AdvanceTo(l.cursor)
  }

  ghost function LandedFile(file: map<nat, Byte>, origin: nat -> Byte, l: Live, t: Task, flush: bool): map<nat, Byte>
    requires t.Busy?
  {
    if flush then Write(file, origin, l.cursor, t.at + t.item) else file
  }

  ghost function LandAct(r: Run, origin: nat -> Byte, w: nat, flush: bool): Run
    requires Enabled(r, Land(w, flush))
  {
    var l, t := r.s.live[Slot(r.s, w)], r.tasks[w];
    r.(s := WithLive(r, w, Landed(l, t, flush)), file := LandedFile(r.file, origin, l, t, flush),
       tasks := r.tasks[w := Busy(t.at + t.item, 0, false)])
  }

  ghost function FlushAct(r: Run, origin: nat -> Byte, w: nat): Run
    requires Enabled(r, Flush(w))
  {
    var l, t := r.s.live[Slot(r.s, w)], r.tasks[w];
    r.(s := WithLive(r, w, l.AdvanceTo(t.at)), file := Write(r.file, origin, l.cursor, t.at))
  }

  ghost function ReportAct(r: Run, w: nat, v: Verdict): Run
    requires Enabled(r, Report(w, v))
  {
    var l := r.s.live[Slot(r.s, w)];
    r.(s := r.s.Finish(w, l.cursor), tasks := r.tasks[w := Reporting(v, SatSub(l.cursor, l.start), l.issued)])
  }

  ghost function NoteAct(r: Run, w: nat): Run
    requires Enabled(r, Note(w))
  {
    var t := r.tasks[w];
    var (s, counts) := match t.verdict
      case Done => r.s.NoteOutcome(true, t.delivered, t.issued)
      case Failed => r.s.NoteOutcome(false, t.delivered, t.issued)
      case Overloaded => (r.s, false)
      case Changed => (r.s, true);
    var n := r.failures + B(counts);
    var dead := counts && n >= r.budget;
    r.(s := s, failures := n, fatal := r.fatal || dead, tasks := r.tasks[w := if dead then Exited else Idle])
  }

  ghost function EmitAct(r: Run, i: nat): Run
    requires Enabled(r, Emit(i))
  {
    var d, n := r.readers[i], Available(r, i);
    r.(readers := r.readers[i := d.(cursor := d.cursor + n, out := d.out + Slice(r.file, d.cursor, n))])
  }

  ghost function RefocusAct(r: Run, window: nat): Run
    requires Enabled(r, Refocus(window))
  {
    var (s, gone) := r.s.Refocus(window);
    r.(s := s, tasks := Restart(r.tasks, gone))
  }

  ghost function SweepAct(r: Run, idle: set<nat>): Run {
    var (s, gone) := r.s.ReclaimStalled(idle);
    r.(s := s, tasks := Restart(r.tasks, gone))
  }

  ghost function StaffAct(r: Run): Run {
    r.(tasks := seq(|r.tasks|, i requires 0 <= i < |r.tasks| => if r.tasks[i].Exited? then Idle else r.tasks[i]))
  }

  /** Every request is aborted and the work plan rebuilt from what is on disk. */
  ghost function PauseAct(r: Run, strategy: Strategy, wall: Option<nat>, staged: seq<Span>): Run {
    r.(s := New(r.s.reqStart, r.s.reqEnd, strategy, r.s.volumes, r.s.maxThreads, r.s.maxPerVolume, r.s.splitCap, staged)
            .WithClaimWall(wall),
       tasks := seq(|r.tasks|, i => Exited))
  }

  ghost function Apply(r: Run, origin: nat -> Byte, a: Act): Run
    requires Enabled(r, a)
  {
    match a
    case Ask(w, rates) => AskAct(r, w, rates)
    case Quit(w) => r.(tasks := r.tasks[w := Exited])
    case See(w, n) => SeeAct(r, w, n)
    case Commit(w) => CommitAct(r, w)
    case Land(w, flush) => LandAct(r, origin, w, flush)
    case Flush(w) => FlushAct(r, origin, w)
    case Report(w, v) => ReportAct(r, w, v)
    case Note(w) => NoteAct(r, w)
    case Emit(i) => EmitAct(r, i)
    case Tell(head, ahead) => r.(s := r.s.SetReadHead(head).SetReaderBuffer(ahead))
    case Tune(strategy, limit) => r.(s := r.s.SetStrategy(strategy).SetWorkLimit(limit))
    case Attach(from, to) => r.(readers := r.readers + [Reader(from, to, from, [])])
    case Refocus(window) => RefocusAct(r, window)
    case Sweep(idle) => SweepAct(r, idle)
    case Staff => StaffAct(r)
    case Pause(strategy, wall, staged) => PauseAct(r, strategy, wall, staged)
  }

  ghost predicate Possible(r: Run, origin: nat -> Byte, acts: seq<Act>)
    decreases |acts|
  {
    acts == [] || (Enabled(r, acts[0]) && Possible(Apply(r, origin, acts[0]), origin, acts[1..]))
  }

  ghost function Exec(r: Run, origin: nat -> Byte, acts: seq<Act>): Run
    requires Possible(r, origin, acts)
    decreases |acts|
  {
    if acts == [] then r else Exec(Apply(r, origin, acts[0]), origin, acts[1..])
  }

  // ---- the invariant ----

  /** A claim and its worker: nothing lies between what the worker
      has announced and what it holds, and everything behind the cursor landed. */
  ghost predicate Linked(l: Live, t: Task, disk: set<nat>) {
    && t.Busy? && l.cursor <= t.at && t.at + t.item <= l.start + l.issued
    && l.reserved == (if t.held then t.at + t.item else t.at)
    && (t.held ==> t.item > 0)
    && forall x: nat :: l.start <= x < l.cursor ==> x in disk
  }

  ghost predicate Genuine(file: map<nat, Byte>, origin: nat -> Byte) {
    forall x :: x in file ==> file[x] == origin(x)
  }

  /** What the reader has emitted is the origin's bytes, in order, from its start. */
  ghost predicate Faithful(d: Reader, origin: nat -> Byte) {
    && d.from <= d.cursor && |d.out| == d.cursor - d.from
    && (forall i :: 0 <= i < |d.out| ==> d.out[i] == origin(d.from + i))
    && (d.cursor <= d.to + 1 || d.cursor == d.from)
  }

  ghost predicate Present(live: seq<Live>, w: nat) {
    exists i :: 0 <= i < |live| && live[i].worker == w
  }

  ghost predicate Links(s: Sched, tasks: seq<Task>, disk: set<nat>) {
    && (forall i :: 0 <= i < |s.live| ==> s.live[i].worker < |tasks| && Linked(s.live[i], tasks[s.live[i].worker], disk))
    && (forall w :: 0 <= w < |tasks| && tasks[w].Busy? ==> Present(s.live, w))
  }

  ghost predicate RunInv(r: Run, origin: nat -> Byte) {
    && Inv(r.s) && Genuine(r.file, origin) && Links(r.s, r.tasks, r.file.Keys)
    && forall i :: 0 <= i < |r.readers| ==> Faithful(r.readers[i], origin)
  }
}
