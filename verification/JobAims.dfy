/** What the coordinator's steps are for: readers get the bytes at their cursor, the
    pool works around the lowest of them, a seek frees the workers it must, no
    working slot changes hands, and a job nobody wants winds down. */
module JobAims {
  import opened Spans
  import opened Sched
  import opened SchedLaws
  import opened RunModel
  import opened JobModel
  import opened JobSafety
  import opened FailureLaws
  import opened Policy
  import opened TierLaws
  import opened SeekLaws

  // ---- a reader's turn ----

  /** The pool aims at `p`, knowing how much is written there. */
  ghost predicate Aims(s: Sched, t: Sched, disk: set<nat>, p: nat) {
    && t.readHead == Max(s.reqStart, Min(p, Sat(s.reqEnd + 1)))
    && (forall x: nat :: p <= x < p + t.buffered ==> x in disk) && (t.buffered < 64 * MIB ==> p + t.buffered !in disk)
  }

  lemma MovedExact(j: Job, id: nat, p: nat)
    ensures var k := j.MovedTo(id, p); k.readers == j.readers[id := p] && Aims(j.plan, k.plan, j.disk, p)
  {
    var n := RunLength(j.disk, p, READER_BUFFER_PROBE);
    assert j.MovedTo(id, p).plan.buffered == n;
  }

  /** `p` is how far the bytes written at `cursor` go, a mebibyte at most and not past `end`. */
  ghost predicate Reached(disk: set<nat>, cursor: nat, end: nat, p: nat) {
    && cursor < p <= Min(end + 1, cursor + MIB) && (forall x: nat :: cursor <= x < p ==> x in disk)
    && (p < Min(end + 1, cursor + MIB) ==> p !in disk)
  }

  lemma AvailableExact(j: Job, cursor: nat, end: nat)
    requires cursor <= end
    ensures var n := j.Available(cursor, end); if cursor in j.disk then Reached(j.disk, cursor, end, cursor + n) else n == 0
  {
    var n := RunLength(j.disk, cursor, Min(end - cursor + 1, READ_CHUNK));
    if cursor in j.disk { assert n > 0; }
  }

  lemma WaitExact(j: Job)
    requires j.readers != map[]
    ensures var k := j.Retune().EnsureWorkers(); k.readers == j.readers && AllStaffed(k.slots)
  {
  }

  /** What a turn that found `n` bytes leaves. */
  ghost predicate Moves(j: Job, k: Job, id: nat, p: nat) { k.readers == j.readers[id := p] && Aims(j.plan, k.plan, j.disk, p) }

  ghost predicate Waits(j: Job, k: Job) { k.readers == j.readers && AllStaffed(k.slots) }

  lemma TurnedExact(j: Job, id: nat, cursor: nat, n: nat)
    requires id in j.readers
    ensures var k := j.Turned(id, cursor, n); if n == 0 then Waits(j, k) else Moves(j, k, id, cursor + n)
  {
    var ok := (k: Job) => if n == 0 then Waits(j, k) else Moves(j, k, id, cursor + n);
    if n == 0 { WaitExact(j); } else { MovedExact(j, id, cursor + n); }
    TurnedEither(ok, j, id, cursor, n);
    assert ok(j.Turned(id, cursor, n));
  }

  /** A turn takes the reader over exactly the bytes written at its cursor, and aims
      the pool at where it stops; if there are none it fills the pool. */
  lemma TurnExact(j: Job, id: nat, cursor: nat, end: nat) returns (p: nat)
    requires id in j.readers && cursor <= end
    ensures if cursor !in j.disk then Waits(j, j.ReaderTurn(id, cursor, end))
            else Reached(j.disk, cursor, end, p) && Moves(j, j.ReaderTurn(id, cursor, end), id, p)
  {
    var n := j.Available(cursor, end);
    AvailableExact(j, cursor, end);
    TurnedExact(j, id, cursor, n);
    p := cursor + n;
  }

  // ---- where the pool works ----

  /** For readers alone the pool takes nothing behind the lowest of them, and nothing
      256 MiB or more ahead of it. */
  lemma ReadersBoundWork(j: Job, h: nat, w: nat, rates: Rates)
    requires Inv(j.plan) && Absent(j.plan, w) && IsLowest(j.readers, Some(h)) && !j.requested
    requires j.plan.reqStart <= h <= j.plan.reqEnd && j.Retune().plan.WellFormed()
    requires j.Retune().plan.TakeFrom(w, j.Retune().plan.Regions(), 0).Some?
    ensures var c := j.Retune().plan.Claim(w, rates).1; c.Some? && h <= c.value.start && c.value.end < h + 256 * MIB
  {
    LowestIs(j.readers, h);
    RetunedInv(j);
    ClaimWithinLimit(j.Retune().plan, w, rates);
  }

  lemma LowestIs(readers: map<nat, nat>, h: nat)
    requires IsLowest(readers, Some(h))
    ensures Lowest(readers) == Some(h)
  {
    var g := Lowest(readers);
    assert IsLowest(readers, g);
  }

  /** A wanted fill, or a pool without readers, gives up only when nothing waits. */
  lemma WantedReachesAll(j: Job, w: nat, rates: Rates)
    requires Inv(j.plan) && Absent(j.plan, w) && (j.requested || j.readers == map[])
    ensures j.Retune().plan.Claim(w, rates).1.None? ==> j.plan.unclaimed == []
  {
    RetunedInv(j);
    if j.Retune().plan.Claim(w, rates).1.None? { ClaimComplete(j.Retune().plan, w, rates); }
  }

  /** And without readers it takes from the largest gap, as a download does. */
  lemma AloneDownloads(j: Job, w: nat, rates: Rates)
    requires Inv(j.plan) && Absent(j.plan, w) && j.readers == map[] && j.Retune().plan.WellFormed()
    requires j.Retune().plan.TakeFrom(w, j.Retune().plan.Regions(), 0).Some?
    ensures var s := j.Retune().plan; s.Claim(w, rates).1.Some? && FromLargest(s, s.Claim(w, rates).1.value)
  {
    RetunedInv(j);
    TakenFrom(j.Retune().plan, w);
  }

  /** A plan built anew hands out no claim beyond what an earlier request was seen to swallow. */
  lemma RebuiltWithinWall(c: Config, strategy: Strategy, staged: seq<Span>, remembered: nat)
    requires MIN_CLAIM <= remembered <= U64_MAX
    ensures var s := c.Build(strategy, staged, Some(remembered)); s.WellFormed() && Sizing(s) && s.ClaimLen() <= remembered
  {
    WallSeedsSizing(c.Build(strategy, staged, None), Some(remembered));
  }

  /** It plays when there are readers, and makes exactly what was not found wait. */
  lemma RebuildAims(j: Job, staged: seq<Span>, wall: Option<nat>)
    requires j.c.Ok() && forall x: nat :: Has(staged, x) ==> x in j.disk
    ensures var s := j.Rebuild(staged, wall).plan;
            && (s.strategy.Latency? <==> j.readers != map[])
            && forall x: nat :: Has(s.unclaimed, x) <==> x < j.c.total && !Has(staged, x)
  {
    BuildKeeps(j.c, if j.readers == map[] then Throughput else LatencyDefault(), staged, wall, j.disk);
  }

  /** When a reader leaves, the pool turns to the lowest of the others; if there are
      none and the file is wanted, it is filled up and downloads. */
  lemma LeaveAims(j: Job, id: nat, h: nat)
    requires j.readers - {id} != map[] ==> IsLowest(j.readers - {id}, Some(h))
    ensures var k := j.ReaderLeaves(id);
            && k.readers == j.readers - {id}
            && (k.readers != map[] ==>
                  k.plan.readHead == Max(j.plan.reqStart, Min(h, Sat(j.plan.reqEnd + 1))) && k.plan.strategy.Latency?)
            && (k.readers == map[] && j.requested ==>
                  k.plan.strategy.Throughput? && k.plan.workLimit.None? && AllStaffed(k.slots))
  {
    if j.readers - {id} != map[] { LowestIs(j.readers - {id}, h); }
  }

  /** In every run what is written through at once is what lies less than 32 MiB ahead
      of every reader. */
  lemma WriteThroughLaw(j: Job, staged: seq<Span>, wall: Option<nat>, ops: seq<Op>, x: nat)
    requires JobSafety.Opening(j, staged, wall) && JobSafety.Possible(j, ops) && x < U64_MAX
    ensures var z := JobSafety.Exec(j, ops);
            x < z.writeThroughBelow <==> z.readers != map[] && forall k :: k in z.readers ==> x < z.readers[k] + 32 * MIB
  {
    OpeningOk(j, staged, wall);
    RunOk(j, ops);
    var z := JobSafety.Exec(j, ops);
    assert IsLowest(z.readers, Lowest(z.readers));
  }

  // ---- how it ends ----

  /** The state of a job changes in a start, which finds it complete or sets it
      running; in a pause, unless it was complete; when a worker leaves and the file
      is whole, unless it was broken; and when failures use up the budget. */
  lemma StateChanges(j: Job, op: Op)
    requires JobSafety.Enabled(j, op)
    ensures var k := Step(j, op);
            match op
            case Start => k.state == if j.Whole() then Complete else Running
            case Pause(_, _) => k.state == if j.state.Complete? then Complete else Paused
            case Ask(w, rates) =>
              k.state == if j.WorkerTurn(w, rates).1.None? && j.Whole() && !j.state.Broken? then Complete else j.state
            case Report(_, _, _) =>
              k.state == if OpCharge(j, op) > 0 && j.failures + 1 >= Max(2 * j.c.threads, 8) then Broken else j.state
            case _ => k.state == j.state
  {
    match op {
      case Ask(w, rates) => ExitState(j, w, rates);
      case Report(w, l, verdict) => ReportState(j, w, l, verdict);
      case _ =>
    }
  }

  lemma ExitState(j: Job, w: nat, rates: Rates)
    requires w < |j.slots| && j.plan.WellFormed()
    ensures var (k, claim) := j.WorkerTurn(w, rates);
            k.state == if claim.None? && j.Whole() && !j.state.Broken? then Complete else j.state
  {
  }

  lemma ReportState(j: Job, w: nat, l: Live, verdict: Verdict)
    ensures var k := j.WorkerDone(w, l, verdict); var charged := OpCharge(j, Op.Report(w, l, verdict)) > 0;
            k.state == if charged && j.failures + 1 >= Max(2 * j.c.threads, 8) then Broken else j.state
  {
  }

  // ---- slots ----

  /** The slot of `w` is as it was, if `w` still holds its claim. */
  ghost predicate Holds(j: Job, w: nat, k: Job) {
    w in k.busy ==> w < |j.slots| == |k.slots| && k.slots[w] == j.slots[w]
  }

  lemma ExitHolds(j: Job, w: nat, leaver: nat, superseded: bool)
    requires leaver < |j.slots| && w < |j.slots| && j.slots[w].Some? && w != leaver
    ensures var k := j.WorkerExit(leaver, superseded); |k.slots| == |j.slots| && k.slots[w] == j.slots[w] && k.busy == j.busy
  {
  }

  lemma AskHolds(j: Job, w: nat, asker: nat, rates: Rates)
    requires w < |j.slots| && j.slots[w].Some? && w in j.busy && JobSafety.Enabled(j, Op.Ask(asker, rates))
    ensures Holds(j, w, j.WorkerTurn(asker, rates).0)
  {
    ExitHolds(j, w, asker, true);
    ExitHolds(j.(plan := j.plan.Claim(asker, rates).0), w, asker, false);
  }

  lemma ReaderHolds(j: Job, op: Op, w: nat)
    requires w < |j.slots| && j.slots[w].Some? && JobSafety.Enabled(j, op) && (op.Attach? || op.Turn? || op.Leave?)
    ensures Holds(j, w, Step(j, op))
  {
  }

  lemma ReportHolds(j: Job, w: nat, reporter: nat, l: Live, verdict: Verdict)
    requires w < |j.slots|
    ensures Holds(j, w, j.WorkerDone(reporter, l, verdict))
  {
  }

  /** No slot changes hands while its worker holds a claim. */
  lemma SlotsKept(j: Job, op: Op, w: nat)
    requires Light(j) && JobSafety.Enabled(j, op) && w in j.busy
    ensures Holds(j, w, Step(j, op))
  {
    match op {
      case Ask(asker, rates) => AskHolds(j, w, asker, rates);
      case Report(reporter, l, verdict) => ReportHolds(j, w, reporter, l, verdict);
      case Attach(_) => ReaderHolds(j, op, w);
      case Turn(_, _, _) => ReaderHolds(j, op, w);
      case Leave(_) => ReaderHolds(j, op, w);
      case _ =>
    }
  }

  // ---- a seek, and a sweep ----

  /** The aim of the pool when a reader attaches at `start`. */
  lemma AimedAt(j: Job, start: nat, h: nat)
    requires IsLowest(j.readers[j.nextReader := start], Some(h))
    ensures var s := j.Aimed(start).plan;
            && s.readHead == Max(j.plan.reqStart, Min(h, Sat(j.plan.reqEnd + 1))) && s.strategy == Latency(32 * MIB, 2 * MIB)
            && s == j.plan.(readHead := s.readHead, buffered := 0, strategy := s.strategy, workLimit := s.workLimit)
  {
    LowestIs(j.readers[j.nextReader := start], h);
  }

  lemma RetunedInv(j: Job)
    requires Inv(j.plan)
    ensures Inv(j.Retune().plan)
  {
    var s := j.Retune().plan;
    forall k | 0 <= k < |s.live| ensures GoodClaim(s, s.live[k]) { assert GoodClaim(j.plan, s.live[k]); }
  }

  /** Replacing the workers in `stale`, and filling up. */
  lemma ReplacedExact(j: Job, stale: seq<nat>, w: nat)
    requires w < |j.slots|
    ensures var k := j.Respawn(stale).EnsureWorkers();
            && |k.slots| == |j.slots| && k.plan == j.plan
            && (w in stale ==> w !in k.busy && k.slots[w] == Some(j.generation))
            && (w !in stale && w in j.busy && j.slots[w].Some? ==> w in k.busy && k.slots[w] == j.slots[w])
  {
  }

  /** A new reader frees exactly the workers whose requests are of no use near the
      lowest reader: their slots are staffed anew. All others keep claim and slot. */
  lemma StreamFrees(j: Job, start: nat, h: nat, k: nat)
    requires Light(j) && Inv(j.plan) && k < |j.plan.live| && j.plan.live[k].cursor <= j.plan.live[k].end
    requires IsLowest(j.readers[j.nextReader := start], Some(h))
    ensures var z, l, head := j.Stream(start), j.plan.live[k], Max(j.plan.reqStart, Min(h, Sat(j.plan.reqEnd + 1)));
            var kept := l.cursor < Sat(head + 32 * MIB) && l.end >= head && Sat(l.cursor + 2 * MIB) >= head;
            && (kept <==> exists m :: 0 <= m < |z.plan.live| && z.plan.live[m].worker == l.worker)
            && (!kept ==> l.worker !in z.busy && l.worker < |z.slots| && z.slots[l.worker] == Some(j.generation))
            && (kept && l.worker in j.busy ==> l.worker in z.busy && z.slots[l.worker] == j.slots[l.worker])
  {
    AimedAt(j, start, h);
    var a := j.Aimed(start);
    RetunedInv(j.(readers := j.readers[j.nextReader := start], nextReader := j.nextReader + 1).Republish());
    assert a.plan.live == j.plan.live;
    SurvivesSeek(a.plan, 32 * MIB, k);
    var (s, stale) := a.plan.Refocus(32 * MIB);
    ReplacedExact(a.(plan := s), stale, j.plan.live[k].worker);
  }

  /** A sweep frees exactly the workers whose requests have stalled; a pool nobody
      wants is left alone. */
  lemma SweepFrees(j: Job, idle: set<nat>, k: nat)
    requires Light(j) && Inv(j.plan) && k < |j.plan.live|
    ensures var z, l := j.SweepStalled(idle), j.plan.live[k];
            var kept := !j.Wanted() || l.cursor > l.end || l.cursor > l.lastCursor || l.worker !in idle;
            && (kept <==> exists m :: 0 <= m < |z.plan.live| && z.plan.live[m].worker == l.worker)
            && (!kept ==> l.worker !in z.busy && l.worker < |z.slots| && z.slots[l.worker] == Some(j.generation))
            && (kept && l.worker in j.busy ==> l.worker in z.busy && z.slots[l.worker] == j.slots[l.worker])
  {
    SurvivesSweep(j.plan, idle, k);
    if !j.Wanted() { assert j.SweepStalled(idle).plan.live[k].worker == j.plan.live[k].worker; }
  }

  // ---- winding down ----

  /** No slot is younger than the pool. */
  ghost predicate Aged(j: Job) { forall w :: 0 <= w < |j.slots| && j.slots[w].Some? ==> j.slots[w].value <= j.generation }

  /** Whoever worked before an abort is superseded by it, whether or not it notices. */
  lemma AbortSupersedes(j: Job, w: nat)
    requires Aged(j) && w < |j.slots| && j.slots[w].Some?
    ensures var k := j.Abort(); Aged(k) && |k.slots| == |j.slots| && k.slots[w].None? && j.slots[w].value < k.generation
  {
  }

  /** Nobody wants the pool, and every worker in it has been superseded. */
  ghost predicate Draining(j: Job) {
    !j.Wanted() && forall w :: 0 <= w < |j.slots| && j.slots[w].Some? ==> j.slots[w].value < j.generation
  }

  lemma ReaderAged(j: Job, op: Op)
    requires Aged(j) && JobSafety.Enabled(j, op) && (op.Attach? || op.Turn? || op.Leave?)
    ensures Aged(Step(j, op))
  {
  }

  lemma AskAged(j: Job, w: nat, rates: Rates)
    requires Aged(j) && w < |j.slots| && j.plan.WellFormed()
    ensures Aged(j.WorkerTurn(w, rates).0)
  {
    ExitAged(j, w, true);
    ExitAged(j.(plan := j.plan.Claim(w, rates).0), w, false);
  }

  lemma ExitAged(j: Job, w: nat, superseded: bool)
    requires Aged(j) && w < |j.slots|
    ensures Aged(j.WorkerExit(w, superseded))
  {
  }

  lemma ReportAged(j: Job, w: nat, l: Live, verdict: Verdict)
    requires Aged(j)
    ensures Aged(j.WorkerDone(w, l, verdict))
  {
  }

  lemma StepAged(j: Job, op: Op)
    requires Aged(j) && JobSafety.Enabled(j, op)
    ensures Aged(Step(j, op))
  {
    match op {
      case Start => assert Aged(j.StartCache());
      case Pause(staged, wall) => assert Aged(j.PauseCache(staged, wall));
      case Stop => assert Aged(j.Stop());
      case Sweep(idle) => assert Aged(j.SweepStalled(idle));
      case Attach(_) => ReaderAged(j, op);
      case Turn(_, _, _) => ReaderAged(j, op);
      case Leave(_) => ReaderAged(j, op);
      case Ask(w, rates) => AskAged(j, w, rates);
      case Land(_, _) =>
      case Report(w, l, verdict) => ReportAged(j, w, l, verdict);
    }
  }

  lemma {:induction false} RunAged(j: Job, ops: seq<Op>)
    requires Aged(j) && JobSafety.Possible(j, ops)
    ensures Aged(JobSafety.Exec(j, ops))
    decreases |ops|
  {
    if ops != [] {
      StepAged(j, ops[0]);
      RunAged(Step(j, ops[0]), ops[1..]);
    }
  }

  /** What goes on after the last reader of an unwanted job has left. */
  predicate Quiet(op: Op) { op.Ask? || op.Land? || op.Report? || op.Sweep? || op.Stop? }

  /** A superseded worker that asks leaves for good. */
  lemma DrainAsk(j: Job, w: nat, rates: Rates)
    requires Draining(j) && JobSafety.Enabled(j, Op.Ask(w, rates))
    ensures var k := j.WorkerTurn(w, rates).0;
            && j.WorkerTurn(w, rates).1.None? && !k.Wanted() && k.generation == j.generation
            && k.slots == j.slots[w := None] && k.busy == j.busy && k.plan == j.plan
  {
    assert j.WorkerTurn(w, rates).0 == j.WorkerExit(w, true);
  }

  lemma DrainStep(j: Job, op: Op)
    requires Draining(j) && JobSafety.Enabled(j, op) && Quiet(op)
    ensures var k := Step(j, op);
            && Draining(k) && |k.slots| == |j.slots|
            && forall w :: 0 <= w < |j.slots| ==> k.slots[w] == j.slots[w] || k.slots[w].None?
  {
    if op.Ask? { DrainAsk(j, op.w, op.rates); }
  }

  lemma {:induction false} DrainRun(j: Job, ops: seq<Op>)
    requires Draining(j) && JobSafety.Possible(j, ops) && forall i :: 0 <= i < |ops| ==> Quiet(ops[i])
    ensures var z := JobSafety.Exec(j, ops);
            && Draining(z) && |z.slots| == |j.slots|
            && forall w :: 0 <= w < |j.slots| ==> z.slots[w] == j.slots[w] || z.slots[w].None?
    decreases |ops|
  {
    if ops != [] {
      DrainStep(j, ops[0]);
      DrainRun(Step(j, ops[0]), ops[1..]);
    }
  }

  /** In every run, once the last reader of an unwanted job has left, no slot is
      staffed any more, and whichever worker asks next leaves without a claim, until
      somebody starts the job or attaches again. */
  lemma WindsDown(j: Job, staged: seq<Span>, wall: Option<nat>, ops: seq<Op>, k: Job, id: nat, quiet: seq<Op>, z: Job)
    requires JobSafety.Opening(j, staged, wall) && JobSafety.Possible(j, ops) && k == JobSafety.Exec(j, ops)
    requires k.readers.Keys == {id} && !k.requested
    requires JobSafety.Possible(k.ReaderLeaves(id), quiet) && forall i :: 0 <= i < |quiet| ==> Quiet(quiet[i])
    requires z == JobSafety.Exec(k.ReaderLeaves(id), quiet)
    ensures |z.slots| == |k.slots| && forall v :: 0 <= v < |z.slots| && z.slots[v].Some? ==> z.slots[v] == k.slots[v]
    ensures forall w: nat, rates: Rates :: JobSafety.Enabled(z, Op.Ask(w, rates)) ==> z.WorkerTurn(w, rates).1.None?
  {
    RunAged(j, ops);
    assert k.readers - {id} == map[];
    DrainRun(k.ReaderLeaves(id), quiet);
    forall w: nat, rates: Rates | JobSafety.Enabled(z, Op.Ask(w, rates)) ensures z.WorkerTurn(w, rates).1.None? {
      DrainAsk(z, w, rates);
    }
  }
}
