/** The coordinator over every sequence of steps: a job is only ever done with
    the whole file on disk, and a wanted fill always has a worker. */
module JobSafety {
  import opened Spans
  import opened Sched
  import opened SchedLaws
  import opened Conservation
  import opened RunModel
  import opened RunRaces
  import opened JobLaws
  import opened JobModel

  datatype Op =
    | Start
    | Pause(staged: seq<Span>, wall: Option<nat>)
    | Stop
    | Sweep(idle: set<nat>)
    | Attach(start: nat)
    | Turn(id: nat, cursor: nat, end: nat)
    | Leave(id: nat)
    | Ask(w: nat, rates: Rates)
    | Land(i: nat, n: nat)
    | Report(w: nat, l: Live, verdict: Verdict)

  ghost predicate Enabled(j: Job, op: Op) {
    match op
    case Pause(staged, _) => forall x: nat :: Has(staged, x) ==> x in j.disk
    case Attach(start) => j.Aimed(start).plan.WellFormed()
    case Turn(id, cursor, end) => id in j.readers && cursor <= end
    case Leave(id) => id in j.readers
    case Ask(w, _) => w < |j.slots| && j.slots[w].Some? && w !in j.busy && j.plan.WellFormed()
    case Land(i, n) => i < |j.plan.live| && j.plan.live[i].cursor + n <= Min(j.plan.live[i].end + 1, j.c.total)
    case Report(w, l, _) => w in j.busy && (j.sound ==> l in j.plan.live && l.worker == w)
    case _ => true
  }

  ghost function Step(j: Job, op: Op): Job
    requires Enabled(j, op)
  {
    match op
    case Start => j.StartCache()
    case Pause(staged, wall) => j.PauseCache(staged, wall)
    case Stop => j.Stop()
    case Sweep(idle) => j.SweepStalled(idle)
    case Attach(start) => j.Stream(start)
    case Turn(id, cursor, end) => j.ReaderTurn(id, cursor, end)
    case Leave(id) => j.ReaderLeaves(id)
    case Ask(w, rates) => j.WorkerTurn(w, rates).0
    case Land(i, n) => j.Land(i, n)
    case Report(w, l, verdict) => j.WorkerDone(w, l, verdict)
  }

  ghost predicate AllStaffed(slots: seq<Option<nat>>) { forall w :: 0 <= w < |slots| ==> slots[w].Some? }

  ghost predicate Manned(slots: seq<Option<nat>>) { exists w :: 0 <= w < |slots| && slots[w].Some? }

  ghost predicate BusyStaffed(busy: set<nat>, slots: seq<Option<nat>>) {
    forall w :: w in busy ==> w < |slots| && slots[w].Some?
  }

  ghost predicate ReadersOk(j: Job) {
    (forall k :: k in j.readers ==> k < j.nextReader) && j.writeThroughBelow == Frontier(Lowest(j.readers))
  }

  /** A done job is whole; a wanted fill is running, unbounded and within its
      failure budget. */
  ghost predicate StateOk(j: Job) {
    && (j.state == Complete ==> j.Whole())
    && (j.requested ==> j.state == Running && j.plan.workLimit.None? && j.failures < j.FailureBudget())
  }

  ghost predicate Shape(j: Job) {
    j.c.Ok() && |j.slots| == j.c.threads && j.plan.WellFormed() && OfPool(j.plan.live, j.c.threads)
  }

  ghost predicate Light(j: Job) { Shape(j) && StateOk(j) && ReadersOk(j) && BusyStaffed(j.busy, j.slots) }

  /** The plan accounts for every byte, and a wanted fill has a worker. */
  ghost predicate InOrder(j: Job) {
    && Kept(j.plan, j.busy, j.disk) && j.plan.reqStart == 0 && j.plan.reqEnd + 1 == j.c.total
    && (j.requested ==> Manned(j.slots))
  }

  ghost predicate JobOk(j: Job) { Light(j) && (!j.sound || InOrder(j)) }

  // ---- the building blocks ----

  lemma RetuneKeeps(j: Job)
    requires Shape(j)
    ensures Shape(j.Retune())
    ensures j.requested || j.readers == map[] ==> j.Retune().plan.workLimit.None?
    ensures Kept(j.plan, j.busy, j.disk) ==> Kept(j.Retune().plan, j.busy, j.disk)
    ensures j.Retune().plan.reqStart == j.plan.reqStart && j.Retune().plan.reqEnd == j.plan.reqEnd
  {
    if Kept(j.plan, j.busy, j.disk) { KeptSettings(j.plan, j.Retune().plan, j.busy, j.disk); }
  }

  lemma EnsureKeeps(j: Job)
    requires |j.slots| > 0
    ensures var k := j.EnsureWorkers();
            && |k.slots| == |j.slots| && k == j.(slots := k.slots) && (BusyStaffed(j.busy, j.slots) ==> BusyStaffed(k.busy, k.slots))
            && (Manned(j.slots) ==> Manned(k.slots)) && (j.Wanted() ==> AllStaffed(k.slots) && Manned(k.slots))
  {
    var k := j.EnsureWorkers();
    if Manned(j.slots) {
      var w :| 0 <= w < |j.slots| && j.slots[w].Some?;
      assert k.slots[w].Some?;
    }
    if j.Wanted() { assert k.slots[0].Some?; }
  }

  lemma RespawnKeeps(j: Job, stale: seq<nat>)
    ensures var k := j.Respawn(stale);
            && |k.slots| == |j.slots| && (BusyStaffed(j.busy, j.slots) ==> BusyStaffed(k.busy, k.slots))
            && (Manned(j.slots) ==> Manned(k.slots))
  {
    var k := j.Respawn(stale);
    if Manned(j.slots) {
      var w :| 0 <= w < |j.slots| && j.slots[w].Some?;
      assert k.slots[w].Some?;
    }
  }

  lemma BuildKeeps(c: Config, strategy: Strategy, staged: seq<Span>, wall: Option<nat>, disk: set<nat>)
    requires c.Ok() && forall x: nat :: Has(staged, x) ==> x in disk
    ensures var s := c.Build(strategy, staged, wall);
            && Kept(s, {}, disk) && s.WellFormed() && s.live == [] && s.workLimit.None? && s.strategy == strategy
            && s.reqStart == 0 && s.reqEnd + 1 == c.total
            && forall x: nat :: Has(s.unclaimed, x) <==> x < c.total && !Has(staged, x)
  {
    KeptNew(New(0, c.total - 1, strategy, c.volumes, c.threads, c.perVolume, c.splitCap, staged), disk, staged, wall);
  }

  // ---- one lemma per step ----

  lemma StartOk(j: Job)
    requires JobOk(j)
    ensures JobOk(j.StartCache())
    ensures !j.Whole() ==> j.StartCache().requested && AllStaffed(j.StartCache().slots) && j.StartCache().plan.workLimit.None?
  {
    if !j.Whole() {
      var k := j.(requested := true, state := Running, failures := 0);
      RetuneKeeps(k);
      EnsureKeeps(k.Retune());
    }
  }

  lemma PauseOk(j: Job, staged: seq<Span>, wall: Option<nat>)
    requires Light(j) && Enabled(j, Op.Pause(staged, wall))
    ensures var p := j.PauseCache(staged, wall);
            && JobOk(p) && p.sound && !p.requested && p.plan.live == [] && p.busy == {}
            && (forall x: nat :: Has(p.plan.unclaimed, x) <==> x < j.c.total && !Has(staged, x))
            && (if j.readers == map[] then !Manned(p.slots) else AllStaffed(p.slots))
  {
    var a := j.(requested := false, state := if j.state == Complete then Complete else Paused).Abort();
    BuildKeeps(j.c, if a.readers == map[] then Throughput else LatencyDefault(), staged, wall, j.disk);
    var b := a.Rebuild(staged, wall);
    if j.readers != map[] {
      RetuneKeeps(b);
      EnsureKeeps(b.Retune());
    }
  }

  lemma AbortOk(j: Job)
    requires Light(j) && !j.requested && (!j.sound || InOrder(j))
    ensures JobOk(j.Abort()) && !Manned(j.Abort().slots)
  {
    if j.Abort().sound {
      forall w: nat ensures w !in j.busy { assert w in j.busy <==> Present(j.plan.live, w); }
      assert j.busy == {};
    }
  }

  lemma SweepOk(j: Job, idle: set<nat>)
    requires JobOk(j)
    ensures JobOk(j.SweepStalled(idle))
  {
    if j.Wanted() {
      var (s, dead) := j.plan.ReclaimStalled(idle);
      ReclaimFrame(j.plan, 0, idle, j.c.threads);
      if j.sound { KeptReclaim(j.plan, j.busy, j.disk, idle); }
      RespawnKeeps(j.(plan := s), dead);
    }
  }

  lemma AimedOk(j: Job, start: nat)
    requires JobOk(j)
    ensures JobOk(j.Aimed(start))
  {
    var k := j.(readers := j.readers[j.nextReader := start], nextReader := j.nextReader + 1).Republish();
    RetuneKeeps(k);
  }

  lemma StreamOk(j: Job, start: nat)
    requires JobOk(j) && Enabled(j, Op.Attach(start))
    ensures JobOk(j.Stream(start)) && AllStaffed(j.Stream(start).slots)
  {
    AimedOk(j, start);
    var a := j.Aimed(start);
    var (s, stale) := a.plan.Refocus(CRITICAL_WINDOW);
    RefocusedFrame(a.plan, a.c.threads);
    if a.sound { KeptRefocus(a.plan, a.busy, a.disk, CRITICAL_WINDOW); }
    var b := a.(plan := s).Respawn(stale);
    RespawnKeeps(a.(plan := s), stale);
    EnsureKeeps(b);
    assert a.readers == j.readers[j.nextReader := start] && j.nextReader in a.readers;
  }

  lemma RefocusedFrame(s: Sched, n: nat)
    requires s.WellFormed() && OfPool(s.live, n)
    ensures var (t, gone) := s.Refocus(CRITICAL_WINDOW); Frames(s, t, n) && forall w :: w in gone ==> w < n
  {
    if s.strategy.Latency? {
      RefocusFrame(s, 0, s.readHead, Sat(s.readHead + CRITICAL_WINDOW), Max(s.strategy.headClaim, MIN_CLAIM), n);
    }
  }

  lemma WaitOk(j: Job)
    requires JobOk(j)
    ensures JobOk(j.Retune().EnsureWorkers())
  {
    RetuneKeeps(j);
    EnsureKeeps(j.Retune());
  }

  /** A turn either waits or moves on. */
  lemma TurnedEither(ok: Job -> bool, j: Job, id: nat, cursor: nat, n: nat)
    requires if n == 0 then ok(j.Retune().EnsureWorkers()) else ok(j.MovedTo(id, cursor + n))
    ensures ok(j.Turned(id, cursor, n))
  {
  }

  lemma TurnedOk(j: Job, id: nat, cursor: nat, n: nat)
    requires JobOk(j) && id in j.readers
    ensures JobOk(j.Turned(id, cursor, n))
  {
    if n == 0 {
      WaitOk(j);
      TurnedEither((k: Job) => k == j.Retune().EnsureWorkers(), j, id, cursor, n);
    } else {
      MovedOk(j, id, cursor + n);
      TurnedEither((k: Job) => k == j.MovedTo(id, cursor + n), j, id, cursor, n);
    }
  }

  lemma TurnOk(j: Job, id: nat, cursor: nat, end: nat)
    requires JobOk(j) && Enabled(j, Op.Turn(id, cursor, end))
    ensures JobOk(j.ReaderTurn(id, cursor, end))
  {
    TurnedOk(j, id, cursor, j.Available(cursor, end));
  }

  lemma MovedOk(j: Job, id: nat, next: nat)
    requires JobOk(j) && id in j.readers
    ensures JobOk(j.MovedTo(id, next))
  {
    var k := j.MovedTo(id, next);
    if j.sound { KeptSettings(j.plan, k.plan, j.busy, j.disk); }
  }

  lemma LeaveOk(j: Job, id: nat)
    requires JobOk(j)
    ensures JobOk(j.ReaderLeaves(id))
  {
    var k := j.(readers := j.readers - {id}).Republish();
    RetuneKeeps(k);
    EnsureKeeps(k.Retune());
  }

  lemma BusyManned(busy: set<nat>, slots: seq<Option<nat>>)
    requires BusyStaffed(busy, slots)
    ensures busy == {} || Manned(slots)
  {
    if busy != {} {
      var v :| v in busy;
      assert slots[v].Some?;
    }
  }

  /** The last worker out of a wanted fill leaves nothing undone. */
  lemma ExitOk(j: Job, w: nat, superseded: bool)
    requires JobOk(j) && w < |j.slots| && j.slots[w].Some? && w !in j.busy
    requires j.sound && j.requested && !superseded ==> j.plan.unclaimed == []
    ensures JobOk(j.WorkerExit(w, superseded))
  {
    var k := j.(slots := j.slots[w := None]);
    EnsureKeeps(k);
    if j.sound && j.requested && !superseded && !Manned(k.slots) {
      BusyManned(j.busy, k.slots);
      AllOnDisk(j.plan, j.disk);
    }
  }

  lemma AskOk(j: Job, w: nat, rates: Rates)
    requires JobOk(j) && Enabled(j, Op.Ask(w, rates))
    ensures JobOk(j.WorkerTurn(w, rates).0)
  {
    if j.slots[w] != Some(j.generation) {
      ExitOk(j, w, true);
    } else {
      var (s, claim) := j.plan.Claim(w, rates);
      ClaimFrame(j.plan, w, rates, j.c.threads);
      if j.sound { KeptClaim(j.plan, j.busy, j.disk, w, rates); }
      if claim.None? { ExitOk(j.(plan := s), w, false); }
    }
  }

  lemma LandOk(j: Job, i: nat, n: nat)
    requires JobOk(j) && Enabled(j, Op.Land(i, n))
    ensures JobOk(j.Land(i, n))
  {
    if j.sound { KeptLand(j.plan, j.busy, j.disk, i, n); }
  }

  /** Only the sizing of claims changes. */
  lemma NoteKeeps(s: Sched, ok: bool, delivered: nat, issued: nat)
    ensures var t := s.NoteOutcome(ok, delivered, issued).0; t == s.(autoLimit := t.autoLimit, autoWall := t.autoWall)
  {
  }

  lemma LearntOk(j: Job, l: Live, verdict: Verdict)
    requires JobOk(j)
    ensures JobOk(j.Learnt(l, verdict).0)
  {
    NoteKeeps(j.plan, true, SatSub(l.cursor, l.start), l.issued);
    NoteKeeps(j.plan, false, SatSub(l.cursor, l.start), l.issued);
    var s := j.Learnt(l, verdict).0.plan;
    assert s == j.plan.(autoLimit := s.autoLimit, autoWall := s.autoWall);
    if j.sound { KeptSettings(j.plan, s, j.busy, j.disk); }
  }

  lemma FailureOk(j: Job)
    requires JobOk(j)
    ensures JobOk(j.Failure())
  {
    if j.failures + 1 >= j.FailureBudget() {
      AbortOk(j.(failures := j.failures + 1, state := Broken, requested := false));
    } else {
      assert j.Failure() == j.(failures := j.failures + 1);
    }
  }

  lemma FinishedLight(j: Job, w: nat, l: Live, clean: bool)
    requires Light(j) && w in j.busy
    ensures Light(j.Settled(w, l, clean))
  {
    FinishFrame(j.plan, w, l.cursor, j.c.threads);
  }

  lemma FinishedOk(j: Job, w: nat, l: Live)
    requires JobOk(j) && w in j.busy && (j.sound ==> l.worker == w)
    ensures JobOk(j.Settled(w, l, j.Clean(l)))
  {
    FinishedLight(j, w, l, j.Clean(l));
    if j.sound && j.Clean(l) {
      FinishFrame(j.plan, w, l.cursor, j.c.threads);
      var i :| 0 <= i < |j.plan.live| && j.plan.live[i] == l && CleanFinish(j.plan, i);
      KeptFinish(j.plan, j.busy, j.disk, i);
    }
  }

  lemma ReportOk(j: Job, w: nat, l: Live, verdict: Verdict)
    requires JobOk(j) && Enabled(j, Op.Report(w, l, verdict))
    ensures JobOk(j.WorkerDone(w, l, verdict))
  {
    FinishedOk(j, w, l);
    var k := j.Settled(w, l, j.Clean(l));
    LearntOk(k, l, verdict);
    FailureOk(k.Learnt(l, verdict).0);
  }

  lemma StepOk(j: Job, op: Op)
    requires JobOk(j) && Enabled(j, op)
    ensures JobOk(Step(j, op))
  {
    match op {
      case Start => StartOk(j);
      case Pause(staged, wall) => PauseOk(j, staged, wall);
      case Stop => AbortOk(j.(requested := false));
      case Sweep(idle) => SweepOk(j, idle);
      case Attach(start) => StreamOk(j, start);
      case Turn(id, cursor, end) => TurnOk(j, id, cursor, end);
      case Leave(id) => LeaveOk(j, id);
      case Ask(w, rates) => AskOk(j, w, rates);
      case Land(i, n) => LandOk(j, i, n);
      case Report(w, l, verdict) => ReportOk(j, w, l, verdict);
    }
  }

  // ---- what an abort leaves behind ----

  /** Every byte is on disk, or the next worker to ask can be given it. */
  ghost predicate WithinReach(s: Sched, disk: set<nat>) {
    forall x: nat :: s.reqStart <= x <= s.reqEnd ==> x in disk || Has(s.unclaimed, x)
  }

  /** No claim still owes a byte that is not on disk. */
  ghost predicate NothingMissing(live: seq<Live>, disk: set<nat>) {
    forall k, x: nat :: 0 <= k < |live| && Owes(live[k], x) ==> x in disk
  }

  lemma ReachExact(s: Sched, busy: set<nat>, disk: set<nat>)
    requires Kept(s, busy, disk)
    ensures WithinReach(s, disk) <==> NothingMissing(s.live, disk)
  {
    if WithinReach(s, disk) {
      forall k, x: nat | 0 <= k < |s.live| && Owes(s.live[k], x) ensures x in disk {
        assert GoodClaim(s, s.live[k]) && Owed(s, x) <= 1;
        OneDebt(s.live, k, x);
      }
    }
    if NothingMissing(s.live, disk) {
      forall x: nat | s.reqStart <= x <= s.reqEnd ensures x in disk || Has(s.unclaimed, x) {
        assert Holders(s, disk, x) >= 1;
        OwnersAt(s.live, x);
        if k :| 0 <= k < |s.live| && s.live[k].Owns(x) { assert s.live[k].reserved == s.live[k].cursor && Owes(s.live[k], x); }
      }
    }
  }

  /** With every task cancelled, each byte is on disk or waiting exactly when no
      cancelled claim owes a missing byte; and the plan accounts for its workers
      again exactly when no claim was cancelled at all. */
  lemma AbortExact(j: Job)
    requires InOrder(j)
    ensures WithinReach(j.Abort().plan, j.disk) <==> NothingMissing(j.plan.live, j.disk)
    ensures Kept(j.Abort().plan, j.Abort().busy, j.disk) <==> j.plan.live == []
  {
    ReachExact(j.plan, j.busy, j.disk);
    if j.plan.live == [] {
      forall w: nat ensures w !in j.busy { assert w in j.busy <==> Present(j.plan.live, w); }
      assert j.busy == {};
    } else {
      assert Present(j.plan.live, j.plan.live[0].worker);
    }
  }

  /** The same of the failure that breaks the job. */
  lemma BreakExact(j: Job)
    requires InOrder(j) && j.failures + 1 >= j.FailureBudget()
    ensures WithinReach(j.Failure().plan, j.disk) <==> NothingMissing(j.plan.live, j.disk)
    ensures Kept(j.Failure().plan, j.Failure().busy, j.disk) <==> j.plan.live == []
  {
    var k := j.(failures := j.failures + 1, state := Broken, requested := false);
    ReachExact(j.plan, j.busy, j.disk);
    AbortExact(k);
  }

  // ---- every run ----

  ghost predicate Possible(j: Job, ops: seq<Op>)
    decreases |ops|
  {
    ops == [] || (Enabled(j, ops[0]) && Possible(Step(j, ops[0]), ops[1..]))
  }

  ghost function Exec(j: Job, ops: seq<Op>): Job
    requires Possible(j, ops)
    decreases |ops|
  {
    if ops == [] then j else Exec(Step(j, ops[0]), ops[1..])
  }

  lemma {:induction false} RunOk(j: Job, ops: seq<Op>)
    requires JobOk(j) && Possible(j, ops)
    ensures JobOk(Exec(j, ops))
    decreases |ops|
  {
    if ops != [] {
      StepOk(j, ops[0]);
      RunOk(Step(j, ops[0]), ops[1..]);
    }
  }

  /** A job for a file of which `disk` is written and `staged` was found. */
  ghost predicate Opening(j: Job, staged: seq<Span>, wall: Option<nat>) {
    && j.c.Ok() && j.plan == j.c.Build(Throughput, staged, wall) && j.slots == seq(j.c.threads, i => None)
    && !j.requested && j.readers == map[] && j.writeThroughBelow == 0 && j.busy == {} && j.sound
    && j.state == (if j.Whole() then Complete else NotStarted)
    && forall x: nat :: Has(staged, x) ==> x in j.disk
  }

  lemma OpeningOk(j: Job, staged: seq<Span>, wall: Option<nat>)
    requires Opening(j, staged, wall)
    ensures JobOk(j)
  {
    BuildKeeps(j.c, Throughput, staged, wall, j.disk);
  }

  /** Whatever is started, paused, stopped, streamed, swept, claimed, written and
      reported, in whatever order: done means the whole file is on disk; a wanted
      fill is running, unbounded and within its failure budget; and unless claims were aborted
      without a rebuild or a race abandoned bytes, some worker is at it. */
  lemma CoordinatorLaw(j: Job, staged: seq<Span>, wall: Option<nat>, ops: seq<Op>)
    requires Opening(j, staged, wall) && Possible(j, ops)
    ensures var z := Exec(j, ops);
            && (z.state == Complete ==> z.Whole())
            && (z.requested ==> z.state == Running && z.plan.workLimit.None? && z.failures < z.FailureBudget())
            && (z.requested && z.sound ==> Manned(z.slots))
            && (z.sound ==> Cover(z.plan, z.disk))
  {
    OpeningOk(j, staged, wall);
    RunOk(j, ops);
  }

  /** From any state at all, a broken job's included, a pause restores order. */
  lemma PauseRestores(j: Job, staged: seq<Span>, wall: Option<nat>, ops: seq<Op>)
    requires Light(j) && Enabled(j, Op.Pause(staged, wall)) && Possible(Step(j, Op.Pause(staged, wall)), ops)
    ensures JobOk(Exec(Step(j, Op.Pause(staged, wall)), ops))
  {
    PauseOk(j, staged, wall);
    RunOk(Step(j, Op.Pause(staged, wall)), ops);
  }
}
