/** What a failure budget means: in a transfer and in a job, exactly the failures
    that count use it up, and using it up ends the one and breaks the other. */
module FailureLaws {
  import opened Spans
  import opened Sched
  import opened Conservation
  import opened Policy
  import opened RunModel
  import opened JobModel
  import opened JobSafety

  // ---- a transfer ----

  /** Whether a report counts, by its verdict and by the limit in force. */
  predicate Counts(limit: Option<nat>, verdict: Verdict, delivered: nat, issued: nat) {
    match verdict
    case Done => false
    case Failed => Charged(limit, Outcome(false, delivered, issued))
    case Overloaded => false
    case Changed => true
  }

  /** The failure an act is charged for. */
  ghost function ActCharge(r: Run, a: Act): nat
    requires RunModel.Enabled(r, a)
  {
    match a
    case Note(w) => B(Counts(r.s.autoLimit, r.tasks[w].verdict, r.tasks[w].delivered, r.tasks[w].issued))
    case _ => 0
  }

  ghost function RunCharges(r: Run, origin: nat -> Byte, acts: seq<Act>): nat
    requires RunModel.Possible(r, origin, acts)
    decreases |acts|
  {
    if acts == [] then 0 else ActCharge(r, acts[0]) + RunCharges(Apply(r, origin, acts[0]), origin, acts[1..])
  }

  /** Fatal means that the budget is used up. */
  ghost predicate Budgeted(r: Run) { r.fatal <==> r.failures >= r.budget }

  lemma NoteCharges(r: Run, w: nat)
    requires RunModel.Enabled(r, Note(w)) && Budgeted(r)
    ensures var z := NoteAct(r, w); Budgeted(z) && z.budget == r.budget && z.failures == r.failures + ActCharge(r, Note(w))
  {
  }

  lemma ActCharges(r: Run, origin: nat -> Byte, a: Act)
    requires RunModel.Enabled(r, a) && Budgeted(r)
    ensures var z := Apply(r, origin, a); Budgeted(z) && z.budget == r.budget && z.failures == r.failures + ActCharge(r, a)
  {
    if a.Note? { NoteCharges(r, a.w); }
  }

  /** Over every run the failures counted are those charged, and the run is fatal
      exactly when they reach the budget; no worker asks for a claim after that. */
  lemma {:induction false} RunBudget(r: Run, origin: nat -> Byte, acts: seq<Act>)
    requires RunModel.Possible(r, origin, acts) && Budgeted(r)
    ensures var z := RunModel.Exec(r, origin, acts);
            && z.failures == r.failures + RunCharges(r, origin, acts)
            && (z.fatal <==> r.failures + RunCharges(r, origin, acts) >= r.budget)
            && (z.fatal ==> forall w: nat, rates: Rates :: !RunModel.Enabled(z, Act.Ask(w, rates)))
    decreases |acts|
  {
    if acts != [] {
      ActCharges(r, origin, acts[0]);
      RunBudget(Apply(r, origin, acts[0]), origin, acts[1..]);
    }
  }

  /** Reports of requests that failed after carrying real bytes. */
  ghost function Breakdowns(r: Run, origin: nat -> Byte, acts: seq<Act>): nat
    requires RunModel.Possible(r, origin, acts)
    decreases |acts|
  {
    if acts == [] then 0
    else
      var a := acts[0];
      B(a.Note? && r.tasks[a.w].verdict.Failed? && r.tasks[a.w].delivered >= MIN_FRAGMENT)
      + Breakdowns(Apply(r, origin, a), origin, acts[1..])
  }

  lemma {:induction false} BreakdownsCharged(r: Run, origin: nat -> Byte, acts: seq<Act>)
    requires RunModel.Possible(r, origin, acts)
    ensures Breakdowns(r, origin, acts) <= RunCharges(r, origin, acts)
    decreases |acts|
  {
    if acts != [] { BreakdownsCharged(Apply(r, origin, acts[0]), origin, acts[1..]); }
  }

  /** A budget of such failures ends every transfer. */
  lemma BreakdownsEndRun(r: Run, origin: nat -> Byte, acts: seq<Act>)
    requires RunModel.Possible(r, origin, acts) && Budgeted(r)
    requires r.failures + Breakdowns(r, origin, acts) >= r.budget
    ensures RunModel.Exec(r, origin, acts).fatal
  {
    RunBudget(r, origin, acts);
    BreakdownsCharged(r, origin, acts);
  }

  // ---- a job ----

  /** The failure a step of the coordinator is charged for. */
  ghost function OpCharge(j: Job, op: Op): nat {
    match op
    case Report(_, l, verdict) => B(Counts(j.plan.autoLimit, verdict, SatSub(l.cursor, l.start), l.issued))
    case _ => 0
  }

  ghost function JobCharges(j: Job, ops: seq<Op>): nat
    requires JobSafety.Possible(j, ops)
    decreases |ops|
  {
    if ops == [] then 0 else OpCharge(j, ops[0]) + JobCharges(Step(j, ops[0]), ops[1..])
  }

  /** The job has just given up: nothing is wanted for its own sake, nobody works. */
  ghost predicate GaveUp(j: Job) { j.state.Broken? && !j.requested && !Manned(j.slots) && j.busy == {} }

  lemma ReportCharges(j: Job, w: nat, l: Live, verdict: Verdict)
    ensures var k := j.WorkerDone(w, l, verdict); var n := j.failures + OpCharge(j, Op.Report(w, l, verdict));
            && k.failures == n && k.c == j.c
            && (OpCharge(j, Op.Report(w, l, verdict)) > 0 && n >= Max(2 * j.c.threads, 8) ==> GaveUp(k))
            && (k.state.Broken? ==> j.state.Broken? || n >= Max(2 * j.c.threads, 8))
  {
  }

  /** A step other than a start counts what it is charged, and gives up when that
      uses up two failures per thread, or eight. */
  lemma StepCharges(j: Job, op: Op)
    requires JobSafety.Enabled(j, op) && !op.Start?
    ensures var k := Step(j, op); var n := j.failures + OpCharge(j, op);
            && k.failures == n && k.c == j.c
            && (OpCharge(j, op) > 0 && n >= Max(2 * j.c.threads, 8) ==> GaveUp(k))
            && (k.state.Broken? ==> j.state.Broken? || n >= Max(2 * j.c.threads, 8))
  {
    if op.Report? { ReportCharges(j, op.w, op.l, op.verdict); }
  }

  /** Some step of the run makes the job give up. */
  ghost predicate Breaks(j: Job, ops: seq<Op>)
    requires JobSafety.Possible(j, ops)
    decreases |ops|
  {
    ops != [] && (GaveUp(Step(j, ops[0])) || Breaks(Step(j, ops[0]), ops[1..]))
  }

  /** Without another start, failures that count and use up the budget break the job. */
  lemma {:induction false} FailuresBreakJob(j: Job, ops: seq<Op>)
    requires JobSafety.Possible(j, ops) && forall i :: 0 <= i < |ops| ==> !ops[i].Start?
    requires j.failures < Max(2 * j.c.threads, 8) <= j.failures + JobCharges(j, ops)
    ensures Breaks(j, ops)
    decreases |ops|
  {
    StepCharges(j, ops[0]);
    if !GaveUp(Step(j, ops[0])) { FailuresBreakJob(Step(j, ops[0]), ops[1..]); }
  }

  lemma {:induction false} BrokenHeld(j: Job, ops: seq<Op>)
    requires JobSafety.Possible(j, ops) && (j.state.Broken? ==> j.failures >= Max(2 * j.c.threads, 8))
    ensures var z := JobSafety.Exec(j, ops); z.c == j.c && (z.state.Broken? ==> z.failures >= Max(2 * j.c.threads, 8))
    decreases |ops|
  {
    if ops != [] {
      if !ops[0].Start? { StepCharges(j, ops[0]); }
      BrokenHeld(Step(j, ops[0]), ops[1..]);
    }
  }

  /** And in every run a job is broken only by a budget of failures that count. */
  lemma BrokenByFailures(j: Job, staged: seq<Span>, wall: Option<nat>, ops: seq<Op>)
    requires JobSafety.Opening(j, staged, wall) && JobSafety.Possible(j, ops)
    ensures var z := JobSafety.Exec(j, ops); z.state.Broken? ==> z.failures >= Max(2 * z.c.threads, 8)
  {
    BrokenHeld(j, ops);
  }
}
