/** The coordinator of one cached file as a value: it starts, pauses and re-aims
    the worker pool, serves readers, and decides when the file is done. */
module JobModel {
  import opened Spans
  import opened Sched
  import opened SchedLaws
  import opened RunModel
  import opened JobLaws

  const PLAYBACK_HORIZON: nat := 256 * MIB
  const WRITE_THROUGH_AHEAD: nat := 32 * MIB
  const READER_BUFFER_PROBE: nat := 64 * MIB
  const CRITICAL_WINDOW: nat := 32 * MIB
  const HEAD_CLAIM: nat := 2 * MIB

  datatype JobState = NotStarted | Running | Paused | Complete | Broken

  function LatencyDefault(): Strategy { Latency(CRITICAL_WINDOW, HEAD_CLAIM) }

  /** The lowest position any reader is at. */
  ghost predicate IsLowest(readers: map<nat, nat>, head: Option<nat>) {
    match head
    case None => readers == map[]
    case Some(h) => (exists k :: k in readers && readers[k] == h) && forall k :: k in readers ==> h <= readers[k]
  }

  ghost function Lowest(readers: map<nat, nat>): (head: Option<nat>)
    ensures IsLowest(readers, head)
    decreases |readers|
  {
    if readers == map[] then None
    else
      var k :| k in readers;
      var rest := readers - {k};
      assert forall i :: i in readers ==> i == k || i in rest;
      assert rest.Keys == readers.Keys - {k};
      Some(match Lowest(rest) case None => readers[k] case Some(h) => Min(h, readers[k]))
  }

  function Frontier(head: Option<nat>): nat { if head.Some? then Sat(head.value + WRITE_THROUGH_AHEAD) else 0 }

  /** Around the lowest reader, and no further than the playback horizon unless
      the whole file is wanted; without readers, everywhere. */
  function Retuned(s: Sched, head: Option<nat>, requested: bool): Sched {
    match head
    case Some(h) =>
      s.SetReadHead(h).SetStrategy(LatencyDefault()).SetWorkLimit(if requested then None else Some(PLAYBACK_HORIZON))
    case None => s.SetStrategy(Throughput).SetWorkLimit(None)
  }

  datatype Config = Config(total: nat, threads: nat, perVolume: nat, splitCap: Option<nat>, volumes: Option<seq<Volume>>) {
    function Build(strategy: Strategy, staged: seq<Span>, wall: Option<nat>): Sched {
      New(0, SatSub(total, 1), strategy, volumes, threads, perVolume, splitCap, staged).WithClaimWall(wall)
    }

    ghost predicate Ok() { 0 < total <= U64_MAX && threads > 0 && Layout(Build(Throughput, [], None)) }
  }

  /** `slots` holds the generation of the run in each slot; `busy` the workers
      whose task has a claim. `sound` is lost when claims are aborted without a
      rebuild, or a race abandons bytes. `disk` is what has been written. */
  datatype Job = Job(c: Config, plan: Sched, state: JobState, requested: bool, readers: map<nat, nat>, nextReader: nat,
                     writeThroughBelow: nat, generation: nat, slots: seq<Option<nat>>, failures: nat, busy: set<nat>,
                     sound: bool, disk: set<nat>)
  {
    ghost predicate Whole() { forall x: nat :: x < c.total ==> x in disk }

    predicate Wanted() { requested || readers != map[] }

    ghost function Retune(): Job { this.(plan := Retuned(plan, Lowest(readers), requested)) }

    ghost function Republish(): Job { this.(writeThroughBelow := Frontier(Lowest(readers))) }

    /** Fill every empty slot, if there is demand at all. */
    function EnsureWorkers(): Job {
      if !Wanted() then this
      else this.(slots := seq(|slots|, i requires 0 <= i < |slots| => if slots[i].Some? then slots[i] else Some(generation)))
    }

    /** Abort the listed workers and start others in their slots. */
    function Respawn(stale: seq<nat>): Job {
      this.(slots := seq(|slots|, i requires 0 <= i < |slots| => if i in stale then Some(generation) else slots[i]),
            busy := busy - Those(stale))
    }

    function Drain(): Job { this.(generation := generation + 1) }

    /** Cancel every task. Claims still in the plan stay there, owned by nobody. */
    function Abort(): Job {
      this.(generation := generation + 1, slots := seq(|slots|, i => None), busy := {}, sound := sound && plan.live == [])
    }

    function Rebuild(staged: seq<Span>, wall: Option<nat>): Job {
      this.(plan := c.Build(if readers == map[] then Throughput else LatencyDefault(), staged, wall), sound := true)
    }

    // ---- what the user asks for ----

    ghost function StartCache(): Job {
      if Whole() then this.(state := Complete, requested := false)
      else this.(requested := true, state := Running, failures := 0).Retune().EnsureWorkers()
    }

    ghost function PauseCache(staged: seq<Span>, wall: Option<nat>): Job {
      var j := this.(requested := false, state := if state == Complete then Complete else Paused).Abort().Rebuild(staged, wall);
      if readers == map[] then j else j.Retune().EnsureWorkers()
    }

    function Stop(): Job { this.(requested := false).Abort() }

    function SweepStalled(idle: set<nat>): Job {
      if !Wanted() then this
      else
        var (s, dead) := plan.ReclaimStalled(idle);
        this.(plan := s).Respawn(dead)
    }

    // ---- readers ----

    ghost function Aimed(start: nat): Job {
      this.(readers := readers[nextReader := start], nextReader := nextReader + 1).Republish().Retune()
    }

    ghost function Stream(start: nat): Job
      requires Aimed(start).plan.WellFormed()
    {
      var j := Aimed(start);
      var (s, stale) := j.plan.Refocus(CRITICAL_WINDOW);
      j.(plan := s).Respawn(stale).EnsureWorkers()
    }

    ghost function Available(cursor: nat, end: nat): nat
      requires cursor <= end
    {
      RunLength(disk, cursor, Min(end - cursor + 1, READ_CHUNK))
    }

    ghost function MovedTo(id: nat, next: nat): Job {
      this.(readers := readers[id := next],
            plan := plan.SetReadHead(next).SetReaderBuffer(RunLength(disk, next, READER_BUFFER_PROBE))).Republish()
    }

    /** A reader that has found `n` bytes at its cursor. */
    ghost function Turned(id: nat, cursor: nat, n: nat): Job {
      if n == 0 then Retune().EnsureWorkers() else MovedTo(id, cursor + n)
    }

    ghost function ReaderTurn(id: nat, cursor: nat, end: nat): Job
      requires cursor <= end
    {
      Turned(id, cursor, Available(cursor, end))
    }

    ghost function ReaderLeaves(id: nat): Job {
      var j := this.(readers := readers - {id}).Republish();
      if j.readers != map[] then j.Retune()
      else if requested then j.Retune().EnsureWorkers()
      else j.Drain()
    }

    // ---- workers ----

    /** A worker leaves: its slot is free, and the job is done if the file is. */
    ghost function WorkerExit(w: nat, superseded: bool): Job
      requires w < |slots|
    {
      var j := this.(slots := slots[w := None]);
      if Whole() then j.(requested := false, state := if state == Broken then Broken else Complete)
      else if superseded then j.EnsureWorkers()
      else j
    }

    /** The top of a worker's loop: leave if superseded or nothing can be claimed. */
    ghost function WorkerTurn(w: nat, rates: Rates): (Job, Option<Live>)
      requires w < |slots| && plan.WellFormed()
    {
      if slots[w] != Some(generation) then (WorkerExit(w, true), None)
      else
        var (s, claim) := plan.Claim(w, rates);
        if claim.None? then (this.(plan := s).WorkerExit(w, false), None) else (this.(plan := s, busy := busy + {w}), claim)
    }

    /** An item arrives for the claim at `i` and is written through. */
    function Land(i: nat, n: nat): Job
      requires i < |plan.live|
    {
      var l := plan.live[i];
      this.(plan := plan.(live := plan.live[i := l.AdvanceTo(l.cursor + n)]), disk := disk + Interval(l.cursor, l.cursor + n))
    }

    function FailureBudget(): nat { Max(2 * c.threads, 8) }

    ghost predicate Clean(l: Live) {
      exists i :: 0 <= i < |plan.live| && plan.live[i] == l && CleanFinish(plan, i)
    }

    function Settled(w: nat, l: Live, clean: bool): Job {
      this.(plan := plan.Finish(w, l.cursor), busy := busy - {w}, sound := sound && clean)
    }

    /** What sizing learns from the outcome, and whether it is a failure that counts. */
    function Learnt(l: Live, verdict: Verdict): (Job, bool) {
      var (s, counts) := match verdict
        case Done => plan.NoteOutcome(true, SatSub(l.cursor, l.start), l.issued)
        case Failed => plan.NoteOutcome(false, SatSub(l.cursor, l.start), l.issued)
        case Overloaded => (plan, false)
        case Changed => (plan, true);
      (this.(plan := s), counts)
    }

    /** One failure too many breaks the job, which cancels every other request but
        leaves the plan as it is. */
    function Failure(): Job {
      var j := this.(failures := failures + 1);
      if failures + 1 >= FailureBudget() then j.(state := Broken, requested := false).Abort() else j
    }

    /** `fetch_claim` came back for worker `w`, whose claim is `l`. */
    ghost function WorkerDone(w: nat, l: Live, verdict: Verdict): Job {
      var (j, counts) := Settled(w, l, Clean(l)).Learnt(l, verdict);
      if counts then j.Failure() else j
    }
  }
}
