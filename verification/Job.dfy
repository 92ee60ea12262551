/** The coordinator as the object the server holds. Each method is one step under
    the job's locks and does to the object what the model's step does. */
module Job {
  import opened Spans
  import opened Sched
  import opened RunModel
  import opened Cache
  import opened JobLaws
  import opened JobModel
  import JobSafety

  method LowestHead(readers: map<nat, nat>) returns (head: Option<nat>)
    ensures head == Lowest(readers)
  {
    head := None;
    var left := readers.Keys;
    while left != {}
      invariant left <= readers.Keys
      invariant head.None? ==> left == readers.Keys
      invariant head.Some? ==> exists k :: k in readers && k !in left && readers[k] == head.value
      invariant head.Some? ==> forall k :: k in readers && k !in left ==> head.value <= readers[k]
      decreases |left|
    {
      var k :| k in left;
      head := Some(if head.Some? then Min(head.value, readers[k]) else readers[k]);
      left := left - {k};
    }
    assert IsLowest(readers, head) && IsLowest(readers, Lowest(readers));
  }

  class CacheJob {
    const c: Config
    const entry: CacheEntry
    var plan: Sched
    var state: JobState
    var requested: bool
    var readers: map<nat, nat>
    var nextReader: nat
    var writeThroughBelow: nat
    var generation: nat
    var slots: seq<Option<nat>>
    var failures: nat
    ghost var busy: set<nat>
    ghost var sound: bool

    ghost function View(): JobModel.Job
      reads this, entry
    {
      JobModel.Job(c, plan, state, requested, readers, nextReader, writeThroughBelow, generation, slots, failures, busy,
                   sound, entry.written)
    }

    ghost predicate Ready()
      reads this, entry
    {
      entry.Valid() && entry.g.total == c.total > 0
    }

    constructor (c: Config, entry: CacheEntry, wall: Option<nat>)
      requires entry.Valid() && entry.g.total == c.total && c.Ok()
      ensures entry.Valid() && this.c == c && this.entry == entry
      ensures exists staged :: Found(entry, staged) && JobSafety.Opening(View(), staged, wall)
      ensures JobSafety.JobOk(View())
    {
      this.c, this.entry := c, entry;
      requested, readers, nextReader, writeThroughBelow, failures := false, map[], 1, 0, 0;
      generation, slots := 1, seq(c.threads, i => None);
      state, busy, sound := NotStarted, {}, true;
      plan := c.Build(Throughput, [], wall);
      new;
      var staged := Scan();
      plan := c.Build(Throughput, staged, wall);
      var run := entry.ContiguousFrom(0, c.total);
      if run >= c.total { state := Complete; }
      assert JobSafety.Opening(View(), staged, wall);
      JobSafety.OpeningOk(View(), staged, wall);
    }

    /** What a walk over the disk finds. */
    method Scan() returns (staged: seq<Span>)
      requires entry.Valid() && entry.g.total == c.total > 0
      ensures Found(entry, staged)
    {
      staged := entry.StagedRanges(0, c.total - 1);
      forall x: nat ensures Has(staged, x) ==> x in entry.written {
        if Has(staged, x) { AnchoredWritten(entry.g, entry.written, 0, x); }
      }
    }

    // ---- the pool ----

    method Retune()
      modifies this`plan
      ensures View() == old(View()).Retune()
    {
      var head := LowestHead(readers);
      match head {
        case Some(h) =>
          plan := plan.SetReadHead(h).SetStrategy(LatencyDefault());
          plan := plan.SetWorkLimit(if requested then None else Some(PLAYBACK_HORIZON));
        case None =>
          plan := plan.SetStrategy(Throughput).SetWorkLimit(None);
      }
    }

    method Republish()
      modifies this`writeThroughBelow
      ensures View() == old(View()).Republish()
    {
      var head := LowestHead(readers);
      writeThroughBelow := match head case Some(h) => Sat(h + WRITE_THROUGH_AHEAD) case None => 0;
    }

    method EnsureWorkers()
      modifies this`slots
      ensures View() == old(View()).EnsureWorkers()
    {
      if !requested && readers == map[] { return; }
      ghost var was, goal := slots, View().EnsureWorkers();
      var worker := 0;
      while worker < |slots|
        invariant worker <= |slots| == |was|
        invariant forall w :: 0 <= w < worker ==> slots[w] == if was[w].Some? then was[w] else Some(generation)
        invariant forall w :: worker <= w < |was| ==> slots[w] == was[w]
      {
        if slots[worker].None? { slots := slots[worker := Some(generation)]; }
        worker := worker + 1;
      }
      assert slots == goal.slots;
    }

    method Respawn(stale: seq<nat>)
      requires forall w :: w in stale ==> w < |slots|
      modifies this`slots, this`busy
      ensures View() == old(View()).Respawn(stale)
    {
      ghost var was, goal := slots, View().Respawn(stale);
      busy := busy - Those(stale);
      for i := 0 to |stale|
        invariant |slots| == |was| && busy == goal.busy
        invariant forall w :: 0 <= w < |was| ==> slots[w] == if w in stale[..i] then Some(generation) else was[w]
      {
        assert stale[..i + 1] == stale[..i] + [stale[i]] && stale[i] in stale;
        slots := slots[stale[i] := Some(generation)];
      }
      assert stale[..|stale|] == stale;
      assert slots == goal.slots;
    }

    method DrainWorkers()
      modifies this`generation
      ensures View() == old(View()).Drain()
    {
      generation := generation + 1;
    }

    method AbortWorkers()
      modifies this`generation, this`slots, this`busy, this`sound
      ensures View() == old(View()).Abort()
    {
      generation, slots := generation + 1, seq(|slots|, i => None);
      busy, sound := {}, sound && plan.live == [];
    }

    method RebuildScheduler(wall: Option<nat>) returns (staged: seq<Span>)
      requires entry.Valid() && entry.g.total == c.total > 0
      modifies this`plan, this`sound
      ensures Found(entry, staged) && View() == old(View()).Rebuild(staged, wall)
    {
      staged := Scan();
      plan := c.Build(if readers == map[] then Throughput else LatencyDefault(), staged, wall);
      sound := true;
    }

    // ---- what the user asks for ----

    method StartCache()
      requires Ready()
      modifies this
      ensures View() == old(View()).StartCache()
    {
      var run := entry.ContiguousFrom(0, c.total);
      if run >= c.total {
        state, requested := Complete, false;
        return;
      }
      requested, state, failures := true, Running, 0;
      Retune();
      EnsureWorkers();
    }

    /** The runs the rebuild found come back with it. */
    method PauseCache(wall: Option<nat>) returns (staged: seq<Span>)
      requires Ready()
      modifies this
      ensures Found(entry, staged) && old(View()).disk == entry.written
      ensures View() == old(View()).PauseCache(staged, wall)
    {
      requested := false;
      if state != Complete { state := Paused; }
      AbortWorkers();
      staged := RebuildScheduler(wall);
      if readers != map[] {
        Retune();
        EnsureWorkers();
      }
    }

    method Stop()
      requires Ready()
      modifies this
      ensures View() == old(View()).Stop()
    {
      requested := false;
      AbortWorkers();
    }

    method SweepStalled(idle: set<nat>)
      requires Ready() && JobSafety.Shape(View())
      modifies this
      ensures View() == old(View()).SweepStalled(idle)
    {
      if !requested && readers == map[] { return; }
      ReclaimFrame(plan, 0, idle, c.threads);
      var (s, dead) := plan.ReclaimStalled(idle);
      plan := s;
      if dead != [] {
        Respawn(dead);
      } else {
        NobodyRespawned(View());
      }
    }

    // ---- readers ----

    /** A reader joins at `start`, and the plan is aimed at it. */
    method Aim(start: nat)
      modifies this
      ensures View() == old(View()).Aimed(start)
    {
      nextReader, readers := nextReader + 1, readers[nextReader := start];
      Republish();
      Retune();
    }

    method Stream(start: nat) returns (id: nat)
      requires Ready() && JobSafety.Shape(View()) && JobSafety.Enabled(View(), JobSafety.Attach(start))
      modifies this
      ensures id == old(nextReader)
      ensures View() == old(View()).Stream(start)
    {
      id := nextReader;
      Aim(start);
      JobSafety.RefocusedFrame(plan, c.threads);
      var (s, stale) := plan.Refocus(CRITICAL_WINDOW);
      plan := s;
      Respawn(stale);
      EnsureWorkers();
    }

    method ReaderTurn(id: nat, cursor: nat, end: nat) returns (next: nat)
      requires Ready() && id in readers && cursor <= end
      modifies this
      ensures next == cursor + old(View()).Available(cursor, end)
      ensures View() == old(View()).ReaderTurn(id, cursor, end)
    {
      var available := entry.ContiguousFrom(cursor, Min(end - cursor + 1, READ_CHUNK));
      next := cursor + available;
      ghost var was := View();
      TurnIs(was, id, cursor, end, available);
      if available == 0 { Wait(); } else { MoveReader(id, next); }
    }

    method Wait()
      modifies this
      ensures View() == old(View()).Retune().EnsureWorkers()
    {
      Retune();
      EnsureWorkers();
    }

    method MoveReader(id: nat, next: nat)
      requires entry.Valid()
      modifies this
      ensures View() == old(View()).MovedTo(id, next)
    {
      readers := readers[id := next];
      var ahead := entry.ContiguousFrom(next, READER_BUFFER_PROBE);
      plan := plan.SetReadHead(next).SetReaderBuffer(ahead);
      Republish();
    }

    method ReaderLeaves(id: nat)
      requires Ready() && id in readers
      modifies this
      ensures View() == old(View()).ReaderLeaves(id)
    {
      readers := readers - {id};
      Republish();
      if readers == map[] {
        if requested {
          Retune();
          EnsureWorkers();
        } else {
          DrainWorkers();
        }
      } else {
        Retune();
      }
    }

    // ---- workers ----

    method WorkerExit(w: nat, superseded: bool)
      requires entry.Valid() && entry.g.total == c.total && w < |slots|
      modifies this
      ensures View() == old(View()).WorkerExit(w, superseded)
    {
      slots := slots[w := None];
      var run := entry.ContiguousFrom(0, c.total);
      if run >= c.total {
        requested := false;
        if state != Broken { state := Complete; }
      } else if superseded {
        EnsureWorkers();
      }
    }

    method WorkerTurn(w: nat, rates: Rates) returns (claim: Option<Live>)
      requires Ready() && JobSafety.Enabled(View(), JobSafety.Ask(w, rates))
      modifies this
      ensures (View(), claim) == old(View()).WorkerTurn(w, rates)
    {
      claim := None;
      if slots[w] != Some(generation) {
        WorkerExit(w, true);
        return;
      }
      var (s, l) := plan.Claim(w, rates);
      plan, claim := s, l;
      if claim.None? {
        WorkerExit(w, false);
      } else {
        busy := busy + {w};
      }
    }

    method Land(i: nat, data: seq<Byte>)
      requires Ready() && JobSafety.Enabled(View(), JobSafety.Land(i, |data|))
      modifies this`plan, entry
      ensures entry.Valid() && View() == old(View()).Land(i, |data|)
      ensures entry.file == Put(old(entry.file), old(plan).live[i].cursor, data)
    {
      var l := plan.live[i];
      entry.WriteRange(l.cursor, data);
      plan := plan.(live := plan.live[i := l.AdvanceTo(l.cursor + |data|)]);
    }

    method WorkerDone(w: nat, l: Live, verdict: Verdict)
      requires Ready() && JobSafety.Enabled(View(), JobSafety.Report(w, l, verdict))
      modifies this
      ensures View() == old(View()).WorkerDone(w, l, verdict)
    {
      sound := sound && View().Clean(l);
      plan, busy := plan.Finish(w, l.cursor), busy - {w};
      var counts := Learn(l, verdict);
      if counts { CountFailure(); }
    }

    method Learn(l: Live, verdict: Verdict) returns (counts: bool)
      modifies this`plan
      ensures (View(), counts) == old(View()).Learnt(l, verdict)
    {
      counts := false;
      match verdict {
        case Done =>
          plan := plan.NoteOutcome(true, SatSub(l.cursor, l.start), l.issued).0;
        case Failed =>
          var (s, own) := plan.NoteOutcome(false, SatSub(l.cursor, l.start), l.issued);
          plan, counts := s, own;
        case Overloaded =>
        case Changed =>
          counts := true;
      }
    }

    method CountFailure()
      modifies this
      ensures View() == old(View()).Failure()
    {
      failures := failures + 1;
      if failures >= Max(2 * c.threads, 8) {
        state, requested := Broken, false;
        AbortWorkers();
      }
    }
  }

  /** Exactly the bytes that a block-by-block walk reaches, all of them written. */
  ghost predicate Found(entry: CacheEntry, staged: seq<Span>)
    reads entry
  {
    && entry.g.Ok() && entry.g.total > 0
    && (forall x: nat :: Has(staged, x) ==> x in entry.written)
    && forall x: nat :: Has(staged, x) <==> x < entry.g.total && Anchored(entry.g, entry.written, 0, x)
  }

  lemma AnchoredWritten(g: Geometry, w: set<nat>, start: nat, x: nat)
    requires g.Ok() && Anchored(g, w, start, x)
    ensures x in w
  {
    var y: nat :| start <= y <= x && Stop(g, start, y) && Solid(w, y, x);
  }

  lemma TurnIs(j: JobModel.Job, id: nat, cursor: nat, end: nat, n: nat)
    requires cursor <= end && n == j.Available(cursor, end)
    ensures j.ReaderTurn(id, cursor, end) == if n == 0 then j.Retune().EnsureWorkers() else j.MovedTo(id, cursor + n)
  {
    var t := if n == 0 then j.Retune().EnsureWorkers() else j.MovedTo(id, cursor + n);
    JobSafety.TurnedEither((k: JobModel.Job) => k == t, j, id, cursor, n);
  }

  lemma NobodyRespawned(j: JobModel.Job)
    ensures j.Respawn([]) == j
  {
    assert j.Respawn([]).slots == j.slots && j.busy - Those([]) == j.busy;
  }
}
