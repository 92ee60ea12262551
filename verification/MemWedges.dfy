/** Exactly which in-memory streams can wedge when a fetch may succeed without
    delivering anything: those with a chunk beyond the first window that was not
    warmed up. The others end, whatever the fetches deliver. */
module MemWedges {
  import opened Spans
  import opened RunModel
  import opened MemStream
  import opened MemSafety
  import opened MemRuns

  /** The stream is neither over nor complete, and nobody can do anything. */
  ghost predicate Stuck(m: Mem) { m.Sized() && !m.over && m.head < |m.plan| && forall st :: !Can(m, st) }

  predicate Resting(f: Fetcher) { f.Waiting? || f.Closed? }

  /** The chunk the serializer waits for has no fetcher, nobody holds a slot, and no
      release is due. */
  ghost predicate Deserted(m: Mem) {
    && m.Sized() && !m.over && m.head < |m.plan| && m.fetchers[m.head].Waiting? && m.releases == []
    && forall i :: 0 <= i < |m.plan| ==> Resting(m.fetchers[i])
  }

  lemma StuckRests(m: Mem, i: nat)
    requires Stuck(m) && i < |m.plan|
    ensures Resting(m.fetchers[i])
  {
    assert !Can(m, Return(i)) && !Can(m, Release(i)) && !Can(m, Close(i));
  }

  /** What a stuck stream looks like. */
  lemma StuckExact(m: Mem, origin: nat -> Byte)
    requires MemInv(m, origin)
    ensures Stuck(m) <==> Deserted(m)
  {
    if Stuck(m) {
      forall i | 0 <= i < |m.plan| ensures Resting(m.fetchers[i]) { StuckRests(m, i); }
      assert !Can(m, Serve(true)) && !Can(m, Advance) && !Can(m, TakeRelease);
    }
    if Deserted(m) {
      ChunkIs(m, origin, m.head);
      forall st ensures !Can(m, st) { DesertedCannot(m, st); }
    }
  }

  lemma DesertedCannot(m: Mem, st: Step)
    requires Deserted(m) && m.queues[m.head] == []
    ensures !Can(m, st)
  {
    if st.Push? || st.Fail? || st.Return? || st.Release? || st.Close? {
      assert st.i < |m.plan| ==> Resting(m.fetchers[st.i]);
    }
  }

  /** Nobody resting holds a slot. */
  lemma NoneInFlight(m: Mem)
    requires Counted(m) && m.releases == [] && forall i :: 0 <= i < |m.plan| ==> !Occupies(m.fetchers[i])
    ensures m.inFlight == 0
  {
    if Holding(m.fetchers, m.volOf, None) > 0 { var i := SomeoneHolds(m.fetchers, m.volOf); }
  }

  // ---- the last refill never leaves a slot free below its limit ----

  ghost predicate Filled(m: Mem) { m.Sized() && (m.over || Full(m, m.filledAt)) }

  lemma RefillFilled(m: Mem)
    requires Counted(m)
    ensures Filled(m.Refill(m.head))
  {
    SpawnGrows(m, m.head);
    assert m.Refill(m.head).Limit(m.head) == m.SpawnMore(m.head).Limit(m.head);
  }

  lemma ServeFilled(m: Mem, taken: bool)
    requires Counted(m) && Can(m, Serve(taken))
    ensures Filled(ServeStep(m, taken))
  {
    if taken && m.queues[m.head][0].Data? {
      var popped := m.(queues := m.queues[m.head := m.queues[m.head][1..]], out := m.out + [m.queues[m.head][0]]);
      assert Counted(popped);
      DrainCounted(popped);
      DrainSized(popped);
      RefillFilled(popped.DrainReleases());
    }
  }

  lemma StepFilled(m: Mem, origin: nat -> Byte, st: Step)
    requires MemInv(m, origin) && Filled(m) && Can(m, st)
    ensures Filled(Take(m, origin, st))
  {
    if st.TakeRelease? {
      ReleaseCounted(m);
      RefillFilled(m.(releases := m.releases[1..]).ReleaseOne(m.releases[0]));
    } else if st.Serve? {
      ServeFilled(m, st.taken);
    } else {
      assert Take(m, origin, st).Limit(m.filledAt) == m.Limit(m.filledAt);
    }
  }

  lemma {:induction false} WalkFilled(m: Mem, origin: nat -> Byte, steps: seq<Step>)
    requires MemInv(m, origin) && Filled(m) && Walk(m, origin, steps)
    ensures Filled(After(m, origin, steps))
    decreases |steps|
  {
    if steps != [] {
      StepInv(m, origin, steps[0]);
      StepFilled(m, origin, steps[0]);
      WalkFilled(Take(m, origin, steps[0]), origin, steps[1..]);
    }
  }

  /** How many chunks the first window holds. */
  function Window(m: Mem): nat { m.maxThreads * LOOKAHEAD_CHUNKS }

  /** A chunk beyond the first window that was not warmed up. */
  ghost predicate Exposed(m: Mem, i: nat) { Window(m) <= i < |m.plan| && i !in m.warm }

  /** With no such chunk the serializer never waits for one that no refill reaches. */
  lemma NeverDeserted(m: Mem, origin: nat -> Byte)
    requires MemInv(m, origin) && Filled(m) && Deserted(m)
    ensures Exposed(m, m.head)
  {
    NoneInFlight(m);
    assert !m.spawned[m.head];
    assert m.head >= m.Limit(m.filledAt);
  }

  // ---- the run that wedges ----

  ghost predicate Wedges(m: Mem, origin: nat -> Byte) {
    exists steps: seq<Step> :: Walk(m, origin, steps) && Stuck(After(m, origin, steps))
  }

  lemma Already(m: Mem, origin: nat -> Byte)
    requires Stuck(m)
    ensures Wedges(m, origin)
  {
    var steps: seq<Step> := [];
    assert Walk(m, origin, steps) && After(m, origin, steps) == m;
  }

  lemma Onward(m: Mem, origin: nat -> Byte, st: Step)
    requires Can(m, st) && Wedges(Take(m, origin, st), origin)
    ensures Wedges(m, origin)
  {
    var next := Take(m, origin, st);
    var rest: seq<Step> :| Walk(next, origin, rest) && Stuck(After(next, origin, rest));
    var steps := [st] + rest;
    assert steps[1..] == rest && steps[0] == st;
    assert Walk(m, origin, steps) && After(m, origin, steps) == After(next, origin, rest);
  }

  ghost predicate Silent(m: Mem) { m.Sized() && forall i :: 0 <= i < |m.plan| ==> m.queues[i] == [] }

  /** The serializer passes every closed chunk, down to one nobody fetches. */
  lemma {:induction false} Slides(m: Mem, origin: nat -> Byte, i: nat)
    requires MemInv(m, origin) && !m.over && Silent(m) && m.releases == [] && m.head <= i < |m.plan| && m.fetchers[i].Waiting?
    requires forall k :: 0 <= k < |m.plan| ==> Resting(m.fetchers[k])
    ensures Wedges(m, origin)
    decreases i - m.head
  {
    if m.fetchers[m.head].Waiting? {
      StuckExact(m, origin);
      Already(m, origin);
    } else {
      assert Resting(m.fetchers[m.head]);
      StepInv(m, origin, Advance);
      Slides(Take(m, origin, Advance), origin, i);
      Onward(m, origin, Advance);
    }
  }

  /** The serializer still stands at the first chunk, whose channel is open, and
      nothing has been delivered. */
  ghost predicate Early(m: Mem, origin: nat -> Byte) {
    && MemInv(m, origin) && Filled(m) && !m.over && m.plan != [] && m.head == 0 && m.filledAt == 0 && Silent(m)
    && !m.fetchers[0].Closed?
  }

  /** Any step but a push, a failure, and the closing of the first channel. */
  ghost predicate Empty(m: Mem, st: Step) {
    Can(m, st) && (st.Return? || st.Release? || (st.Close? && st.i != 0) || st.TakeRelease?)
  }

  lemma EmptyFetcher(m: Mem, origin: nat -> Byte, st: Step)
    requires Silent(m) && m.plan != [] && Empty(m, st) && !st.TakeRelease? && !m.fetchers[0].Closed?
    ensures Silent(Take(m, origin, st)) && !Take(m, origin, st).fetchers[0].Closed?
  {
  }

  lemma EmptyRelease(m: Mem, origin: nat -> Byte)
    requires Counted(m) && Silent(m) && m.plan != [] && Can(m, TakeRelease) && !m.fetchers[0].Closed?
    ensures var t := Take(m, origin, TakeRelease);
            Silent(t) && t.plan == m.plan && !t.fetchers[0].Closed? && t.filledAt == t.head == m.head && !t.over
  {
    ReleaseCounted(m);
    SpawnGrows(m.(releases := m.releases[1..]).ReleaseOne(m.releases[0]), m.head);
  }

  lemma EmptyKeeps(m: Mem, origin: nat -> Byte, st: Step)
    requires Early(m, origin) && Empty(m, st)
    ensures var t := Take(m, origin, st); Early(t, origin) && t.plan == m.plan && t.warm == m.warm && t.maxThreads == m.maxThreads
  {
    StepInv(m, origin, st);
    StepFilled(m, origin, st);
    SameStream(m, origin, st);
    if st.TakeRelease? { EmptyRelease(m, origin); } else { EmptyFetcher(m, origin, st); }
  }

  /** When no such step is left, everything below the first limit has been fetched
      and everybody rests, but for the first channel. */
  lemma EmptiedOut(m: Mem, origin: nat -> Byte)
    requires Early(m, origin) && forall st :: !Empty(m, st)
    ensures m.releases == [] && m.fetchers[0].Released?
    ensures forall i :: 0 < i < |m.plan| ==> Resting(m.fetchers[i])
  {
    assert !Empty(m, TakeRelease);
    forall i | 0 <= i < |m.plan| ensures !Occupies(m.fetchers[i]) && (i != 0 ==> Resting(m.fetchers[i])) {
      assert !Empty(m, Return(i)) && !Empty(m, Release(i)) && !Empty(m, Close(i));
    }
    NoneInFlight(m);
    assert m.spawned[0];
  }

  lemma {:induction false} EarlyWedges(m: Mem, origin: nat -> Byte, i: nat)
    requires Early(m, origin) && Exposed(m, i)
    ensures Wedges(m, origin)
    decreases Work(m)
  {
    if st :| Empty(m, st) {
      EmptyKeeps(m, origin, st);
      StepWorks(m, origin, st);
      EarlyWedges(Take(m, origin, st), origin, i);
      Onward(m, origin, st);
    } else {
      EmptiedOut(m, origin);
      var t := Take(m, origin, Close(0));
      StepInv(m, origin, Close(0));
      assert m.fetchers[i].Waiting?;
      Slides(t, origin, i);
      Onward(m, origin, Close(0));
    }
  }

  // ---- the opening ----

  /** Nothing has been pushed, and nobody has finished. */
  ghost predicate Unheard(m: Mem) { Silent(m) && forall i :: 0 <= i < |m.plan| ==> !Finished(m.fetchers[i]) }

  lemma FilledUnheard(m: Mem)
    requires Counted(m) && Unheard(m) && m.plan != []
    ensures Unheard(m.Refill(0))
  {
    SpawnGrows(m, 0);
  }

  lemma WarmUnheard(m: Mem, budget: nat, covered: seq<bool>)
    requires m.Sized() && Unheard(m)
    ensures Unheard(m.WarmUp(0, budget, covered))
  {
    var inv := (x: Mem) => Unheard(x);
    forall x: Mem, i: nat ensures Keeps(inv, x, i) {}
    WarmUpKeeps(inv, m, 0, budget, covered);
  }

  lemma OpenedUnheard(plan: seq<Span>, volOf: seq<nat>, volCount: nat, maxThreads: nat, maxPerVolume: nat, warmVolumes: nat)
    requires plan != [] && |volOf| == |plan| && forall i :: 0 <= i < |volOf| ==> volOf[i] < volCount
    ensures Unheard(Opened(plan, volOf, volCount, maxThreads, maxPerVolume, warmVolumes))
  {
    var m := Fresh(plan, volOf, volCount, maxThreads, maxPerVolume);
    FreshInv(x => 0, plan, volOf, volCount, maxThreads, maxPerVolume);
    FilledUnheard(m);
    WarmUnheard(m.Refill(0), warmVolumes, m.Refill(0).Covered());
  }

  /** A stream can wedge on fetches that succeed without delivering anything exactly
      when some chunk beyond the first window was not warmed up. One whose plan fits
      the window never can. */
  lemma WedgeExact(m: Mem, origin: nat -> Byte, maxThreads: nat, maxPerVolume: nat, warmVolumes: nat, a: nat, b: nat)
    requires Starts(m, maxThreads, maxPerVolume, warmVolumes, a, b)
    ensures Wedges(m, origin) <==> exists i: nat :: Exposed(m, i)
  {
    StartsWell(m, origin, maxThreads, maxPerVolume, warmVolumes, a, b);
    if steps: seq<Step> :| Walk(m, origin, steps) && Stuck(After(m, origin, steps)) {
      var t := After(m, origin, steps);
      WalksEnd(m, origin, steps);
      WalkFilled(m, origin, steps);
      StuckExact(t, origin);
      NeverDeserted(t, origin);
      assert Exposed(m, t.head);
    }
    if i: nat :| Exposed(m, i) {
      OpenedUnheard(m.plan, m.volOf, |m.perVol|, maxThreads, maxPerVolume, warmVolumes);
      EarlyWedges(m, origin, i);
    }
  }
}
