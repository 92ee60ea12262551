/** The in-memory stream from its opening to its end: bounded, never stuck while
    fetches deliver what they promise, and in plan order. */
module MemRuns {
  import opened Spans
  import opened Conservation
  import opened RunModel
  import opened Plan
  import opened MemStream
  import opened MemSafety

  // ---- opening ----

  lemma {:induction false} NothingHeld(fs: seq<Fetcher>, vol: seq<nat>, key: Option<nat>)
    requires |vol| == |fs| && forall i :: 0 <= i < |fs| ==> fs[i].Waiting?
    ensures Holding(fs, vol, key) == 0
  {
    if fs != [] { NothingHeld(fs[1..], vol[1..], key); }
  }

  lemma FreshInv(origin: nat -> Byte, plan: seq<Span>, volOf: seq<nat>, volCount: nat, maxThreads: nat, maxPerVolume: nat)
    requires |volOf| == |plan| && forall i :: 0 <= i < |volOf| ==> volOf[i] < volCount
    ensures var m := Fresh(plan, volOf, volCount, maxThreads, maxPerVolume); MemInv(m, origin) && Fruitful(m) && Complete(m)
  {
    var m := Fresh(plan, volOf, volCount, maxThreads, maxPerVolume);
    forall key: Option<nat> ensures Holding(m.fetchers, m.volOf, key) == 0 { NothingHeld(m.fetchers, m.volOf, key); }
    forall i | 0 <= i < |plan| ensures ChunkOk(origin, m.plan[i], m.fetchers[i], m.queues[i], i > m.head) {}
  }

  lemma StartOrdered(m: Mem, origin: nat -> Byte, idx: nat)
    requires Counted(m) && Ordered(m, origin) && idx < |m.plan| && !m.spawned[idx]
    ensures Ordered(m.Start(idx), origin)
  {
    StartCounted(m, idx);
    var t := m.Start(idx);
    forall k | t.head <= k < |t.plan| ensures ChunkOk(origin, t.plan[k], t.fetchers[k], t.queues[k], k > t.head) {
      ChunkIs(m, origin, k);
    }
  }

  lemma WarmWindow(m: Mem, idx: nat, t: Mem)
    requires Counted(m) && Windowed(m) && idx < |m.plan| && !m.spawned[idx] && t == m.StartWarm(idx)
    ensures Windowed(t) && idx !in m.warm && |t.warm| == |m.warm| + 1
  {
    StartCounted(m, idx);
  }

  lemma WarmReach(m: Mem, idx: nat, t: Mem)
    requires Counted(m) && Reaching(m) && Fruitful(m) && idx < |m.plan| && !m.spawned[idx] && t == m.StartWarm(idx)
    ensures Reaching(t) && Fruitful(t)
  {
    StartCounted(m, idx);
    assert Emptied(t) ==> Emptied(m);
    assert t.Limit(t.filledAt) == m.Limit(m.filledAt);
  }

  lemma WarmStart(m: Mem, origin: nat -> Byte, idx: nat)
    requires MemInv(m, origin) && Progress(m) && Complete(m) && !m.over && m.head == 0 && idx < |m.plan| && !m.spawned[idx]
    ensures var t := m.StartWarm(idx);
            && MemInv(t, origin) && Progress(t) && Complete(t) && |t.warm| == |m.warm| + 1 && !t.over
            && t.plan == m.plan && t.head == m.head && t.maxThreads == m.maxThreads
  {
    var t := m.StartWarm(idx);
    StartCounted(m, idx);
    StartOrdered(m, origin, idx);
    WarmWindow(m, idx, t);
    WarmReach(m, idx, t);
  }

  ghost predicate Keeps(inv: Mem -> bool, x: Mem, i: nat) {
    x.Sized() && i < |x.plan| && !x.spawned[i] && inv(x) ==> inv(x.StartWarm(i))
  }

  /** What every warm start keeps, the whole warm-up keeps. */
  lemma {:induction false} WarmUpKeeps(inv: Mem -> bool, m: Mem, v: nat, budget: nat, covered: seq<bool>)
    requires m.Sized() && v <= |covered| && inv(m)
    requires forall x: Mem, i: nat :: Keeps(inv, x, i)
    ensures inv(m.WarmUp(v, budget, covered))
    decreases |covered| - v
  {
    if v < |covered| && budget > 0 {
      match m.WarmPick(v, covered) {
        case None => WarmUpKeeps(inv, m, v + 1, budget, covered);
        case Some(idx) =>
          assert Keeps(inv, m, idx);
          WarmUpKeeps(inv, m.StartWarm(idx), v + 1, budget - 1, covered);
      }
    }
  }

  lemma StartWarmCount(m: Mem, idx: nat)
    requires m.Sized() && idx < |m.plan|
    ensures |m.StartWarm(idx).warm| <= |m.warm| + 1
  {
  }

  /** One volume of the warm-up. */
  lemma WarmUpOnce(m: Mem, v: nat, budget: nat, covered: seq<bool>) returns (t: Mem, left: nat)
    requires m.Sized() && v < |covered| && budget > 0
    ensures t.Sized() && m.WarmUp(v, budget, covered) == t.WarmUp(v + 1, left, covered)
    ensures |t.warm| + left <= |m.warm| + budget
  {
    match m.WarmPick(v, covered) {
      case None => t, left := m, budget;
      case Some(idx) =>
        StartWarmCount(m, idx);
        t, left := m.StartWarm(idx), budget - 1;
    }
  }

  lemma {:induction false} WarmUpCount(m: Mem, v: nat, budget: nat, covered: seq<bool>)
    requires m.Sized() && v <= |covered|
    ensures |m.WarmUp(v, budget, covered).warm| <= |m.warm| + budget
    decreases |covered| - v
  {
    if v < |covered| && budget > 0 {
      var t, left := WarmUpOnce(m, v, budget, covered);
      WarmUpCount(t, v + 1, left, covered);
    }
  }

  ghost predicate Opening(m: Mem, plan: seq<Span>, threads: nat, origin: nat -> Byte) {
    MemInv(m, origin) && Progress(m) && Complete(m) && !m.over && m.plan == plan && m.head == 0 && m.maxThreads == threads
  }

  lemma WarmUpInv(m: Mem, origin: nat -> Byte, budget: nat, covered: seq<bool>)
    requires Opening(m, m.plan, m.maxThreads, origin)
    ensures Opening(m.WarmUp(0, budget, covered), m.plan, m.maxThreads, origin)
  {
    var inv := (x: Mem) => Opening(x, m.plan, m.maxThreads, origin);
    forall x: Mem, i: nat ensures Keeps(inv, x, i) {
      if x.Sized() && i < |x.plan| && !x.spawned[i] && inv(x) { WarmStart(x, origin, i); }
    }
    WarmUpKeeps(inv, m, 0, budget, covered);
  }

  lemma FilledInv(m: Mem, origin: nat -> Byte)
    requires MemInv(m, origin) && Fruitful(m) && Complete(m) && !m.over && m.head == 0 && m.plan != [] && m.warm == {}
    ensures var t := m.Refill(0); Opening(t, m.plan, m.maxThreads, origin) && t.warm == {} && |t.perVol| == |m.perVol|
  {
    RefillInv(m, origin);
    RefillProgress(m);
    RefillComplete(m);
    SpawnGrows(m, 0);
  }

  /** The stream opens well, with at most `warmVolumes` fetches beyond the limit. */
  lemma OpenedInv(origin: nat -> Byte, plan: seq<Span>, volOf: seq<nat>, volCount: nat, maxThreads: nat, maxPerVolume: nat,
                  warmVolumes: nat)
    requires plan != [] && |volOf| == |plan| && forall i :: 0 <= i < |volOf| ==> volOf[i] < volCount
    ensures var m := Opened(plan, volOf, volCount, maxThreads, maxPerVolume, warmVolumes);
            Opening(m, plan, Max(maxThreads, 1), origin) && |m.warm| <= warmVolumes
  {
    var m := Fresh(plan, volOf, volCount, maxThreads, maxPerVolume);
    FreshInv(origin, plan, volOf, volCount, maxThreads, maxPerVolume);
    FilledInv(m, origin);
    var filled := m.Refill(0);
    WarmUpInv(filled, origin, warmVolumes, filled.Covered());
    WarmUpCount(filled, 0, warmVolumes, filled.Covered());
  }

  // ---- runs ----

  ghost predicate Walk(m: Mem, origin: nat -> Byte, steps: seq<Step>)
    decreases |steps|
  {
    steps == [] || (Can(m, steps[0]) && Walk(Take(m, origin, steps[0]), origin, steps[1..]))
  }

  ghost function After(m: Mem, origin: nat -> Byte, steps: seq<Step>): Mem
    requires Walk(m, origin, steps)
    decreases |steps|
  {
    if steps == [] then m else After(Take(m, origin, steps[0]), origin, steps[1..])
  }

  /** Every fetch in the run that reports success has pushed something. */
  ghost predicate AllFed(m: Mem, origin: nat -> Byte, steps: seq<Step>)
    requires Walk(m, origin, steps)
    decreases |steps|
  {
    steps == [] || (Fed(m, steps[0]) && AllFed(Take(m, origin, steps[0]), origin, steps[1..]))
  }

  /** No fetch in the run reports success short of its chunk's end. */
  ghost predicate AllWhole(m: Mem, origin: nat -> Byte, steps: seq<Step>)
    requires Walk(m, origin, steps)
    decreases |steps|
  {
    steps == [] || (Whole(m, steps[0]) && AllWhole(Take(m, origin, steps[0]), origin, steps[1..]))
  }

  // ---- no deadlock ----

  lemma {:induction false} SomeoneHolds(fs: seq<Fetcher>, vol: seq<nat>) returns (i: nat)
    requires |vol| == |fs| && Holding(fs, vol, None) > 0
    ensures i < |fs| && Occupies(fs[i])
  {
    if Occupies(fs[0]) {
      i := 0;
    } else {
      var k := SomeoneHolds(fs[1..], vol[1..]);
      i := k + 1;
    }
  }

  /** What a fetcher that holds a slot, or the channel's sender, can do next. */
  lemma FetcherCan(m: Mem, origin: nat -> Byte, i: nat) returns (st: Step)
    requires m.Sized() && !m.over && i < |m.plan|
    requires Occupies(m.fetchers[i]) || m.fetchers[i].Released?
    requires m.fetchers[i].Running? ==> m.fetchers[i].pos <= Size(m.plan[i])
    requires Size(m.plan[i]) > 0
    ensures Can(m, st) && Whole(m, st) && Fed(m, st) && !st.Fail?
  {
    st := match m.fetchers[i]
      case Running(pos) => if pos < Size(m.plan[i]) then Push(i, 1) else Return(i)
      case Ending(_) => Release(i)
      case _ => Close(i);
  }

  /** No fetcher is past its chunk's end, and no chunk is empty. */
  ghost predicate Positioned(m: Mem) {
    m.Sized() && forall i :: 0 <= i < |m.plan| ==> Pushed(m.fetchers[i]) <= Size(m.plan[i]) && Size(m.plan[i]) > 0
  }

  /** As long as the stream is neither over nor complete somebody can move: a
      fetcher, or the serializer. Waiting for a chunk nobody fetches while no
      fetch is under way and no release is due cannot happen. */
  lemma NeverStuck(m: Mem, origin: nat -> Byte) returns (st: Step)
    requires MemInv(m, origin) && Progress(m) && Positioned(m) && !m.over && m.head < |m.plan|
    ensures Can(m, st) && Whole(m, st) && Fed(m, st) && !st.Fail?
  {
    if m.queues[m.head] != [] {
      st := Serve(true);
    } else {
      match m.fetchers[m.head] {
        case Closed(_) => st := Advance;
        case Waiting =>
          assert !m.spawned[m.head] && m.head < m.Limit(m.filledAt);
          if m.releases != [] {
            st := TakeRelease;
          } else {
            assert m.inFlight == Tally(m, None);
            var i := SomeoneHolds(m.fetchers, m.volOf);
            st := FetcherCan(m, origin, i);
          }
        case _ => st := FetcherCan(m, origin, m.head);
      }
    }
  }

  lemma {:induction false} SpawnPositioned(m: Mem, at: nat)
    requires Counted(m) && Positioned(m)
    ensures Positioned(m.SpawnMore(at))
    decreases Unspawned(m.spawned)
  {
    SpawnGrows(m, at);
  }

  lemma StepPositioned(m: Mem, origin: nat -> Byte, st: Step)
    requires Counted(m) && Positioned(m) && Can(m, st)
    ensures Positioned(Take(m, origin, st))
  {
    if st.TakeRelease? {
      ReleaseCounted(m);
      SpawnPositioned(m.(releases := m.releases[1..]).ReleaseOne(m.releases[0]), m.head);
    } else if st.Serve? && st.taken && m.queues[m.head][0].Data? {
      var popped := m.(queues := m.queues[m.head := m.queues[m.head][1..]], out := m.out + [m.queues[m.head][0]]);
      assert Counted(popped);
      DrainCounted(popped);
      DrainSized(popped);
      SpawnPositioned(popped.DrainReleases(), m.head);
    }
  }

  // ---- every run is finite ----

  function Stage(f: Fetcher): nat {
    match f case Waiting => 6 case Running(_) => 5 case Ending(_) => 3 case Released(_) => 1 case Closed(_) => 0
  }

  /** What is left to do for one chunk: bytes to push and to serve, states to go through. */
  function Left(piece: Span, f: Fetcher, q: seq<Item>): nat { 2 * SatSub(Size(piece), Pushed(f)) + |q| + Stage(f) }

  function Effort(plan: seq<Span>, fs: seq<Fetcher>, qs: seq<seq<Item>>): nat
    requires |plan| == |fs| == |qs|
  {
    if plan == [] then 0 else Left(plan[0], fs[0], qs[0]) + Effort(plan[1..], fs[1..], qs[1..])
  }

  lemma {:induction false} EffortUpdate(plan: seq<Span>, fs: seq<Fetcher>, qs: seq<seq<Item>>, i: nat, f: Fetcher, q: seq<Item>)
    requires |plan| == |fs| == |qs| && i < |plan|
    ensures Effort(plan, fs[i := f], qs[i := q]) + Left(plan[i], fs[i], qs[i]) == Effort(plan, fs, qs) + Left(plan[i], f, q)
    decreases |plan|
  {
    if i == 0 {
      assert fs[i := f][1..] == fs[1..] && qs[i := q][1..] == qs[1..];
    } else {
      assert fs[i := f][1..] == fs[1..][i - 1 := f] && qs[i := q][1..] == qs[1..][i - 1 := q];
      EffortUpdate(plan[1..], fs[1..], qs[1..], i - 1, f, q);
    }
  }

  function Work(m: Mem): nat
    requires m.Sized()
  {
    Effort(m.plan, m.fetchers, m.queues) + |m.releases| + SatSub(|m.plan|, m.head) + B(!m.over)
  }

  lemma {:induction false} SpawnEffort(m: Mem, at: nat)
    requires Counted(m)
    ensures m.SpawnMore(at).Sized() && Work(m.SpawnMore(at)) <= Work(m)
    decreases Unspawned(m.spawned)
  {
    if m.inFlight < m.maxThreads && m.Pick(at).Some? {
      var idx := m.Pick(at).value;
      UnspawnedDrops(m.spawned, idx);
      StartCounted(m, idx);
      EffortUpdate(m.plan, m.fetchers, m.queues, idx, Running(0), m.queues[idx]);
      assert m.queues[idx := m.queues[idx]] == m.queues;
      SpawnEffort(m.Start(idx), at);
    }
  }

  lemma FetcherWorks(m: Mem, origin: nat -> Byte, st: Step)
    requires Can(m, st) && (st.Push? || st.Fail? || st.Return? || st.Release? || st.Close?)
    ensures Take(m, origin, st).Sized() && Work(Take(m, origin, st)) < Work(m)
  {
    var i, t := st.i, Take(m, origin, st);
    EffortUpdate(m.plan, m.fetchers, m.queues, i, t.fetchers[i], t.queues[i]);
    assert t.fetchers == m.fetchers[i := t.fetchers[i]] && t.queues == m.queues[i := t.queues[i]];
  }

  lemma ServeWorks(m: Mem, taken: bool)
    requires Counted(m) && Can(m, Serve(taken))
    ensures ServeStep(m, taken).Sized() && Work(ServeStep(m, taken)) < Work(m)
  {
    var h, q := m.head, m.queues[m.head];
    EffortUpdate(m.plan, m.fetchers, m.queues, h, m.fetchers[h], q[1..]);
    assert m.fetchers[h := m.fetchers[h]] == m.fetchers;
    if taken && q[0].Data? {
      var popped := m.(queues := m.queues[h := q[1..]], out := m.out + [q[0]]);
      assert Counted(popped);
      DrainCounted(popped);
      DrainSized(popped);
      SpawnEffort(popped.DrainReleases(), h);
    }
  }

  lemma StepWorks(m: Mem, origin: nat -> Byte, st: Step)
    requires Counted(m) && Can(m, st)
    ensures Take(m, origin, st).Sized() && Work(Take(m, origin, st)) < Work(m)
  {
    match st {
      case Serve(taken) => ServeWorks(m, taken);
      case TakeRelease =>
        ReleaseCounted(m);
        SpawnEffort(m.(releases := m.releases[1..]).ReleaseOne(m.releases[0]), m.head);
      case Advance =>
      case _ => FetcherWorks(m, origin, st);
    }
  }

  /** Every run is finite, and keeps what holds whatever the fetches do. */
  lemma {:induction false} WalksEnd(m: Mem, origin: nat -> Byte, steps: seq<Step>)
    requires MemInv(m, origin) && Positioned(m) && Walk(m, origin, steps)
    ensures var t := After(m, origin, steps);
            MemInv(t, origin) && Positioned(t) && |steps| + Work(t) <= Work(m) && t.plan == m.plan && t.warm == m.warm
            && t.maxThreads == m.maxThreads
    decreases |steps|
  {
    if steps != [] {
      StepInv(m, origin, steps[0]);
      StepPositioned(m, origin, steps[0]);
      StepWorks(m, origin, steps[0]);
      SameStream(m, origin, steps[0]);
      WalksEnd(Take(m, origin, steps[0]), origin, steps[1..]);
    }
  }

  lemma {:induction false} WalkProgress(m: Mem, origin: nat -> Byte, steps: seq<Step>)
    requires MemInv(m, origin) && Progress(m) && Walk(m, origin, steps) && AllFed(m, origin, steps)
    ensures Progress(After(m, origin, steps))
    decreases |steps|
  {
    if steps != [] {
      StepInv(m, origin, steps[0]);
      StepProgress(m, origin, steps[0]);
      WalkProgress(Take(m, origin, steps[0]), origin, steps[1..]);
    }
  }

  lemma {:induction false} WalkComplete(m: Mem, origin: nat -> Byte, steps: seq<Step>)
    requires MemInv(m, origin) && Complete(m) && Walk(m, origin, steps) && AllWhole(m, origin, steps)
    ensures Complete(After(m, origin, steps))
    decreases |steps|
  {
    if steps != [] {
      StepInv(m, origin, steps[0]);
      StepComplete(m, origin, steps[0]);
      WalkComplete(Take(m, origin, steps[0]), origin, steps[1..]);
    }
  }

  lemma SameStream(m: Mem, origin: nat -> Byte, st: Step)
    requires Counted(m) && Can(m, st)
    ensures var t := Take(m, origin, st); t.plan == m.plan && t.warm == m.warm && t.maxThreads == m.maxThreads
  {
    if st.TakeRelease? {
      ReleaseCounted(m);
      SpawnGrows(m.(releases := m.releases[1..]).ReleaseOne(m.releases[0]), m.head);
    } else if st.Serve? && st.taken && m.queues[m.head][0].Data? {
      var popped := m.(queues := m.queues[m.head := m.queues[m.head][1..]], out := m.out + [m.queues[m.head][0]]);
      assert Counted(popped);
      DrainCounted(popped);
      DrainSized(popped);
      SpawnGrows(popped.DrainReleases(), m.head);
    }
  }

  // ---- the stream as a whole ----

  /** A stream over `[a, b)` as it opens. */
  ghost predicate Starts(m: Mem, maxThreads: nat, maxPerVolume: nat, warmVolumes: nat, a: nat, b: nat) {
    && Chain(m.plan, a, b) && a < b && |m.volOf| == |m.plan|
    && (forall i :: 0 <= i < |m.volOf| ==> m.volOf[i] < |m.perVol|)
    && m == Opened(m.plan, m.volOf, |m.perVol|, maxThreads, maxPerVolume, warmVolumes)
  }

  lemma StartsWell(m: Mem, origin: nat -> Byte, maxThreads: nat, maxPerVolume: nat, warmVolumes: nat, a: nat, b: nat)
    requires Starts(m, maxThreads, maxPerVolume, warmVolumes, a, b)
    ensures Opening(m, m.plan, Max(maxThreads, 1), origin) && Positioned(m) && |m.warm| <= warmVolumes
  {
    OpenedInv(origin, m.plan, m.volOf, |m.perVol|, maxThreads, maxPerVolume, warmVolumes);
    forall i | 0 <= i < |m.plan| ensures Pushed(m.fetchers[i]) <= Size(m.plan[i]) && Size(m.plan[i]) > 0 {
      ChunkIs(m, origin, i);
      ChainAt(m.plan, a, b, i);
    }
  }

  /** In every run, whatever the fetches deliver, the output is what each chunk's
      fetcher pushed, chunk by chunk in plan order, up to some way into the head
      chunk; the run is bounded, the slots in use are counted exactly and bounded,
      and only warm-up chunks are fetched beyond the window. */
  lemma StreamLaw(m: Mem, origin: nat -> Byte, maxThreads: nat, maxPerVolume: nat, warmVolumes: nat, a: nat, b: nat,
                  steps: seq<Step>)
    requires Starts(m, maxThreads, maxPerVolume, warmVolumes, a, b) && Walk(m, origin, steps)
    ensures m.Sized() && |steps| <= Work(m)
    ensures var t := After(m, origin, steps);
            && t.Sized() && t.plan == m.plan && t.head <= |t.plan| && OutIs(t, origin, Served(t, origin))
            && (forall i :: 0 <= i < |t.plan| ==> Pushed(t.fetchers[i]) <= Size(t.plan[i]))
            && t.inFlight == Holding(t.fetchers, t.volOf, None) + |t.releases| <= Max(maxThreads, 1) + warmVolumes
            && (forall i :: 0 <= i < |t.plan| && !t.fetchers[i].Waiting? ==> i < t.head + 2 * Max(maxThreads, 1) || i in t.warm)
            && |t.warm| <= warmVolumes
  {
    StartsWell(m, origin, maxThreads, maxPerVolume, warmVolumes, a, b);
    WalksEnd(m, origin, steps);
    AllPending(After(m, origin, steps).releases);
  }

  /** As long as each successful fetch has pushed something the stream does not
      stop short: when nothing but a failure can happen any more, the serializer
      has gone through every chunk, or was cut by an error or by the client. */
  lemma StreamEnds(m: Mem, origin: nat -> Byte, maxThreads: nat, maxPerVolume: nat, warmVolumes: nat, a: nat, b: nat,
                   steps: seq<Step>)
    requires Starts(m, maxThreads, maxPerVolume, warmVolumes, a, b) && Walk(m, origin, steps) && AllFed(m, origin, steps)
    ensures var t := After(m, origin, steps);
            (forall st :: Can(t, st) ==> st.Fail?) ==>
              t.over || (t.Sized() && t.head == |t.plan| && Flat(t.out) == Prefixes(origin, t.plan, t.fetchers, |t.plan|))
  {
    StartsWell(m, origin, maxThreads, maxPerVolume, warmVolumes, a, b);
    WalksEnd(m, origin, steps);
    WalkProgress(m, origin, steps);
    var t := After(m, origin, steps);
    if !t.over && t.head < |t.plan| {
      var st := NeverStuck(t, origin);
      assert Can(t, st) && !st.Fail?;
    }
  }

  lemma {:induction false} WholeIsFed(m: Mem, origin: nat -> Byte, steps: seq<Step>)
    requires MemInv(m, origin) && Positioned(m) && Walk(m, origin, steps) && AllWhole(m, origin, steps)
    ensures AllFed(m, origin, steps)
    decreases |steps|
  {
    if steps != [] {
      StepInv(m, origin, steps[0]);
      StepPositioned(m, origin, steps[0]);
      WholeIsFed(Take(m, origin, steps[0]), origin, steps[1..]);
    }
  }

  /** And when each successful fetch has pushed its whole chunk, what comes out is
      the range itself: a prefix of it at any time, all of it in the end. */
  lemma StreamCompletes(m: Mem, origin: nat -> Byte, maxThreads: nat, maxPerVolume: nat, warmVolumes: nat, a: nat, b: nat,
                        steps: seq<Step>)
    requires Starts(m, maxThreads, maxPerVolume, warmVolumes, a, b) && Walk(m, origin, steps) && AllWhole(m, origin, steps)
    ensures var t := After(m, origin, steps);
            && Flat(t.out) == Bytes(origin, a, |Flat(t.out)|) && a + |Flat(t.out)| <= b
            && ((forall st :: Can(t, st) ==> st.Fail?) ==> t.over || Flat(t.out) == Bytes(origin, a, b - a))
  {
    StartsWell(m, origin, maxThreads, maxPerVolume, warmVolumes, a, b);
    WalksEnd(m, origin, steps);
    WalkComplete(m, origin, steps);
    WholeIsFed(m, origin, steps);
    StreamEnds(m, origin, maxThreads, maxPerVolume, warmVolumes, a, b, steps);
    CompleteOut(After(m, origin, steps), origin, a, b);
  }

  lemma {:induction false} AllPending(rs: seq<nat>)
    ensures Pending(rs, None) == |rs|
  {
    if rs != [] { AllPending(rs[1..]); }
  }
}
