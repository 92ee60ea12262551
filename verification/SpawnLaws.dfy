/** Which chunk the in-memory stream fetches next: a refill starts chunks in plan
    order inside the window, passes over volumes at their cap as long as another
    volume has something to start, and the warm-up opens one chunk of each volume
    that has none, as far as it may. */
module SpawnLaws {
  import opened Spans
  import opened Conservation
  import opened RunModel
  import opened MemStream
  import opened MemSafety
  import opened MemRuns

  /** Two chunks ahead for each thread, and at least the next one. */
  function WindowEnd(m: Mem, at: nat): nat { Min(|m.plan|, at + Max(2 * m.maxThreads, 1)) }

  lemma LimitIs(m: Mem, at: nat)
    ensures m.Limit(at) == WindowEnd(m, at)
  {
  }

  /** The two passes pick the best chunk. */
  lemma PickLaw(m: Mem, at: nat)
    requires m.Sized()
    ensures Best(m, WindowEnd(m, at), m.Pick(at))
  {
    LimitIs(m, at);
    PassLaw(m, true, 0, m.Limit(at));
    PassLaw(m, false, 0, m.Limit(at));
  }

  /** There is only one best chunk. */
  lemma PickIs(m: Mem, at: nat, limit: nat, pick: Option<nat>)
    requires m.Sized() && limit == m.Limit(at) && Best(m, limit, pick)
    ensures pick == m.Pick(at)
  {
    PickLaw(m, at);
    LimitIs(m, at);
    if pick.Some? { assert !m.spawned[pick.value]; }
  }

  lemma {:induction false} PassLaw(m: Mem, strict: bool, i: nat, limit: nat)
    requires m.Sized() && i <= limit <= |m.plan|
    ensures match m.FirstFree(strict, i, limit)
            case None => forall k: nat :: i <= k < limit ==> m.spawned[k] || (strict && !Roomy(m, k))
            case Some(p) =>
              && i <= p < limit && !m.spawned[p] && (strict ==> Roomy(m, p))
              && forall k: nat :: i <= k < p ==> m.spawned[k] || (strict && !Roomy(m, k))
    decreases limit - i
  {
    if i < limit { PassLaw(m, strict, i + 1, limit); }
  }

  /** A volume at its cap gets another fetcher only if no unspawned chunk of the
      window lies in a volume with room. */
  lemma CapYields(m: Mem, limit: nat, p: nat)
    requires m.Sized() && limit <= |m.plan| && Best(m, limit, Some(p)) && m.perVol[m.volOf[p]] >= m.maxPerVolume
    ensures forall k: nat :: k < limit && !m.spawned[k] ==> m.perVol[m.volOf[k]] >= m.maxPerVolume
  {
    forall k: nat | k < limit && !m.spawned[k] ensures !Roomy(m, k) {}
  }

  // ---- a refill ----

  /** The chunks in `order` start one after the other, the best one each time, until
      the pool is full or the window is exhausted; that makes `t` of `m`. */
  ghost predicate Orderly(m: Mem, at: nat, order: seq<nat>, t: Mem)
    requires m.Sized()
    decreases |order|
  {
    if order == [] then t == m && (m.inFlight >= m.maxThreads || Best(m, WindowEnd(m, at), None))
    else
      && m.inFlight < m.maxThreads && Best(m, WindowEnd(m, at), Some(order[0]))
      && Orderly(m.Start(order[0]), at, order[1..], t)
  }

  lemma {:induction false} RefillOrderly(m: Mem, at: nat) returns (order: seq<nat>)
    requires m.Sized()
    ensures Orderly(m, at, order, m.SpawnMore(at))
    decreases Unspawned(m.spawned)
  {
    PickLaw(m, at);
    if m.inFlight >= m.maxThreads || m.Pick(at).None? {
      order := [];
    } else {
      var p := m.Pick(at).value;
      UnspawnedDrops(m.spawned, p);
      var rest := RefillOrderly(m.Start(p), at);
      order := [p] + rest;
      assert order[1..] == rest;
    }
  }

  /** `b` is `m` but for releases taken off the books and an item passed on. */
  ghost predicate Rebooked(m: Mem, b: Mem) {
    b == m.(queues := b.queues, out := b.out, releases := b.releases, perVol := b.perVol, inFlight := b.inFlight)
  }

  /** What starts between `m` and `t` starts in an orderly refill, the counters
      being the truth as it begins. */
  ghost predicate Refilled(m: Mem, b: Mem, order: seq<nat>, t: Mem) {
    Counted(b) && Rebooked(m, b) && Orderly(b, m.head, order, t.(filledAt := m.filledAt))
  }

  ghost predicate NothingStarts(m: Mem, t: Mem) {
    |t.fetchers| == |m.fetchers| && forall i :: 0 <= i < |m.fetchers| && m.fetchers[i].Waiting? ==> t.fetchers[i].Waiting?
  }

  ghost predicate StartsFairly(m: Mem, t: Mem) {
    NothingStarts(m, t) || exists b: Mem, order: seq<nat> :: Refilled(m, b, order, t)
  }

  lemma RefillFair(m: Mem, b: Mem)
    requires Counted(b) && Rebooked(m, b)
    ensures StartsFairly(m, b.Refill(m.head))
  {
    SpawnGrows(b, m.head);
    var order := RefillOrderly(b, m.head);
    assert b.Refill(m.head).(filledAt := m.filledAt) == b.SpawnMore(m.head);
    assert Refilled(m, b, order, b.Refill(m.head));
  }

  lemma ServeFair(m: Mem, origin: nat -> Byte, taken: bool)
    requires MemInv(m, origin) && Can(m, Serve(taken))
    ensures StartsFairly(m, ServeStep(m, taken))
  {
    var q := m.queues[m.head];
    if taken && q[0].Data? {
      var popped := m.(queues := m.queues[m.head := q[1..]], out := m.out + [q[0]]);
      PopInv(m, origin);
      DrainCounted(popped);
      DrainSized(popped);
      RefillFair(m, popped.DrainReleases());
    } else {
      assert NothingStarts(m, ServeStep(m, taken));
    }
  }

  lemma StepFair(m: Mem, origin: nat -> Byte, st: Step)
    requires MemInv(m, origin) && Can(m, st)
    ensures StartsFairly(m, Take(m, origin, st))
  {
    match st {
      case Serve(taken) => ServeFair(m, origin, taken);
      case TakeRelease =>
        ReleaseCounted(m);
        RefillFair(m, m.(releases := m.releases[1..]).ReleaseOne(m.releases[0]));
      case _ => assert NothingStarts(m, Take(m, origin, st));
    }
  }

  ghost predicate AllFair(m: Mem, origin: nat -> Byte, steps: seq<Step>)
    requires Walk(m, origin, steps)
    decreases |steps|
  {
    steps == [] || (StartsFairly(m, Take(m, origin, steps[0])) && AllFair(Take(m, origin, steps[0]), origin, steps[1..]))
  }

  lemma {:induction false} WalkFair(m: Mem, origin: nat -> Byte, steps: seq<Step>)
    requires MemInv(m, origin) && Walk(m, origin, steps)
    ensures AllFair(m, origin, steps)
    decreases |steps|
  {
    if steps != [] {
      StepInv(m, origin, steps[0]);
      StepFair(m, origin, steps[0]);
      WalkFair(Take(m, origin, steps[0]), origin, steps[1..]);
    }
  }

  lemma OpenedCaps(m: Mem, maxThreads: nat, maxPerVolume: nat, warmVolumes: nat)
    requires |m.volOf| == |m.plan| && forall i :: 0 <= i < |m.volOf| ==> m.volOf[i] < |m.perVol|
    requires m == Opened(m.plan, m.volOf, |m.perVol|, maxThreads, maxPerVolume, warmVolumes)
    ensures m.maxPerVolume == Max(maxPerVolume, 1)
  {
    var f := Fresh(m.plan, m.volOf, |m.perVol|, maxThreads, maxPerVolume);
    FreshInv((x: nat) => 0, m.plan, m.volOf, |m.perVol|, maxThreads, maxPerVolume);
    SpawnGrows(f, 0);
    var filled := f.Refill(0);
    WarmUpKeeps((x: Mem) => x.maxPerVolume == Max(maxPerVolume, 1), filled, 0, warmVolumes, filled.Covered());
  }

  /** In every run every fetcher after the opening starts in an orderly refill: in a
      volume at its cap only if no other unspawned chunk of the window lies in a
      volume with room. */
  lemma StreamFair(m: Mem, origin: nat -> Byte, maxThreads: nat, maxPerVolume: nat, warmVolumes: nat, a: nat, b: nat,
                   steps: seq<Step>)
    requires Starts(m, maxThreads, maxPerVolume, warmVolumes, a, b) && Walk(m, origin, steps)
    ensures AllFair(m, origin, steps) && m.maxPerVolume == Max(maxPerVolume, 1)
  {
    OpenedCaps(m, maxThreads, maxPerVolume, warmVolumes);
    StartsWell(m, origin, maxThreads, maxPerVolume, warmVolumes, a, b);
    WalkFair(m, origin, steps);
  }

  // ---- the opening ----

  /** Chunk `i` is the first one of its volume. */
  ghost predicate Heads(m: Mem, i: nat)
    requires m.Sized() && i < |m.plan|
  {
    forall k: nat :: k < i ==> m.volOf[k] != m.volOf[i]
  }

  /** Volume `v` has chunks, but none of them was spawned. */
  ghost predicate Cold(m: Mem, covered: seq<bool>, v: nat)
    requires m.Sized() && v < |covered|
  {
    !covered[v] && exists i: nat :: i < |m.plan| && m.volOf[i] == v
  }

  /** Cold volumes from `v` on and below `u`. */
  ghost function ColdFrom(m: Mem, covered: seq<bool>, v: nat, u: nat): nat
    requires m.Sized() && u <= |covered|
    decreases u - v
  {
    if v >= u then 0 else B(Cold(m, covered, v)) + ColdFrom(m, covered, v + 1, u)
  }

  /** Nothing of an uncovered volume from `v` on has been spawned. */
  ghost predicate Untouched(m: Mem, covered: seq<bool>, v: nat) {
    && Counted(m) && |covered| == |m.perVol|
    && forall i :: 0 <= i < |m.plan| && v <= m.volOf[i] && !covered[m.volOf[i]] ==> !m.spawned[i]
  }

  lemma {:induction false} FirstInLaw(m: Mem, v: nat, i: nat)
    requires m.Sized() && i <= |m.plan|
    ensures match m.FirstIn(v, i)
            case None => forall k: nat :: i <= k < |m.plan| ==> m.volOf[k] != v
            case Some(p) => i <= p && forall k: nat :: i <= k < p ==> m.volOf[k] != v
    decreases |m.plan| - i
  {
    if i < |m.plan| { FirstInLaw(m, v, i + 1); }
  }

  /** The warm-up opens the first chunk of the volume exactly when it is cold. */
  lemma WarmPickIs(m: Mem, v: nat, covered: seq<bool>)
    requires Untouched(m, covered, v) && v < |covered|
    ensures m.WarmPick(v, covered).Some? <==> Cold(m, covered, v)
    ensures m.WarmPick(v, covered).Some? ==> var p := m.WarmPick(v, covered).value; m.volOf[p] == v && Heads(m, p)
  {
    FirstInLaw(m, v, 0);
  }

  /** What the warm-up of the volumes from `v` on starts. */
  ghost predicate Warms(m: Mem, v: nat, budget: nat, covered: seq<bool>, i: nat)
    requires m.Sized() && |covered| == |m.perVol| && i < |m.plan|
  {
    v <= m.volOf[i] && Heads(m, i) && Cold(m, covered, m.volOf[i]) && ColdFrom(m, covered, v, m.volOf[i]) < budget
  }

  ghost function WarmedAs(m: Mem, v: nat, budget: nat, covered: seq<bool>, i: nat): Fetcher
    requires m.Sized() && |covered| == |m.perVol| && i < |m.plan|
  {
    if Warms(m, v, budget, covered, i) then Running(0) else m.fetchers[i]
  }

  lemma SameCold(m: Mem, n: Mem, covered: seq<bool>, v: nat, u: nat)
    requires m.Sized() && n.Sized() && n.volOf == m.volOf && n.plan == m.plan && u <= |covered|
    ensures ColdFrom(n, covered, v, u) == ColdFrom(m, covered, v, u)
    decreases u - v
  {
    if v < u { SameCold(m, n, covered, v + 1, u); }
  }

  lemma WarmedSkip(m: Mem, v: nat, budget: nat, covered: seq<bool>, i: nat)
    requires m.Sized() && v < |covered| == |m.perVol| && !Cold(m, covered, v) && i < |m.plan|
    ensures WarmedAs(m, v, budget, covered, i) == WarmedAs(m, v + 1, budget, covered, i)
  {
    assert m.volOf[i] == v ==> !covered[v] ==> Cold(m, covered, v);
  }

  lemma WarmedOne(m: Mem, v: nat, p: nat, budget: nat, covered: seq<bool>, n: Mem, i: nat)
    requires m.Sized() && n.Sized() && n.volOf == m.volOf && n.plan == m.plan && budget > 0 && |n.perVol| == |m.perVol|
    requires v < |covered| == |m.perVol| && Cold(m, covered, v) && p < |m.plan| && m.volOf[p] == v && Heads(m, p)
    requires n.fetchers == m.fetchers[p := Running(0)] && i < |m.plan|
    ensures WarmedAs(m, v, budget, covered, i) == WarmedAs(n, v + 1, budget - 1, covered, i)
  {
    SameCold(m, n, covered, v + 1, m.volOf[i]);
    assert Heads(n, i) <==> Heads(m, i);
    assert Cold(n, covered, m.volOf[i]) <==> Cold(m, covered, m.volOf[i]);
    assert i < p ==> m.volOf[i] != m.volOf[p];
    if m.volOf[i] == v && p < i { assert !Heads(m, i); }
  }

  lemma WarmStarted(m: Mem, v: nat, p: nat, covered: seq<bool>)
    requires Untouched(m, covered, v) && p < |m.plan| && m.volOf[p] == v && !m.spawned[p]
    ensures var n := m.StartWarm(p);
            && Untouched(n, covered, v + 1) && n.plan == m.plan && n.volOf == m.volOf
            && n.fetchers == m.fetchers[p := Running(0)]
  {
    StartCounted(m, p);
  }

  /** One volume of the warm-up: the pool after it, and what is left of the budget. */
  function WarmNext(m: Mem, v: nat, budget: nat, covered: seq<bool>): (Mem, nat)
    requires m.Sized() && v < |covered| && budget > 0
  {
    match m.WarmPick(v, covered) case None => (m, budget) case Some(p) => (m.StartWarm(p), budget - 1)
  }

  lemma WarmNextLaw(m: Mem, v: nat, budget: nat, covered: seq<bool>, i: nat)
    requires Untouched(m, covered, v) && v < |covered| && budget > 0 && i < |m.plan|
    ensures var (n, left) := WarmNext(m, v, budget, covered);
            && Untouched(n, covered, v + 1) && |n.plan| == |m.plan|
            && WarmedAs(m, v, budget, covered, i) == WarmedAs(n, v + 1, left, covered, i)
  {
    WarmPickIs(m, v, covered);
    var pick := m.WarmPick(v, covered);
    if pick.None? {
      WarmedSkip(m, v, budget, covered, i);
    } else {
      WarmStarted(m, v, pick.value, covered);
      WarmedOne(m, v, pick.value, budget, covered, m.StartWarm(pick.value), i);
    }
  }

  ghost predicate NextKeeps(inv: (Mem, nat, nat) -> bool, covered: seq<bool>, m: Mem, v: nat, budget: nat) {
    m.Sized() && v < |covered| && budget > 0 && inv(m, v, budget) ==>
      var (n, left) := WarmNext(m, v, budget, covered); n.Sized() && inv(n, v + 1, left)
  }

  /** What each volume's warm-up keeps holds at the end, when no volume or no budget
      is left. */
  lemma {:induction false} WarmUpRuns(inv: (Mem, nat, nat) -> bool, m: Mem, v: nat, budget: nat, covered: seq<bool>)
    returns (u: nat, left: nat)
    requires m.Sized() && v <= |covered| && inv(m, v, budget)
    requires forall x: Mem, w: nat, b: nat :: NextKeeps(inv, covered, x, w, b)
    ensures inv(m.WarmUp(v, budget, covered), u, left) && (u == |covered| || left == 0)
    decreases |covered| - v
  {
    if v == |covered| || budget == 0 {
      u, left := v, budget;
    } else {
      assert NextKeeps(inv, covered, m, v, budget);
      var (n, b) := WarmNext(m, v, budget, covered);
      assert m.WarmUp(v, budget, covered) == n.WarmUp(v + 1, b, covered);
      u, left := WarmUpRuns(inv, n, v + 1, b, covered);
    }
  }

  ghost predicate Warming(covered: seq<bool>, i: nat, f: Fetcher, m: Mem, v: nat, budget: nat) {
    Untouched(m, covered, v) && i < |m.plan| && WarmedAs(m, v, budget, covered, i) == f
  }

  lemma WarmUpFrom(m: Mem, budget: nat, covered: seq<bool>, i: nat)
    requires Untouched(m, covered, 0) && i < |m.plan|
    ensures var t := m.WarmUp(0, budget, covered); i < |t.fetchers| && t.fetchers[i] == WarmedAs(m, 0, budget, covered, i)
  {
    var f := WarmedAs(m, 0, budget, covered, i);
    var inv := (x: Mem, v: nat, b: nat) => Warming(covered, i, f, x, v, b);
    forall x: Mem, v: nat, b: nat ensures NextKeeps(inv, covered, x, v, b) {
      if x.Sized() && v < |covered| && b > 0 && inv(x, v, b) { WarmNextLaw(x, v, b, covered, i); }
    }
    var u, left := WarmUpRuns(inv, m, 0, budget, covered);
    assert Warming(covered, i, f, m.WarmUp(0, budget, covered), u, left);
  }

  /** The warm-up opens the first chunks of the first `budget` cold volumes, and
      nothing else. */
  ghost predicate WarmedUp(m: Mem, budget: nat, t: Mem) {
    && m.Sized() && |t.fetchers| == |m.plan|
    && forall i: nat :: i < |m.plan| ==> t.fetchers[i] == WarmedAs(m, 0, budget, m.Covered(), i)
  }

  lemma WarmUpExact(m: Mem, budget: nat)
    requires Counted(m)
    ensures WarmedUp(m, budget, m.WarmUp(0, budget, m.Covered()))
  {
    var t, covered := m.WarmUp(0, budget, m.Covered()), m.Covered();
    forall i | 0 <= i < |m.plan| && !covered[m.volOf[i]] ensures !m.spawned[i] {}
    WarmUpKeeps((x: Mem) => |x.fetchers| == |m.plan|, m, 0, budget, covered);
    forall i: nat | i < |m.plan| ensures t.fetchers[i] == WarmedAs(m, 0, budget, covered, i) { WarmUpFrom(m, budget, covered, i); }
  }

  /** The stream opens with an orderly refill at chunk 0; then the warm-up starts
      exactly the first chunks of the first `warmVolumes` volumes that have chunks
      but none spawned. */
  lemma OpeningFair(plan: seq<Span>, volOf: seq<nat>, volCount: nat, maxThreads: nat, maxPerVolume: nat, warmVolumes: nat)
    returns (filled: Mem, order: seq<nat>)
    requires |volOf| == |plan| && volCount > 1 && forall i :: 0 <= i < |volOf| ==> volOf[i] < volCount
    ensures var start := Fresh(plan, volOf, volCount, maxThreads, maxPerVolume); start.Sized() && Orderly(start, 0, order, filled)
    ensures filled.maxPerVolume == Max(maxPerVolume, 1) && filled.maxThreads == Max(maxThreads, 1)
    ensures WarmedUp(filled, warmVolumes, Opened(plan, volOf, volCount, maxThreads, maxPerVolume, warmVolumes))
  {
    var start := Fresh(plan, volOf, volCount, maxThreads, maxPerVolume);
    FreshInv((x: nat) => 0, plan, volOf, volCount, maxThreads, maxPerVolume);
    order := RefillOrderly(start, 0);
    filled := start.SpawnMore(0);
    SpawnGrows(start, 0);
    WarmUpExact(filled, warmVolumes);
    OpenedIs(plan, volOf, volCount, maxThreads, maxPerVolume, warmVolumes, filled);
  }

  lemma OpenedIs(plan: seq<Span>, volOf: seq<nat>, volCount: nat, maxThreads: nat, maxPerVolume: nat, warmVolumes: nat, filled: Mem)
    requires |volOf| == |plan| && volCount > 1 && forall i :: 0 <= i < |volOf| ==> volOf[i] < volCount
    requires filled.Sized() && filled.filledAt == 0 && filled == Fresh(plan, volOf, volCount, maxThreads, maxPerVolume).SpawnMore(0)
    ensures Opened(plan, volOf, volCount, maxThreads, maxPerVolume, warmVolumes) == filled.WarmUp(0, warmVolumes, filled.Covered())
  {
    var z := filled.WarmUp(0, 0, filled.Covered());
    assert z == filled && filled.(filledAt := 0) == filled;
  }
}
