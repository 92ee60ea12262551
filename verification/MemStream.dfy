/** The in-memory stream: fetchers push a chunk each into a channel of its own, a
    serializer drains the channels in plan order and refills the pool, in two
    passes and inside a window that slides with it. */
module MemStream {
  import opened Spans
  import opened Conservation
  import opened RunModel

  const LOOKAHEAD_CHUNKS: nat := 2

  datatype Item = Data(bytes: seq<Byte>) | Broken

  /** One chunk's fetcher; `pos` bytes of the chunk have been pushed. `Ending`
      has returned, `Released` has also told the pool, `Closed` has dropped its
      end of the channel. */
  datatype Fetcher = Waiting | Running(pos: nat) | Ending(pos: nat) | Released(pos: nat) | Closed(pos: nat)

  predicate Occupies(f: Fetcher) { f.Running? || f.Ending? }

  function Pushed(f: Fetcher): nat { if f.Waiting? then 0 else f.pos }

  /** `filledAt` remembers where the serializer stood at the last refill, and
      `warm` the chunks opened ahead of time; the code keeps neither. */
  datatype Mem = Mem(plan: seq<Span>, volOf: seq<nat>, maxThreads: nat, maxPerVolume: nat,
                     perVol: seq<nat>, inFlight: nat, spawned: seq<bool>, sender: seq<bool>,
                     fetchers: seq<Fetcher>, queues: seq<seq<Item>>, releases: seq<nat>,
                     head: nat, out: seq<Item>, over: bool, filledAt: nat, warm: set<nat>)
  {
    predicate Sized() {
      && |volOf| == |plan| && |spawned| == |plan| && |sender| == |plan| && |fetchers| == |plan| && |queues| == |plan|
      && (forall i :: 0 <= i < |volOf| ==> volOf[i] < |perVol|)
      && maxThreads > 0
    }

    // ---- the spawner ----

    function Limit(at: nat): nat { Min(|plan|, Max(at + maxThreads * LOOKAHEAD_CHUNKS, at + 1)) }

    /** Lowest chunk not spawned yet; the strict pass also wants room in its volume. */
    function FirstFree(strict: bool, i: nat, limit: nat): (r: Option<nat>)
      requires Sized() && i <= limit <= |plan|
      ensures r.Some? ==> i <= r.value < limit && !spawned[r.value]
      ensures r.None? && !strict ==> forall k :: i <= k < limit ==> spawned[k]
      decreases limit - i
    {
      if i == limit then None
      else if !spawned[i] && (strict ==> perVol[volOf[i]] < maxPerVolume) then Some(i)
      else FirstFree(strict, i + 1, limit)
    }

    function Pick(at: nat): (r: Option<nat>)
      requires Sized()
      ensures r.Some? ==> r.value < Limit(at) && !spawned[r.value]
      ensures r.None? ==> forall k :: 0 <= k < Limit(at) ==> spawned[k]
    {
      var strict := FirstFree(true, 0, Limit(at));
      if strict.Some? then strict else FirstFree(false, 0, Limit(at))
    }

    function Start(idx: nat): (m: Mem)
      requires Sized() && idx < |plan|
      ensures m.Sized() && |m.plan| == |plan|
    {
      if sender[idx] then
        this.(sender := sender[idx := false], spawned := spawned[idx := true], inFlight := inFlight + 1,
              perVol := perVol[volOf[idx] := perVol[volOf[idx]] + 1], fetchers := fetchers[idx := Running(0)])
      else this.(spawned := spawned[idx := true])
    }

    function SpawnMore(at: nat): Mem
      requires Sized()
      decreases Unspawned(spawned)
    {
      if inFlight >= maxThreads || Pick(at).None? then this
      else
        UnspawnedDrops(spawned, Pick(at).value);
        Start(Pick(at).value).SpawnMore(at)
    }

    // ---- warm-up: one chunk of each volume nothing was spawned in ----

    function FirstIn(v: nat, i: nat): (r: Option<nat>)
      requires Sized() && i <= |plan|
      ensures r.Some? ==> r.value < |plan| && volOf[r.value] == v
      decreases |plan| - i
    {
      if i == |plan| then None else if volOf[i] == v then Some(i) else FirstIn(v, i + 1)
    }

    function StartWarm(idx: nat): (m: Mem)
      requires Sized() && idx < |plan|
      ensures m.Sized() && |m.plan| == |plan|
    {
      Start(idx).(warm := warm + {idx})
    }

    /** The first chunk of volume `v`, when nothing of `v` has been spawned. */
    function WarmPick(v: nat, covered: seq<bool>): (r: Option<nat>)
      requires Sized() && v < |covered|
      ensures r.Some? ==> r.value < |plan| && !spawned[r.value]
    {
      var first := FirstIn(v, 0);
      if covered[v] || first.None? || spawned[first.value] || !sender[first.value] then None else first
    }

    function WarmUp(v: nat, budget: nat, covered: seq<bool>): Mem
      requires Sized() && v <= |covered|
      decreases |covered| - v
    {
      if v == |covered| || budget == 0 then this
      else match WarmPick(v, covered)
        case None => WarmUp(v + 1, budget, covered)
        case Some(idx) => StartWarm(idx).WarmUp(v + 1, budget - 1, covered)
    }

    function Covered(): seq<bool>
      requires Sized()
    {
      seq(|perVol|, v => exists i :: 0 <= i < |plan| && spawned[i] && volOf[i] == v)
    }

    // ---- releases ----

    function ReleaseOne(v: nat): Mem {
      this.(perVol := if v < |perVol| && perVol[v] > 0 then perVol[v := perVol[v] - 1] else perVol,
            inFlight := SatSub(inFlight, 1))
    }

    function DrainReleases(): Mem
      decreases |releases|
    {
      if releases == [] then this else this.(releases := releases[1..]).ReleaseOne(releases[0]).DrainReleases()
    }

    function Refill(at: nat): Mem
      requires Sized()
    {
      SpawnMore(at).(filledAt := at)
    }
  }

  /** The chunk's volume has room for another fetcher. */
  predicate Roomy(m: Mem, k: nat)
    requires m.Sized() && k < |m.plan|
  {
    m.perVol[m.volOf[k]] < m.maxPerVolume
  }

  /** The chunk to start next below `limit`: the lowest of those not spawned whose
      volume has room, if there is one, and else the lowest of all not spawned. */
  ghost predicate Best(m: Mem, limit: nat, pick: Option<nat>)
    requires m.Sized() && limit <= |m.plan|
  {
    match pick
    case None => forall k: nat :: k < limit ==> m.spawned[k]
    case Some(p) =>
      && p < limit && !m.spawned[p]
      && if Roomy(m, p) then forall k: nat :: k < p ==> m.spawned[k] || !Roomy(m, k)
         else (forall k: nat :: k < p ==> m.spawned[k]) && forall k: nat :: k < limit ==> m.spawned[k] || !Roomy(m, k)
  }

  function Unspawned(spawned: seq<bool>): nat {
    if spawned == [] then 0 else B(!spawned[0]) + Unspawned(spawned[1..])
  }

  lemma {:induction false} UnspawnedDrops(spawned: seq<bool>, i: nat)
    requires i < |spawned| && !spawned[i]
    ensures Unspawned(spawned[i := true]) + 1 == Unspawned(spawned)
  {
    if i == 0 {
      assert spawned[i := true][1..] == spawned[1..];
    } else {
      assert spawned[i := true][1..] == spawned[1..][i - 1 := true];
      UnspawnedDrops(spawned[1..], i - 1);
    }
  }

  function Fresh(plan: seq<Span>, volOf: seq<nat>, volCount: nat, maxThreads: nat, maxPerVolume: nat): Mem {
    Mem(plan, volOf, Max(maxThreads, 1), Max(maxPerVolume, 1), seq(volCount, i => 0), 0,
        seq(|plan|, i => false), seq(|plan|, i => true), seq(|plan|, i => Waiting), seq(|plan|, i => []), [],
        0, [], false, 0, {})
  }

  /** The pool as the serializer loop finds it. */
  function Opened(plan: seq<Span>, volOf: seq<nat>, volCount: nat, maxThreads: nat, maxPerVolume: nat, warmVolumes: nat): Mem
    requires |volOf| == |plan| && forall i :: 0 <= i < |volOf| ==> volOf[i] < volCount
  {
    var filled := Fresh(plan, volOf, volCount, maxThreads, maxPerVolume).Refill(0);
    SpawnKeeps(Fresh(plan, volOf, volCount, maxThreads, maxPerVolume), 0);
    if volCount > 1 && warmVolumes > 0 then filled.WarmUp(0, warmVolumes, filled.Covered()) else filled
  }

  lemma {:induction false} SpawnKeeps(m: Mem, at: nat)
    requires m.Sized()
    ensures m.SpawnMore(at).Sized() && |m.SpawnMore(at).perVol| == |m.perVol|
    decreases Unspawned(m.spawned)
  {
    if m.inFlight < m.maxThreads && m.Pick(at).Some? {
      UnspawnedDrops(m.spawned, m.Pick(at).value);
      SpawnKeeps(m.Start(m.Pick(at).value), at);
    }
  }
}
