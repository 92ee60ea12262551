/** The pool's bookkeeping as the serializer task keeps it, updated in place. */
module Spawner {
  import opened Spans
  import opened MemStream
  import opened SpawnLaws

  class Pool {
    const plan: seq<Span>
    const volOf: seq<nat>
    const maxThreads: nat
    const maxPerVolume: nat
    var perVol: seq<nat>
    var inFlight: nat
    var spawned: seq<bool>
    var sender: seq<bool>
    var fetchers: seq<Fetcher>
    var releases: seq<nat>
    ghost var queues: seq<seq<Item>>
    ghost var head: nat
    ghost var out: seq<Item>
    ghost var over: bool
    ghost var filledAt: nat
    ghost var warm: set<nat>

    ghost function View(): Mem
      reads this
    {
      Mem(plan, volOf, maxThreads, maxPerVolume, perVol, inFlight, spawned, sender, fetchers, queues, releases,
          head, out, over, filledAt, warm)
    }

    constructor (plan: seq<Span>, volOf: seq<nat>, volCount: nat, maxThreads: nat, maxPerVolume: nat)
      ensures View() == Fresh(plan, volOf, volCount, maxThreads, maxPerVolume)
    {
      this.plan, this.volOf := plan, volOf;
      this.maxThreads, this.maxPerVolume := Max(maxThreads, 1), Max(maxPerVolume, 1);
      perVol, inFlight := seq(volCount, i => 0), 0;
      spawned, sender := seq(|plan|, i => false), seq(|plan|, i => true);
      fetchers, releases := seq(|plan|, i => Waiting), [];
      queues, head, out, over, filledAt, warm := seq(|plan|, i => []), 0, [], false, 0, {};
    }

    /** The two passes over the window. */
    method PickNext(limit: nat) returns (pick: Option<nat>)
      requires View().Sized() && limit <= |plan|
      ensures Best(View(), limit, pick)
    {
      pick := None;
      var idx := 0;
      while idx < limit
        invariant idx <= limit && forall k: nat :: k < idx ==> spawned[k] || !Roomy(View(), k)
      {
        if !spawned[idx] && perVol[volOf[idx]] < maxPerVolume { return Some(idx); }
        idx := idx + 1;
      }
      idx := 0;
      while idx < limit
        invariant idx <= limit && forall k: nat :: k < idx ==> spawned[k]
      {
        if !spawned[idx] { return Some(idx); }
        idx := idx + 1;
      }
    }

    /** Take the chunk's sender and start its fetcher; a chunk whose sender is gone
        is only marked. */
    method StartChunk(idx: nat)
      requires View().Sized() && idx < |plan|
      modifies this
      ensures View() == old(View()).Start(idx)
    {
      spawned := spawned[idx := true];
      if sender[idx] {
        sender := sender[idx := false];
        var v := volOf[idx];
        perVol, inFlight := perVol[v := perVol[v] + 1], inFlight + 1;
        fetchers := fetchers[idx := Running(0)];
      }
    }

    /** Start fetchers until the pool is full or the window is exhausted. */
    method TrySpawnMore(at: nat)
      requires View().Sized()
      modifies this
      ensures View() == old(View()).Refill(at)
    {
      var limit := Min(|plan|, Max(at + maxThreads * LOOKAHEAD_CHUNKS, at + 1));
      ghost var goal := View().SpawnMore(at);
      while inFlight < maxThreads
        invariant View().Sized() && View().SpawnMore(at) == goal
        decreases Unspawned(spawned)
      {
        var pick := PickNext(limit);
        PickIs(View(), at, limit, pick);
        if pick.None? { break; }
        UnspawnedDrops(spawned, pick.value);
        StartChunk(pick.value);
      }
      assert View() == goal;
      filledAt := at;
    }

    /** Which volumes something has been spawned in. */
    method FindCovered() returns (covered: seq<bool>)
      requires View().Sized()
      ensures covered == View().Covered()
    {
      covered := seq(|perVol|, v => false);
      var i := 0;
      while i < |plan|
        invariant i <= |plan| && |covered| == |perVol|
        invariant forall v: nat :: v < |perVol| ==> (covered[v] <==> exists k: nat :: k < i && spawned[k] && volOf[k] == v)
      {
        if spawned[i] { covered := covered[volOf[i] := true]; }
        i := i + 1;
      }
    }

    method FirstChunkIn(v: nat) returns (first: Option<nat>)
      requires View().Sized()
      ensures first == View().FirstIn(v, 0)
    {
      first := None;
      var i := 0;
      while i < |plan|
        invariant i <= |plan| && View().FirstIn(v, 0) == View().FirstIn(v, i)
      {
        if volOf[i] == v { return Some(i); }
        i := i + 1;
      }
    }

    /** Open the first chunk of volume `v`, unless something of it was spawned. */
    method WarmOne(v: nat, covered: seq<bool>) returns (opens: bool)
      requires View().Sized() && v < |covered|
      modifies this
      ensures opens == old(View()).WarmPick(v, covered).Some?
      ensures View() == if opens then old(View().StartWarm(View().WarmPick(v, covered).value)) else old(View())
    {
      var first := FirstChunkIn(v);
      opens := !covered[v] && first.Some? && !spawned[first.value] && sender[first.value];
      if opens {
        StartChunk(first.value);
        warm := warm + {first.value};
      }
    }

    /** Open one chunk of each volume that nothing was spawned in, within the budget. */
    method WarmUpVolumes(warmVolumes: nat)
      requires View().Sized()
      modifies this
      ensures View() == if old(|perVol|) <= 1 || warmVolumes == 0 then old(View())
                        else old(View().WarmUp(0, warmVolumes, View().Covered()))
    {
      if |perVol| <= 1 || warmVolumes == 0 { return; }
      var covered := FindCovered();
      ghost var goal := View().WarmUp(0, warmVolumes, covered);
      var budget, v := warmVolumes, 0;
      while v < |covered| && budget > 0
        invariant View().Sized() && v <= |covered| && View().WarmUp(v, budget, covered) == goal
        decreases |covered| - v
      {
        var opens := WarmOne(v, covered);
        v, budget := v + 1, if opens then budget - 1 else budget;
      }
    }

    /** A release takes its slot off the books. */
    method TakeOneRelease()
      requires releases != []
      modifies this
      ensures View() == old(View()).(releases := old(releases)[1..]).ReleaseOne(old(releases)[0])
    {
      var v := releases[0];
      releases := releases[1..];
      if v < |perVol| && perVol[v] > 0 { perVol := perVol[v := perVol[v] - 1]; }
      if inFlight > 0 { inFlight := inFlight - 1; }
    }

    /** Every release that has come in, without waiting for more. */
    method DrainAll()
      modifies this
      ensures View() == old(View()).DrainReleases()
    {
      ghost var goal := View().DrainReleases();
      while |releases| > 0
        invariant View().DrainReleases() == goal
        decreases |releases|
      {
        TakeOneRelease();
      }
    }
  }
}
