/** Why a fetch must deliver something: when one reports success with an empty
    body, the in-memory stream can wait for ever for a chunk nobody fetches. */
module MemStall {
  import opened Spans
  import opened RunModel
  import opened Plan
  import opened MemStream
  import opened MemSafety
  import opened MemRuns

  ghost predicate Leads(m: Mem, origin: nat -> Byte, z: Mem) {
    exists steps: seq<Step> :: Walk(m, origin, steps) && After(m, origin, steps) == z
  }

  lemma Stays(m: Mem, origin: nat -> Byte)
    ensures Leads(m, origin, m)
  {
    var steps: seq<Step> := [];
    assert Walk(m, origin, steps) && After(m, origin, steps) == m;
  }

  lemma Goes(m: Mem, origin: nat -> Byte, st: Step, next: Mem, z: Mem)
    requires Can(m, st) && Take(m, origin, st) == next && Leads(next, origin, z)
    ensures Leads(m, origin, z)
  {
    var rest: seq<Step> :| Walk(next, origin, rest) && After(next, origin, rest) == z;
    var steps := [st] + rest;
    assert steps[1..] == rest && steps[0] == st;
    assert Walk(m, origin, steps) && After(m, origin, steps) == z;
  }

  /** Three chunks of 2, 1 and 1 bytes, one thread, one volume; `n` chunks spawned. */
  function Three(n: nat, inFlight: nat, f0: Fetcher, f1: Fetcher, q0: seq<Item>, releases: seq<nat>, head: nat, out: seq<Item>): Mem {
    Mem([Span(0, 1), Span(2, 2), Span(3, 3)], [0, 0, 0], 1, 1, [inFlight], inFlight,
        [n > 0, n > 1, false], [n <= 0, n <= 1, true], [f0, f1, Waiting], [q0, [], []], releases,
        head, out, false, 0, {})
  }

  function Blank(): Mem { Three(0, 0, Waiting, Waiting, [], [], 0, []) }

  function Start0(): Mem { Three(1, 1, Running(0), Waiting, [], [], 0, []) }

  lemma Begins()
    ensures Opened([Span(0, 1), Span(2, 2), Span(3, 3)], [0, 0, 0], 1, 1, 1, 0) == Start0()
  {
    var m := Blank();
    assert Fresh(m.plan, m.volOf, 1, 1, 1) == m;
    assert m.FirstFree(true, 0, m.Limit(0)) == Some(0) && m.Pick(0) == Some(0);
    assert m.Start(0) == Start0();
    assert m.SpawnMore(0) == m.Start(0).SpawnMore(0) == Start0();
  }

  lemma RefillSecond(q0: seq<Item>, out: seq<Item>)
    ensures Three(1, 0, Released(2), Waiting, q0, [], 0, out).Refill(0) == Three(2, 1, Released(2), Running(0), q0, [], 0, out)
  {
    var m := Three(1, 0, Released(2), Waiting, q0, [], 0, out);
    assert m.FirstFree(true, 1, 2) == Some(1) && m.FirstFree(true, 0, 2) == Some(1) && m.Pick(0) == Some(1);
    assert m.Start(1) == Three(2, 1, Released(2), Running(0), q0, [], 0, out);
    assert m.SpawnMore(0) == m.Start(1).SpawnMore(0) == m.Start(1);
  }

  /** The window still ends before the third chunk. */
  lemma RefillNothing(out: seq<Item>)
    ensures Three(2, 0, Released(2), Released(0), [], [], 0, out).Refill(0) == Three(2, 0, Released(2), Released(0), [], [], 0, out)
  {
    var m := Three(2, 0, Released(2), Released(0), [], [], 0, out);
    assert m.FirstFree(true, 2, 2) == None && m.FirstFree(false, 2, 2) == None;
    assert m.FirstFree(true, 1, 2) == None && m.FirstFree(false, 1, 2) == None;
    assert m.Pick(0) == None;
  }

  ghost function ItemAt(origin: nat -> Byte, pos: nat): Item { NextItem(origin, 0, pos, 1) }

  ghost function Wedged(origin: nat -> Byte): Mem {
    Three(2, 0, Closed(2), Closed(0), [], [], 2, [ItemAt(origin, 0), ItemAt(origin, 1)])
  }

  /** Serving an item when exactly one release is due. */
  lemma ServeIs(m: Mem, item: Item, popped: Mem, drained: Mem)
    requires m.Sized() && m.head < |m.plan| && m.queues[m.head] != [] && m.queues[m.head][0] == item && item.Data?
    requires popped == m.(queues := popped.queues, out := m.out + [item]) && |popped.releases| == 1
    requires popped.queues == m.queues[m.head := m.queues[m.head][1..]]
    requires drained == popped.(releases := popped.releases[1..]).ReleaseOne(popped.releases[0])
    requires drained.Sized()
    ensures ServeStep(m, true) == drained.Refill(m.head)
  {
    var rest := popped.releases[1..];
    assert rest == [];
    assert popped.DrainReleases() == drained.DrainReleases() == drained;
  }

  /** From the second refill on: both channels close and the serializer moves past
      them, to a chunk that is neither fetched nor in reach of a refill. */
  lemma Closing(origin: nat -> Byte)
    ensures Leads(Three(2, 0, Released(2), Released(0), [], [], 0, [ItemAt(origin, 0), ItemAt(origin, 1)]), origin, Wedged(origin))
  {
    var out, z := [ItemAt(origin, 0), ItemAt(origin, 1)], Wedged(origin);
    Stays(z, origin);
    Goes(Three(2, 0, Closed(2), Closed(0), [], [], 1, out), origin, Advance, z, z);
    Goes(Three(2, 0, Closed(2), Closed(0), [], [], 0, out), origin, Advance, Three(2, 0, Closed(2), Closed(0), [], [], 1, out), z);
    Goes(Three(2, 0, Released(2), Closed(0), [], [], 0, out), origin, Close(0), Three(2, 0, Closed(2), Closed(0), [], [], 0, out), z);
    Goes(Three(2, 0, Released(2), Released(0), [], [], 0, out), origin, Close(1), Three(2, 0, Released(2), Closed(0), [], [], 0, out), z);
  }

  lemma ThreeChain()
    ensures Chain([Span(0, 1), Span(2, 2), Span(3, 3)], 0, 4)
  {
    assert [Span(0, 1), Span(2, 2), Span(3, 3)][1..] == [Span(2, 2), Span(3, 3)];
    assert [Span(2, 2), Span(3, 3)][1..] == [Span(3, 3)] && [Span(3, 3)][1..] == [];
  }

  /** The first chunk's last item goes out, and the second's slot comes back. */
  lemma SecondServed(origin: nat -> Byte)
    ensures Leads(Three(2, 1, Released(2), Released(0), [ItemAt(origin, 1)], [0], 0, [ItemAt(origin, 0)]), origin, Wedged(origin))
  {
    var i0, i1 := ItemAt(origin, 0), ItemAt(origin, 1);
    var due := Three(2, 1, Released(2), Released(0), [i1], [0], 0, [i0]);
    var next := Three(2, 0, Released(2), Released(0), [], [], 0, [i0, i1]);
    Closing(origin);
    RefillNothing([i0, i1]);
    assert [i0] + [i1] == [i0, i1] && [i1][1..] == [];
    ServeIs(due, i1, Three(2, 1, Released(2), Released(0), [], [0], 0, [i0, i1]), next);
    Goes(due, origin, Serve(true), next, Wedged(origin));
  }

  /** The second fetch ends with nothing pushed, the first chunk half served. */
  lemma EmptySecond(origin: nat -> Byte)
    ensures Leads(Three(2, 1, Released(2), Running(0), [ItemAt(origin, 1)], [], 0, [ItemAt(origin, 0)]), origin, Wedged(origin))
  {
    var i0, i1 := ItemAt(origin, 0), ItemAt(origin, 1);
    var ended := Three(2, 1, Released(2), Ending(0), [i1], [], 0, [i0]);
    SecondServed(origin);
    Goes(ended, origin, Release(1), Three(2, 1, Released(2), Released(0), [i1], [0], 0, [i0]), Wedged(origin));
    Goes(Three(2, 1, Released(2), Running(0), [i1], [], 0, [i0]), origin, Return(1), ended, Wedged(origin));
  }

  lemma FirstServe(i0: Item, i1: Item)
    requires i0.Data?
    ensures ServeStep(Three(1, 1, Released(2), Waiting, [i0, i1], [0], 0, []), true)
            == Three(2, 1, Released(2), Running(0), [i1], [], 0, [i0])
  {
    RefillSecond([i1], [i0]);
    assert [i0, i1][1..] == [i1] && [] + [i0] == [i0];
    ServeIs(Three(1, 1, Released(2), Waiting, [i0, i1], [0], 0, []), i0, Three(1, 1, Released(2), Waiting, [i1], [0], 0, [i0]),
            Three(1, 0, Released(2), Waiting, [i1], [], 0, [i0]));
  }

  /** The first item goes out; the freed slot starts the second chunk. */
  lemma FirstServed(origin: nat -> Byte)
    ensures Leads(Three(1, 1, Released(2), Waiting, [ItemAt(origin, 0), ItemAt(origin, 1)], [0], 0, []), origin, Wedged(origin))
  {
    var i0, i1 := ItemAt(origin, 0), ItemAt(origin, 1);
    var due := Three(1, 1, Released(2), Waiting, [i0, i1], [0], 0, []);
    var next := Three(2, 1, Released(2), Running(0), [i1], [], 0, [i0]);
    EmptySecond(origin);
    FirstServe(i0, i1);
    Goes(due, origin, Serve(true), next, Wedged(origin));
  }

  lemma FirstFetched(origin: nat -> Byte)
    ensures Leads(Three(1, 1, Running(2), Waiting, [ItemAt(origin, 0), ItemAt(origin, 1)], [], 0, []), origin, Wedged(origin))
  {
    var q := [ItemAt(origin, 0), ItemAt(origin, 1)];
    var ended := Three(1, 1, Ending(2), Waiting, q, [], 0, []);
    FirstServed(origin);
    Goes(ended, origin, Release(0), Three(1, 1, Released(2), Waiting, q, [0], 0, []), Wedged(origin));
    Goes(Three(1, 1, Running(2), Waiting, q, [], 0, []), origin, Return(0), ended, Wedged(origin));
  }

  lemma SecondPush(origin: nat -> Byte)
    ensures Leads(Three(1, 1, Running(1), Waiting, [ItemAt(origin, 0)], [], 0, []), origin, Wedged(origin))
  {
    var i0, i1 := ItemAt(origin, 0), ItemAt(origin, 1);
    FirstFetched(origin);
    assert [i0] + [i1] == [i0, i1];
    Goes(Three(1, 1, Running(1), Waiting, [i0], [], 0, []), origin, Push(0, 1),
         Three(1, 1, Running(2), Waiting, [i0, i1], [], 0, []), Wedged(origin));
  }

  lemma FirstChunk(origin: nat -> Byte)
    ensures Leads(Start0(), origin, Wedged(origin))
  {
    var i0 := ItemAt(origin, 0);
    SecondPush(origin);
    assert [] + [i0] == [i0];
    Goes(Start0(), origin, Push(0, 1), Three(1, 1, Running(1), Waiting, [i0], [], 0, []), Wedged(origin));
  }

  lemma WedgedIsStuck(origin: nat -> Byte)
    ensures var t := Wedged(origin); !t.over && t.head < |t.plan| && |Flat(t.out)| == 2 && forall st :: !Can(t, st)
  {
    FlatConcat([ItemAt(origin, 0)], [ItemAt(origin, 1)]);
    FlatOne(ItemAt(origin, 0));
    FlatOne(ItemAt(origin, 1));
    assert Wedged(origin).out == [ItemAt(origin, 0)] + [ItemAt(origin, 1)];
  }

  /** Whatever the origin holds, there is a run in which no request fails and
      the client stays, but which ends with bytes missing and no step possible. */
  lemma EmptyFetchStalls(origin: nat -> Byte) returns (steps: seq<Step>)
    ensures Starts(Start0(), 1, 1, 0, 0, 4) && Walk(Start0(), origin, steps)
    ensures var t := After(Start0(), origin, steps);
            !t.over && t.head < |t.plan| && |Flat(t.out)| < 4 && forall st :: !Can(t, st)
  {
    Begins();
    ThreeChain();
    FirstChunk(origin);
    WedgedIsStuck(origin);
    steps :| Walk(Start0(), origin, steps) && After(Start0(), origin, steps) == Wedged(origin);
  }
}
