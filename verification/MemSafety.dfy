/** The in-memory stream, step by step: whatever a fetch does, the counters are the
    truth, the window and the thread limit hold, and a prefix of each chunk comes
    out in plan order; as long as a fetch that succeeds has pushed something, the
    last refill reaches the chunk the serializer waits for. */
module MemSafety {
  import opened Spans
  import opened Conservation
  import opened RunModel
  import opened Plan
  import opened MemStream

  datatype Step =
    | Push(i: nat, n: nat)
    | Fail(i: nat)
    | Return(i: nat)
    | Release(i: nat)
    | Close(i: nat)
    | Serve(taken: bool)
    | Advance
    | TakeRelease

  ghost function Bytes(origin: nat -> Byte, a: nat, n: nat): (r: seq<Byte>)
    ensures |r| == n && forall k :: 0 <= k < n ==> r[k] == origin(a + k)
  {
    seq(n, i requires 0 <= i < n => origin(a + i))
  }

  function Size(s: Span): nat { SatSub(s.hi + 1, s.lo) }

  /** The serializer looks at releases only when the head channel is open and empty. */
  ghost predicate Can(m: Mem, st: Step) {
    m.Sized() && !m.over && match st
    case Push(i, n) => i < |m.plan| && m.fetchers[i].Running? && 0 < n && m.fetchers[i].pos + n <= Size(m.plan[i])
    case Fail(i) => i < |m.plan| && m.fetchers[i].Running?
    case Return(i) => i < |m.plan| && m.fetchers[i].Running?
    case Release(i) => i < |m.plan| && m.fetchers[i].Ending?
    case Close(i) => i < |m.plan| && m.fetchers[i].Released?
    case Serve(_) => m.head < |m.plan| && m.queues[m.head] != []
    case Advance => m.head < |m.plan| && m.queues[m.head] == [] && m.fetchers[m.head].Closed?
    case TakeRelease => m.head < |m.plan| && m.queues[m.head] == [] && !m.fetchers[m.head].Closed? && m.releases != []
  }

  /** The next `n` bytes of the chunk. */
  ghost function NextItem(origin: nat -> Byte, lo: nat, pos: nat, n: nat): Item { Data(Bytes(origin, lo + pos, n)) }

  function Lost(m: Mem): Mem { m.(over := true) }

  /** One item out; then every release that has come in, and a refill. */
  function ServeStep(m: Mem, taken: bool): Mem
    requires m.Sized() && m.head < |m.plan| && m.queues[m.head] != []
  {
    var item := m.queues[m.head][0];
    var popped := m.(queues := m.queues[m.head := m.queues[m.head][1..]]);
    if !taken then Lost(popped)
    else if item.Broken? then Lost(popped.(out := popped.out + [item]))
    else
      var drained := popped.(out := popped.out + [item]).DrainReleases();
      DrainSized(popped.(out := popped.out + [item]));
      drained.Refill(m.head)
  }

  lemma {:induction false} DrainSized(m: Mem)
    ensures m.Sized() ==> m.DrainReleases().Sized()
    ensures m.DrainReleases() == m.(releases := [], perVol := m.DrainReleases().perVol, inFlight := m.DrainReleases().inFlight)
    decreases |m.releases|
  {
    if m.releases != [] { DrainSized(m.(releases := m.releases[1..]).ReleaseOne(m.releases[0])); }
  }

  ghost function Take(m: Mem, origin: nat -> Byte, st: Step): Mem
    requires Can(m, st)
  {
    match st
    case Push(i, n) =>
      var pos := m.fetchers[i].pos;
      m.(fetchers := m.fetchers[i := Running(pos + n)],
         queues := m.queues[i := m.queues[i] + [NextItem(origin, m.plan[i].lo, pos, n)]])
    case Fail(i) => m.(fetchers := m.fetchers[i := Ending(m.fetchers[i].pos)], queues := m.queues[i := m.queues[i] + [Broken]])
    case Return(i) => m.(fetchers := m.fetchers[i := Ending(m.fetchers[i].pos)])
    case Release(i) => m.(fetchers := m.fetchers[i := Released(m.fetchers[i].pos)], releases := m.releases + [m.volOf[i]])
    case Close(i) => m.(fetchers := m.fetchers[i := Closed(m.fetchers[i].pos)])
    case Serve(taken) => ServeStep(m, taken)
    case Advance => m.(head := m.head + 1)
    case TakeRelease => m.(releases := m.releases[1..]).ReleaseOne(m.releases[0]).Refill(m.head)
  }

  // ---- the counters are the truth ----

  /** Fetchers holding a slot, in one volume or in all. */
  ghost function Holding(fs: seq<Fetcher>, vol: seq<nat>, key: Option<nat>): nat
    requires |vol| == |fs|
  {
    if fs == [] then 0 else B(Occupies(fs[0]) && (key.Some? ==> vol[0] == key.value)) + Holding(fs[1..], vol[1..], key)
  }

  ghost function Pending(rs: seq<nat>, key: Option<nat>): nat {
    if rs == [] then 0 else B(key.Some? ==> rs[0] == key.value) + Pending(rs[1..], key)
  }

  lemma {:induction false} HoldingUpdate(fs: seq<Fetcher>, vol: seq<nat>, i: nat, f: Fetcher, key: Option<nat>)
    requires |vol| == |fs| && i < |fs|
    ensures var here := key.Some? ==> vol[i] == key.value;
            Holding(fs[i := f], vol, key) + B(Occupies(fs[i]) && here) == Holding(fs, vol, key) + B(Occupies(f) && here)
  {
    if i == 0 {
      assert fs[i := f][1..] == fs[1..];
    } else {
      assert fs[i := f][1..] == fs[1..][i - 1 := f];
      HoldingUpdate(fs[1..], vol[1..], i - 1, f, key);
    }
  }

  lemma {:induction false} PendingSnoc(rs: seq<nat>, v: nat, key: Option<nat>)
    ensures Pending(rs + [v], key) == Pending(rs, key) + B(key.Some? ==> v == key.value)
  {
    if rs == [] {
      assert (rs + [v])[1..] == [];
    } else {
      assert (rs + [v])[1..] == rs[1..] + [v];
      PendingSnoc(rs[1..], v, key);
    }
  }

  ghost function Tally(m: Mem, key: Option<nat>): nat
    requires m.Sized()
  {
    Holding(m.fetchers, m.volOf, key) + Pending(m.releases, key)
  }

  ghost predicate Counted(m: Mem) {
    && m.Sized() && m.inFlight == Tally(m, None)
    && (forall v: nat :: v < |m.perVol| ==> m.perVol[v] == Tally(m, Some(v)))
    && (forall k :: 0 <= k < |m.releases| ==> m.releases[k] < |m.perVol|)
    && (forall i :: 0 <= i < |m.plan| ==> m.sender[i] == !m.spawned[i] == m.fetchers[i].Waiting?)
  }

  lemma StartCounted(m: Mem, idx: nat)
    requires Counted(m) && idx < |m.plan| && !m.spawned[idx]
    ensures Counted(m.Start(idx)) && m.Start(idx).inFlight == m.inFlight + 1
    ensures m.Start(idx) == m.(sender := m.sender[idx := false], spawned := m.spawned[idx := true],
                               inFlight := m.inFlight + 1, perVol := m.Start(idx).perVol,
                               fetchers := m.fetchers[idx := Running(0)])
  {
    var t := m.Start(idx);
    HoldingUpdate(m.fetchers, m.volOf, idx, Running(0), None);
    forall v: nat | v < |t.perVol| ensures t.perVol[v] == Tally(t, Some(v)) {
      HoldingUpdate(m.fetchers, m.volOf, idx, Running(0), Some(v));
    }
  }

  lemma PendingHas(rs: seq<nat>)
    requires rs != []
    ensures Pending(rs, None) > 0 && Pending(rs, Some(rs[0])) > 0
  {
  }

  lemma ReleaseCounted(m: Mem)
    requires Counted(m) && m.releases != []
    ensures Counted(m.(releases := m.releases[1..]).ReleaseOne(m.releases[0]))
    ensures m.(releases := m.releases[1..]).ReleaseOne(m.releases[0]).inFlight + 1 == m.inFlight
  {
    PendingHas(m.releases);
    var t := m.(releases := m.releases[1..]).ReleaseOne(m.releases[0]);
    assert m.perVol[m.releases[0]] == Tally(m, Some(m.releases[0]));
    forall v: nat | v < |t.perVol| ensures t.perVol[v] == Tally(t, Some(v)) {
      assert m.perVol[v] == Tally(m, Some(v));
    }
  }

  lemma {:induction false} DrainCounted(m: Mem)
    requires Counted(m)
    ensures Counted(m.DrainReleases()) && m.DrainReleases().inFlight <= m.inFlight
    decreases |m.releases|
  {
    if m.releases != [] {
      ReleaseCounted(m);
      DrainCounted(m.(releases := m.releases[1..]).ReleaseOne(m.releases[0]));
    }
  }

  // ---- refilling ----

  /** What a refill may change: chunks inside the window start, nothing else. */
  ghost predicate Grew(m: Mem, t: Mem, at: nat) {
    && m.Sized() && t.Sized()
    && t == m.(sender := t.sender, spawned := t.spawned, inFlight := t.inFlight, perVol := t.perVol, fetchers := t.fetchers)
    && |t.perVol| == |m.perVol| && m.inFlight <= t.inFlight <= Max(m.inFlight, m.maxThreads)
    && forall i :: 0 <= i < |m.plan| ==>
         t.fetchers[i] == m.fetchers[i] || (m.fetchers[i].Waiting? && t.fetchers[i] == Running(0) && i < m.Limit(at))
  }

  ghost predicate Full(m: Mem, at: nat)
    requires m.Sized()
  {
    m.inFlight >= m.maxThreads || forall k :: 0 <= k < m.Limit(at) ==> m.spawned[k]
  }

  lemma GrowFirst(m: Mem, idx: nat, t: Mem, at: nat)
    requires Counted(m) && idx < m.Limit(at) && !m.spawned[idx] && m.inFlight < m.maxThreads
    requires Grew(m.Start(idx), t, at)
    ensures Grew(m, t, at)
  {
    StartCounted(m, idx);
    var u := m.Start(idx);
    assert u.Limit(at) == m.Limit(at);
    forall i | 0 <= i < |m.plan|
      ensures t.fetchers[i] == m.fetchers[i] || (m.fetchers[i].Waiting? && t.fetchers[i] == Running(0) && i < m.Limit(at))
    {
      assert i != idx ==> u.fetchers[i] == m.fetchers[i];
    }
  }

  lemma {:induction false} SpawnGrows(m: Mem, at: nat)
    requires Counted(m)
    ensures var t := m.SpawnMore(at); Counted(t) && Grew(m, t, at) && Full(t, at)
    decreases Unspawned(m.spawned)
  {
    if m.inFlight < m.maxThreads && m.Pick(at).Some? {
      var idx := m.Pick(at).value;
      UnspawnedDrops(m.spawned, idx);
      StartCounted(m, idx);
      SpawnGrows(m.Start(idx), at);
      GrowFirst(m, idx, m.SpawnMore(at), at);
    }
  }

  // ---- what is in the channels, and what has come out ----

  function Flat(items: seq<Item>): seq<Byte> {
    if items == [] then [] else (if items[0].Data? then items[0].bytes else []) + Flat(items[1..])
  }

  lemma {:induction false} FlatConcat(p: seq<Item>, q: seq<Item>)
    ensures Flat(p + q) == Flat(p) + Flat(q)
  {
    if p == [] {
      assert p + q == q;
    } else {
      assert (p + q)[1..] == p[1..] + q;
      FlatConcat(p[1..], q);
    }
  }

  lemma FlatOne(item: Item)
    ensures Flat([item]) == if item.Data? then item.bytes else []
  {
    assert [item][1..] == [];
  }

  lemma BytesJoin(origin: nat -> Byte, a: nat, n: nat, m: nat)
    ensures Bytes(origin, a, n) + Bytes(origin, a + n, m) == Bytes(origin, a, n + m)
  {
  }

  lemma BytesSplit(origin: nat -> Byte, a: nat, n: nat, p: seq<Byte>, q: seq<Byte>)
    requires p + q == Bytes(origin, a, n)
    ensures p == Bytes(origin, a, |p|) && q == Bytes(origin, a + |p|, |q|)
  {
    forall k | 0 <= k < |p| ensures p[k] == origin(a + k) { assert (p + q)[k] == p[k]; }
    forall k | 0 <= k < |q| ensures q[k] == origin(a + |p| + k) { assert (p + q)[|p| + k] == q[k]; }
  }

  predicate Finished(f: Fetcher) { f.Ending? || f.Released? || f.Closed? }

  predicate Produced(f: Fetcher) { Finished(f) || (f.Running? && f.pos > 0) }

  ghost predicate Sound(q: seq<Item>) { forall k :: 0 <= k < |q| ==> q[k].Data? }

  ghost predicate EndsBroken(q: seq<Item>) { q != [] && q[|q| - 1].Broken? && Sound(q[..|q| - 1]) }

  /** The channel holds the last bytes pushed. */
  ghost predicate Tail(origin: nat -> Byte, lo: nat, p: nat, q: seq<Item>) {
    |Flat(q)| <= p && Flat(q) == Bytes(origin, lo + p - |Flat(q)|, |Flat(q)|)
  }

  ghost predicate Shape(size: nat, f: Fetcher, q: seq<Item>, ahead: bool) {
    && Pushed(f) <= size
    && (ahead ==> |Flat(q)| == Pushed(f))
    && (f.Waiting? ==> q == [])
    && (Sound(q) || (Finished(f) && EndsBroken(q)))
  }

  ghost predicate ChunkOk(origin: nat -> Byte, piece: Span, f: Fetcher, q: seq<Item>, ahead: bool) {
    Tail(origin, piece.lo, Pushed(f), q) && Shape(Size(piece), f, q, ahead)
  }

  ghost predicate Ordered(m: Mem, origin: nat -> Byte) {
    m.Sized() && forall i :: m.head <= i < |m.plan| ==> ChunkOk(origin, m.plan[i], m.fetchers[i], m.queues[i], i > m.head)
  }

  /** Chunks behind the serializer are finished and drained. */
  ghost predicate Behind(m: Mem) {
    m.Sized() && m.head <= |m.plan| && forall i :: 0 <= i < m.head ==> m.fetchers[i].Closed? && m.queues[i] == []
  }

  /** What the first `k` chunks' fetchers pushed, chunk by chunk in plan order. */
  ghost function Prefixes(origin: nat -> Byte, plan: seq<Span>, fs: seq<Fetcher>, k: nat): seq<Byte>
    requires k <= |plan| == |fs|
  {
    if k == 0 then [] else Prefixes(origin, plan, fs, k - 1) + Bytes(origin, plan[k - 1].lo, Pushed(fs[k - 1]))
  }

  lemma {:induction false} PrefixesSame(origin: nat -> Byte, plan: seq<Span>, fs: seq<Fetcher>, gs: seq<Fetcher>, k: nat)
    requires k <= |plan| == |fs| == |gs| && forall i :: 0 <= i < k ==> fs[i] == gs[i]
    ensures Prefixes(origin, plan, fs, k) == Prefixes(origin, plan, gs, k)
  {
    if k > 0 { PrefixesSame(origin, plan, fs, gs, k - 1); }
  }

  /** `out` is all that the chunks behind pushed, and `n` bytes of the head chunk. */
  ghost predicate OutIs(m: Mem, origin: nat -> Byte, n: nat)
    requires m.Sized() && m.head <= |m.plan|
  {
    var done := Prefixes(origin, m.plan, m.fetchers, m.head);
    if m.head == |m.plan| then n == 0 && Flat(m.out) == done
    else Flat(m.out) == done + Bytes(origin, m.plan[m.head].lo, n) && n <= Pushed(m.fetchers[m.head])
  }

  /** How far into the head chunk the output has come. */
  ghost function Served(m: Mem, origin: nat -> Byte): nat
    requires m.Sized() && m.head <= |m.plan|
  {
    SatSub(|Flat(m.out)|, |Prefixes(origin, m.plan, m.fetchers, m.head)|)
  }

  ghost predicate Emitted(m: Mem, origin: nat -> Byte) {
    && Behind(m) && OutIs(m, origin, Served(m, origin))
    && (!m.over && m.head < |m.plan| ==> Served(m, origin) + |Flat(m.queues[m.head])| == Pushed(m.fetchers[m.head]))
  }

  ghost predicate Windowed(m: Mem) {
    && m.Sized() && m.inFlight <= m.maxThreads + |m.warm|
    && (forall w :: w in m.warm ==> w < |m.plan| && !m.fetchers[w].Waiting?)
    && forall i :: 0 <= i < |m.plan| && !m.fetchers[i].Waiting? ==> i < m.Limit(m.head) || i in m.warm
  }

  /** What holds whatever the fetches do. */
  ghost predicate MemInv(m: Mem, origin: nat -> Byte) {
    Counted(m) && Windowed(m) && Emitted(m, origin) && (!m.over ==> Ordered(m, origin))
  }

  // ---- steps of a fetcher ----

  /** One fetcher and its channel change; it keeps its slot. */
  lemma FetcherCounted(m: Mem, i: nat, f: Fetcher, q: seq<Item>)
    requires Counted(m) && i < |m.plan| && Occupies(m.fetchers[i]) == Occupies(f) && !f.Waiting? && !m.fetchers[i].Waiting?
    ensures Counted(m.(fetchers := m.fetchers[i := f], queues := m.queues[i := q]))
  {
    var t := m.(fetchers := m.fetchers[i := f], queues := m.queues[i := q]);
    HoldingUpdate(m.fetchers, m.volOf, i, f, None);
    forall v: nat | v < |t.perVol| ensures t.perVol[v] == Tally(t, Some(v)) {
      HoldingUpdate(m.fetchers, m.volOf, i, f, Some(v));
    }
  }

  lemma ReleaseStepCounted(m: Mem, i: nat)
    requires Counted(m) && i < |m.plan| && m.fetchers[i].Ending?
    ensures Counted(m.(fetchers := m.fetchers[i := Released(m.fetchers[i].pos)], releases := m.releases + [m.volOf[i]]))
  {
    var f := Released(m.fetchers[i].pos);
    var t := m.(fetchers := m.fetchers[i := f], releases := m.releases + [m.volOf[i]]);
    HoldingUpdate(m.fetchers, m.volOf, i, f, None);
    PendingSnoc(m.releases, m.volOf[i], None);
    forall v: nat | v < |t.perVol| ensures t.perVol[v] == Tally(t, Some(v)) {
      HoldingUpdate(m.fetchers, m.volOf, i, f, Some(v));
      PendingSnoc(m.releases, m.volOf[i], Some(v));
    }
  }

  lemma ChunkIs(m: Mem, origin: nat -> Byte, i: nat)
    requires Ordered(m, origin) && m.head <= i < |m.plan|
    ensures ChunkOk(origin, m.plan[i], m.fetchers[i], m.queues[i], i > m.head)
  {
  }

  lemma OrderedMoves(m: Mem, origin: nat -> Byte, i: nat, f: Fetcher, q: seq<Item>, rs: seq<nat>)
    requires Ordered(m, origin) && i < |m.plan| && (i >= m.head ==> ChunkOk(origin, m.plan[i], f, q, i > m.head))
    ensures Ordered(m.(fetchers := m.fetchers[i := f], queues := m.queues[i := q], releases := rs), origin)
  {
    var t := m.(fetchers := m.fetchers[i := f], queues := m.queues[i := q], releases := rs);
    forall k | t.head <= k < |t.plan| ensures ChunkOk(origin, t.plan[k], t.fetchers[k], t.queues[k], k > t.head) {
      if k != i { ChunkIs(m, origin, k); }
    }
  }

  lemma FetcherEmitted(m: Mem, origin: nat -> Byte, i: nat, f: Fetcher, q: seq<Item>, rs: seq<nat>)
    requires Emitted(m, origin) && !m.over && m.head <= i < |m.plan| && Pushed(f) >= Pushed(m.fetchers[i])
    requires Pushed(f) + |Flat(m.queues[i])| == Pushed(m.fetchers[i]) + |Flat(q)|
    ensures Emitted(m.(fetchers := m.fetchers[i := f], queues := m.queues[i := q], releases := rs), origin)
  {
    var t := m.(fetchers := m.fetchers[i := f], queues := m.queues[i := q], releases := rs);
    PrefixesSame(origin, m.plan, m.fetchers, t.fetchers, m.head);
    assert Served(t, origin) == Served(m, origin);
  }

  /** A fetcher at or past the head moves on, its channel only growing. */
  lemma FetcherMoves(m: Mem, origin: nat -> Byte, i: nat, f: Fetcher, q: seq<Item>, rs: seq<nat>)
    requires MemInv(m, origin) && !m.over && m.head <= i < |m.plan| && !m.fetchers[i].Waiting? && !f.Waiting?
    requires Counted(m.(fetchers := m.fetchers[i := f], queues := m.queues[i := q], releases := rs))
    requires ChunkOk(origin, m.plan[i], f, q, i > m.head) && Pushed(f) >= Pushed(m.fetchers[i])
    requires Pushed(f) + |Flat(m.queues[i])| == Pushed(m.fetchers[i]) + |Flat(q)|
    ensures MemInv(m.(fetchers := m.fetchers[i := f], queues := m.queues[i := q], releases := rs), origin)
  {
    OrderedMoves(m, origin, i, f, q, rs);
    FetcherEmitted(m, origin, i, f, q, rs);
    var t := m.(fetchers := m.fetchers[i := f], queues := m.queues[i := q], releases := rs);
    assert t.Limit(t.head) == m.Limit(m.head);
    assert Windowed(t);
  }

  lemma PushBytes(origin: nat -> Byte, at: nat, q: seq<Item>, n: nat)
    requires Flat(q) == Bytes(origin, at, |Flat(q)|)
    ensures var q' := q + [Data(Bytes(origin, at + |Flat(q)|, n))];
            |Flat(q')| == |Flat(q)| + n && Flat(q') == Bytes(origin, at, |Flat(q')|)
  {
    var item := Data(Bytes(origin, at + |Flat(q)|, n));
    FlatConcat(q, [item]);
    FlatOne(item);
    BytesJoin(origin, at, |Flat(q)|, n);
  }

  lemma PushShape(size: nat, pos: nat, q: seq<Item>, ahead: bool, n: nat, item: Item)
    requires Shape(size, Running(pos), q, ahead) && 0 < n && pos + n <= size && item.Data?
    requires |Flat(q + [item])| == |Flat(q)| + n
    ensures Shape(size, Running(pos + n), q + [item], ahead)
  {
  }

  lemma PushOk(origin: nat -> Byte, piece: Span, pos: nat, q: seq<Item>, ahead: bool, n: nat, item: Item)
    requires ChunkOk(origin, piece, Running(pos), q, ahead) && 0 < n && pos + n <= Size(piece)
    requires item == Data(Bytes(origin, piece.lo + pos, n))
    ensures ChunkOk(origin, piece, Running(pos + n), q + [item], ahead)
  {
    PushBytes(origin, piece.lo + pos - |Flat(q)|, q, n);
    PushShape(Size(piece), pos, q, ahead, n, item);
  }

  lemma FlatSnoc(q: seq<Item>, item: Item)
    ensures Flat(q + [item]) == Flat(q) + (if item.Data? then item.bytes else [])
  {
    FlatConcat(q, [item]);
    FlatOne(item);
  }

  lemma FailOk(origin: nat -> Byte, piece: Span, pos: nat, q: seq<Item>, ahead: bool)
    requires ChunkOk(origin, piece, Running(pos), q, ahead)
    ensures ChunkOk(origin, piece, Ending(pos), q + [Broken], ahead)
  {
    FlatSnoc(q, Broken);
    assert (q + [Broken])[..|q|] == q;
  }

  lemma PushMoves(m: Mem, origin: nat -> Byte, i: nat, n: nat, item: Item, t: Mem)
    requires MemInv(m, origin) && Can(m, Push(i, n)) && item == NextItem(origin, m.plan[i].lo, m.fetchers[i].pos, n)
    requires t == m.(fetchers := m.fetchers[i := Running(m.fetchers[i].pos + n)], queues := m.queues[i := m.queues[i] + [item]])
    ensures MemInv(t, origin)
  {
    var f, q := Running(m.fetchers[i].pos + n), m.queues[i] + [item];
    FlatSnoc(m.queues[i], item);
    assert m.fetchers[i] == Running(m.fetchers[i].pos);
    ChunkIs(m, origin, i);
    PushOk(origin, m.plan[i], m.fetchers[i].pos, m.queues[i], i > m.head, n, item);
    FetcherCounted(m, i, f, q);
    FetcherMoves(m, origin, i, f, q, m.releases);
  }

  lemma PushInv(m: Mem, origin: nat -> Byte, i: nat, n: nat)
    requires MemInv(m, origin) && Can(m, Push(i, n))
    ensures MemInv(Take(m, origin, Push(i, n)), origin)
  {
    PushMoves(m, origin, i, n, NextItem(origin, m.plan[i].lo, m.fetchers[i].pos, n), Take(m, origin, Push(i, n)));
  }

  lemma FailInv(m: Mem, origin: nat -> Byte, i: nat)
    requires MemInv(m, origin) && Can(m, Fail(i))
    ensures MemInv(Take(m, origin, Fail(i)), origin)
  {
    var pos, q := m.fetchers[i].pos, m.queues[i] + [Broken];
    FetcherCounted(m, i, Ending(pos), q);
    FlatSnoc(m.queues[i], Broken);
    ChunkIs(m, origin, i);
    FailOk(origin, m.plan[i], pos, m.queues[i], i > m.head);
    FetcherMoves(m, origin, i, Ending(pos), q, m.releases);
  }

  /** Returning, releasing and closing change neither the position nor the channel. */
  lemma QuietInv(m: Mem, origin: nat -> Byte, st: Step)
    requires MemInv(m, origin) && Can(m, st) && (st.Return? || st.Release? || st.Close?)
    ensures MemInv(Take(m, origin, st), origin)
  {
    var i := st.i;
    var pos, q := m.fetchers[i].pos, m.queues[i];
    assert m.queues[i := q] == m.queues;
    var f := if st.Return? then Ending(pos) else if st.Release? then Released(pos) else Closed(pos);
    var rs := if st.Release? then m.releases + [m.volOf[i]] else m.releases;
    if st.Release? { ReleaseStepCounted(m, i); } else { FetcherCounted(m, i, f, q); }
    ChunkIs(m, origin, i);
    FetcherMoves(m, origin, i, f, q, rs);
  }

  // ---- steps of the serializer ----

  lemma GrewOrdered(m: Mem, t: Mem, origin: nat -> Byte)
    requires Ordered(m, origin) && Grew(m, t, m.head)
    ensures Ordered(t, origin)
  {
    forall k | t.head <= k < |t.plan| ensures ChunkOk(origin, t.plan[k], t.fetchers[k], t.queues[k], k > t.head) {
      ChunkIs(m, origin, k);
    }
  }

  lemma GrewEmitted(m: Mem, t: Mem, origin: nat -> Byte)
    requires Emitted(m, origin) && Grew(m, t, m.head)
    ensures Emitted(t, origin)
  {
    forall i | 0 <= i < m.head ensures t.fetchers[i] == m.fetchers[i] { assert m.fetchers[i].Closed?; }
    PrefixesSame(origin, m.plan, m.fetchers, t.fetchers, m.head);
  }

  lemma GrewWindowed(m: Mem, t: Mem)
    requires Windowed(m) && Grew(m, t, m.head)
    ensures Windowed(t)
  {
    assert t.Limit(t.head) == m.Limit(m.head);
  }

  lemma FilledAtFree(m: Mem, origin: nat -> Byte, at: nat)
    requires MemInv(m, origin)
    ensures MemInv(m.(filledAt := at), origin)
  {
    var t := m.(filledAt := at);
    assert Counted(t) && t.Limit(t.head) == m.Limit(m.head);
  }

  lemma RefillInv(m: Mem, origin: nat -> Byte)
    requires MemInv(m, origin) && !m.over && m.head < |m.plan|
    ensures MemInv(m.Refill(m.head), origin)
  {
    SpawnGrows(m, m.head);
    var t := m.SpawnMore(m.head);
    GrewOrdered(m, t, origin);
    GrewEmitted(m, t, origin);
    GrewWindowed(m, t);
    FilledAtFree(t, origin, m.head);
  }

  lemma DrainInv(m: Mem, origin: nat -> Byte)
    requires MemInv(m, origin) && !m.over
    ensures MemInv(m.DrainReleases(), origin) && m.DrainReleases().head == m.head
  {
    DrainCounted(m);
    DrainSized(m);
    var t := m.DrainReleases();
    forall k | t.head <= k < |t.plan| ensures ChunkOk(origin, t.plan[k], t.fetchers[k], t.queues[k], k > t.head) {
      ChunkIs(m, origin, k);
    }
  }

  lemma PopShape(size: nat, f: Fetcher, q: seq<Item>)
    requires Shape(size, f, q, false) && q != [] && q[0].Data?
    ensures Shape(size, f, q[1..], false)
  {
    if EndsBroken(q) { PopBroken(q); }
  }

  lemma PopBroken(q: seq<Item>)
    requires EndsBroken(q) && q[0].Data?
    ensures EndsBroken(q[1..])
  {
    var r := q[1..];
    assert r[|r| - 1] == q[|q| - 1] && forall k :: 0 <= k < |r| - 1 ==> r[k] == q[k + 1];
  }

  /** The first item of the channel, and what stays behind it. */
  lemma TailPop(origin: nat -> Byte, lo: nat, p: nat, q: seq<Item>)
    requires Tail(origin, lo, p, q) && q != [] && q[0].Data?
    ensures |Flat(q)| == |q[0].bytes| + |Flat(q[1..])| <= p
    ensures q[0].bytes == Bytes(origin, lo + p - |Flat(q)|, |q[0].bytes|) && Tail(origin, lo, p, q[1..])
  {
    var x, rest := q[0].bytes, Flat(q[1..]);
    assert Flat(q) == x + rest;
    BytesSplit(origin, lo + p - |Flat(q)|, |Flat(q)|, x, rest);
  }

  lemma Appended(origin: nat -> Byte, p: seq<Byte>, at: nat, n: nat, x: seq<Byte>)
    requires x == Bytes(origin, at + n, |x|)
    ensures (p + Bytes(origin, at, n)) + x == p + Bytes(origin, at, n + |x|)
  {
    BytesJoin(origin, at, n, |x|);
    var q := Bytes(origin, at, n);
    assert (p + q) + x == p + (q + x);
  }

  /** Moving the first item from the channel to the output moves the boundary. */
  lemma PopBytes(origin: nat -> Byte, done: seq<Byte>, lo: nat, n: nat, out: seq<Item>, q: seq<Item>, p: nat)
    requires Flat(out) == done + Bytes(origin, lo, n) && Tail(origin, lo, p, q) && q != [] && q[0].Data?
    requires n + |Flat(q)| == p
    ensures var k := n + |q[0].bytes|;
            && Flat(out + [q[0]]) == done + Bytes(origin, lo, k) && Tail(origin, lo, p, q[1..])
            && |Flat(out + [q[0]])| == |done| + k && k + |Flat(q[1..])| == p
  {
    TailPop(origin, lo, p, q);
    FlatSnoc(out, q[0]);
    Appended(origin, done, lo, n, q[0].bytes);
  }

  lemma PopEmitted(m: Mem, origin: nat -> Byte, t: Mem)
    requires MemInv(m, origin) && !m.over && m.head < |m.plan| && m.queues[m.head] != [] && m.queues[m.head][0].Data?
    requires var q := m.queues[m.head]; t == m.(queues := m.queues[m.head := q[1..]], out := m.out + [q[0]])
    ensures Emitted(t, origin) && Tail(origin, m.plan[m.head].lo, Pushed(m.fetchers[m.head]), m.queues[m.head][1..])
  {
    var h, q := m.head, m.queues[m.head];
    ChunkIs(m, origin, h);
    PopBytes(origin, Prefixes(origin, m.plan, m.fetchers, h), m.plan[h].lo, Served(m, origin), m.out, q, Pushed(m.fetchers[h]));
  }

  lemma PopOrdered(m: Mem, origin: nat -> Byte, t: Mem)
    requires Ordered(m, origin) && m.head < |m.plan| && m.queues[m.head] != [] && m.queues[m.head][0].Data?
    requires var q := m.queues[m.head]; t == m.(queues := m.queues[m.head := q[1..]], out := m.out + [q[0]])
    requires Tail(origin, m.plan[m.head].lo, Pushed(m.fetchers[m.head]), m.queues[m.head][1..])
    ensures Ordered(t, origin)
  {
    var h, q := m.head, m.queues[m.head];
    ChunkIs(m, origin, h);
    PopShape(Size(m.plan[h]), m.fetchers[h], q);
    forall k | t.head <= k < |t.plan| ensures ChunkOk(origin, t.plan[k], t.fetchers[k], t.queues[k], k > t.head) {
      if k != h { ChunkIs(m, origin, k); }
    }
  }

  lemma PopInv(m: Mem, origin: nat -> Byte)
    requires MemInv(m, origin) && !m.over && m.head < |m.plan| && m.queues[m.head] != [] && m.queues[m.head][0].Data?
    ensures var q := m.queues[m.head];
            MemInv(m.(queues := m.queues[m.head := q[1..]], out := m.out + [q[0]]), origin)
  {
    var q := m.queues[m.head];
    var t := m.(queues := m.queues[m.head := q[1..]], out := m.out + [q[0]]);
    PopEmitted(m, origin, t);
    PopOrdered(m, origin, t);
  }

  lemma OverInv(m: Mem, origin: nat -> Byte, t: Mem, extra: seq<Item>)
    requires MemInv(m, origin) && !m.over && m.head < |m.plan| && |t.queues| == |m.plan| && Flat(extra) == []
    requires forall i :: 0 <= i < m.head ==> t.queues[i] == m.queues[i]
    requires t == m.(queues := t.queues, out := m.out + extra, over := true)
    ensures MemInv(t, origin)
  {
    FlatConcat(m.out, extra);
  }

  lemma ServeData(m: Mem, origin: nat -> Byte)
    requires MemInv(m, origin) && Can(m, Serve(true)) && m.queues[m.head][0].Data?
    ensures MemInv(ServeStep(m, true), origin)
  {
    var q := m.queues[m.head];
    var popped := m.(queues := m.queues[m.head := q[1..]], out := m.out + [q[0]]);
    PopInv(m, origin);
    DrainInv(popped, origin);
    DrainSized(popped);
    RefillInv(popped.DrainReleases(), origin);
    assert ServeStep(m, true) == popped.DrainReleases().Refill(m.head);
  }

  lemma ServeInv(m: Mem, origin: nat -> Byte, taken: bool)
    requires MemInv(m, origin) && Can(m, Serve(taken))
    ensures MemInv(ServeStep(m, taken), origin)
  {
    var q := m.queues[m.head];
    if taken && q[0].Data? {
      ServeData(m, origin);
    } else {
      assert m.out + [] == m.out;
      if taken { FlatOne(q[0]); }
      OverInv(m, origin, ServeStep(m, taken), if taken then [q[0]] else []);
    }
  }

  /** A drained, closed channel hands over to the next one. */
  lemma AdvanceEmitted(m: Mem, origin: nat -> Byte)
    requires MemInv(m, origin) && Can(m, Advance)
    ensures Emitted(m.(head := m.head + 1), origin)
  {
    ChunkIs(m, origin, m.head);
    if m.head + 1 < |m.plan| { ChunkIs(m, origin, m.head + 1); }
  }

  lemma AdvanceInv(m: Mem, origin: nat -> Byte)
    requires MemInv(m, origin) && Can(m, Advance)
    ensures MemInv(m.(head := m.head + 1), origin)
  {
    AdvanceEmitted(m, origin);
    var t := m.(head := m.head + 1);
    assert Counted(t);
    forall k | t.head <= k < |t.plan| ensures ChunkOk(origin, t.plan[k], t.fetchers[k], t.queues[k], k > t.head) {
      ChunkIs(m, origin, k);
    }
  }

  lemma TakeReleaseInv(m: Mem, origin: nat -> Byte)
    requires MemInv(m, origin) && Can(m, TakeRelease)
    ensures MemInv(Take(m, origin, TakeRelease), origin)
  {
    ReleaseCounted(m);
    var t := m.(releases := m.releases[1..]).ReleaseOne(m.releases[0]);
    forall k | t.head <= k < |t.plan| ensures ChunkOk(origin, t.plan[k], t.fetchers[k], t.queues[k], k > t.head) {
      ChunkIs(m, origin, k);
    }
    RefillInv(t, origin);
  }

  lemma FetcherInv(m: Mem, origin: nat -> Byte, st: Step)
    requires MemInv(m, origin) && Can(m, st)
    requires st.Push? || st.Fail? || st.Return? || st.Release? || st.Close?
    ensures MemInv(Take(m, origin, st), origin)
  {
    match st {
      case Push(i, n) => PushInv(m, origin, i, n);
      case Fail(i) => FailInv(m, origin, i);
      case _ => QuietInv(m, origin, st);
    }
  }

  /** Every step of fetcher, serializer or client keeps the invariant, whatever the
      fetches deliver. */
  lemma StepInv(m: Mem, origin: nat -> Byte, st: Step)
    requires MemInv(m, origin) && Can(m, st)
    ensures MemInv(Take(m, origin, st), origin)
  {
    match st {
      case Serve(taken) => ServeInv(m, origin, taken);
      case Advance => AdvanceInv(m, origin);
      case TakeRelease => TakeReleaseInv(m, origin);
      case _ => FetcherInv(m, origin, st);
    }
  }

  // ---- progress: a fetch that succeeds has pushed something ----

  /** The serializer has drained the head channel, and its fetcher pushed something. */
  ghost predicate Emptied(m: Mem) {
    m.Sized() && m.head < |m.plan| && m.queues[m.head] == [] && Produced(m.fetchers[m.head])
  }

  /** The last refill reached past the chunk the serializer waits for. */
  ghost predicate Reaching(m: Mem) {
    && m.Sized() && m.filledAt <= m.head <= m.filledAt + 1 && Full(m, m.filledAt)
    && (Emptied(m) ==> m.filledAt == m.head)
  }

  /** Whoever has pushed or finished ahead of the serializer left something in its channel. */
  ghost predicate Fruitful(m: Mem) {
    m.Sized() && forall i :: m.head < i < |m.plan| && Produced(m.fetchers[i]) ==> m.queues[i] != []
  }

  ghost predicate Progress(m: Mem) { m.over || (Reaching(m) && Fruitful(m)) }

  /** A fetch that reports success has pushed an item. */
  ghost predicate Fed(m: Mem, st: Step)
    requires Can(m, st)
  {
    st.Return? ==> m.fetchers[st.i].pos > 0
  }

  /** The fetcher's channel after its step. */
  lemma FetcherFruitful(m: Mem, origin: nat -> Byte, st: Step)
    requires MemInv(m, origin) && Progress(m) && Can(m, st) && Fed(m, st)
    requires st.Push? || st.Fail? || st.Return? || st.Release? || st.Close?
    ensures Fruitful(Take(m, origin, st))
    ensures Emptied(Take(m, origin, st)) ==> Emptied(m)
  {
    var i, t := st.i, Take(m, origin, st);
    ChunkIs(m, origin, i);
    forall k | t.head < k < |t.plan| && Produced(t.fetchers[k]) ensures t.queues[k] != [] {
      if k != i { assert t.fetchers[k] == m.fetchers[k] && t.queues[k] == m.queues[k]; }
    }
  }

  lemma FetcherProgress(m: Mem, origin: nat -> Byte, st: Step)
    requires MemInv(m, origin) && Progress(m) && Can(m, st) && Fed(m, st)
    requires st.Push? || st.Fail? || st.Return? || st.Release? || st.Close?
    ensures Progress(Take(m, origin, st))
  {
    FetcherFruitful(m, origin, st);
    assert Take(m, origin, st).Limit(m.filledAt) == m.Limit(m.filledAt);
  }

  lemma RefillProgress(m: Mem)
    requires Counted(m) && Fruitful(m) && m.head < |m.plan|
    ensures Progress(m.Refill(m.head))
  {
    SpawnGrows(m, m.head);
    var t := m.SpawnMore(m.head);
    assert m.Refill(m.head).Limit(m.head) == t.Limit(m.head);
    forall k | t.head < k < |t.plan| && Produced(t.fetchers[k]) ensures t.queues[k] != [] { assert t.fetchers[k] == m.fetchers[k]; }
  }

  lemma ServeProgress(m: Mem, origin: nat -> Byte, taken: bool)
    requires MemInv(m, origin) && Progress(m) && Can(m, Serve(taken))
    ensures Progress(ServeStep(m, taken))
  {
    var q := m.queues[m.head];
    if taken && q[0].Data? {
      var popped := m.(queues := m.queues[m.head := q[1..]], out := m.out + [q[0]]);
      PopInv(m, origin);
      DrainCounted(popped);
      DrainSized(popped);
      RefillProgress(popped.DrainReleases());
    }
  }

  lemma AdvanceProgress(m: Mem, origin: nat -> Byte)
    requires MemInv(m, origin) && Progress(m) && Can(m, Advance)
    ensures Progress(m.(head := m.head + 1))
  {
    var t := m.(head := m.head + 1);
    assert Emptied(m);
    assert t.Limit(t.filledAt) == m.Limit(m.filledAt);
  }

  /** As long as successes push something, no step leaves the serializer waiting
      for a chunk the last refill did not reach. */
  lemma StepProgress(m: Mem, origin: nat -> Byte, st: Step)
    requires MemInv(m, origin) && Progress(m) && Can(m, st) && Fed(m, st)
    ensures Progress(Take(m, origin, st))
  {
    match st {
      case Serve(taken) => ServeProgress(m, origin, taken);
      case Advance => AdvanceProgress(m, origin);
      case TakeRelease =>
        ReleaseCounted(m);
        RefillProgress(m.(releases := m.releases[1..]).ReleaseOne(m.releases[0]));
      case _ => FetcherProgress(m, origin, st);
    }
  }

  // ---- completeness: a fetch that succeeds has pushed its whole chunk ----

  /** A fetch that reports success has pushed its whole chunk. */
  ghost predicate Whole(m: Mem, st: Step)
    requires Can(m, st)
  {
    st.Return? ==> m.fetchers[st.i].pos == Size(m.plan[st.i])
  }

  /** Chunks behind were pushed whole; the others that finished were, or left an error. */
  ghost predicate Complete(m: Mem) {
    && m.Sized() && m.head <= |m.plan| && (forall i :: 0 <= i < m.head ==> Pushed(m.fetchers[i]) == Size(m.plan[i]))
    && (!m.over ==> forall i :: m.head <= i < |m.plan| && Finished(m.fetchers[i]) ==>
                      Pushed(m.fetchers[i]) == Size(m.plan[i]) || EndsBroken(m.queues[i]))
  }

  /** One fetcher changes, and if it has finished it has pushed all or left an error. */
  lemma FetcherCompletes(m: Mem, i: nat, f: Fetcher, q: seq<Item>, rs: seq<nat>)
    requires Complete(m) && m.head <= i < |m.plan| && (Finished(f) ==> Pushed(f) == Size(m.plan[i]) || EndsBroken(q))
    ensures Complete(m.(fetchers := m.fetchers[i := f], queues := m.queues[i := q], releases := rs))
  {
  }

  lemma FetcherComplete(m: Mem, origin: nat -> Byte, st: Step)
    requires MemInv(m, origin) && Complete(m) && Can(m, st) && Whole(m, st)
    requires st.Push? || st.Fail? || st.Return? || st.Release? || st.Close?
    ensures Complete(Take(m, origin, st))
  {
    var i, t := st.i, Take(m, origin, st);
    ChunkIs(m, origin, i);
    FetcherCompletes(m, i, t.fetchers[i], t.queues[i], t.releases);
    if st.Fail? { assert t.queues[i][..|m.queues[i]|] == m.queues[i]; }
    assert m.queues[i := m.queues[i]] == m.queues;
    assert t == m.(fetchers := m.fetchers[i := t.fetchers[i]], queues := m.queues[i := t.queues[i]], releases := t.releases);
  }

  lemma RefillComplete(m: Mem)
    requires Counted(m) && Complete(m) && m.head < |m.plan|
    ensures Complete(m.Refill(m.head))
  {
    SpawnGrows(m, m.head);
    var t := m.SpawnMore(m.head);
    forall i | 0 <= i < m.head ensures Pushed(t.fetchers[i]) == Size(t.plan[i]) { assert Pushed(m.fetchers[i]) == Size(m.plan[i]); }
  }

  lemma ServeComplete(m: Mem, origin: nat -> Byte, taken: bool)
    requires MemInv(m, origin) && Complete(m) && Can(m, Serve(taken))
    ensures Complete(ServeStep(m, taken))
  {
    var h, q := m.head, m.queues[m.head];
    if taken && q[0].Data? {
      var popped := m.(queues := m.queues[h := q[1..]], out := m.out + [q[0]]);
      PopInv(m, origin);
      if EndsBroken(q) { PopBroken(q); }
      assert Complete(popped);
      DrainCounted(popped);
      DrainSized(popped);
      RefillComplete(popped.DrainReleases());
    }
  }

  /** As long as successes push their whole chunk, no step leaves a gap behind. */
  lemma StepComplete(m: Mem, origin: nat -> Byte, st: Step)
    requires MemInv(m, origin) && Complete(m) && Can(m, st) && Whole(m, st)
    ensures Complete(Take(m, origin, st))
  {
    match st {
      case Serve(taken) => ServeComplete(m, origin, taken);
      case Advance =>
      case TakeRelease =>
        ReleaseCounted(m);
        RefillComplete(m.(releases := m.releases[1..]).ReleaseOne(m.releases[0]));
      case _ => FetcherComplete(m, origin, st);
    }
  }

  lemma {:induction false} ChainAt(p: seq<Span>, a: nat, b: nat, i: nat)
    requires Chain(p, a, b) && i < |p|
    ensures a <= p[i].lo <= p[i].hi < b && (i == 0 ==> p[i].lo == a)
    ensures p[i].hi + 1 == if i + 1 < |p| then p[i + 1].lo else b
    decreases i
  {
    ChainHas(p[1..], p[0].hi + 1, b, 0);
    if i > 0 { ChainAt(p[1..], p[0].hi + 1, b, i - 1); }
  }

  /** Whole chunks in plan order are the range itself. */
  lemma {:induction false} WholePrefixes(origin: nat -> Byte, plan: seq<Span>, fs: seq<Fetcher>, a: nat, b: nat, k: nat)
    requires Chain(plan, a, b) && k <= |plan| == |fs| && forall i :: 0 <= i < k ==> Pushed(fs[i]) == Size(plan[i])
    ensures var end := if k < |plan| then plan[k].lo else b;
            a <= end <= b && Prefixes(origin, plan, fs, k) == Bytes(origin, a, end - a)
  {
    if k == 0 {
      if plan != [] { ChainAt(plan, a, b, 0); }
    } else {
      WholePrefixes(origin, plan, fs, a, b, k - 1);
      ChainAt(plan, a, b, k - 1);
      if k < |plan| { ChainAt(plan, a, b, k); }
      WholeStep(origin, plan, fs, a, k);
    }
  }

  lemma WholeStep(origin: nat -> Byte, plan: seq<Span>, fs: seq<Fetcher>, a: nat, k: nat)
    requires 0 < k <= |plan| == |fs| && a <= plan[k - 1].lo && Pushed(fs[k - 1]) == Size(plan[k - 1])
    requires Prefixes(origin, plan, fs, k - 1) == Bytes(origin, a, plan[k - 1].lo - a)
    ensures Prefixes(origin, plan, fs, k) == Bytes(origin, a, plan[k - 1].lo - a + Size(plan[k - 1]))
  {
    BytesJoin(origin, a, plan[k - 1].lo - a, Size(plan[k - 1]));
  }

  /** With whole chunks the output is one run of the origin's bytes. */
  lemma CompleteOut(m: Mem, origin: nat -> Byte, a: nat, b: nat)
    requires Chain(m.plan, a, b) && Emitted(m, origin) && Complete(m) && (m.head < |m.plan| ==> Pushed(m.fetchers[m.head]) <= Size(m.plan[m.head]))
    ensures Flat(m.out) == Bytes(origin, a, |Flat(m.out)|) && a + |Flat(m.out)| <= b
    ensures m.head == |m.plan| ==> Flat(m.out) == Bytes(origin, a, b - a)
  {
    WholePrefixes(origin, m.plan, m.fetchers, a, b, m.head);
    if m.head < |m.plan| {
      ChainAt(m.plan, a, b, m.head);
      BytesJoin(origin, a, m.plan[m.head].lo - a, Served(m, origin));
    }
  }
}
