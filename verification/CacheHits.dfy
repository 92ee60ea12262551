/** What the cache saves: a chunk whose blocks are all on disk is served without the
    origin, nothing is asked for but blocks that are not whole, and what has been
    fetched whole is on disk for the next time. */
module CacheHits {
  import opened Spans
  import opened RunModel
  import opened Plan
  import opened Cache
  import opened Coalescer
  import opened CachedFetch
  import opened Transparency

  // ---- everything on disk ----

  /** Each byte of the file in a block that the chunk touches is on disk. */
  ghost predicate OnDisk(s: Setting)
    requires s.g.Ok()
  {
    forall x: nat :: x < s.g.total && s.chunk.lo / s.g.bs <= x / s.g.bs <= s.chunk.hi / s.g.bs ==> x in s.disk.written
  }

  lemma OnDiskHits(s: Setting, k: nat)
    requires s.g.Ok() && OnDisk(s) && s.chunk.lo / s.g.bs <= k <= s.chunk.hi / s.g.bs && k < s.g.Blocks()
    ensures s.HitAt([], k)
  {
    BlockShape(s.g, k);
    forall x: nat | s.g.Start(k) <= x < s.g.End(k) ensures x in s.disk.written { BlockOf(s.g, x, k); }
  }

  lemma {:induction false} AllHits(s: Setting, i: nat, last: nat)
    requires i <= last && forall k :: i <= k <= last ==> s.HitAt([], k)
    ensures RunEnd([], s.Hit(), i, last) == last
    decreases last - i
  {
    assert s.Hit()([], i) == s.HitAt([], i) == true;
    if i < last {
      assert s.Hit()([], i + 1) == s.HitAt([], i + 1) == true;
      AllHits(s, i + 1, last);
    }
  }

  /** A chunk whose blocks, a short last one included, are all on disk comes from
      there as long as the disk can be read: whatever the origin would answer, the
      fetch succeeds, the client gets exactly the chunk, and nothing is asked of the
      origin. */
  lemma HitsAreLocal(s: Setting, origin: seq<Byte>)
    requires Of(s, origin) && s.chunk.hi < |origin| && OnDisk(s) && s.chunk.lo / s.g.bs !in s.bad
    ensures var (ok, _, h) := s.FetchCached();
            && ok && Received(h, s.chunk) == origin[s.chunk.lo..s.chunk.hi + 1]
            && forall i :: 0 <= i < |h| ==> h[i].Read?
  {
    var first, last := s.chunk.lo / s.g.bs, s.chunk.hi / s.g.bs;
    ChunkBlocks(s.g, s.chunk, first, last);
    forall k | first <= k <= last ensures s.HitAt([], k) { OnDiskHits(s, k); }
    AllHits(s, first, last);
    var h := s.ReadBack([], s.g.Start(first), s.g.End(last));
    assert s.Hit()([], first) == s.HitAt([], first);
    assert s.ServeRun()([], first, last, true) == s.ServeAt([], first, last, true) == (true, s.g.End(last), h);
    assert Runs([], s.Hit(), s.ServeRun(), first, last, s.g.Start(first)) == (true, s.g.End(last), h);
    assert s.FetchCached() == (true, s.g.End(last), h);
    assert NoGap(h, s);
    FetchLaw(s, origin);
  }

  // ---- what is asked for, and what is kept ----

  lemma {:induction false} ReplayGrows(disk: Stage, tr: Trace, x: nat)
    ensures Replay(disk, tr).total == disk.total
    ensures x in disk.written ==> x in Replay(disk, tr).written
    decreases |tr|
  {
    if tr != [] { ReplayGrows(disk, tr[..|tr| - 1], x); }
  }

  /** A piece of a body is kept, and no byte of it lies in a block that was whole to
      begin with; what is read back is on disk by then. */
  ghost predicate EventFrugal(s: Setting, before: Trace, e: Event)
    requires s.g.Ok()
  {
    match e
    case Item(at, data, kept) =>
      kept && forall x: nat :: at <= x < at + |data| ==> !WholeBlock(s.g, s.disk.written, s.g.Index(x))
    case Read(from, end, _) => forall x: nat :: from <= x < end ==> x in Replay(s.disk, before).written
    case _ => true
  }

  ghost predicate Frugal(s: Setting, tr: Trace)
    requires s.g.Ok()
    decreases |tr|
  {
    tr == [] || (Frugal(s, tr[..|tr| - 1]) && EventFrugal(s, tr[..|tr| - 1], tr[|tr| - 1]))
  }

  /** `g` goes on from `f` with nothing read back and every item kept. */
  ghost predicate KeptFrom(f: Trace, g: Trace) {
    f <= g && forall k :: |f| <= k < |g| ==> !g[k].Read? && (g[k].Item? ==> g[k].kept)
  }

  /** And nothing is left in the buffer. */
  ghost predicate Stored(s: Setting, f: Trace, g: Trace) { KeptFrom(f, g) && Replay(s.disk, g).buf == [] }

  lemma {:induction false} ItemsKept(s: Setting, f: Trace, g: Trace, t: Target, done: nat, items: seq<nat>)
    requires KeptFrom(f, g)
    ensures KeptFrom(f, Items(g, s.OneItem(t, true), done, items))
    decreases |items|
  {
    if items != [] {
      var next := if items[0] == 0 then g else s.ItemAt(t, true, g, done, items[0]);
      ItemsKept(s, f, next, t, done + items[0], items[1..]);
    }
  }

  lemma FlushStores(s: Setting, f: Trace, g: Trace)
    requires KeptFrom(f, g)
    ensures Stored(s, f, g + [Flushed])
  {
    assert (g + [Flushed])[..|g|] == g;
  }

  lemma BodyStores(s: Setting, f: Trace, g: Trace, sub: Span, resume: nat, items: seq<nat>)
    requires Stored(s, f, g)
    ensures var r := s.BodyAt(sub, true, g, resume, items); r.Some? ==> Stored(s, f, r.value.1)
  {
    var target := ResolveTarget(s.volumes, sub.lo, resume, sub.hi);
    if target.Some? {
      var t := target.value;
      var came := Clip(items, SatSub(t.localEnd + 1, t.localStart));
      ItemsKept(s, f, g, t, 0, came);
      FlushStores(s, f, Items(g, s.OneItem(t, true), 0, came));
    }
  }

  lemma SubStores(s: Setting, f: Trace, g: Trace, sub: Span)
    requires Stored(s, f, g)
    ensures Stored(s, f, s.SubAt(true, g, sub).2)
  {
    var keep, body := (h: Trace) => Stored(s, f, h), s.OneBody(sub, true);
    forall h: Trace, r: nat, items: seq<nat> ensures Keeps(keep, body, h, r, items) {
      if keep(h) { BodyStores(s, f, h, sub, r, items); }
    }
    AttemptsKeep(keep, g, body, sub, 0, For(s.answers, sub.lo));
    var (ok, d, h) := Attempts(g, body, sub, 0, For(s.answers, sub.lo));
    assert keep(h);
    assert (h + [Settled(sub, sub.lo + d)])[..|h|] == h;
  }

  lemma {:induction false} SpanStores(s: Setting, f: Trace, g: Trace, subs: seq<Span>, at: nat)
    requires Stored(s, f, g)
    ensures Stored(s, f, SubSpans(g, s.OneSub(true), subs, at).2)
    decreases |subs|
  {
    if subs != [] {
      SubStores(s, f, g, subs[0]);
      var (ok, d, h) := s.SubAt(true, g, subs[0]);
      assert s.OneSub(true)(g, subs[0]) == (ok, d, h);
      if ok { SpanStores(s, f, h, subs[1..], subs[0].lo + d); }
    }
  }

  /** The events lie between the ends of the stretch they span. */
  lemma {:induction false} SpanningInside(tr: Trace, a: nat, b: nat, k: nat)
    requires Spanning(tr, a, b) && k < |tr| && tr[k].Item?
    ensures a <= tr[k].at && tr[k].at + |tr[k].data| <= b
    decreases |tr|
  {
    var e, before := tr[|tr| - 1], tr[..|tr| - 1];
    SpanningOrder(before, a, StartOf(e, b));
    if k < |tr| - 1 {
      SpanningOrder([e], StartOf(e, b), b) by { assert [e][..0] == []; }
      assert before[k] == tr[k];
      SpanningInside(before, a, StartOf(e, b), k);
    }
  }

  /** Kept items between two blocks none of which was whole. */
  lemma {:induction false} FrugalOn(s: Setting, f: Trace, g: Trace, a: nat, b: nat)
    requires s.g.Ok() && Frugal(s, f) && KeptFrom(f, g) && Spanning(g[|f|..], a, b)
    requires forall x: nat :: a <= x < b ==> !WholeBlock(s.g, s.disk.written, s.g.Index(x))
    ensures Frugal(s, g)
    decreases |g|
  {
    if g != f {
      var e, before, tail := g[|g| - 1], g[..|g| - 1], g[|f|..];
      assert tail[|tail| - 1] == e && tail[..|tail| - 1] == before[|f|..];
      SpanningOrder(before[|f|..], a, StartOf(e, b));
      SpanningOrder([e], StartOf(e, b), b) by { assert [e][..0] == []; }
      FrugalOn(s, f, before, a, StartOf(e, b));
      if e.Item? { SpanningInside(tail, a, b, |tail| - 1); }
    }
  }

  /** A stretch served: `Got`, and nothing asked for in vain or left unstored. */
  ghost predicate Served(f: Trace, g: Trace, origin: seq<Byte>, s: Setting, a: nat, b: nat)
    requires s.g.Ok()
  {
    Got(f, g, origin, s, a, b) && Frugal(s, g) && Replay(s.disk, g).buf == []
  }

  ghost function Serving(origin: seq<Byte>, s: Setting): (Trace, Trace, nat, nat) -> bool
    requires s.g.Ok()
  {
    (f: Trace, g: Trace, a: nat, b: nat) => Served(f, g, origin, s, a, b)
  }

  lemma ServingLawful(origin: seq<Byte>, s: Setting)
    requires s.g.Ok()
    ensures Lawful(Serving(origin, s))
  {
    var got := Serving(origin, s);
    forall f: Trace, g: Trace, h: Trace, a: nat, m: nat, b: nat ensures Joins(got, f, g, h, a, m, b) {
      if got(f, g, a, m) && got(g, h, m, b) { GotJoins(f, g, h, origin, s, a, m, b); }
    }
    forall f: Trace, g: Trace, a: nat, b: nat ensures Rests(got, f, g, a, b) {
      if got(f, g, a, b) { GotRests(f, g, origin, s, a, b); }
    }
  }

  /** A run of hits is read back. */
  lemma HitServed(s: Setting, origin: seq<Byte>, f: Trace, i: nat, j: nat) returns (h: Trace)
    requires Of(s, origin) && i <= j < s.g.Blocks() && Served(f, f, origin, s, s.g.Start(i), s.g.Start(i)) && i !in s.bad
    requires forall k :: i <= k <= j ==> s.HitAt(f, k)
    ensures s.ServeAt(f, i, j, true) == (true, s.g.End(j), h) && Served(f, h, origin, s, s.g.Start(i), s.g.End(j))
  {
    h := ReadRunGot(s, origin, f, i, j);
    assert h[|h| - 1].Read? && h[..|h| - 1] == f;
    forall x: nat | s.g.Start(i) <= x < s.g.End(j) ensures x in Replay(s.disk, f).written { HitWritten(s, f, i, j, x); }
  }

  /** No byte of a run of misses lay in a whole block. */
  lemma MissedRun(s: Setting, f: Trace, i: nat, j: nat, x: nat)
    requires s.g.Ok() && i <= j < s.g.Blocks() && s.g.Start(i) <= x < s.g.End(j) && forall k :: i <= k <= j ==> !s.HitAt(f, k)
    ensures !WholeBlock(s.g, s.disk.written, s.g.Index(x))
  {
    BlockShape(s.g, j);
    var k := s.g.Index(x);
    BlockOf(s.g, x, k);
    BlockOf(s.g, x, i);
    BlockOf(s.g, x, j);
    assert !s.HitAt(f, k);
    var y: nat :| s.g.Start(k) <= y < s.g.End(k) && y !in Replay(s.disk, f).written;
    ReplayGrows(s.disk, f, y);
  }

  /** A run of misses is fetched, kept and stored. */
  lemma MissServed(s: Setting, origin: seq<Byte>, f: Trace, i: nat, j: nat) returns (ok: bool, r: nat, h: Trace)
    requires Of(s, origin) && i <= j < s.g.Blocks() && Served(f, f, origin, s, s.g.Start(i), s.g.Start(i))
    requires forall k :: i <= k <= j ==> !s.HitAt(f, k)
    ensures s.ServeAt(f, i, j, false) == (ok, r, h) && r <= s.g.End(j)
    ensures Served(f, h, origin, s, s.g.Start(i), if ok then s.g.End(j) else r)
  {
    ok, r, h := FetchRunGot(s, origin, f, i, j, false);
    var from := s.g.Start(i);
    SpanStores(s, f, f, Slices(s.volumes, from, SatSub(s.g.End(j), 1)), from);
    forall x: nat | from <= x < s.g.End(j) ensures !WholeBlock(s.g, s.disk.written, s.g.Index(x)) { MissedRun(s, f, i, j, x); }
    FrugalOn(s, f, h, from, if ok then s.g.End(j) else r);
  }

  lemma RunServed(s: Setting, origin: seq<Byte>, f: Trace, i: nat, j: nat) returns (ok: bool, r: nat, h: Trace)
    requires Of(s, origin) && s.bad == {} && i <= j < s.g.Blocks() && Served(f, f, origin, s, s.g.Start(i), s.g.Start(i))
    requires forall k :: i <= k <= j ==> s.HitAt(f, k) == s.HitAt(f, i)
    ensures s.ServeAt(f, i, j, s.HitAt(f, i)) == (ok, r, h) && r <= s.g.End(j)
    ensures Served(f, h, origin, s, s.g.Start(i), if ok then s.g.End(j) else r)
  {
    if s.HitAt(f, i) {
      ok, r := true, s.g.End(j);
      h := HitServed(s, origin, f, i, j);
    } else {
      ok, r, h := MissServed(s, origin, f, i, j);
    }
  }

  lemma AllServed(s: Setting, origin: seq<Byte>)
    requires Of(s, origin) && s.bad == {}
    ensures forall f: Trace, i: nat, j: nat :: Serves(Serving(origin, s), s.g, s.Hit(), s.ServeRun(), f, i, j)
  {
    var got, hit, serve := Serving(origin, s), s.Hit(), s.ServeRun();
    forall f: Trace, i: nat, j: nat ensures Serves(got, s.g, hit, serve, f, i, j) {
      if got(f, f, s.g.Start(i), s.g.Start(i)) && i <= j < s.g.Blocks() && forall k :: i <= k <= j ==> hit(f, k) == hit(f, i) {
        forall k | i <= k <= j ensures s.HitAt(f, k) == s.HitAt(f, i) { assert hit(f, k) == hit(f, i); }
        var ok, r, h := RunServed(s, origin, f, i, j);
        ServesBy(got, s.g, hit, serve, f, i, j, ok, r, h);
      }
    }
  }

  lemma ChunkServed(s: Setting, origin: seq<Byte>) returns (ok: bool, first: nat, last: nat, r: nat, h: Trace)
    requires Of(s, origin) && s.bad == {} && s.disk.buf == [] && s.chunk.hi < |origin|
    ensures first == s.chunk.lo / s.g.bs && last == s.chunk.hi / s.g.bs && first <= last < s.g.Blocks()
    ensures s.FetchCached().0 == ok && s.FetchCached().2 == h
    ensures Served([], h, origin, s, s.g.Start(first), if ok then s.g.End(last) else r)
  {
    first, last := s.chunk.lo / s.g.bs, s.chunk.hi / s.g.bs;
    ChunkBlocks(s.g, s.chunk, first, last);
    var got, from := Serving(origin, s), s.g.Start(first);
    var z := Runs([], s.Hit(), s.ServeRun(), first, last, from);
    ok, r, h := z.0, z.1, z.2;
    ServingLawful(origin, s);
    AllServed(s, origin);
    BlockShape(s.g, first);
    assert got([], [], from, from);
    RunsFollow(got, [], s.g, s.Hit(), s.ServeRun(), first, last, from);
    assert got([], h, from, if ok then s.g.End(last) else r);
  }

  lemma {:induction false} FrugalItem(s: Setting, tr: Trace, k: nat)
    requires s.g.Ok() && Frugal(s, tr) && k < |tr| && tr[k].Item?
    ensures tr[k].kept
    ensures forall x: nat :: tr[k].at <= x < tr[k].at + |tr[k].data| ==> !WholeBlock(s.g, s.disk.written, s.g.Index(x))
    decreases |tr|
  {
    if k < |tr| - 1 {
      assert tr[..|tr| - 1][k] == tr[k];
      FrugalItem(s, tr[..|tr| - 1], k);
    }
  }

  /** While the disk can be read, every byte that comes from the origin is kept, and
      lies in a block that was not whole. */
  lemma OnlyMissesAsked(s: Setting, origin: seq<Byte>, k: nat)
    requires Of(s, origin) && s.bad == {} && s.disk.buf == [] && s.chunk.hi < |origin|
    requires k < |s.FetchCached().2| && s.FetchCached().2[k].Item?
    ensures var e := s.FetchCached().2[k];
            e.kept && forall x: nat :: e.at <= x < e.at + |e.data| ==> !WholeBlock(s.g, s.disk.written, s.g.Index(x))
  {
    var ok, first, last, r, h := ChunkServed(s, origin);
    FrugalItem(s, h, k);
  }

  // ---- the next time ----

  /** Each sub-span reported as fetched ended on a body that brought all that was
      still asked for. */
  ghost predicate AllFull(tr: Trace, s: Setting) {
    forall k :: 0 <= k < |tr| && tr[k].Settled? ==> EndsFull(Asked(tr[k].sub), For(s.answers, tr[k].sub.lo))
  }

  lemma FullClosed(e: Event, origin: seq<Byte>, s: Setting)
    requires EventOk(e, origin, s) && e.Settled? && EndsFull(Asked(e.sub), For(s.answers, e.sub.lo))
    ensures e.from == e.sub.hi + 1
  {
    CourseExact(Asked(e.sub), 0, For(s.answers, e.sub.lo));
  }

  /** Whatever a frugal trace without gaps spans is on disk or in the buffer. */
  lemma {:induction false} SpannedAccepted(s: Setting, tr: Trace, origin: seq<Byte>, a: nat, b: nat, x: nat)
    requires s.g.Ok() && Transparency.Genuine(tr, origin, s) && Spanning(tr, a, b) && Frugal(s, tr) && AllFull(tr, s)
    requires a <= x < b && x < s.disk.total
    ensures Accepted(Replay(s.disk, tr), x)
    decreases |tr|
  {
    var e, before := tr[|tr| - 1], tr[..|tr| - 1];
    assert EventOk(e, origin, s) && Transparency.Genuine(before, origin, s);
    assert forall k :: 0 <= k < |before| ==> before[k] == tr[k];
    var d := Replay(s.disk, before);
    ReplayGrows(s.disk, before, x);
    if e.Settled? { FullClosed(e, origin, s); }
    if x < StartOf(e, b) { SpannedAccepted(s, before, origin, a, StartOf(e, b), x); }
    match e {
      case Item(at, data, _) => WriteAccepts(d, Op(at, data, true), x);
      case Flushed => FlushAccepts(d, x);
      case _ =>
    }
  }

  /** After a fetch that succeeds, all its bodies full, every block of the chunk is
      on disk: the same chunk is served again without the origin. */
  lemma SecondTimeLocal(s: Setting, origin: seq<Byte>, later: Answers)
    requires Of(s, origin) && s.bad == {} && s.disk.buf == [] && s.chunk.hi < |origin|
    requires s.FetchCached().0 && AllFull(s.FetchCached().2, s)
    ensures var next := s.(disk := Replay(s.disk, s.FetchCached().2), answers := later);
            var (ok, _, h) := next.FetchCached();
            && OnDisk(next) && ok && Received(h, s.chunk) == origin[s.chunk.lo..s.chunk.hi + 1]
            && forall i :: 0 <= i < |h| ==> h[i].Read?
  {
    var ok, first, last, r, tr := ChunkServed(s, origin);
    var next := s.(disk := Replay(s.disk, tr), answers := later);
    ReplayGrows(s.disk, tr, 0);
    ReplayClean(s.disk, tr, origin, s);
    assert tr[0..] == tr;
    forall x: nat | x < s.g.total && first <= x / s.g.bs <= last ensures x in next.disk.written {
      BlockOf(s.g, x, first);
      BlockOf(s.g, x, last);
      SpannedAccepted(s, tr, origin, s.g.Start(first), s.g.End(last), x);
    }
    HitsAreLocal(next, origin);
  }
}
