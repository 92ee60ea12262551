/** The cache is transparent: through hits, misses, failed disk reads, broken
    transfers and volume boundaries a chunk comes out exactly as the origin has
    it, unless a body that ended cleanly was short where the chunk wants it; and
    whatever is answered, the cache is left with nothing but the origin's bytes. */
module Transparency {
  import opened Spans
  import opened SchedLaws
  import opened RunModel
  import opened Plan
  import opened Cache
  import opened Coalescer
  import opened CachedFetch

  // ---- traces ----

  ghost predicate EventOk(e: Event, origin: seq<Byte>, s: Setting) {
    match e
    case Item(at, data, _) => at + |data| <= |origin| && data == origin[at..at + |data|]
    case Flushed => true
    case Read(from, end, data) => from <= end <= |origin| && data == Shown(origin, from, end, s.chunk)
    case Settled(sub, from) =>
      sub.lo <= from <= sub.hi + 1 <= |origin| && (true, from - sub.lo) == Course(Asked(sub), 0, For(s.answers, sub.lo))
  }

  ghost predicate Genuine(tr: Trace, origin: seq<Byte>, s: Setting) {
    forall i :: 0 <= i < |tr| ==> EventOk(tr[i], origin, s)
  }

  function StartOf(e: Event, b: nat): nat {
    match e case Item(at, _, _) => at case Flushed => b case Read(from, _, _) => from case Settled(_, from) => from
  }

  predicate EndsAt(e: Event, b: nat) {
    match e
    case Item(at, data, _) => at + |data| == b
    case Flushed => true
    case Read(from, end, _) => from <= end == b
    case Settled(sub, from) => from <= sub.hi + 1 == b
  }

  /** The events run from `a` to `b` without overlap, and without a gap but those
      that a settled sub-span names. */
  predicate Spanning(tr: Trace, a: nat, b: nat)
    decreases |tr|
  {
    if tr == [] then a == b
    else EndsAt(tr[|tr| - 1], b) && Spanning(tr[..|tr| - 1], a, StartOf(tr[|tr| - 1], b))
  }

  lemma {:induction false} SpanningConcat(p: Trace, q: Trace, a: nat, m: nat, b: nat)
    requires Spanning(p, a, m) && Spanning(q, m, b)
    ensures Spanning(p + q, a, b)
    decreases |q|
  {
    if q == [] {
      assert p + q == p;
    } else {
      var e := q[|q| - 1];
      assert (p + q)[..|p + q| - 1] == p + q[..|q| - 1] && (p + q)[|p + q| - 1] == e;
      SpanningConcat(p, q[..|q| - 1], a, m, StartOf(e, b));
    }
  }

  lemma {:induction false} SpanningOrder(tr: Trace, a: nat, b: nat)
    requires Spanning(tr, a, b)
    ensures a <= b
    decreases |tr|
  {
    if tr != [] { SpanningOrder(tr[..|tr| - 1], a, StartOf(tr[|tr| - 1], b)); }
  }

  /** What the chunk wants of `[from, end)`. */
  function Wanted(from: nat, end: nat, chunk: Span): nat { SatSub(Min(end, chunk.hi + 1), Max(from, chunk.lo)) }

  /** By the time the attempts for a sub-span end, all that the chunk wants of it has come. */
  predicate Delivers(s: Setting, sub: Span) {
    Wanted(sub.lo + Course(Asked(sub), 0, For(s.answers, sub.lo)).1, sub.hi + 1, s.chunk) == 0
  }

  /** That is so when the body they ended on brought all that was still asked for,
      and, for a sub-span within the chunk, only then. */
  lemma DeliversExact(s: Setting, sub: Span)
    requires sub.lo <= sub.hi && Course(Asked(sub), 0, For(s.answers, sub.lo)).0
    ensures EndsFull(Asked(sub), For(s.answers, sub.lo)) ==> Delivers(s, sub)
    ensures s.chunk.lo <= sub.lo && sub.hi <= s.chunk.hi ==>
              (Delivers(s, sub) <==> EndsFull(Asked(sub), For(s.answers, sub.lo)))
  {
    CourseExact(Asked(sub), 0, For(s.answers, sub.lo));
  }

  /** Every sub-span reported as fetched had what the chunk wants of it. */
  ghost predicate NoGap(tr: Trace, s: Setting) {
    forall i :: 0 <= i < |tr| && tr[i].Settled? ==> Delivers(s, tr[i].sub)
  }

  lemma SendsExact(e: Event, origin: seq<Byte>, s: Setting, b: nat)
    requires EventOk(e, origin, s) && EndsAt(e, b) && b <= |origin| && StartOf(e, b) <= b
    ensures var shown := Shown(origin, StartOf(e, b), b, s.chunk);
            if e.Settled? && !Delivers(s, e.sub) then |Sends(e, s.chunk)| < |shown| else Sends(e, s.chunk) == shown
  {
    if e.Item? { OutgoingIs(origin, e.at, e.data, s.chunk); }
  }

  /** What a genuine trace over `[a, b)` sends is what the chunk wants of it, exactly
      when each sub-span it settled had what the chunk wants; else it is too short. */
  lemma {:induction false} ReceivedExact(tr: Trace, origin: seq<Byte>, s: Setting, a: nat, b: nat)
    requires Genuine(tr, origin, s) && Spanning(tr, a, b) && b <= |origin|
    ensures NoGap(tr, s) ==> Received(tr, s.chunk) == Shown(origin, a, b, s.chunk)
    ensures !NoGap(tr, s) ==> |Received(tr, s.chunk)| < |Shown(origin, a, b, s.chunk)|
    decreases |tr|
  {
    if tr != [] {
      var e, before := tr[|tr| - 1], tr[..|tr| - 1];
      assert tr == before + [e];
      var m := StartOf(e, b);
      assert EventOk(e, origin, s) && Genuine(before, origin, s);
      SpanningOrder(before, a, m);
      SpanningOrder([e], m, b) by { assert [e][..0] == []; }
      ReceivedExact(before, origin, s, a, m);
      SendsExact(e, origin, s, b);
      ShownJoin(origin, a, m, b, s.chunk);
      GapLast(before, e, s);
    }
  }

  lemma GapLast(before: Trace, e: Event, s: Setting)
    ensures NoGap(before + [e], s) <==> NoGap(before, s) && (e.Settled? ==> Delivers(s, e.sub))
  {
    var tr := before + [e];
    assert tr[|before|] == e && forall i :: 0 <= i < |before| ==> tr[i] == before[i];
  }

  /** A genuine trace leaves the cache with nothing but the origin's bytes. */
  lemma {:induction false} ReplayClean(disk: Stage, tr: Trace, origin: seq<Byte>, s: Setting)
    requires Clean(disk, origin) && Genuine(tr, origin, s)
    ensures Clean(Replay(disk, tr), origin)
    decreases |tr|
  {
    if tr != [] {
      var e, before := tr[|tr| - 1], tr[..|tr| - 1];
      assert EventOk(e, origin, s) && Genuine(before, origin, s);
      ReplayClean(disk, before, origin, s);
      var d := Replay(disk, before);
      match e {
        case Item(at, data, kept) => if kept { WriteClean(d, Op(at, data, true), origin); }
        case Flushed => FlushClean(d, origin);
        case Read(_, _, _) =>
        case Settled(_, _) =>
      }
    }
  }

  // ---- what a fetch adds to a trace ----

  /** `g` goes on from `f` with genuine events over `[a, b)`. */
  ghost predicate Got(f: Trace, g: Trace, origin: seq<Byte>, s: Setting, a: nat, b: nat) {
    f <= g && b <= |origin| && Genuine(g, origin, s) && Spanning(g[|f|..], a, b)
  }

  ghost function Relation(origin: seq<Byte>, s: Setting): (Trace, Trace, nat, nat) -> bool {
    (f: Trace, g: Trace, a: nat, b: nat) => Got(f, g, origin, s, a, b)
  }

  lemma GotJoins(f: Trace, g: Trace, h: Trace, origin: seq<Byte>, s: Setting, a: nat, m: nat, b: nat)
    requires Got(f, g, origin, s, a, m) && Got(g, h, origin, s, m, b)
    ensures Got(f, h, origin, s, a, b)
  {
    assert h[|f|..] == g[|f|..] + h[|g|..];
    SpanningConcat(g[|f|..], h[|g|..], a, m, b);
  }

  lemma GotRests(f: Trace, g: Trace, origin: seq<Byte>, s: Setting, a: nat, b: nat)
    requires Got(f, g, origin, s, a, b)
    ensures Got(g, g, origin, s, b, b)
  {
    assert g[|g|..] == [];
  }

  lemma GotEvent(f: Trace, e: Event, origin: seq<Byte>, s: Setting, a: nat, b: nat)
    requires Genuine(f, origin, s) && EventOk(e, origin, s) && EndsAt(e, b) && StartOf(e, b) == a && b <= |origin|
    ensures Got(f, f + [e], origin, s, a, b)
  {
    assert (f + [e])[|f|..] == [e] && [e][..0] == [];
  }

  lemma RelationLawful(origin: seq<Byte>, s: Setting)
    ensures Lawful(Relation(origin, s))
  {
    var got := Relation(origin, s);
    forall f: Trace, g: Trace, h: Trace, a: nat, m: nat, b: nat ensures Joins(got, f, g, h, a, m, b) {
      if got(f, g, a, m) && got(g, h, m, b) { GotJoins(f, g, h, origin, s, a, m, b); }
    }
    forall f: Trace, g: Trace, a: nat, b: nat ensures Rests(got, f, g, a, b) {
      if got(f, g, a, b) { GotRests(f, g, origin, s, a, b); }
    }
  }

  /** The setting is the origin's: its volumes, its size, and a cache of the same
      size with only its bytes. */
  ghost predicate Of(s: Setting, origin: seq<Byte>) {
    && Backs(s.volumes, s.parts, origin) && (s.volumes.Some? ==> TotalSize(s.volumes.value) == |origin|)
    && s.g.Ok() && s.g.total == s.disk.total == |origin| && s.chunk.lo <= s.chunk.hi && Clean(s.disk, origin)
  }

  // ---- items and bodies ----

  lemma MovesBy<S(!new)>(got: (S, S, nat, nat) -> bool, item: (S, nat, nat) -> S, at: nat, total: nat, f: S, done: nat, n: nat, h: S)
    requires item(f, done, n) == h && got(f, h, at + done, at + (done + n))
    ensures Moves(got, item, at, total, f, done, n)
  {
  }

  lemma ItemMoves(s: Setting, origin: seq<Byte>, t: Target, kept: bool, total: nat, f: Trace, done: nat, n: nat)
    requires Local(s.parts, origin, t.volume, t.localStart, t.mergedStart, t.mergedStart + total)
    ensures Moves(Relation(origin, s), s.OneItem(t, kept), t.mergedStart, total, f, done, n)
  {
    var got, at := Relation(origin, s), t.mergedStart + done;
    if got(f, f, at, at) && done + n <= total {
      LocalItem(s.parts, origin, t, done, n, total);
      GotEvent(f, Item(at, Fetched(s.parts, t.volume, t.localStart + done, n), kept), origin, s, at, at + n);
      MovesBy(got, s.OneItem(t, kept), t.mergedStart, total, f, done, n, s.ItemAt(t, kept, f, done, n));
    }
  }

  lemma AllMoves(s: Setting, origin: seq<Byte>, t: Target, kept: bool, total: nat)
    requires Local(s.parts, origin, t.volume, t.localStart, t.mergedStart, t.mergedStart + total)
    ensures forall f: Trace, d: nat, n: nat :: Moves(Relation(origin, s), s.OneItem(t, kept), t.mergedStart, total, f, d, n)
  {
    forall f: Trace, d: nat, n: nat ensures Moves(Relation(origin, s), s.OneItem(t, kept), t.mergedStart, total, f, d, n) {
      ItemMoves(s, origin, t, kept, total, f, d, n);
    }
  }

  lemma LocalPrefix(parts: seq<seq<Byte>>, origin: seq<Byte>, t: Target, at: nat, m: nat, end: nat)
    requires Local(parts, origin, t.volume, t.localStart, at, end) && at <= m <= end
    ensures Local(parts, origin, t.volume, t.localStart, at, m)
  {
  }

  /** The items of one body from where it resumed. */
  lemma ItemsGot(s: Setting, origin: seq<Byte>, t: Target, kept: bool, f: Trace, items: seq<nat>) returns (h: Trace)
    requires Local(s.parts, origin, t.volume, t.localStart, t.mergedStart, t.mergedStart + Sum(items))
    requires Got(f, f, origin, s, t.mergedStart, t.mergedStart)
    ensures h == Items(f, s.OneItem(t, kept), 0, items)
    ensures Got(f, h, origin, s, t.mergedStart, t.mergedStart + Sum(items))
  {
    var got := Relation(origin, s);
    RelationLawful(origin, s);
    AllMoves(s, origin, t, kept, Sum(items));
    h := Items(f, s.OneItem(t, kept), 0, items);
    assert got(f, f, t.mergedStart, t.mergedStart);
    ItemsFollow(got, f, s.OneItem(t, kept), t.mergedStart, 0, items, Sum(items));
    assert got(f, h, t.mergedStart, t.mergedStart + Sum(items));
  }

  /** And the flush after them. */
  lemma FlushedGot(f: Trace, g: Trace, origin: seq<Byte>, s: Setting, a: nat, b: nat)
    requires Got(f, g, origin, s, a, b)
    ensures Got(f, g + [Flushed], origin, s, a, b)
  {
    GotEvent(g, Flushed, origin, s, b, b);
    GotJoins(f, g, g + [Flushed], origin, s, a, b, b);
  }

  /** The request for the rest of a sub-span, aimed at the right bytes. */
  ghost predicate Aimed(s: Setting, origin: seq<Byte>, sub: Span, resume: nat, t: Target) {
    && sub.lo <= resume <= sub.hi && ResolveTarget(s.volumes, sub.lo, resume, sub.hi) == Some(t) && t.mergedStart == resume
    && SatSub(t.localEnd + 1, t.localStart) == sub.hi + 1 - resume
    && Local(s.parts, origin, t.volume, t.localStart, resume, sub.hi + 1)
  }

  lemma Aim(s: Setting, origin: seq<Byte>, sub: Span, resume: nat) returns (t: Target)
    requires Placed(s.volumes, s.parts, origin, sub) && sub.lo <= resume <= sub.hi
    ensures Aimed(s, origin, sub, resume, t)
  {
    TargetLaw(s.volumes, s.parts, origin, sub, resume);
    t := ResolveTarget(s.volumes, sub.lo, resume, sub.hi).value;
  }

  lemma BodyIs(s: Setting, sub: Span, kept: bool, f: Trace, resume: nat, items: seq<nat>, t: Target, left: nat, all: Trace)
    requires ResolveTarget(s.volumes, sub.lo, resume, sub.hi) == Some(t) && SatSub(t.localEnd + 1, t.localStart) == left
    requires all == Items(f, s.OneItem(t, kept), 0, Clip(items, left))
    ensures s.BodyAt(sub, kept, f, resume, items) == Some((Sum(Clip(items, left)), all + [Flushed]))
  {
  }

  lemma BodyFrom(s: Setting, origin: seq<Byte>, t: Target, kept: bool, f: Trace, came: seq<nat>) returns (h: Trace)
    requires Local(s.parts, origin, t.volume, t.localStart, t.mergedStart, t.mergedStart + Sum(came))
    requires Got(f, f, origin, s, t.mergedStart, t.mergedStart)
    ensures h == Items(f, s.OneItem(t, kept), 0, came) + [Flushed]
    ensures Got(f, h, origin, s, t.mergedStart, t.mergedStart + Sum(came))
  {
    var all := ItemsGot(s, origin, t, kept, f, came);
    h := all + [Flushed];
    FlushedGot(f, all, origin, s, t.mergedStart, t.mergedStart + Sum(came));
  }

  /** One body from where it resumed. */
  lemma BodyAtGot(s: Setting, origin: seq<Byte>, sub: Span, kept: bool, f: Trace, resume: nat, items: seq<nat>, t: Target)
    returns (n: nat, h: Trace)
    requires Aimed(s, origin, sub, resume, t) && Got(f, f, origin, s, resume, resume)
    ensures s.BodyAt(sub, kept, f, resume, items) == Some((n, h)) && n == Min(Sum(items), sub.hi + 1 - resume)
    ensures Got(f, h, origin, s, resume, resume + n)
  {
    var came := Clip(items, sub.hi + 1 - resume);
    n := Sum(came);
    LocalPrefix(s.parts, origin, t, resume, resume + n, sub.hi + 1);
    h := BodyFrom(s, origin, t, kept, f, came);
    BodyIs(s, sub, kept, f, resume, items, t, sub.hi + 1 - resume, Items(f, s.OneItem(t, kept), 0, came));
  }

  lemma BodiesBy<S(!new)>(got: (S, S, nat, nat) -> bool, body: (S, nat, seq<nat>) -> Option<(nat, S)>, sub: Span, f: S,
                          resume: nat, items: seq<nat>, n: nat, h: S)
    requires resume <= sub.hi && body(f, resume, items) == Some((n, h)) && n == Min(Sum(items), sub.hi + 1 - resume)
    requires got(f, h, resume, resume + n)
    ensures Bodies(got, body, sub, f, resume, items)
  {
  }

  lemma AllBodies(s: Setting, origin: seq<Byte>, sub: Span, kept: bool)
    requires Placed(s.volumes, s.parts, origin, sub)
    ensures forall f: Trace, r: nat, items: seq<nat> :: Bodies(Relation(origin, s), s.OneBody(sub, kept), sub, f, r, items)
  {
    var got, body := Relation(origin, s), s.OneBody(sub, kept);
    forall f: Trace, r: nat, items: seq<nat> ensures Bodies(got, body, sub, f, r, items) {
      if got(f, f, r, r) && sub.lo <= r <= sub.hi {
        var t := Aim(s, origin, sub, r);
        var n, h := BodyAtGot(s, origin, sub, kept, f, r, items, t);
        BodiesBy(got, body, sub, f, r, items, n, h);
      }
    }
  }

  // ---- sub-spans and spans ----

  lemma AttemptsGot<S(!new)>(got: (S, S, nat, nat) -> bool, f: S, body: (S, nat, seq<nat>) -> Option<(nat, S)>, sub: Span,
                             attempts: seq<Attempt>) returns (ok: bool, d: nat, h: S)
    requires Lawful(got) && sub.lo <= sub.hi && got(f, f, sub.lo, sub.lo)
    requires forall g: S, r: nat, items: seq<nat> :: Bodies(got, body, sub, g, r, items)
    ensures Attempts(f, body, sub, 0, attempts) == (ok, d, h) && sub.lo + d <= sub.hi + 1
    ensures (ok, d) == Course(Asked(sub), 0, attempts) && got(f, h, sub.lo, sub.lo + d)
  {
    var r := Attempts(f, body, sub, 0, attempts);
    ok, d, h := r.0, r.1, r.2;
    AttemptsFollow(got, f, body, sub, 0, attempts);
  }

  lemma SettledOk(s: Setting, origin: seq<Byte>, sub: Span, d: nat)
    requires sub.lo + d <= sub.hi + 1 <= |origin| && (true, d) == Course(Asked(sub), 0, For(s.answers, sub.lo))
    ensures EventOk(Settled(sub, sub.lo + d), origin, s)
  {
  }

  /** A sub-span that is reported as fetched closes its range. */
  lemma SettledGot(f: Trace, h: Trace, origin: seq<Byte>, s: Setting, sub: Span, from: nat)
    requires Got(f, h, origin, s, sub.lo, from) && EventOk(Settled(sub, from), origin, s)
    ensures Got(f, h + [Settled(sub, from)], origin, s, sub.lo, sub.hi + 1)
  {
    GotEvent(h, Settled(sub, from), origin, s, from, sub.hi + 1);
    GotJoins(f, h, h + [Settled(sub, from)], origin, s, sub.lo, from, sub.hi + 1);
  }

  lemma SubAttemptsGot(s: Setting, origin: seq<Byte>, sub: Span, kept: bool, f: Trace) returns (ok: bool, d: nat, before: Trace)
    requires Of(s, origin) && Placed(s.volumes, s.parts, origin, sub) && Got(f, f, origin, s, sub.lo, sub.lo)
    ensures (ok, d, before) == Attempts(f, s.OneBody(sub, kept), sub, 0, For(s.answers, sub.lo))
    ensures (ok, d) == Course(Asked(sub), 0, For(s.answers, sub.lo)) && sub.lo + d <= sub.hi + 1
    ensures Got(f, before, origin, s, sub.lo, sub.lo + d)
  {
    var got := Relation(origin, s);
    RelationLawful(origin, s);
    AllBodies(s, origin, sub, kept);
    assert got(f, f, sub.lo, sub.lo);
    ok, d, before := AttemptsGot(got, f, s.OneBody(sub, kept), sub, For(s.answers, sub.lo));
    assert got(f, before, sub.lo, sub.lo + d);
  }

  lemma SubAtIs(s: Setting, sub: Span, kept: bool, f: Trace, ok: bool, d: nat, before: Trace)
    requires (ok, d, before) == Attempts(f, s.OneBody(sub, kept), sub, 0, For(s.answers, sub.lo))
    ensures s.SubAt(kept, f, sub) == (ok, d, if ok then before + [Settled(sub, sub.lo + d)] else before)
  {
  }

  lemma SubClosed(s: Setting, origin: seq<Byte>, sub: Span, f: Trace, ok: bool, d: nat, before: Trace) returns (h: Trace)
    requires Got(f, before, origin, s, sub.lo, sub.lo + d) && sub.lo + d <= sub.hi + 1 <= |origin|
    requires (ok, d) == Course(Asked(sub), 0, For(s.answers, sub.lo))
    ensures h == if ok then before + [Settled(sub, sub.lo + d)] else before
    ensures Got(f, h, origin, s, sub.lo, if ok then sub.hi + 1 else sub.lo + d)
  {
    h := if ok then before + [Settled(sub, sub.lo + d)] else before;
    if ok {
      SettledOk(s, origin, sub, d);
      SettledGot(f, before, origin, s, sub, sub.lo + d);
    }
  }

  /** A sub-span's attempts, by the numbers and by what they add to the trace. */
  lemma SubAtGot(s: Setting, origin: seq<Byte>, sub: Span, kept: bool, f: Trace) returns (ok: bool, d: nat, before: Trace, h: Trace)
    requires Of(s, origin) && Placed(s.volumes, s.parts, origin, sub) && Got(f, f, origin, s, sub.lo, sub.lo)
    ensures (ok, d, before) == Attempts(f, s.OneBody(sub, kept), sub, 0, For(s.answers, sub.lo))
    ensures s.SubAt(kept, f, sub) == (ok, d, h) && (ok, d) == Course(Asked(sub), 0, For(s.answers, sub.lo))
    ensures sub.lo + d <= sub.hi + 1 && Got(f, h, origin, s, sub.lo, if ok then sub.hi + 1 else sub.lo + d)
    ensures h == if ok then before + [Settled(sub, sub.lo + d)] else before
  {
    ok, d, before := SubAttemptsGot(s, origin, sub, kept, f);
    SubAtIs(s, sub, kept, f, ok, d, before);
    h := SubClosed(s, origin, sub, f, ok, d, before);
  }

  /** A sub-span that is reported as fetched was fetched whole exactly when the body
      it ended on brought all that was still asked for. */
  lemma SubSpanExact(s: Setting, origin: seq<Byte>, sub: Span, kept: bool, f: Trace)
    requires Of(s, origin) && Placed(s.volumes, s.parts, origin, sub) && Got(f, f, origin, s, sub.lo, sub.lo)
    ensures var (ok, d, h) := s.SubAt(kept, f, sub);
            ok ==> h != [] && h[|h| - 1] == Settled(sub, sub.lo + d)
                   && (sub.lo + d == sub.hi + 1 <==> EndsFull(Asked(sub), For(s.answers, sub.lo)))
  {
    var ok, d, before, h := SubAtGot(s, origin, sub, kept, f);
    CourseExact(Asked(sub), 0, For(s.answers, sub.lo));
  }

  lemma FetchesBy<S(!new)>(got: (S, S, nat, nat) -> bool, fetch: (S, Span) -> (bool, nat, S), sub: Span, f: S, ok: bool, d: nat, h: S)
    requires fetch(f, sub) == (ok, d, h) && sub.lo + d <= sub.hi + 1
    requires got(f, h, sub.lo, if ok then sub.hi + 1 else sub.lo + d)
    ensures Fetches(got, fetch, sub, f)
  {
  }

  lemma SubGot(s: Setting, origin: seq<Byte>, sub: Span, kept: bool, f: Trace)
    requires Of(s, origin) && Placed(s.volumes, s.parts, origin, sub)
    ensures Fetches(Relation(origin, s), s.OneSub(kept), sub, f)
  {
    var got := Relation(origin, s);
    if got(f, f, sub.lo, sub.lo) {
      var ok, d, before, h := SubAtGot(s, origin, sub, kept, f);
      FetchesBy(got, s.OneSub(kept), sub, f, ok, d, h);
    }
  }

  lemma {:induction false} SubInside(p: seq<Span>, a: nat, b: nat, k: nat)
    requires Chain(p, a, b) && k < |p|
    ensures a <= p[k].lo <= p[k].hi < b
    decreases k
  {
    ChainHas(p[1..], p[0].hi + 1, b, 0);
    if k > 0 { SubInside(p[1..], p[0].hi + 1, b, k - 1); }
  }

  lemma AllSubs(s: Setting, origin: seq<Byte>, kept: bool, from: nat, to: nat)
    requires Of(s, origin) && from <= to < |origin|
    ensures var subs := Slices(s.volumes, from, to);
            && Chain(subs, from, to + 1)
            && forall k, f: Trace :: 0 <= k < |subs| ==> Fetches(Relation(origin, s), s.OneSub(kept), subs[k], f)
  {
    var subs := Slices(s.volumes, from, to);
    SlicesLaw(s.volumes, from, to);
    forall k, f: Trace | 0 <= k < |subs| ensures Fetches(Relation(origin, s), s.OneSub(kept), subs[k], f) {
      SubInside(subs, from, to + 1, k);
      SubGot(s, origin, subs[k], kept, f);
    }
  }

  /** A span of the stream, however many volumes it straddles. */
  lemma SpanGot(s: Setting, origin: seq<Byte>, kept: bool, f: Trace, from: nat, to: nat) returns (ok: bool, r: nat, h: Trace)
    requires Of(s, origin) && from <= to < |origin| && Got(f, f, origin, s, from, from)
    ensures s.FetchSpan(kept, f, from, to) == (ok, r, h) && from <= r <= to + 1
    ensures Got(f, h, origin, s, from, if ok then to + 1 else r)
  {
    var z := s.FetchSpan(kept, f, from, to);
    ok, r, h := z.0, z.1, z.2;
    var got := Relation(origin, s);
    RelationLawful(origin, s);
    AllSubs(s, origin, kept, from, to);
    assert got(f, f, from, from);
    SubSpansFollow(got, f, s.OneSub(kept), Slices(s.volumes, from, to), from, to + 1, from);
    assert got(f, h, from, if ok then to + 1 else r);
  }

  // ---- block runs ----

  lemma {:induction false} ReadIs(file: map<nat, Byte>, written: set<nat>, origin: seq<Byte>, lo: nat, hi: nat)
    requires Pure(file, written, origin) && lo <= hi + 1 <= |origin| && forall x: nat :: lo <= x <= hi ==> x in written
    ensures ReadRange(file, lo, hi) == origin[lo..hi + 1]
    decreases hi + 1 - lo
  {
    if lo <= hi {
      ReadIs(file, written, origin, lo + 1, hi);
      assert origin[lo..hi + 1] == [origin[lo]] + origin[lo + 1..hi + 1];
    }
  }

  lemma RunBounds(g: Geometry, i: nat, j: nat)
    requires g.Ok() && i <= j < g.Blocks()
    ensures g.Start(i) < g.End(j) <= g.total
  {
    BlockShape(g, i);
    BlockShape(g, j);
    Ends(g, i, j);
  }

  /** Blocks of a run that are all complete hold every byte of it. */
  lemma RunWritten(g: Geometry, w: set<nat>, i: nat, j: nat, x: nat)
    requires g.Ok() && i <= j < g.Blocks() && (forall k :: i <= k <= j ==> WholeBlock(g, w, k)) && g.Start(i) <= x < g.End(j)
    ensures x in w
  {
    BlockShape(g, j);
    BlockOf(g, x, x / g.bs);
    BlockOf(g, x, i);
    BlockOf(g, x, j);
    assert WholeBlock(g, w, x / g.bs);
  }

  lemma HitWritten(s: Setting, f: Trace, i: nat, j: nat, x: nat)
    requires s.g.Ok() && i <= j < s.g.Blocks() && s.g.Start(i) <= x < s.g.End(j) && forall k :: i <= k <= j ==> s.HitAt(f, k)
    ensures x in Replay(s.disk, f).written
  {
    var w := Replay(s.disk, f).written;
    forall k | i <= k <= j ensures WholeBlock(s.g, w, k) { assert s.HitAt(f, k); }
    RunWritten(s.g, w, i, j, x);
  }

  /** What is read back of complete blocks is what the chunk wants of them. */
  lemma ReadShown(d: Stage, origin: seq<Byte>, from: nat, end: nat, chunk: Span)
    requires Clean(d, origin) && from < end <= |origin| && forall x: nat :: from <= x < end ==> x in d.written
    ensures ReadRange(d.file, Max(from, chunk.lo), Min(SatSub(end, 1), chunk.hi)) == Shown(origin, from, end, chunk)
  {
    var lo, hi := Max(from, chunk.lo), Min(end - 1, chunk.hi);
    if lo <= hi { ReadIs(d.file, d.written, origin, lo, hi); }
  }

  lemma HitGot(s: Setting, origin: seq<Byte>, f: Trace, i: nat, j: nat)
    requires Of(s, origin) && i <= j < s.g.Blocks() && Got(f, f, origin, s, s.g.Start(i), s.g.Start(i))
    requires forall k :: i <= k <= j ==> s.HitAt(f, k)
    ensures Got(f, s.ReadBack(f, s.g.Start(i), s.g.End(j)), origin, s, s.g.Start(i), s.g.End(j))
  {
    RunBounds(s.g, i, j);
    var from, end, d := s.g.Start(i), s.g.End(j), Replay(s.disk, f);
    ReplayClean(s.disk, f, origin, s);
    forall x: nat | from <= x < end ensures x in d.written { HitWritten(s, f, i, j, x); }
    ReadShown(d, origin, from, end, s.chunk);
    GotEvent(f, Read(from, end, Shown(origin, from, end, s.chunk)), origin, s, from, end);
  }

  lemma ReadRunGot(s: Setting, origin: seq<Byte>, f: Trace, i: nat, j: nat) returns (h: Trace)
    requires Of(s, origin) && i <= j < s.g.Blocks() && Got(f, f, origin, s, s.g.Start(i), s.g.Start(i))
    requires i !in s.bad && forall k :: i <= k <= j ==> s.HitAt(f, k)
    ensures s.ServeAt(f, i, j, true) == (true, s.g.End(j), h) && Got(f, h, origin, s, s.g.Start(i), s.g.End(j))
  {
    HitGot(s, origin, f, i, j);
    h := s.ReadBack(f, s.g.Start(i), s.g.End(j));
  }

  lemma FetchRunGot(s: Setting, origin: seq<Byte>, f: Trace, i: nat, j: nat, hit: bool) returns (ok: bool, r: nat, h: Trace)
    requires Of(s, origin) && i <= j < s.g.Blocks() && Got(f, f, origin, s, s.g.Start(i), s.g.Start(i))
    requires hit ==> i in s.bad
    ensures s.ServeAt(f, i, j, hit) == (ok, r, h) && r <= s.g.End(j)
    ensures Got(f, h, origin, s, s.g.Start(i), if ok then s.g.End(j) else r)
  {
    RunBounds(s.g, i, j);
    ok, r, h := SpanGot(s, origin, !hit, f, s.g.Start(i), s.g.End(j) - 1);
  }

  lemma RunAtGot(s: Setting, origin: seq<Byte>, f: Trace, i: nat, j: nat, hit: bool) returns (ok: bool, r: nat, h: Trace)
    requires Of(s, origin) && i <= j < s.g.Blocks() && Got(f, f, origin, s, s.g.Start(i), s.g.Start(i))
    requires hit ==> forall k :: i <= k <= j ==> s.HitAt(f, k)
    ensures s.ServeAt(f, i, j, hit) == (ok, r, h) && r <= s.g.End(j)
    ensures Got(f, h, origin, s, s.g.Start(i), if ok then s.g.End(j) else r)
  {
    if hit && i !in s.bad {
      ok, r := true, s.g.End(j);
      h := ReadRunGot(s, origin, f, i, j);
    } else {
      ok, r, h := FetchRunGot(s, origin, f, i, j, hit);
    }
  }

  lemma ServesBy<S(!new)>(got: (S, S, nat, nat) -> bool, g: Geometry, hit: (S, nat) -> bool,
                          serve: (S, nat, nat, bool) -> (bool, nat, S), f: S, i: nat, j: nat, ok: bool, r: nat, h: S)
    requires g.Ok() && serve(f, i, j, hit(f, i)) == (ok, r, h) && r <= g.End(j)
    requires got(f, h, g.Start(i), if ok then g.End(j) else r)
    ensures Serves(got, g, hit, serve, f, i, j)
  {
  }

  lemma AllRuns(s: Setting, origin: seq<Byte>)
    requires Of(s, origin)
    ensures forall f: Trace, i: nat, j: nat :: Serves(Relation(origin, s), s.g, s.Hit(), s.ServeRun(), f, i, j)
  {
    var got, hit, serve := Relation(origin, s), s.Hit(), s.ServeRun();
    forall f: Trace, i: nat, j: nat ensures Serves(got, s.g, hit, serve, f, i, j) {
      if got(f, f, s.g.Start(i), s.g.Start(i)) && i <= j < s.g.Blocks() && forall k :: i <= k <= j ==> hit(f, k) == hit(f, i) {
        forall k | i <= k <= j && s.HitAt(f, i) ensures s.HitAt(f, k) { assert hit(f, k) == hit(f, i); }
        var ok, r, h := RunAtGot(s, origin, f, i, j, s.HitAt(f, i));
        ServesBy(got, s.g, hit, serve, f, i, j, ok, r, h);
      }
    }
  }

  // ---- the chunk ----

  lemma FirstBlock(g: Geometry, x: nat)
    requires g.Ok() && x < g.total
    ensures x / g.bs < g.Blocks() && g.Start(x / g.bs) <= x < g.End(x / g.bs)
  {
    BlockOf(g, x, x / g.bs);
  }

  lemma ChunkBlocks(g: Geometry, chunk: Span, first: nat, last: nat)
    requires g.Ok() && chunk.lo <= chunk.hi < g.total && first == chunk.lo / g.bs && last == chunk.hi / g.bs
    ensures first <= last < g.Blocks() && g.Start(first) <= chunk.lo && chunk.hi < g.End(last)
  {
    FirstBlock(g, chunk.lo);
    FirstBlock(g, chunk.hi);
    DivMono(chunk.lo, chunk.hi, g.bs);
  }

  /** From the first block of a run of blocks to its last. */
  lemma BlocksGot(s: Setting, origin: seq<Byte>, first: nat, last: nat) returns (ok: bool, r: nat, h: Trace)
    requires Of(s, origin) && first <= last < s.g.Blocks()
    ensures Runs([], s.Hit(), s.ServeRun(), first, last, s.g.Start(first)) == (ok, r, h)
    ensures Got([], h, origin, s, s.g.Start(first), if ok then s.g.End(last) else r)
  {
    var got, from := Relation(origin, s), s.g.Start(first);
    var z := Runs([], s.Hit(), s.ServeRun(), first, last, from);
    ok, r, h := z.0, z.1, z.2;
    RelationLawful(origin, s);
    AllRuns(s, origin);
    BlockShape(s.g, first);
    assert got([], [], from, from);
    RunsFollow(got, [], s.g, s.Hit(), s.ServeRun(), first, last, from);
    assert got([], h, from, if ok then s.g.End(last) else r);
  }

  /** From a chunk's first block to its last. */
  lemma ChunkGot(s: Setting, origin: seq<Byte>) returns (ok: bool, from: nat, r: nat, h: Trace)
    requires Of(s, origin) && s.chunk.hi < |origin|
    ensures s.FetchCached().0 == ok && s.FetchCached().2 == h && (ok ==> r > s.chunk.hi) && from <= s.chunk.lo
    ensures Got([], h, origin, s, from, r)
  {
    var first, last := s.chunk.lo / s.g.bs, s.chunk.hi / s.g.bs;
    ChunkBlocks(s.g, s.chunk, first, last);
    ok, r, h := BlocksGot(s, origin, first, last);
    from := s.g.Start(first);
    if ok { r := s.g.End(last); }
  }

  /** What the client has, by how far the fetch got. */
  lemma ShownPrefix(origin: seq<Byte>, from: nat, r: nat, chunk: Span)
    requires from <= chunk.lo <= chunk.hi < |origin| && from <= r <= |origin|
    ensures var out := Shown(origin, from, r, chunk);
            && |out| <= chunk.hi + 1 - chunk.lo && out == origin[chunk.lo..chunk.lo + |out|]
            && (r > chunk.hi ==> out == origin[chunk.lo..chunk.hi + 1])
  {
  }

  /** What a trace that starts from nothing does to the client and to the cache. */
  lemma Effect(s: Setting, h: Trace, origin: seq<Byte>, a: nat, b: nat)
    requires Got([], h, origin, s, a, b) && Clean(s.disk, origin)
    ensures a <= b <= |origin| && Clean(Replay(s.disk, h), origin)
    ensures NoGap(h, s) ==> Received(h, s.chunk) == Shown(origin, a, b, s.chunk)
    ensures !NoGap(h, s) ==> |Received(h, s.chunk)| < |Shown(origin, a, b, s.chunk)|
  {
    assert h[0..] == h;
    SpanningOrder(h, a, b);
    ReceivedExact(h, origin, s, a, b);
    ReplayClean(s.disk, h, origin, s);
  }

  /** Serving a chunk through the cache, when it succeeds, sends exactly the origin's
      bytes of the chunk if and only if the answers for each sub-span it settled
      delivered what the chunk wants of it; when it fails, and none had a gap, it
      has sent a prefix of them. Whatever was answered, the cache holds only the
      origin's bytes. */
  lemma FetchLaw(s: Setting, origin: seq<Byte>)
    requires Of(s, origin) && s.chunk.hi < |origin|
    ensures var (ok, _, h) := s.FetchCached(); var out := Received(h, s.chunk);
            && (ok ==> (out == origin[s.chunk.lo..s.chunk.hi + 1] <==> NoGap(h, s)))
            && |out| <= s.chunk.hi + 1 - s.chunk.lo
            && (NoGap(h, s) ==> out == origin[s.chunk.lo..s.chunk.lo + |out|])
            && Clean(Replay(s.disk, h), origin)
  {
    var ok, from, r, h := ChunkGot(s, origin);
    Effect(s, h, origin, from, r);
    ShownPrefix(origin, from, r, s.chunk);
  }

  /** Bodies settle nothing by themselves. */
  lemma {:induction false} ItemsSettleNothing(s: Setting, t: Target, kept: bool, f: Trace, done: nat, items: seq<nat>)
    requires NoGap(f, s)
    ensures NoGap(Items(f, s.OneItem(t, kept), done, items), s)
    decreases |items|
  {
    if items != [] {
      var g := if items[0] == 0 then f else s.ItemAt(t, kept, f, done, items[0]);
      GapLast(f, Item(t.mergedStart + done, Fetched(s.parts, t.volume, t.localStart + done, items[0]), kept), s);
      ItemsSettleNothing(s, t, kept, g, done + items[0], items[1..]);
    }
  }

  lemma BodySettlesNothing(s: Setting, sub: Span, kept: bool, f: Trace, resume: nat, items: seq<nat>)
    requires NoGap(f, s)
    ensures var r := s.BodyAt(sub, kept, f, resume, items); r.Some? ==> NoGap(r.value.1, s)
  {
    var target := ResolveTarget(s.volumes, sub.lo, resume, sub.hi);
    if target.Some? {
      var t := target.value;
      var came := Clip(items, SatSub(t.localEnd + 1, t.localStart));
      ItemsSettleNothing(s, t, kept, f, 0, came);
      GapLast(Items(f, s.OneItem(t, kept), 0, came), Flushed, s);
    }
  }

  /** A body keeps what holds. */
  ghost predicate Keeps<S(!new)>(keep: S -> bool, body: (S, nat, seq<nat>) -> Option<(nat, S)>, f: S, resume: nat, items: seq<nat>) {
    keep(f) && body(f, resume, items).Some? ==> keep(body(f, resume, items).value.1)
  }

  lemma {:induction false} AttemptsKeep<S(!new)>(keep: S -> bool, f: S, body: (S, nat, seq<nat>) -> Option<(nat, S)>, sub: Span,
                                                 delivered: nat, attempts: seq<Attempt>)
    requires keep(f) && forall g: S, r: nat, items: seq<nat> :: Keeps(keep, body, g, r, items)
    ensures keep(Attempts(f, body, sub, delivered, attempts).2)
    decreases |attempts|
  {
    if attempts != [] && sub.lo + delivered <= sub.hi {
      match attempts[0] {
        case Refused => AttemptsKeep(keep, f, body, sub, delivered, attempts[1..]);
        case Body(items, cut) =>
          assert Keeps(keep, body, f, sub.lo + delivered, items);
          var r := body(f, sub.lo + delivered, items);
          if r.Some? && cut { AttemptsKeep(keep, r.value.1, body, sub, delivered + r.value.0, attempts[1..]); }
      }
    }
  }

  lemma AttemptsSettleNothing(s: Setting, sub: Span, kept: bool, attempts: seq<Attempt>)
    ensures NoGap(Attempts([], s.OneBody(sub, kept), sub, 0, attempts).2, s)
  {
    var keep, body := (f: Trace) => NoGap(f, s), s.OneBody(sub, kept);
    forall g: Trace, r: nat, items: seq<nat> ensures Keeps(keep, body, g, r, items) {
      if keep(g) { BodySettlesNothing(s, sub, kept, g, r, items); }
    }
    AttemptsKeep(keep, [], body, sub, 0, attempts);
  }

  /** A direct fetch of a chunk inside one volume that succeeds is exact if and only
      if the body it ended on brought all that was still asked for. */
  lemma DirectLaw(s: Setting, origin: seq<Byte>)
    requires Of(s, origin) && s.chunk.hi < |origin| && InOneVolume(s.volumes, s.chunk)
    ensures var (ok, _, h) := s.SubAt(false, [], s.chunk);
            ok ==> (Received(h, s.chunk) == origin[s.chunk.lo..s.chunk.hi + 1] <==>
                    EndsFull(Asked(s.chunk), For(s.answers, s.chunk.lo)))
  {
    var c := s.chunk;
    var ok, d, before, h := SubAtGot(s, origin, c, false, []);
    if ok {
      AttemptsSettleNothing(s, c, false, For(s.answers, c.lo));
      GapLast(before, Settled(c, c.lo + d), s);
      DeliversExact(s, c);
      DirectEffect(s, h, origin);
    }
  }

  lemma DirectEffect(s: Setting, h: Trace, origin: seq<Byte>)
    requires Got([], h, origin, s, s.chunk.lo, s.chunk.hi + 1) && Clean(s.disk, origin) && s.chunk.lo <= s.chunk.hi
    ensures Received(h, s.chunk) == origin[s.chunk.lo..s.chunk.hi + 1] <==> NoGap(h, s)
  {
    Effect(s, h, origin, s.chunk.lo, s.chunk.hi + 1);
    ShownPrefix(origin, s.chunk.lo, s.chunk.hi + 1, s.chunk);
  }

  /** The cached chunk is byte for byte what an exact direct fetch of it gives, if
      and only if its own sub-spans had no gap in it. */
  lemma SameAsDirect(s: Setting, origin: seq<Byte>)
    requires Of(s, origin) && s.chunk.hi < |origin| && InOneVolume(s.volumes, s.chunk)
    ensures var (ok, _, h) := s.FetchCached(); var (direct, _, k) := s.SubAt(false, [], s.chunk);
            ok && direct && EndsFull(Asked(s.chunk), For(s.answers, s.chunk.lo)) ==>
              (Received(h, s.chunk) == Received(k, s.chunk) <==> NoGap(h, s))
  {
    FetchLaw(s, origin);
    DirectLaw(s, origin);
  }

  /** The gap is reachable: a body that ends cleanly after one of two
      bytes is taken for the whole chunk. */
  lemma ShortBodyTruncates(b0: Byte, b1: Byte)
    ensures var disk := Stage(map[], {}, 0, [], 2);
            var s := Setting(None, [[b0, b1]], Geometry(2, 2), disk, map[0 := [Body([1], false)]], {}, Span(0, 1));
            s.FetchCached().0 && Received(s.FetchCached().2, s.chunk) == [b0]
  {
    var s := Setting(None, [[b0, b1]], Geometry(2, 2), Stage(map[], {}, 0, [], 2), map[0 := [Body([1], false)]], {}, Span(0, 1));
    assert s.g.Start(0) <= 0 < s.g.End(0) && 0 !in Replay(s.disk, []).written;
    assert !s.HitAt([], 0);
    assert s.Hit()([], 0) == false;
    assert RunEnd([], s.Hit(), 0, 0) == 0;
    assert Slices(None, 0, 1) == [Span(0, 1)];
    var item := Item(0, [b0], true);
    assert Clip([1], 2) == [1] + Clip([], 1);
    assert [1][1..] == [] && Sum([1]) == 1;
    assert Fetched(s.parts, 0, 0, 1) == [b0];
    var t := Target(0, 0, 1, 0);
    assert s.ItemAt(t, true, [], 0, 1) == [] + [item] == [item];
    assert Items([], s.OneItem(t, true), 0, [1]) == [item];
    assert s.BodyAt(Span(0, 1), true, [], 0, [1]) == Some((1, [item] + [Flushed]));
    var bodies := [item] + [Flushed];
    var h := bodies + [Settled(Span(0, 1), 1)];
    assert s.OneBody(Span(0, 1), true)([], 0, [1]) == Some((1, bodies));
    assert Attempts([], s.OneBody(Span(0, 1), true), Span(0, 1), 0, [Body([1], false)]) == (true, 1, bodies);
    assert s.SubAt(true, [], Span(0, 1)) == (true, 1, h);
    assert [Span(0, 1)][1..] == [];
    assert s.FetchSpan(true, [], 0, 1) == (true, 1, h);
    assert s.ServeAt([], 0, 0, false) == (true, 1, h);
    assert s.FetchCached() == (true, 1, h);
    assert h[..2] == bodies && bodies[..1] == [item] && [item][..0] == [];
    assert Received([item], s.chunk) == [b0];
    assert Received(bodies, s.chunk) == [b0];
  }
}
