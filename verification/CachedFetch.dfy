/** Serving a chunk through the cache: block runs already on disk are read back,
    the others fetched from the origin, volume by volume and resumed across
    failures; the client sees what a direct fetch would have given it, and the
    cache ends up holding only the origin's bytes. */
module CachedFetch {
  import opened Spans
  import opened Sched
  import opened SchedLaws
  import opened RunModel
  import opened Plan
  import opened Cache
  import opened Coalescer

  // ---- where the merged stream's bytes live ----

  /** `origin` is the volumes' bytes end to end; without volumes there is one part. */
  ghost predicate Backs(volumes: Option<seq<Volume>>, parts: seq<seq<Byte>>, origin: seq<Byte>) {
    match volumes
    case None => parts == [origin]
    case Some(vs) =>
      && Tiled(vs, 0) && |parts| == |vs|
      && forall k :: 0 <= k < |vs| ==>
           vs[k].offset + vs[k].size <= |origin| && parts[k] == origin[vs[k].offset..vs[k].offset + vs[k].size]
  }

  datatype Target = Target(volume: nat, localStart: nat, localEnd: nat, mergedStart: nat)

  /** The request that serves `[start, end]` of the volume holding `locator`;
      `None` when the clip leaves nothing. */
  function ResolveTarget(volumes: Option<seq<Volume>>, locator: nat, start: nat, end: nat): Option<Target> {
    if volumes.None? then Some(Target(0, start, end, start))
    else match VolumeFrom(volumes.value, locator, 0)
         case None => None
         case Some(k) =>
           if k >= |volumes.value| then None
           else
             var v := volumes.value[k];
             var s, e := Max(start, v.offset), Min(end, SatSub(v.offset + v.size, 1));
             if e < s then None else Some(Target(k, SatSub(s, v.offset), SatSub(e, v.offset), s))
  }

  lemma {:induction false} VolumeFinds(vs: seq<Volume>, x: nat, i: nat, k: nat)
    requires i <= k < |vs| && vs[k].Holds(x)
    ensures VolumeFrom(vs, x, i).Some? && VolumeFrom(vs, x, i).value < |vs| && vs[VolumeFrom(vs, x, i).value].Holds(x)
    decreases |vs| - i
  {
    if !vs[i].Holds(x) { VolumeFinds(vs, x, i + 1, k); }
  }

  lemma VolumeIs(vs: seq<Volume>, k: nat, x: nat)
    requires Tiled(vs, 0) && k < |vs| && vs[k].Holds(x)
    ensures VolumeFrom(vs, x, 0) == Some(k)
  {
    VolumeFinds(vs, x, 0, k);
    OneVolume(vs, k, VolumeFrom(vs, x, 0).value, x);
  }

  /** Whatever is asked for, the request is for exactly the part of it in the volume
      that holds the locator, in that volume's offsets; `None` if there is no such part. */
  lemma ResolveClips(vs: seq<Volume>, k: nat, locator: nat, start: nat, end: nat)
    requires Tiled(vs, 0) && k < |vs| && vs[k].Holds(locator)
    ensures match ResolveTarget(Some(vs), locator, start, end)
            case None => forall x: nat :: start <= x <= end ==> !vs[k].Holds(x)
            case Some(t) =>
              && t.volume == k && t.mergedStart == vs[k].offset + t.localStart
              && forall x: nat :: start <= x <= end && vs[k].Holds(x) <==> vs[k].offset + t.localStart <= x <= vs[k].offset + t.localEnd
  {
    VolumeIs(vs, k, locator);
  }

  /** The volumes, and a span of one of them. */
  ghost predicate Placed(volumes: Option<seq<Volume>>, parts: seq<seq<Byte>>, origin: seq<Byte>, sub: Span) {
    sub.lo <= sub.hi < |origin| && Backs(volumes, parts, origin) && InOneVolume(volumes, sub)
  }

  /** From `local` on, volume `v`'s bytes are the stream's from `at` to `end`. */
  ghost predicate Local(parts: seq<seq<Byte>>, origin: seq<Byte>, v: nat, local: nat, at: nat, end: nat) {
    && v < |parts| && at <= end <= |origin| && local + (end - at) <= |parts[v]|
    && forall x: nat :: at <= x < end ==> parts[v][local + (x - at)] == origin[x]
  }

  lemma SubSlice(s: seq<Byte>, a: nat, b: nat, i: nat, j: nat)
    requires a <= b <= |s| && i <= j <= b - a
    ensures s[a..b][i..j] == s[a + i..a + j]
  {
    var t := s[a..b];
    assert t[i..j] == s[a..b][i..j] && |t[i..j]| == j - i;
    forall k | 0 <= k < j - i ensures t[i..j][k] == s[a + i..a + j][k] { assert t[i + k] == s[a + (i + k)]; }
  }

  lemma VolumeTarget(vs: seq<Volume>, parts: seq<seq<Byte>>, origin: seq<Byte>, sub: Span, resume: nat, k: nat)
    requires Placed(Some(vs), parts, origin, sub) && sub.lo <= resume <= sub.hi && k < |vs| && InVolume(vs[k], sub)
    ensures ResolveTarget(Some(vs), sub.lo, resume, sub.hi) == Some(Target(k, resume - vs[k].offset, sub.hi - vs[k].offset, resume))
    ensures Local(parts, origin, k, resume - vs[k].offset, resume, sub.hi + 1)
  {
    var v := vs[k];
    assert parts[k] == origin[v.offset..v.offset + v.size];
    VolumeIs(vs, k, sub.lo);
    forall x: nat | resume <= x <= sub.hi ensures parts[k][x - v.offset] == origin[x] {}
  }

  /** A span inside one volume is asked for whole, and what the volume answers at
      its local offsets is what the merged stream holds there. */
  lemma TargetLaw(volumes: Option<seq<Volume>>, parts: seq<seq<Byte>>, origin: seq<Byte>, sub: Span, resume: nat)
    requires Placed(volumes, parts, origin, sub) && sub.lo <= resume <= sub.hi
    ensures var t := ResolveTarget(volumes, sub.lo, resume, sub.hi);
            && t.Some? && t.value.mergedStart == resume && t.value.localEnd + 1 == t.value.localStart + (sub.hi + 1 - resume)
            && Local(parts, origin, t.value.volume, t.value.localStart, resume, sub.hi + 1)
  {
    if volumes.Some? {
      var k :| 0 <= k < |volumes.value| && InVolume(volumes.value[k], sub);
      VolumeTarget(volumes.value, parts, origin, sub, resume, k);
    }
  }

  /** Part of a local range is the corresponding part of the stream. */
  lemma LocalItem(parts: seq<seq<Byte>>, origin: seq<Byte>, t: Target, done: nat, n: nat, total: nat)
    requires Local(parts, origin, t.volume, t.localStart, t.mergedStart, t.mergedStart + total) && done + n <= total
    ensures parts[t.volume][t.localStart + done..t.localStart + done + n] == origin[t.mergedStart + done..t.mergedStart + done + n]
  {
    var p, o := parts[t.volume][t.localStart + done..t.localStart + done + n], origin[t.mergedStart + done..t.mergedStart + done + n];
    forall i | 0 <= i < n ensures p[i] == o[i] {
      var x := t.mergedStart + done + i;
      assert parts[t.volume][t.localStart + (x - t.mergedStart)] == origin[x];
    }
  }

  // ---- what the client is shown ----

  /** The part of `[a, b)` inside the chunk. */
  ghost function Shown(origin: seq<Byte>, a: nat, b: nat, chunk: Span): seq<Byte>
    requires b <= |origin|
  {
    var lo, hi := Max(a, chunk.lo), Min(b, chunk.hi + 1);
    if lo >= hi then [] else origin[lo..hi]
  }

  lemma SliceJoin(s: seq<Byte>, a: nat, m: nat, b: nat)
    requires a <= m <= b <= |s|
    ensures s[a..m] + s[m..b] == s[a..b]
  {
  }

  lemma ShownJoin(origin: seq<Byte>, a: nat, m: nat, b: nat, chunk: Span)
    requires a <= m <= b <= |origin|
    ensures Shown(origin, a, m, chunk) + Shown(origin, m, b, chunk) == Shown(origin, a, b, chunk)
  {
    var lo, hi := Max(a, chunk.lo), Min(b, chunk.hi + 1);
    var mid := Max(lo, Min(m, hi));
    if lo < mid < hi { SliceJoin(origin, lo, mid, hi); }
  }

  /** The slice of one item that goes to the client. */
  function Outgoing(at: nat, data: seq<Byte>, chunk: Span): seq<Byte> {
    var lo, hi := SatSub(chunk.lo, at), Min(SatSub(chunk.hi + 1, at), |data|);
    if hi <= lo then [] else data[lo..hi]
  }

  lemma OutgoingIs(origin: seq<Byte>, at: nat, data: seq<Byte>, chunk: Span)
    requires at + |data| <= |origin| && data == origin[at..at + |data|]
    ensures Outgoing(at, data, chunk) == Shown(origin, at, at + |data|, chunk)
  {
    var lo, hi := SatSub(chunk.lo, at), Min(SatSub(chunk.hi + 1, at), |data|);
    if lo < hi {
      SubSlice(origin, at, at + |data|, lo, hi);
      assert Max(at, chunk.lo) == at + lo && Min(at + |data|, chunk.hi + 1) == at + hi;
    }
  }

  // ---- what the cache is given ----

  ghost predicate Pure(file: map<nat, Byte>, written: set<nat>, origin: seq<Byte>) {
    forall x :: x in written ==> x in file && x < |origin| && file[x] == origin[x]
  }

  ghost predicate Buffers(s: Stage, origin: seq<Byte>) {
    s.start + |s.buf| <= |origin| && forall i :: 0 <= i < |s.buf| ==> s.buf[i] == origin[s.start + i]
  }

  ghost predicate Clean(s: Stage, origin: seq<Byte>) { Pure(s.file, s.written, origin) && Buffers(s, origin) }

  lemma FlushClean(s: Stage, origin: seq<Byte>)
    requires Clean(s, origin)
    ensures Clean(FlushStep(s), origin)
  {
    PutLaw(s.file, s.start, s.buf);
  }

  lemma JoinedClean(s: Stage, at: nat, data: seq<Byte>, origin: seq<Byte>)
    requires Clean(s, origin) && at + |data| <= |origin| && data == origin[at..at + |data|]
    requires s.buf != [] ==> s.start + |s.buf| == at
    ensures Clean(Joined(s, at, data), origin)
  {
    if s.buf != [] { SliceJoin(origin, s.start, at, at + |data|); }
  }

  /** Only the origin's bytes are ever buffered or written. */
  lemma WriteClean(s: Stage, op: Op, origin: seq<Byte>)
    requires Clean(s, origin) && op.coalesce && op.at + |op.data| <= |origin| && op.data == origin[op.at..op.at + |op.data|]
    ensures Clean(WriteStep(s, op), origin)
  {
    if op.data != [] {
      var u := if s.buf != [] && s.start + |s.buf| != op.at then FlushStep(s) else s;
      FlushClean(s, origin);
      JoinedClean(u, op.at, op.data, origin);
      FlushClean(Joined(u, op.at, op.data), origin);
    }
  }

  // ---- one request ----

  /** How an attempt went: no usable answer, or a body in items, ended or cut off. */
  datatype Attempt = Refused | Body(items: seq<nat>, cut: bool)

  function Sum(items: seq<nat>): nat { if items == [] then 0 else items[0] + Sum(items[1..]) }

  /** The items that arrive: never more than was asked for. */
  function Clip(items: seq<nat>, left: nat): (r: seq<nat>)
    ensures Sum(r) == Min(Sum(items), left)
    decreases |items|
  {
    if items == [] then [] else [Min(items[0], left)] + Clip(items[1..], SatSub(left, items[0]))
  }

  /** What each sub-span's attempts answer, by where the sub-span begins. */
  type Answers = map<nat, seq<Attempt>>

  function For(answers: Answers, at: nat): seq<Attempt> { if at in answers then answers[at] else [] }

  /** How much a sub-span asks for. */
  function Asked(sub: Span): nat { SatSub(sub.hi + 1, sub.lo) }

  /** How attempts for `total` bytes go, by the numbers: success or not, and how
      much has come. */
  function Course(total: nat, delivered: nat, attempts: seq<Attempt>): (bool, nat)
    decreases |attempts|
  {
    if attempts == [] then (false, delivered)
    else if delivered >= total then (true, delivered)
    else match attempts[0]
      case Refused => Course(total, delivered, attempts[1..])
      case Body(items, cut) =>
        var n := Min(Sum(items), total - delivered);
        if cut then Course(total, delivered + n, attempts[1..]) else (true, delivered + n)
  }

  /** The body that ended the attempts: where it resumed, and how long it was. */
  function EndedOn(total: nat, delivered: nat, attempts: seq<Attempt>): Option<(nat, nat)>
    decreases |attempts|
  {
    if attempts == [] || delivered >= total then None
    else match attempts[0]
      case Refused => EndedOn(total, delivered, attempts[1..])
      case Body(items, cut) =>
        if cut then EndedOn(total, delivered + Min(Sum(items), total - delivered), attempts[1..])
        else Some((delivered, Sum(items)))
  }

  /** The body the attempts ended on was all that was still asked for. */
  predicate EndsFull(total: nat, attempts: seq<Attempt>) {
    match EndedOn(total, 0, attempts) case None => true case Some((resume, sum)) => resume + sum >= total
  }

  /** Attempts that report success have brought everything exactly when the body
      they ended on brought all that was still asked for where it resumed. */
  lemma {:induction false} CourseExact(total: nat, delivered: nat, attempts: seq<Attempt>)
    requires delivered <= total
    ensures var (ok, d) := Course(total, delivered, attempts);
            && delivered <= d <= total
            && (ok ==> (d == total <==>
                        match EndedOn(total, delivered, attempts) case None => true case Some((resume, sum)) => resume + sum >= total))
    decreases |attempts|
  {
    if attempts != [] && delivered < total {
      match attempts[0] {
        case Refused => CourseExact(total, delivered, attempts[1..]);
        case Body(items, cut) =>
          if cut { CourseExact(total, delivered + Min(Sum(items), total - delivered), attempts[1..]); }
      }
    }
  }

  // ---- what a fetch does, event by event ----

  /** A piece of a body (kept in the cache or passed by it), a flush of the
      writer, `[from, end)` read back from disk as far as the chunk wants it, or a
      sub-span reported as fetched whose bytes from `from` on never came. */
  datatype Event =
    | Item(at: nat, data: seq<Byte>, kept: bool)
    | Flushed
    | Read(from: nat, end: nat, data: seq<Byte>)
    | Settled(sub: Span, from: nat)

  type Trace = seq<Event>

  /** The cache after the trace. */
  function Replay(disk: Stage, tr: Trace): Stage
    decreases |tr|
  {
    if tr == [] then disk
    else
      var d := Replay(disk, tr[..|tr| - 1]);
      match tr[|tr| - 1]
      case Item(at, data, kept) => if kept then WriteStep(d, Op(at, data, true)) else d
      case Flushed => FlushStep(d)
      case Read(_, _, _) => d
      case Settled(_, _) => d
  }

  function Sends(e: Event, chunk: Span): seq<Byte> {
    match e
    case Item(at, data, _) => Outgoing(at, data, chunk)
    case Flushed => []
    case Read(_, _, data) => data
    case Settled(_, _) => []
  }

  /** What the client has received. */
  function Received(tr: Trace, chunk: Span): seq<Byte>
    decreases |tr|
  {
    if tr == [] then [] else Received(tr[..|tr| - 1], chunk) + Sends(tr[|tr| - 1], chunk)
  }

  /** Some bytes of volume `v`; what lies past its end is not there. */
  function Fetched(parts: seq<seq<Byte>>, v: nat, from: nat, n: nat): seq<Byte> {
    if v < |parts| && from + n <= |parts[v]| then parts[v][from..from + n] else []
  }

  /** The items of one body, the first `done` bytes of which have been seen. */
  function Items<S>(f: S, item: (S, nat, nat) -> S, done: nat, items: seq<nat>): S
    decreases |items|
  {
    if items == [] then f
    else Items(if items[0] == 0 then f else item(f, done, items[0]), item, done + items[0], items[1..])
  }

  /** Attempt after attempt, each from where the last one broke off. `body` is
      what one answer does: how far it gets, unless there is nothing to ask for. */
  function Attempts<S>(f: S, body: (S, nat, seq<nat>) -> Option<(nat, S)>, sub: Span, delivered: nat, attempts: seq<Attempt>)
    : (bool, nat, S)
    decreases |attempts|
  {
    if attempts == [] then (false, delivered, f)
    else if sub.lo + delivered > sub.hi then (true, delivered, f)
    else match attempts[0]
      case Refused => Attempts(f, body, sub, delivered, attempts[1..])
      case Body(items, cut) =>
        match body(f, sub.lo + delivered, items)
        case None => (true, delivered, f)
        case Some((n, g)) =>
          if cut then Attempts(g, body, sub, delivered + n, attempts[1..]) else (true, delivered + n, g)
  }

  /** Sub-span after sub-span; the first that fails ends the span. */
  function SubSpans<S>(f: S, fetch: (S, Span) -> (bool, nat, S), subs: seq<Span>, at: nat): (bool, nat, S)
    decreases |subs|
  {
    if subs == [] then (true, at, f)
    else
      var (ok, delivered, g) := fetch(f, subs[0]);
      if ok then SubSpans(g, fetch, subs[1..], subs[0].lo + delivered) else (false, subs[0].lo + delivered, g)
  }

  /** The last block of the run of hits, or of misses, that `i` begins. */
  function RunEnd<S>(f: S, hit: (S, nat) -> bool, i: nat, last: nat): (j: nat)
    ensures i <= j && (i <= last ==> j <= last) && forall k :: i <= k <= j ==> hit(f, k) == hit(f, i)
    decreases SatSub(last, i)
  {
    if i < last && hit(f, i + 1) == hit(f, i) then RunEnd(f, hit, i + 1, last) else i
  }

  /** Block run after block run; a run that cannot be served ends the chunk. */
  function Runs<S>(f: S, hit: (S, nat) -> bool, serve: (S, nat, nat, bool) -> (bool, nat, S), i: nat, last: nat, at: nat)
    : (bool, nat, S)
    decreases SatSub(last + 1, i)
  {
    if i > last then (true, at, f)
    else
      var j := RunEnd(f, hit, i, last);
      var (ok, r, g) := serve(f, i, j, hit(f, i));
      if ok then Runs(g, hit, serve, j + 1, last, r) else (false, r, g)
  }

  // ---- the same as loops ----

  method AttemptLoop<S>(f: S, body: (S, nat, seq<nat>) -> Option<(nat, S)>, sub: Span, attempts: seq<Attempt>)
    returns (ok: bool, delivered: nat, g: S)
    ensures (ok, delivered, g) == Attempts(f, body, sub, 0, attempts)
  {
    ok, delivered, g := false, 0, f;
    var k := 0;
    assert attempts[0..] == attempts;
    while k < |attempts|
      invariant k <= |attempts| && !ok
      invariant Attempts(f, body, sub, 0, attempts) == Attempts(g, body, sub, delivered, attempts[k..])
    {
      assert attempts[k..][0] == attempts[k] && attempts[k..][1..] == attempts[k + 1..];
      if sub.lo + delivered > sub.hi { return true, delivered, g; }
      if attempts[k].Body? {
        var r := body(g, sub.lo + delivered, attempts[k].items);
        if r.None? { return true, delivered, g; }
        delivered, g := delivered + r.value.0, r.value.1;
        if !attempts[k].cut { return true, delivered, g; }
      }
      k := k + 1;
    }
  }

  method RunLoop<S>(f: S, hit: (S, nat) -> bool, serve: (S, nat, nat, bool) -> (bool, nat, S), first: nat, last: nat, start: nat)
    returns (ok: bool, at: nat, g: S)
    ensures (ok, at, g) == Runs(f, hit, serve, first, last, start)
  {
    ok, at, g := true, start, f;
    var i := first;
    while i <= last
      invariant ok && Runs(f, hit, serve, first, last, start) == Runs(g, hit, serve, i, last, at)
    {
      var j := i;
      while j < last && hit(g, j + 1) == hit(g, i)
        invariant i <= j <= last && RunEnd(g, hit, i, last) == RunEnd(g, hit, j, last) && hit(g, j) == hit(g, i)
      {
        j := j + 1;
      }
      var r := serve(g, i, j, hit(g, i));
      ok, at, g := r.0, r.1, r.2;
      if !ok { return; }
      i := j + 1;
    }
  }

  // ---- a chunk ----

  /** What a fetch runs against: the volumes, their bytes, the cache, the network's
      answers, the block runs whose read from disk fails, and the chunk wanted. */
  datatype Setting = Setting(volumes: Option<seq<Volume>>, parts: seq<seq<Byte>>, g: Geometry, disk: Stage, answers: Answers,
                             bad: set<nat>, chunk: Span)
  {
    function ItemAt(t: Target, kept: bool, f: Trace, done: nat, n: nat): Trace {
      f + [Item(t.mergedStart + done, Fetched(parts, t.volume, t.localStart + done, n), kept)]
    }

    function OneItem(t: Target, kept: bool): (Trace, nat, nat) -> Trace { (f: Trace, done: nat, n: nat) => ItemAt(t, kept, f, done, n) }

    /** The rest of the sub-span is asked for; what comes is taken, and flushed. */
    function BodyAt(sub: Span, kept: bool, f: Trace, resume: nat, items: seq<nat>): Option<(nat, Trace)> {
      match ResolveTarget(volumes, sub.lo, resume, sub.hi)
      case None => None
      case Some(t) =>
        var came := Clip(items, SatSub(t.localEnd + 1, t.localStart));
        Some((Sum(came), Items(f, OneItem(t, kept), 0, came) + [Flushed]))
    }

    function OneBody(sub: Span, kept: bool): (Trace, nat, seq<nat>) -> Option<(nat, Trace)> {
      (f: Trace, resume: nat, items: seq<nat>) => BodyAt(sub, kept, f, resume, items)
    }

    function SubAt(kept: bool, f: Trace, sub: Span): (bool, nat, Trace) {
      var (ok, d, h) := Attempts(f, OneBody(sub, kept), sub, 0, For(answers, sub.lo));
      (ok, d, if ok then h + [Settled(sub, sub.lo + d)] else h)
    }

    function OneSub(kept: bool): (Trace, Span) -> (bool, nat, Trace) { (f: Trace, sub: Span) => SubAt(kept, f, sub) }

    function FetchSpan(kept: bool, f: Trace, from: nat, to: nat): (bool, nat, Trace) {
      SubSpans(f, OneSub(kept), Slices(volumes, from, to), from)
    }

    predicate HitAt(f: Trace, k: nat) { WholeBlock(g, Replay(disk, f).written, k) }

    function Hit(): (Trace, nat) -> bool { (f: Trace, k: nat) => HitAt(f, k) }

    /** `[from, end)` read back from disk, as far as the chunk wants it. */
    function ReadBack(f: Trace, from: nat, end: nat): Trace {
      f + [Read(from, end, ReadRange(Replay(disk, f).file, Max(from, chunk.lo), Min(SatSub(end, 1), chunk.hi)))]
    }

    /** A run of hits is read back, and fetched past the cache when the read fails;
        a run of misses is fetched, whole blocks of it, into the cache. */
    function ServeAt(f: Trace, i: nat, j: nat, hit: bool): (bool, nat, Trace) {
      if hit && i !in bad then (true, g.End(j), ReadBack(f, g.Start(i), g.End(j)))
      else FetchSpan(!hit, f, g.Start(i), SatSub(g.End(j), 1))
    }

    function ServeRun(): (Trace, nat, nat, bool) -> (bool, nat, Trace) {
      (f: Trace, i: nat, j: nat, hit: bool) => ServeAt(f, i, j, hit)
    }

    /** Serving the chunk: through the cache, or past it when it reaches beyond. */
    function FetchCached(): (bool, nat, Trace)
      requires g.Ok()
    {
      if g.total == 0 || chunk.hi >= g.total then
        var (ok, d, f) := SubAt(false, [], chunk);
        (ok, chunk.lo + d, f)
      else Runs([], Hit(), ServeRun(), chunk.lo / g.bs, chunk.hi / g.bs, g.Start(chunk.lo / g.bs))
    }
  }

  predicate WholeBlock(g: Geometry, w: set<nat>, b: nat) { forall x: nat | g.Start(b) <= x < g.End(b) :: x in w }

  /** `[lo, hi]` of the data file. */
  function ReadRange(file: map<nat, Byte>, lo: nat, hi: nat): seq<Byte>
    decreases SatSub(hi + 1, lo)
  {
    if lo > hi then [] else [if lo in file then file[lo] else 0] + ReadRange(file, lo + 1, hi)
  }

  // ---- following a fetch with any such relation ----

  ghost predicate Joins<S(!new)>(got: (S, S, nat, nat) -> bool, f: S, g: S, h: S, a: nat, m: nat, b: nat) {
    got(f, g, a, m) && got(g, h, m, b) ==> got(f, h, a, b)
  }

  ghost predicate Rests<S(!new)>(got: (S, S, nat, nat) -> bool, f: S, g: S, a: nat, b: nat) {
    got(f, g, a, b) ==> got(g, g, b, b)
  }

  ghost predicate Lawful<S(!new)>(got: (S, S, nat, nat) -> bool) {
    && (forall f: S, g: S, h: S, a: nat, m: nat, b: nat :: Joins(got, f, g, h, a, m, b))
    && (forall f: S, g: S, a: nat, b: nat :: Rests(got, f, g, a, b))
  }

  lemma Join<S(!new)>(got: (S, S, nat, nat) -> bool, f: S, g: S, h: S, a: nat, m: nat, b: nat)
    requires Lawful(got) && got(f, g, a, m) && got(g, h, m, b)
    ensures got(f, h, a, b)
  {
    assert Joins(got, f, g, h, a, m, b);
  }

  lemma Rest<S(!new)>(got: (S, S, nat, nat) -> bool, f: S, g: S, a: nat, b: nat)
    requires Lawful(got) && got(f, g, a, b)
    ensures got(g, g, b, b)
  {
    assert Rests(got, f, g, a, b);
  }

  /** One body, whatever of it arrives, adds up from where it resumed. */
  ghost predicate Bodies<S(!new)>(got: (S, S, nat, nat) -> bool, body: (S, nat, seq<nat>) -> Option<(nat, S)>, sub: Span,
                                  f: S, resume: nat, items: seq<nat>)
  {
    got(f, f, resume, resume) && sub.lo <= resume <= sub.hi ==>
      var r := body(f, resume, items);
      && r.Some? && r.value.0 == Min(Sum(items), sub.hi + 1 - resume) && got(f, r.value.1, resume, resume + r.value.0)
  }

  lemma {:induction false} AttemptsFollow<S(!new)>(got: (S, S, nat, nat) -> bool, f: S,
                                                   body: (S, nat, seq<nat>) -> Option<(nat, S)>, sub: Span, delivered: nat,
                                                   attempts: seq<Attempt>)
    requires Lawful(got) && sub.lo + delivered <= sub.hi + 1 && got(f, f, sub.lo + delivered, sub.lo + delivered)
    requires forall g: S, r: nat, items: seq<nat> :: Bodies(got, body, sub, g, r, items)
    ensures var (ok, d, g) := Attempts(f, body, sub, delivered, attempts);
            && delivered <= d && sub.lo + d <= sub.hi + 1 && got(f, g, sub.lo + delivered, sub.lo + d)
            && (ok, d) == Course(sub.hi + 1 - sub.lo, delivered, attempts)
    decreases |attempts|
  {
    var resume := sub.lo + delivered;
    if attempts != [] && resume <= sub.hi {
      if attempts[0].Refused? {
        AttemptsFollow(got, f, body, sub, delivered, attempts[1..]);
      } else {
        assert Bodies(got, body, sub, f, resume, attempts[0].items);
        var (n, g) := body(f, resume, attempts[0].items).value;
        if attempts[0].cut {
          Rest(got, f, g, resume, resume + n);
          AttemptsFollow(got, g, body, sub, delivered + n, attempts[1..]);
          var (ok, d, h) := Attempts(f, body, sub, delivered, attempts);
          Join(got, f, g, h, resume, resume + n, sub.lo + d);
        }
      }
    }
  }

  /** One sub-span adds up: what came of it, and the whole of it once it is settled. */
  ghost predicate Fetches<S(!new)>(got: (S, S, nat, nat) -> bool, fetch: (S, Span) -> (bool, nat, S), sub: Span, f: S) {
    got(f, f, sub.lo, sub.lo) ==>
      var (ok, d, g) := fetch(f, sub);
      sub.lo + d <= sub.hi + 1 && got(f, g, sub.lo, if ok then sub.hi + 1 else sub.lo + d)
  }

  lemma {:induction false} SubSpansFollow<S(!new)>(got: (S, S, nat, nat) -> bool, f: S, fetch: (S, Span) -> (bool, nat, S),
                                                   subs: seq<Span>, a: nat, b: nat, at: nat)
    requires Lawful(got) && Chain(subs, a, b) && got(f, f, a, a) && at <= a
    requires forall k, g: S :: 0 <= k < |subs| ==> Fetches(got, fetch, subs[k], g)
    ensures var (ok, r, g) := SubSpans(f, fetch, subs, at); at <= r <= b && got(f, g, a, if ok then b else r)
    decreases |subs|
  {
    ChainHas(subs, a, b, 0);
    if subs != [] {
      assert Fetches(got, fetch, subs[0], f);
      ChainHas(subs[1..], subs[0].hi + 1, b, 0);
      var (ok, d, g) := fetch(f, subs[0]);
      if ok {
        Rest(got, f, g, a, subs[0].hi + 1);
        forall k, g: S | 0 <= k < |subs[1..]| ensures Fetches(got, fetch, subs[1..][k], g) {
          assert Fetches(got, fetch, subs[k + 1], g);
        }
        SubSpansFollow(got, g, fetch, subs[1..], subs[0].hi + 1, b, subs[0].lo + d);
        var (ok', r, h) := SubSpans(f, fetch, subs, at);
        Join(got, f, g, h, a, subs[0].hi + 1, if ok' then b else r);
      }
    }
  }

  /** One item adds up, as long as it lies in the body. */
  ghost predicate Moves<S(!new)>(got: (S, S, nat, nat) -> bool, item: (S, nat, nat) -> S, at: nat, total: nat, f: S, done: nat, n: nat)
  {
    got(f, f, at + done, at + done) && done + n <= total ==> got(f, item(f, done, n), at + done, at + (done + n))
  }

  lemma {:induction false} ItemsFollow<S(!new)>(got: (S, S, nat, nat) -> bool, f: S, item: (S, nat, nat) -> S, at: nat, done: nat,
                                                items: seq<nat>, total: nat)
    requires Lawful(got) && got(f, f, at + done, at + done) && done + Sum(items) == total
    requires forall g: S, d: nat, n: nat :: Moves(got, item, at, total, g, d, n)
    ensures got(f, Items(f, item, done, items), at + done, at + total)
    decreases |items|
  {
    if items != [] {
      if items[0] == 0 {
        ItemsFollow(got, f, item, at, done, items[1..], total);
      } else {
        var g := item(f, done, items[0]);
        assert Moves(got, item, at, total, f, done, items[0]);
        Rest(got, f, g, at + done, at + (done + items[0]));
        ItemsFollow(got, g, item, at, done + items[0], items[1..], total);
        Join(got, f, g, Items(f, item, done, items), at + done, at + (done + items[0]), at + total);
      }
    }
  }

  /** One run of like blocks adds up, all of it when it can be served. */
  ghost predicate Serves<S(!new)>(got: (S, S, nat, nat) -> bool, g: Geometry, hit: (S, nat) -> bool,
                                  serve: (S, nat, nat, bool) -> (bool, nat, S), f: S, i: nat, j: nat)
    requires g.Ok()
  {
    got(f, f, g.Start(i), g.Start(i)) && i <= j < g.Blocks() && (forall k :: i <= k <= j ==> hit(f, k) == hit(f, i)) ==>
      var (ok, r, h) := serve(f, i, j, hit(f, i));
      r <= g.End(j) && got(f, h, g.Start(i), if ok then g.End(j) else r)
  }

  lemma {:induction false} RunsFollow<S(!new)>(got: (S, S, nat, nat) -> bool, f: S, g: Geometry, hit: (S, nat) -> bool,
                                               serve: (S, nat, nat, bool) -> (bool, nat, S), i: nat, last: nat, at: nat)
    requires Lawful(got) && g.Ok() && i <= last < g.Blocks() && got(f, f, g.Start(i), g.Start(i))
    requires forall h: S, k: nat, j: nat :: Serves(got, g, hit, serve, h, k, j)
    ensures var (ok, r, h) := Runs(f, hit, serve, i, last, at);
            r <= g.End(last) && got(f, h, g.Start(i), if ok then g.End(last) else r)
    decreases last - i
  {
    var j := RunEnd(f, hit, i, last);
    assert Serves(got, g, hit, serve, f, i, j);
    var (ok, r, h) := serve(f, i, j, hit(f, i));
    BlockShape(g, j);
    Ends(g, j, last);
    if ok && j < last {
      Rest(got, f, h, g.Start(i), g.End(j));
      RunsFollow(got, h, g, hit, serve, j + 1, last, r);
      var (ok', r', z) := Runs(f, hit, serve, i, last, at);
      Join(got, f, h, z, g.Start(i), g.End(j), if ok' then g.End(last) else r');
    }
  }

  lemma Ends(g: Geometry, j: nat, last: nat)
    requires g.Ok() && j <= last < g.Blocks()
    ensures g.End(j) <= g.End(last)
  {
    MulMono(j + 1, last + 1, g.bs);
  }
}
