/** Runs put together act by act: what a worker's turn does to a pool, and which
    states are reached from which. */
module RunSteps {
  import opened Spans
  import opened Sched
  import opened RunModel
  import opened RunConservation
  import opened EvenSplit

  function NoRates(): Rates { Rates(None, None) }

  predicate OnlyStreams(acts: seq<Act>) { forall i :: 0 <= i < |acts| ==> Streams(acts[i]) }

  ghost predicate Reaches(r: Run, origin: nat -> Byte, z: Run) {
    exists acts: seq<Act> :: OnlyStreams(acts) && Possible(r, origin, acts) && Exec(r, origin, acts) == z
  }

  /** One act leads from one run to the next. */
  ghost predicate Leads(r: Run, origin: nat -> Byte, a: Act, next: Run) { Enabled(r, a) && Apply(r, origin,
      a) == next && Streams(a) }

  ghost predicate Here(reach: (Run, Run) -> bool, r: Run) { reach(r, r) }

  ghost predicate Extends(reach: (Run, Run) -> bool, origin: nat -> Byte, r: Run, a: Act, next: Run, z: Run) {
    Leads(r, origin, a, next) && reach(next, z) ==> reach(r, z)
  }

  /** What is reached from the next run is reached from this one. */
  ghost predicate Backward(reach: (Run, Run) -> bool, origin: nat -> Byte) {
    (forall r: Run :: Here(reach, r)) && forall r: Run, a: Act, next: Run, z: Run :: Extends(reach, origin, r, a, next, z)
  }

  ghost function Reach(origin: nat -> Byte): (Run, Run) -> bool { (r: Run, z: Run) => Reaches(r, origin, z) }

  lemma ReachesBackward(origin: nat -> Byte)
    ensures Backward(Reach(origin), origin)
  {
    forall r: Run ensures Here(Reach(origin), r) {
      var acts: seq<Act> := [];
      assert OnlyStreams(acts) && Possible(r, origin, acts) && Exec(r, origin, acts) == r;
    }
    forall r: Run, a: Act, next: Run, z: Run ensures Extends(Reach(origin), origin, r, a, next, z) {
      if Leads(r, origin, a, next) && Reaches(next, origin, z) { OneMore(r, origin, a, next, z); }
    }
  }

  lemma OneMore(r: Run, origin: nat -> Byte, a: Act, next: Run, z: Run)
    requires Leads(r, origin, a, next) && Reaches(next, origin, z)
    ensures Reaches(r, origin, z)
  {
    var rest: seq<Act> :| OnlyStreams(rest) && Possible(next, origin, rest) && Exec(next, origin, rest) == z;
    var acts := [a] + rest;
    assert acts[1..] == rest && acts[0] == a;
    assert OnlyStreams(acts) && Possible(r, origin, acts) && Exec(r, origin, acts) == z;
  }

  lemma Arrived(reach: (Run, Run) -> bool, r: Run, origin: nat -> Byte)
    requires Backward(reach, origin)
    ensures reach(r, r)
  {
    assert Here(reach, r);
  }

  lemma Then(reach: (Run, Run) -> bool, r: Run, origin: nat -> Byte, a: Act, next: Run, z: Run)
    requires Backward(reach, origin) && Leads(r, origin, a, next) && reach(next, z)
    ensures reach(r, z)
  {
    assert Extends(reach, origin, r, a, next, z);
  }

  /** A pool of workers, with one reader. */
  ghost function Pool(s: Sched, file: map<nat, Byte>, ts: seq<Task>, d: Reader): Run {
    Run(s, file, ts, [d], false, 0, 1)
  }

  /** Worker `w`'s first claim is `l`, at `p` in the list. */
  ghost predicate HasClaim(s: Sched, w: nat, l: Live, p: nat) {
    p < |s.live| && s.live[p] == l && l.worker == w && FindFrom(s.live, OfWorker(w), 0) == p
  }

  function Working(at: nat): Task { Busy(at, 0, false) }

  // ---- asking ----

  lemma AskIs(s: Sched, f: map<nat, Byte>, ts: seq<Task>, d: Reader, w: nat, rates: Rates, t: Sched, l: Option<Live>)
    requires w < |ts| && ts[w].Idle? && s.WellFormed() && s.Claim(w, rates) == (t, l)
    ensures var r := Pool(s, f, ts, d);
            && Enabled(r, Ask(w, rates))
            && AskAct(r, w, rates) == Pool(t, f, ts[w := if l.Some? then Working(l.value.start) else Exited], d)
  {
  }

  lemma Asks(reach: (Run, Run) -> bool, s: Sched, f: map<nat, Byte>, ts: seq<Task>, d: Reader, origin: nat -> Byte,
             w: nat, rates: Rates, t: Sched, l: Option<Live>, z: Run)
    requires Backward(reach, origin) && w < |ts| && ts[w].Idle? && s.WellFormed() && s.Claim(w, rates) == (t, l)
    requires reach(Pool(t, f, ts[w := if l.Some? then Working(l.value.start) else Exited], d), z)
    ensures reach(Pool(s, f, ts, d), z)
  {
    AskIs(s, f, ts, d, w, rates, t, l);
    Then(reach, Pool(s, f, ts, d), origin, Ask(w, rates),
         Pool(t, f, ts[w := if l.Some? then Working(l.value.start) else Exited], d), z);
  }

  // ---- reporting ----

  /** A request that came back well, or was throttled. */
  predicate Harmless(v: Verdict) { v.Done? || v.Overloaded? }

  lemma ReportIs(s: Sched, f: map<nat, Byte>, ts: seq<Task>, d: Reader, w: nat, v: Verdict, l: Live, p: nat, t: Sched)
    requires w < |ts| && HasClaim(s, w, l, p) && ts[w] == Working(l.cursor) && s.Finish(w, l.cursor) == t
    ensures var r := Pool(s, f, ts, d);
            && Enabled(r, Report(w, v))
            && ReportAct(r, w, v) == Pool(t, f, ts[w := Reporting(v, SatSub(l.cursor, l.start), l.issued)], d)
  {
  }

  lemma NoteIs(t: Sched, f: map<nat, Byte>, ts: seq<Task>, d: Reader, w: nat, v: Verdict, done: nat, n: nat)
    requires w < |ts| && ts[w] == Reporting(v, done, n) && t.autoLimit.None? && Harmless(v)
    ensures var r := Pool(t, f, ts, d); Enabled(r, Note(w)) && NoteAct(r, w) == Pool(t, f, ts[w := Idle], d)
  {
  }

  /** A worker reports what it has delivered, and is free again. */
  lemma Reports(reach: (Run, Run) -> bool, s: Sched, f: map<nat, Byte>, ts: seq<Task>, d: Reader, origin: nat -> Byte,
                w: nat, v: Verdict, l: Live, p: nat, t: Sched, z: Run)
    requires Backward(reach, origin) && w < |ts| && HasClaim(s, w, l, p) && ts[w] == Working(l.cursor) && s.Finish(w,
        l.cursor) == t
    requires t.autoLimit.None? && Harmless(v) && reach(Pool(t, f, ts[w := Idle], d), z)
    ensures reach(Pool(s, f, ts, d), z)
  {
    var reporting := ts[w := Reporting(v, SatSub(l.cursor, l.start), l.issued)];
    NoteIs(t, f, reporting, d, w, v, SatSub(l.cursor, l.start), l.issued);
    assert reporting[w := Idle] == ts[w := Idle];
    Then(reach, Pool(t, f, reporting, d), origin, Note(w), Pool(t, f, ts[w := Idle], d), z);
    ReportIs(s, f, ts, d, w, v, l, p, t);
    Then(reach, Pool(s, f, ts, d), origin, Report(w, v), Pool(t, f, reporting, d), z);
  }

  // ---- delivering ----

  /** The claim with all of it landed. */
  function Filled(l: Live): Live { l.(cursor := l.end + 1, reserved := l.end + 1) }

  ghost predicate Untouched(l: Live) { l.cursor == l.start && l.reserved == l.start && l.start <= l.end }

  lemma {:induction false} FindStays(live: seq<Live>, w: nat, p: nat, l: Live, i: nat)
    requires i <= p < |live| && l.worker == w && FindFrom(live, OfWorker(w), i) == p
    ensures FindFrom(live[p := l], OfWorker(w), i) == p
    decreases |live| - i
  {
    if i < p { FindStays(live, w, p, l, i + 1); }
  }

  lemma SeeIs(s: Sched, f: map<nat, Byte>, ts: seq<Task>, d: Reader, w: nat, l: Live, p: nat)
    requires w < |ts| && HasClaim(s, w, l, p) && ts[w] == Working(l.start) && l.start <= l.end
    ensures var r, n := Pool(s, f, ts, d), l.end + 1 - l.start;
            Enabled(r, See(w, n)) && SeeAct(r, w, n) == Pool(s, f, ts[w := Busy(l.start, n, false)], d)
  {
  }

  lemma CommitIs(s: Sched, f: map<nat, Byte>, ts: seq<Task>, d: Reader, w: nat, l: Live, p: nat)
    requires w < |ts| && HasClaim(s, w, l, p) && Untouched(l) && ts[w] == Busy(l.start, l.end + 1 - l.start, false)
    ensures var r, t := Pool(s, f, ts, d), s.(live := s.live[p := l.(reserved := l.end + 1)]);
            && Enabled(r, Commit(w))
            && CommitAct(r, w) == Pool(t, f, ts[w := Busy(l.start, l.end + 1 - l.start, true)], d)
  {
  }

  lemma LandIs(s: Sched, f: map<nat, Byte>, ts: seq<Task>, d: Reader, origin: nat -> Byte, w: nat, l: Live, p: nat)
    requires w < |ts| && HasClaim(s, w, l, p) && l.cursor == l.start <= l.end && l.reserved == l.end + 1
    requires ts[w] == Busy(l.start, l.end + 1 - l.start, true)
    ensures var r, t := Pool(s, f, ts, d), s.(live := s.live[p := Filled(l)]);
            && Enabled(r, Land(w, true))
           
            && LandAct(r, origin, w, true) == Pool(t, Write(f, origin, l.start, l.end + 1), ts[w := Working(l.end + 1)], d)
  {
  }

  /** A worker's request, delivered as a single item. */
  lemma Lands(reach: (Run, Run) -> bool, s: Sched, f: map<nat, Byte>, ts: seq<Task>, d: Reader, origin: nat -> Byte,
              w: nat, l: Live, p: nat, z: Run)
    requires Backward(reach, origin) && w < |ts| && HasClaim(s, w, l, p) && Untouched(l) && ts[w] == Working(l.start)
    requires reach(Pool(s.(live := s.live[p := Filled(l)]), Write(f, origin, l.start, l.end + 1),
                          ts[w := Working(l.end + 1)], d), z)
    ensures reach(Pool(s, f, ts, d), z)
  {
    var n, g := l.end + 1 - l.start, Write(f, origin, l.start, l.end + 1);
    var seen, held := ts[w := Busy(l.start, n, false)], ts[w := Busy(l.start, n, true)];
    var l2 := l.(reserved := l.end + 1);
    var s2, s3 := s.(live := s.live[p := l2]), s.(live := s.live[p := Filled(l)]);
    FindStays(s.live, w, p, l2, 0);
    LandIs(s2, f, held, d, origin, w, l2, p);
    assert s2.live[p := Filled(l2)] == s3.live && held[w := Working(l.end + 1)] == ts[w := Working(l.end + 1)];
    Then(reach, Pool(s2, f, held, d), origin, Land(w, true), Pool(s3, g, ts[w := Working(l.end + 1)], d), z);
    CommitIs(s, f, seen, d, w, l, p);
    assert seen[w := Busy(l.start, n, true)] == held;
    Then(reach, Pool(s, f, seen, d), origin, Commit(w), Pool(s2, f, held, d), z);
    SeeIs(s, f, ts, d, w, l, p);
    Then(reach, Pool(s, f, ts, d), origin, See(w, n), Pool(s, f, seen, d), z);
  }

  /** A worker delivers its whole claim, reports it, and is free again. */
  lemma Serves(reach: (Run, Run) -> bool, s: Sched, f: map<nat, Byte>, ts: seq<Task>, d: Reader, origin: nat -> Byte,
               w: nat, l: Live, p: nat, t: Sched, z: Run)
    requires Backward(reach, origin) && w < |ts| && HasClaim(s, w, l, p) && Untouched(l) && ts[w] == Working(l.start)
    requires s.(live := s.live[p := Filled(l)]).Finish(w, l.end + 1) == t && t.autoLimit.None?
    requires reach(Pool(t, Write(f, origin, l.start, l.end + 1), ts[w := Idle], d), z)
    ensures reach(Pool(s, f, ts, d), z)
  {
    var full, g := s.(live := s.live[p := Filled(l)]), Write(f, origin, l.start, l.end + 1);
    var working := ts[w := Working(l.end + 1)];
    FindStays(s.live, w, p, Filled(l), 0);
    assert working[w := Idle] == ts[w := Idle];
    Reports(reach, full, g, working, d, origin, w, Done, Filled(l), p, t, z);
    Lands(reach, s, f, ts, d, origin, w, l, p, z);
  }

  // ---- what a scheduler call does to a list ----

  /** A download without volumes, caps or learned limits. */
  predicate Plain(s: Sched) {
    && s.WellFormed() && s.strategy.Throughput? && s.volumes.None? && s.splitCap.None? && s.workLimit.None?
    && s.autoLimit.None?
    && s.reqStart <= s.reqEnd < U64_MAX
  }

  /** A claim on `[lo, end]` nobody has worked on. */
  function Whole(w: nat, lo: nat, end: nat): Live { Live(w, 0, lo, SatSub(end, lo) + 1, end, lo, lo, lo, None) }

  /** The front of the only gap is handed out. */
  lemma TakesFront(s: Sched, w: nat, rates: Rates, lo: nat, hi: nat, end: nat)
    requires Plain(s) && s.unclaimed == [Span(lo, hi)] && s.reqStart <= lo <= end <= hi <= s.reqEnd
    requires s.ClaimLen() == end + 1 - lo || (end == hi && s.ClaimLen() >= end + 1 - lo)
    ensures s.Claim(w, rates) == (s.(unclaimed := if end < hi then [Span(end + 1, hi)] else [],
        live := s.live + [Whole(w, lo, end)]),
                                  Some(Whole(w, lo, end)))
  {
    OnlyGap(s, w, rates, lo, hi);
    assert s.TakeEnd(lo, hi) == end;
    CutFront(lo, end, hi);
  }

  /** Near the end of a download an even share of what waits, if it is no less than
      the smallest claim. */
  lemma TailLen(s: Sched, lo: nat, hi: nat)
    requires Plain(s) && s.unclaimed == [Span(lo, hi)] && lo <= hi && s.InTail()
    requires DivCeil(hi + 1 - lo, Max(SatSub(s.maxThreads, |s.live|), 1)) <= U64_MAX
    ensures s.ClaimLen() == Max(DivCeil(hi + 1 - lo, Max(SatSub(s.maxThreads, |s.live|), 1)), MIN_CLAIM)
  {
    assert s.unclaimed[1..] == [] && Total(s.unclaimed) == hi + 1 - lo;
  }

  lemma NothingWaits(s: Sched, w: nat, i: nat)
    requires s.WellFormed() && s.unclaimed == [] && s.strategy.Throughput? && i <= |s.Regions()|
    ensures s.TakeFrom(w, s.Regions(), i).None?
    decreases |s.Regions()| - i
  {
    if i < |s.Regions()| {
      var g := s.Regions()[i];
      assert s.Take(w, g.lo, g.hi, true, false).None? && s.Take(w, g.lo, g.hi, false, false).None?;
      NothingWaits(s, w, i + 1);
    }
  }

  /** No claim is long enough to rob. */
  ghost predicate Short(s: Sched) { forall i :: 0 <= i < |s.live| ==> s.live[i].Remaining() <= 2 * MIN_CLAIM }

  lemma NobodyRobbed(s: Sched, w: nat, rates: Rates)
    requires Plain(s) && Short(s)
    ensures s.Steal(w, rates) == (s, None)
  {
    assert s.MinFrag() >= MIN_CLAIM && Sat(s.MinFrag() * 2) >= 2 * MIN_CLAIM;
    assert Choose(s.live, s.Robbable(w), rates.straggler).None?;
  }

  /** Nothing waits, nobody can be robbed and no budget is left: nothing to claim. */
  lemma NothingLeft(s: Sched, w: nat, rates: Rates)
    requires Plain(s) && s.unclaimed == [] && Short(s) && s.dupBudget < MIN_CLAIM
    ensures s.Claim(w, rates) == (s, None)
  {
    NothingWaits(s, w, 0);
    NobodyRobbed(s, w, rates);
  }

  /** A hedge on the claim at `p`, as far as the budget goes. */
  function Copy(w: nat, lo: nat, end: nat): Live { Live(w, 0, lo, SatSub(end, lo) + 1, end, lo, lo, lo, Some(lo)) }

  /** Nothing waits and nobody can be robbed: the claim that is picked is copied,
      as far as the budget goes. */
  lemma TakesHedge(s: Sched, w: nat, rates: Rates, p: nat, lo: nat, end: nat)
    requires Plain(s) && s.unclaimed == [] && Short(s) && s.InTail() && p < |s.live|
    requires Choose(s.live, s.Hedgeable(w), rates.slowest) == Some(p) && s.dupBudget >= MIN_CLAIM
    requires s.live[p].cursor == s.live[p].start == lo && end == Min(s.live[p].end, lo + s.dupBudget - 1) <= s.reqEnd
    requires end + 1 - lo >= MIN_CLAIM
    ensures s.Claim(w, rates) == (s.(live := s.live + [Copy(w, lo, end)], dupBudget := s.dupBudget - (end + 1 - lo)),
                                  Some(Copy(w, lo, end)))
  {
    NothingWaits(s, w, 0);
    NobodyRobbed(s, w, rates);
    assert Sat(lo + SatSub(s.dupBudget, 1)) == Min(lo + s.dupBudget - 1, U64_MAX);
  }

  /** A primary that stops short gives back the rest. */
  lemma GivesBack(s: Sched, w: nat, l: Live, p: nat, u: seq<Span>, rest: seq<Live>)
    requires HasClaim(s, w, l, p) && l.Primary() && l.cursor <= l.end
    requires rest == s.live[..p] + s.live[p + 1..] && u == Insert(s.unclaimed, l.cursor, l.end)
    ensures s.Finish(w, l.cursor) == s.(live := rest, unclaimed := u)
  {
  }

  /** A primary that nobody races retires once it has delivered everything. */
  lemma Retires(s: Sched, w: nat, l: Live, p: nat, rest: seq<Live>)
    requires HasClaim(s, w, l, p) && l.Primary() && l.cursor > l.end
    requires rest == s.live[..p] + s.live[p + 1..] && forall k :: 0 <= k < |rest| ==> rest[k].hedgeOf != Some(l.start)
    ensures s.Finish(w, l.cursor) == s.(live := rest)
  {
    assert FindFrom(rest, HedgeOf(l.start), 0) == |rest|;
  }

  lemma InsertAlone(lo: nat, hi: nat)
    requires lo <= hi
    ensures Insert([], lo, hi) == [Span(lo, hi)]
  {
    assert MergeAll([], [Span(lo, hi)]) == MergeAll([Span(lo, hi)], []);
  }

  /** Two adjacent ranges become one. */
  lemma MergedPair(lo: nat, mid: nat, hi: nat)
    requires lo < mid <= hi < U64_MAX
    ensures MergeAll([], [Span(lo, mid - 1), Span(mid, hi)]) == [Span(lo, hi)]
  {
    var a, b := Span(lo, mid - 1), Span(mid, hi);
    assert [a, b][1..] == [b] && [b][1..] == [];
    assert Absorb([], a) == [a] && Absorb([a], b) == [Span(lo, hi)];
    assert MergeAll([], [a, b]) == MergeAll([a], [b]) == MergeAll([Span(lo, hi)], []);
  }

  lemma InsertBehind(lo: nat, mid: nat, hi: nat)
    requires lo < mid <= hi < U64_MAX
    ensures Insert([Span(lo, mid - 1)], mid, hi) == [Span(lo, hi)]
  {
    var a, b := Span(lo, mid - 1), Span(mid, hi);
    assert [a][1..] == [] && InsertSorted([a], b) == [a] + InsertSorted([], b) == [a, b];
    MergedPair(lo, mid, hi);
  }

  lemma InsertBefore(lo: nat, mid: nat, hi: nat)
    requires lo < mid <= hi < U64_MAX
    ensures Insert([Span(mid, hi)], lo, mid - 1) == [Span(lo, hi)]
  {
    var a, b := Span(lo, mid - 1), Span(mid, hi);
    assert InsertSorted([b], a) == [a] + [b] == [a, b];
    MergedPair(lo, mid, hi);
  }
}
