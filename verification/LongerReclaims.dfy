/** Another way to lose bytes: a claim that is hedged in full goes back unused,
    and is taken again longer, from the same start. When the old hedge wins, it
    cuts the longer claim, and what lies past its end belongs to nobody. No hedge
    was ever cut down, no request failed, and the reader is stuck all the same. */
module LongerReclaims {
  import opened Spans
  import opened Sched
  import opened RunModel
  import opened RunSafety
  import opened RunConservation
  import opened RunSteps

  const A: nat := 294 * MIB
  const B: nat := 295 * MIB
  const Q: nat := 295 * MIB + MIB / 4
  const E: nat := 296 * MIB
  const H: nat := 296 * MIB + MIB / 2
  const G: nat := 298 * MIB
  const D: nat := 300 * MIB
  const BUDGET: nat := 3 * MIB / 2
  const REST: nat := MIB / 2

  /** A 300 MiB download, three workers, all but the last 6 MiB already staged. */
  function At(unclaimed: seq<Span>, live: seq<Live>, budget: nat): Sched {
    Sched(unclaimed, live, Throughput, None, 3, 3, None, 0, D - 1, 0, 0, None, None, U64_MAX, budget)
  }

  /** What the three workers hold at first; what they hold when the third hedges the
      front; and what the first two take once they have given it back. */
  function Front(): Live { Whole(0, A, E - 1) }

  function Middle(): Live { Whole(1, E, G - 1) }

  function Back(): Live { Whole(2, G, D - 1) }

  function Raced(): Live { Whole(0, A, B - 1) }

  function Beside(): Live { Whole(1, B, H - 1) }

  function Rest(): Live { Whole(2, H, G - 1) }

  function Twin(): Live { Copy(2, A, B - 1) }

  function Longer(): Live { Whole(0, A, Q - 1) }

  function Stub(): Live { Longer().(end := A - 1) }

  function Behind(): Live { Whole(1, Q, H - 1) }

  /** The first claim of the list is the slowest. */
  function SlowFirst(): Rates { Rates(None, Some(0)) }

  function Waits(): Reader { Reader(B, D - 1, B, []) }

  // ---- what each scheduler call does ----

  lemma OpeningState()
    ensures New(0, D - 1, Throughput, None, 3, 3, None, [Span(0, A - 1)]) == At([Span(A, D - 1)], [], BUDGET)
  {
    var u := [Span(0, D - 1)];
    var staged := [Span(0, A - 1)];
    assert u[1..] == [] && CutAll(u[1..], 0, A - 1) == [];
    assert CutAll(u, 0, A - 1) == Cut(u[0], 0, A - 1);
    assert staged[1..] == [] && SubtractAll(Subtract(u, 0, A - 1), []) == Subtract(u, 0, A - 1);
  }

  /** With at most two claims of at most 2 MiB and 6 MiB waiting, this is the tail. */
  lemma NearTheEnd(s: Sched)
    requires s == At(s.unclaimed, s.live, s.dupBudget) && Short(s) && |s.live| <= 2
    requires s.unclaimed == [] || (|s.unclaimed| == 1 && s.unclaimed[0].lo >= A && s.unclaimed[0].hi < D)
    ensures s.InTail()
  {
    if s.unclaimed != [] { assert s.unclaimed[1..] == []; }
    assert Total(s.unclaimed) <= D - A;
    var live := s.live;
    if |live| > 0 {
      assert live[1..] == [] || live[1..] == [live[1]];
      if |live| == 2 { assert [live[1]][1..] == [] && LiveRemaining(live[1..]) <= 2 * MIN_CLAIM; }
    }
    assert LiveRemaining(live) <= 4 * MIN_CLAIM;
  }

  /** One more claim, off the front of the only gap. */
  lemma Takes(s: Sched, w: nat, lo: nat, hi: nat, end: nat)
    requires s == At([Span(lo, hi)], s.live, s.dupBudget) && Short(s) && |s.live| <= 2 && A <= lo <= end <= hi < D
    requires end + 1 - lo == Max(DivCeil(hi + 1 - lo, 3 - |s.live|), MIN_CLAIM)
    ensures s.Claim(w, NoRates()) ==
            (At(if end < hi then [Span(end + 1, hi)] else [], s.live + [Whole(w, lo, end)], s.dupBudget), Some(Whole(w,
                lo, end)))
  {
    NearTheEnd(s);
    TailLen(s, lo, hi);
    TakesFront(s, w, NoRates(), lo, hi, end);
  }

  lemma HedgeTaken()
    ensures At([], [Raced(), Beside()], BUDGET).Claim(2, SlowFirst()) == (At([], [Raced(), Beside(), Twin()], REST),
        Some(Twin()))
  {
    var s := At([], [Raced(), Beside()], BUDGET);
    NearTheEnd(s);
    assert !s.Hedged(A) && s.Hedgeable(2)(Raced());
    TakesHedge(s, 2, SlowFirst(), 0, A, B - 1);
    assert s.live + [Twin()] == [Raced(), Beside(), Twin()];
  }

  /** The hedge, complete, cuts the claim that took its start again. */
  lemma HedgeWins()
    ensures At([], [Filled(Twin()), Longer()], REST).Finish(2, B) == At([], [Stub()], REST)
  {
    var s := At([], [Filled(Twin()), Longer()], REST);
    assert FindFrom(s.live, OfWorker(2), 0) == 0 && s.live[..0] + s.live[1..] == [Longer()];
    assert FindFrom([Longer()], PrimaryAt(A), 0) == 0 && [Longer()][0 := Stub()] == [Stub()];
  }

  // ---- a worker's turn ----

  ghost function In(u: seq<Span>, live: seq<Live>, budget: nat, f: map<nat, Byte>, ts: seq<Task>): Run {
    Pool(At(u, live, budget), f, ts, Waits())
  }

  lemma Asked(reach: (Run, Run) -> bool, s: Sched, f: map<nat, Byte>, ts: seq<Task>, origin: nat -> Byte, w: nat,
              lo: nat, hi: nat, end: nat, live: seq<Live>, after: seq<Task>, z: Run)
    requires Backward(reach, origin) && w < |ts| && ts[w].Idle? && after == ts[w := Working(lo)]
    requires live == s.live + [Whole(w, lo, end)]
    requires s == At([Span(lo, hi)], s.live, s.dupBudget) && Short(s) && |s.live| <= 2 && A <= lo <= end <= hi < D
    requires end + 1 - lo == Max(DivCeil(hi + 1 - lo, 3 - |s.live|), MIN_CLAIM)
    requires reach(In(if end < hi then [Span(end + 1, hi)] else [], live, s.dupBudget, f, after), z)
    ensures reach(Pool(s, f, ts, Waits()), z)
  {
    Takes(s, w, lo, hi, end);
    Asks(reach, s, f, ts, Waits(), origin, w, NoRates(),
         At(if end < hi then [Span(end + 1, hi)] else [], live, s.dupBudget), Some(Whole(w, lo, end)), z);
  }

  /** A worker is throttled before its first byte. */
  lemma Throttled(reach: (Run, Run) -> bool, s: Sched, f: map<nat, Byte>, ts: seq<Task>, origin: nat -> Byte, w: nat,
                  l: Live, p: nat, u: seq<Span>, rest: seq<Live>, after: seq<Task>, z: Run)
    requires Backward(reach, origin) && w < |ts| && ts[w] == Working(l.start) && after == ts[w := Idle]
    requires s == At(s.unclaimed, s.live, s.dupBudget)
    requires HasClaim(s, w, l, p) && l.Primary() && Untouched(l)
    requires rest == s.live[..p] + s.live[p + 1..] && u == Insert(s.unclaimed, l.start, l.end)
    requires reach(In(u, rest, s.dupBudget, f, after), z)
    ensures reach(Pool(s, f, ts, Waits()), z)
  {
    GivesBack(s, w, l, p, u, rest);
    Reports(reach, s, f, ts, Waits(), origin, w, Overloaded, l, p, At(u, rest, s.dupBudget), z);
  }

  /** A worker delivers a claim nobody races. */
  lemma Served(reach: (Run, Run) -> bool, s: Sched, f: map<nat, Byte>, ts: seq<Task>, origin: nat -> Byte, w: nat,
               l: Live, p: nat, rest: seq<Live>, after: seq<Task>, z: Run)
    requires Backward(reach, origin) && w < |ts| && ts[w] == Working(l.start) && after == ts[w := Idle]
    requires s == At(s.unclaimed, s.live, s.dupBudget)
    requires HasClaim(s, w, l, p) && l.Primary() && Untouched(l)
    requires rest == s.live[..p] + s.live[p + 1..] && forall k :: 0 <= k < |rest| ==> rest[k].hedgeOf != Some(l.start)
    requires reach(In(s.unclaimed, rest, s.dupBudget, Write(f, origin, l.start, l.end + 1), after), z)
    ensures reach(Pool(s, f, ts, Waits()), z)
  {
    var full := s.(live := s.live[p := Filled(l)]);
    FindStays(s.live, w, p, Filled(l), 0);
    assert full.live[..p] + full.live[p + 1..] == rest;
    Retires(full, w, Filled(l), p, rest);
    Serves(reach, s, f, ts, Waits(), origin, w, l, p, At(s.unclaimed, rest, s.dupBudget), z);
  }

  /** A worker finds nothing and leaves. */
  lemma Left(reach: (Run, Run) -> bool, s: Sched, f: map<nat, Byte>, ts: seq<Task>, origin: nat -> Byte, w: nat,
             after: seq<Task>, z: Run)
    requires Backward(reach, origin) && w < |ts| && ts[w].Idle? && after == ts[w := Exited] && s == At([], s.live,
        REST) && Short(s)
    requires reach(Pool(s, f, after, Waits()), z)
    ensures reach(Pool(s, f, ts, Waits()), z)
  {
    NothingLeft(s, w, NoRates());
    Asks(reach, s, f, ts, Waits(), origin, w, NoRates(), s, None, z);
  }

  // ---- the run, from its end ----

  ghost function Stalled(f: map<nat, Byte>): Run { In([], [], REST, f, [Exited, Exited, Exited]) }

  /** The worker that was cut short reports nothing, and nothing is left for it. */
  lemma LastOut(reach: (Run, Run) -> bool, origin: nat -> Byte, f: map<nat, Byte>)
    requires Backward(reach, origin)
    ensures reach(In([], [Stub()], REST, f, [Working(A), Exited, Exited]), Stalled(f))
  {
    var s, none := At([], [Stub()], REST), At([], [], REST);
    Arrived(reach, Stalled(f), origin);
    Left(reach, none, f, [Idle, Exited, Exited], origin, 0, [Exited, Exited, Exited], Stalled(f));
    assert s.live[..0] + s.live[1..] == [] && FindFrom(s.live, OfWorker(0), 0) == 0;
    Retires(s, 0, Stub(), 0, []);
    assert [Working(A), Exited, Exited][0 := Idle] == [Idle, Exited, Exited];
    Reports(reach, s, f, [Working(A), Exited, Exited], Waits(), origin, 0, Done, Stub(), 0, none, Stalled(f));
  }

  /** The hedge is served to its end, and wins. */
  lemma Race(reach: (Run, Run) -> bool, origin: nat -> Byte, f: map<nat, Byte>)
    requires Backward(reach, origin)
    ensures reach(In([], [Twin(), Longer()], REST, f, [Working(A), Exited, Working(A)]), Stalled(Write(f, origin, A, B)))
  {
    var s, g := At([], [Twin(), Longer()], REST), Write(f, origin, A, B);
    LastOut(reach, origin, g);
    Left(reach, At([], [Stub()], REST), g, [Working(A), Exited, Idle], origin, 2, [Working(A), Exited, Exited],
         Stalled(g));
    HedgeWins();
    assert FindFrom(s.live, OfWorker(2), 0) == 0 && s.live[0 := Filled(Twin())] == [Filled(Twin()), Longer()];
    assert [Working(A), Exited, Working(A)][2 := Idle] == [Working(A), Exited, Idle];
    Serves(reach, s, f, [Working(A), Exited, Working(A)], Waits(), origin, 2, Twin(), 0, At([], [Stub()], REST),
           Stalled(g));
  }

  /** The second worker finds nothing more. */
  lemma BehindOut(reach: (Run, Run) -> bool, origin: nat -> Byte, f: map<nat, Byte>)
    requires Backward(reach, origin)
    ensures reach(In([], [Twin(), Longer()], REST, f, [Working(A), Idle, Working(A)]), Stalled(Write(f, origin, A, B)))
  {
    Race(reach, origin, f);
    Left(reach, At([], [Twin(), Longer()], REST), f, [Working(A), Idle, Working(A)], origin, 1,
         [Working(A), Exited, Working(A)], Stalled(Write(f, origin, A, B)));
  }

  lemma BehindIs()
    ensures var s := At([], [Twin(), Longer(), Behind()], REST); HasClaim(s, 1, Behind(), 2)
    ensures var s := At([], [Twin(), Longer(), Behind()], REST); s.live[..2] + s.live[3..] == [Twin(), Longer()]
    ensures Behind().Primary() && Untouched(Behind()) && Behind().start == Q && Behind().end + 1 == H
    ensures var rest := [Twin(), Longer()]; forall k :: 0 <= k < |rest| ==> rest[k].hedgeOf != Some(Behind().start)
  {
  }

  /** It has served what the longer claim leaves. */
  lemma BehindServed(reach: (Run, Run) -> bool, origin: nat -> Byte, f: map<nat, Byte>, z: Run)
    requires Backward(reach, origin)
    requires reach(In([], [Twin(), Longer()], REST, Write(f, origin, Q, H), [Working(A), Idle, Working(A)]), z)
    ensures reach(In([], [Twin(), Longer(), Behind()], REST, f, [Working(A), Working(Q), Working(A)]), z)
  {
    BehindIs();
    assert [Working(A), Working(Q), Working(A)][1 := Idle] == [Working(A), Idle, Working(A)];
    Served(reach, At([], [Twin(), Longer(), Behind()], REST), f, [Working(A), Working(Q), Working(A)], origin, 1, Behind(), 2,
           [Twin(), Longer()], [Working(A), Idle, Working(A)], z);
  }

  /** The range given back is taken again, longer. */
  lemma Retaken(reach: (Run, Run) -> bool, origin: nat -> Byte, f: map<nat, Byte>)
    requires Backward(reach, origin)
    ensures reach(In([Span(A, H - 1)], [Twin()], REST, f, [Idle, Idle, Working(A)]),
                    Stalled(Write(Write(f, origin, Q, H), origin, A, B)))
  {
    var z := Stalled(Write(Write(f, origin, Q, H), origin, A, B));
    BehindOut(reach, origin, Write(f, origin, Q, H));
    BehindServed(reach, origin, f, z);
    Asked(reach, At([Span(Q, H - 1)], [Twin(), Longer()], REST), f, [Working(A), Idle, Working(A)], origin, 1, Q,
          H - 1, H - 1, [Twin(), Longer(), Behind()], [Working(A), Working(Q), Working(A)], z);
    Asked(reach, At([Span(A, H - 1)], [Twin()], REST), f, [Idle, Idle, Working(A)], origin, 0, A, H - 1, Q - 1,
          [Twin(), Longer()], [Working(A), Idle, Working(A)], z);
  }

  /** The front is hedged in full; then it and its neighbour are given back. */
  lemma GivenBack(reach: (Run, Run) -> bool, origin: nat -> Byte, f: map<nat, Byte>)
    requires Backward(reach, origin)
    ensures reach(In([], [Raced(), Beside()], BUDGET, f, [Working(A), Working(B), Idle]),
                    Stalled(Write(Write(f, origin, Q, H), origin, A, B)))
  {
    var z := Stalled(Write(Write(f, origin, Q, H), origin, A, B));
    Retaken(reach, origin, f);
    InsertBefore(A, B, H - 1);
    var s := At([Span(B, H - 1)], [Raced(), Twin()], REST);
    assert FindFrom(s.live, OfWorker(0), 0) == 0;
    Throttled(reach, s, f, [Working(A), Idle, Working(A)], origin, 0, Raced(), 0, [Span(A, H - 1)], [Twin()],
              [Idle, Idle, Working(A)], z);
    InsertAlone(B, H - 1);
    var t := At([], [Raced(), Beside(), Twin()], REST);
    assert FindFrom(t.live, OfWorker(1), 0) == 1;
    Throttled(reach, t, f, [Working(A), Working(B), Working(A)], origin, 1, Beside(), 1, [Span(B, H - 1)],
              [Raced(), Twin()], [Working(A), Idle, Working(A)], z);
    HedgeTaken();
    assert [Working(A), Working(B), Idle][2 := Working(A)] == [Working(A), Working(B), Working(A)];
    Asks(reach, At([], [Raced(), Beside()], BUDGET), f, [Working(A), Working(B), Idle], Waits(), origin, 2,
         SlowFirst(), t, Some(Twin()), z);
  }

  /** The third worker takes and serves the rest. */
  lemma RestServed(reach: (Run, Run) -> bool, origin: nat -> Byte, f: map<nat, Byte>)
    requires Backward(reach, origin)
    ensures reach(In([Span(H, G - 1)], [Raced(), Beside()], BUDGET, f, [Working(A), Working(B), Idle]),
                    Stalled(Write(Write(Write(f, origin, H, G), origin, Q, H), origin, A, B)))
  {
    var g := Write(f, origin, H, G);
    var z := Stalled(Write(Write(g, origin, Q, H), origin, A, B));
    GivenBack(reach, origin, g);
    var s := At([], [Raced(), Beside(), Rest()], BUDGET);
    assert FindFrom(s.live, OfWorker(2), 0) == 2;
    Served(reach, s, f, [Working(A), Working(B), Working(H)], origin, 2, Rest(), 2, [Raced(), Beside()],
           [Working(A), Working(B), Idle], z);
    Asked(reach, At([Span(H, G - 1)], [Raced(), Beside()], BUDGET), f, [Working(A), Working(B), Idle], origin, 2, H,
          G - 1, G - 1, [Raced(), Beside(), Rest()], [Working(A), Working(B), Working(H)], z);
  }

  /** The second worker gives its part back, and the two that are free share it. */
  lemma Shared(reach: (Run, Run) -> bool, origin: nat -> Byte, f: map<nat, Byte>)
    requires Backward(reach, origin)
    ensures reach(In([Span(B, E - 1)], [Middle(), Raced()], BUDGET, f, [Working(A), Working(E), Idle]),
                    Stalled(Write(Write(Write(f, origin, H, G), origin, Q, H), origin, A, B)))
  {
    var z := Stalled(Write(Write(Write(f, origin, H, G), origin, Q, H), origin, A, B));
    RestServed(reach, origin, f);
    Asked(reach, At([Span(B, G - 1)], [Raced()], BUDGET), f, [Working(A), Idle, Idle], origin, 1, B, G - 1, H - 1,
          [Raced(), Beside()], [Working(A), Working(B), Idle], z);
    InsertBehind(B, E, G - 1);
    var t := At([Span(B, E - 1)], [Middle(), Raced()], BUDGET);
    assert FindFrom(t.live, OfWorker(1), 0) == 0;
    Throttled(reach, t, f, [Working(A), Working(E), Idle], origin, 1, Middle(), 0, [Span(B, G - 1)], [Raced()],
              [Working(A), Idle, Idle], z);
  }

  /** The third worker serves its part; the first is throttled and takes less. */
  lemma Thinned(reach: (Run, Run) -> bool, origin: nat -> Byte, f: map<nat, Byte>)
    requires Backward(reach, origin)
    ensures reach(In([], [Front(), Middle(), Back()], BUDGET, f, [Working(A), Working(E), Working(G)]),
                    Stalled(Write(Write(Write(Write(f, origin, G, D), origin, H, G), origin, Q, H), origin, A, B)))
  {
    var g := Write(f, origin, G, D);
    var z := Stalled(Write(Write(Write(g, origin, H, G), origin, Q, H), origin, A, B));
    Shared(reach, origin, g);
    Asked(reach, At([Span(A, E - 1)], [Middle()], BUDGET), g, [Idle, Working(E), Idle], origin, 0, A, E - 1, B - 1,
          [Middle(), Raced()], [Working(A), Working(E), Idle], z);
    InsertAlone(A, E - 1);
    var s := At([], [Front(), Middle()], BUDGET);
    assert FindFrom(s.live, OfWorker(0), 0) == 0;
    Throttled(reach, s, g, [Working(A), Working(E), Idle], origin, 0, Front(), 0, [Span(A, E - 1)], [Middle()],
              [Idle, Working(E), Idle], z);
    var t := At([], [Front(), Middle(), Back()], BUDGET);
    assert FindFrom(t.live, OfWorker(2), 0) == 2;
    Served(reach, t, f, [Working(A), Working(E), Working(G)], origin, 2, Back(), 2, [Front(), Middle()],
           [Working(A), Working(E), Idle], z);
  }

  lemma LastThird(reach: (Run, Run) -> bool, origin: nat -> Byte, f: map<nat, Byte>)
    requires Backward(reach, origin)
    ensures reach(In([Span(G, D - 1)], [Front(), Middle()], BUDGET, f, [Working(A), Working(E), Idle]),
                    Stalled(Write(Write(Write(Write(f, origin, G, D), origin, H, G), origin, Q, H), origin, A, B)))
  {
    var z := Stalled(Write(Write(Write(Write(f, origin, G, D), origin, H, G), origin, Q, H), origin, A, B));
    Thinned(reach, origin, f);
    Asked(reach, At([Span(G, D - 1)], [Front(), Middle()], BUDGET), f, [Working(A), Working(E), Idle], origin, 2, G,
          D - 1, D - 1, [Front(), Middle(), Back()], [Working(A), Working(E), Working(G)], z);
  }

  /** Each worker takes a third. */
  lemma Beginning(reach: (Run, Run) -> bool, origin: nat -> Byte, f: map<nat, Byte>)
    requires Backward(reach, origin)
    ensures reach(In([Span(A, D - 1)], [], BUDGET, f, [Idle, Idle, Idle]),
                    Stalled(Write(Write(Write(Write(f, origin, G, D), origin, H, G), origin, Q, H), origin, A, B)))
  {
    var z := Stalled(Write(Write(Write(Write(f, origin, G, D), origin, H, G), origin, Q, H), origin, A, B));
    LastThird(reach, origin, f);
    Asked(reach, At([Span(E, D - 1)], [Front()], BUDGET), f, [Working(A), Idle, Idle], origin, 1, E, D - 1, G - 1,
          [Front(), Middle()], [Working(A), Working(E), Idle], z);
    Asked(reach, At([Span(A, D - 1)], [], BUDGET), f, [Idle, Idle, Idle], origin, 0, A, D - 1, E - 1, [Front()],
          [Working(A), Idle, Idle], z);
  }

  // ---- the download ----

  ghost function Opened(origin: nat -> Byte): Run {
    Run(At([Span(A, D - 1)], [], BUDGET), Write(map[], origin, 0, A), [Idle, Idle, Idle], [], false, 0, 1)
  }

  lemma OpenedOpens(origin: nat -> Byte)
    ensures Opening(Opened(origin), origin, Throughput, [Span(0, A - 1)])
  {
    OpeningState();
    WriteLaw(map[], origin, 0, A);
    forall x: nat | Has([Span(0, A - 1)], x) ensures x in Opened(origin).file { HasAt([Span(0, A - 1)], x); }
  }

  ghost function Final(origin: nat -> Byte): Run {
    var f := Write(map[], origin, 0, A);
    Stalled(Write(Write(Write(Write(f, origin, G, D), origin, H, G), origin, Q, H), origin, A, B))
  }

  lemma FinalFile(origin: nat -> Byte, x: nat)
    requires B <= x < Q
    ensures x !in Final(origin).file
  {
    var f := Write(map[], origin, 0, A);
    WriteLaw(map[], origin, 0, A);
    WriteLaw(f, origin, G, D);
    WriteLaw(Write(f, origin, G, D), origin, H, G);
    WriteLaw(Write(Write(f, origin, G, D), origin, H, G), origin, Q, H);
    WriteLaw(Write(Write(Write(f, origin, G, D), origin, H, G), origin, Q, H), origin, A, B);
  }

  lemma FinalStalls(origin: nat -> Byte)
    ensures var z := Final(origin); Unfinished(z, Waits()) && z.readers == [Waits()] && !Enabled(z, Emit(0))
  {
    FinalFile(origin, B);
  }

  lemma OpenedReaches(origin: nat -> Byte)
    ensures Reaches(Opened(origin), origin, Final(origin))
  {
    var r, f, reach := Opened(origin), Write(map[], origin, 0, A), Reach(origin);
    ReachesBackward(origin);
    Beginning(reach, origin, f);
    assert r.readers + [Waits()] == [Waits()];
    Then(reach, r, origin, Attach(B, D - 1), Pool(At([Span(A, D - 1)], [], BUDGET), f, [Idle, Idle, Idle], Waits()),
         Final(origin));
    assert reach(r, Final(origin));
  }

  /** Whatever the origin holds, a throughput download in which nothing fails and no
      hedge is ever cut short, so that budget is left over, can end with every worker
      gone, a stretch of the request missing, and a reader stalled in front of it: a
      claim went back unused and was taken again, longer, under its old hedge. */
  lemma LongerReclaimStalls(origin: nat -> Byte) returns (r: Run, acts: seq<Act>)
    ensures Opening(r, origin, Throughput, [Span(0, A - 1)]) && r.s.reqStart == 0 && r.s.reqEnd == D - 1
    ensures OnlyStreams(acts) && Possible(r, origin, acts)
    ensures var z := Exec(r, origin, acts);
            && AllExited(z) && !z.fatal && z.failures == 0 && z.s.dupBudget > 0 && z.s.unclaimed == [] && z.s.live == []
            && (forall x: nat :: B <= x < Q ==> x !in z.file)
            && |z.readers| == 1 && Unfinished(z, z.readers[0]) && !Enabled(z, Emit(0))
  {
    OpenedOpens(origin);
    OpenedReaches(origin);
    FinalStalls(origin);
    r := Opened(origin);
    acts :| OnlyStreams(acts) && Possible(r, origin, acts) && Exec(r, origin, acts) == Final(origin);
    forall x: nat | B <= x < Q ensures x !in Final(origin).file { FinalFile(origin, x); }
  }
}
