/** A run in which bytes are lost: a hedge cut down to the remaining budget wins,
    its primary is cut short all the same, and the tail belongs to nobody. Every
    worker leaves without an error and the reader is stuck. */
module LossyRuns {
  import opened Spans
  import opened Sched
  import opened RunModel
  import opened RunSafety
  import opened RunConservation
  import opened RunSteps

  const A: nat := 296 * MIB
  const P: nat := 298 * MIB
  const C: nat := 299 * MIB + MIB / 2
  const D: nat := 300 * MIB
  const BUDGET: nat := 3 * MIB / 2

  /** A 300 MiB download, two workers, all but the last 4 MiB already staged. */
  function At(unclaimed: seq<Span>, live: seq<Live>, budget: nat): Sched {
    Sched(unclaimed, live, Throughput, None, 2, 2, None, 0, D - 1, 0, 0, None, None, U64_MAX, budget)
  }

  function Front(): Live { Whole(0, A, P - 1) }

  function Tail(): Live { Whole(1, P, D - 1) }

  function Stub(): Live { Tail().(end := P - 1) }

  function Waits(): Reader { Reader(C, D - 1, C, []) }

  // ---- what each scheduler call does ----

  lemma OpeningState()
    ensures New(0, D - 1, Throughput, None, 2, 2, None, [Span(0, A - 1)]) == At([Span(A, D - 1)], [], BUDGET)
  {
    var u := [Span(0, D - 1)];
    var staged := [Span(0, A - 1)];
    assert u[1..] == [] && CutAll(u[1..], 0, A - 1) == [];
    assert CutAll(u, 0, A - 1) == Cut(u[0], 0, A - 1);
    assert staged[1..] == [] && SubtractAll(Subtract(u, 0, A - 1), []) == Subtract(u, 0, A - 1);
  }

  lemma FirstTake()
    ensures At([Span(A, D - 1)], [], BUDGET).Claim(0, NoRates()) == (At([Span(P, D - 1)], [Front()], BUDGET), Some(Front()))
  {
    var s := At([Span(A, D - 1)], [], BUDGET);
    assert s.unclaimed[1..] == [] && Total(s.unclaimed) == D - A;
    TakesFront(s, 0, NoRates(), A, D - 1, P - 1);
    assert [] + [Front()] == [Front()];
  }

  lemma SecondTake()
    ensures At([Span(P, D - 1)], [Front()], BUDGET).Claim(1, NoRates()) == (At([], [Front(), Tail()], BUDGET), Some(Tail()))
  {
    var s := At([Span(P, D - 1)], [Front()], BUDGET);
    assert s.unclaimed[1..] == [] && Total(s.unclaimed) == D - P;
    assert s.live[1..] == [] && LiveRemaining(s.live) == P - A;
    TakesFront(s, 1, NoRates(), P, D - 1, D - 1);
    assert [Front()] + [Tail()] == [Front(), Tail()];
  }

  lemma FrontDone()
    ensures At([], [Filled(Front()), Tail()], BUDGET).Finish(0, P) == At([], [Tail()], BUDGET)
  {
    var s := At([], [Filled(Front()), Tail()], BUDGET);
    assert s.live[..0] + s.live[1..] == [Tail()];
    assert FindFrom(s.live, OfWorker(0), 0) == 0;
    assert FindFrom([Tail()], HedgeOf(A), 1) == 1;
  }

  /** The hedge is cut down to what is left of the budget. */
  lemma HedgeTaken()
    ensures At([], [Tail()], BUDGET).Claim(0, NoRates()) == (At([], [Tail(), Copy(0, P, C - 1)], 0), Some(Copy(0, P,
        C - 1)))
  {
    var s := At([], [Tail()], BUDGET);
    assert s.live[1..] == [] && LiveRemaining(s.live) == D - P && s.InTail();
    assert !s.Hedged(P);
    assert LargestFrom(s.live, s.Hedgeable(0), 1, Some(0)) == Some(0);
    assert Choose(s.live, s.Hedgeable(0), None) == Some(0);
    TakesHedge(s, 0, NoRates(), 0, P, C - 1);
    assert s.live + [Copy(0, P, C - 1)] == [Tail(), Copy(0, P, C - 1)];
  }

  lemma CopyWins()
    ensures At([], [Tail(), Filled(Copy(0, P, C - 1))], 0).Finish(0, C) == At([], [Stub()], 0)
  {
    var s := At([], [Tail(), Filled(Copy(0, P, C - 1))], 0);
    assert s.live[..1] + s.live[2..] == [Tail()];
    assert FindFrom(s.live, OfWorker(0), 1) == 1;
    assert FindFrom([Tail()], PrimaryAt(P), 0) == 0;
    assert [Tail()][0 := Stub()] == [Stub()];
  }

  lemma StubDone()
    ensures At([], [Stub()], 0).Finish(1, P) == At([], [], 0)
  {
    var s := At([], [Stub()], 0);
    assert s.live[..0] + s.live[1..] == [];
    assert FindFrom(s.live, OfWorker(1), 0) == 0;
  }

  lemma NothingMore(w: nat, live: seq<Live>)
    requires live == [] || live == [Stub()]
    ensures At([], live, 0).Claim(w, NoRates()) == (At([], live, 0), None)
  {
    NothingLeft(At([], live, 0), w, NoRates());
  }

  // ---- the run, from its end ----

  ghost function Stalled(f: map<nat, Byte>): Run { Pool(At([], [], 0), f, [Exited, Exited], Waits()) }

  /** The last worker finds nothing more. */
  lemma LastOut(reach: (Run, Run) -> bool, origin: nat -> Byte, f: map<nat, Byte>)
    requires Backward(reach, origin)
    ensures reach(Pool(At([], [], 0), f, [Exited, Idle], Waits()), Stalled(f))
  {
    var none := At([], [], 0);
    Arrived(reach, Stalled(f), origin);
    NothingMore(1, []);
    assert [Exited, Idle][1 := Exited] == [Exited, Exited];
    Asks(reach, none, f, [Exited, Idle], Waits(), origin, 1, NoRates(), none, None, Stalled(f));
  }

  /** The worker that was cut short reports. */
  lemma StubOut(reach: (Run, Run) -> bool, origin: nat -> Byte, f: map<nat, Byte>)
    requires Backward(reach, origin)
    ensures reach(Pool(At([], [Stub()], 0), f, [Exited, Working(P)], Waits()), Stalled(f))
  {
    var s := At([], [Stub()], 0);
    LastOut(reach, origin, f);
    StubDone();
    assert HasClaim(s, 1, Stub(), 0);
    assert [Exited, Working(P)][1 := Idle] == [Exited, Idle];
    Reports(reach, s, f, [Exited, Working(P)], Waits(), origin, 1, Done, Stub(), 0, At([], [], 0), Stalled(f));
  }

  /** So does the winner of the race. */
  lemma Ending(reach: (Run, Run) -> bool, origin: nat -> Byte, f: map<nat, Byte>)
    requires Backward(reach, origin)
    ensures reach(Pool(At([], [Stub()], 0), f, [Idle, Working(P)], Waits()), Stalled(f))
  {
    var stub := At([], [Stub()], 0);
    StubOut(reach, origin, f);
    NothingMore(0, [Stub()]);
    assert [Idle, Working(P)][0 := Exited] == [Exited, Working(P)];
    Asks(reach, stub, f, [Idle, Working(P)], Waits(), origin, 0, NoRates(), stub, None, Stalled(f));
  }

  /** The hedge is taken, served and wins. */
  lemma Race(reach: (Run, Run) -> bool, origin: nat -> Byte, f: map<nat, Byte>)
    requires Backward(reach, origin)
    ensures reach(Pool(At([], [Tail()], BUDGET), f, [Idle, Working(P)], Waits()), Stalled(Write(f, origin, P, C)))
  {
    var copy, z := Copy(0, P, C - 1), Stalled(Write(f, origin, P, C));
    var racing := At([], [Tail(), copy], 0);
    Ending(reach, origin, Write(f, origin, P, C));
    CopyWins();
    assert FindFrom(racing.live, OfWorker(0), 1) == 1 && racing.live[1 := Filled(copy)] == [Tail(), Filled(copy)];
    assert [Working(P), Working(P)][0 := Idle] == [Idle, Working(P)];
    Serves(reach, racing, f, [Working(P), Working(P)], Waits(), origin, 0, copy, 1, At([], [Stub()], 0), z);
    HedgeTaken();
    assert [Idle, Working(P)][0 := Working(P)] == [Working(P), Working(P)];
    Asks(reach, At([], [Tail()], BUDGET), f, [Idle, Working(P)], Waits(), origin, 0, NoRates(), racing, Some(copy), z);
  }

  /** Both workers take a part, and the first serves its own. */
  lemma Beginning(reach: (Run, Run) -> bool, origin: nat -> Byte, f: map<nat, Byte>)
    requires Backward(reach, origin)
    ensures reach(Pool(At([Span(A, D - 1)], [], BUDGET), f, [Idle, Idle], Waits()),
                    Stalled(Write(Write(f, origin, A, P), origin, P, C)))
  {
    var z := Stalled(Write(Write(f, origin, A, P), origin, P, C));
    var one, both := At([Span(P, D - 1)], [Front()], BUDGET), At([], [Front(), Tail()], BUDGET);
    Race(reach, origin, Write(f, origin, A, P));
    FrontDone();
    assert FindFrom(both.live, OfWorker(0), 0) == 0 && both.live[0 := Filled(Front())] == [Filled(Front()), Tail()];
    assert [Working(A), Working(P)][0 := Idle] == [Idle, Working(P)];
    Serves(reach, both, f, [Working(A), Working(P)], Waits(), origin, 0, Front(), 0, At([], [Tail()], BUDGET), z);
    SecondTake();
    assert [Working(A), Idle][1 := Working(P)] == [Working(A), Working(P)];
    Asks(reach, one, f, [Working(A), Idle], Waits(), origin, 1, NoRates(), both, Some(Tail()), z);
    FirstTake();
    assert [Idle, Idle][0 := Working(A)] == [Working(A), Idle];
    Asks(reach, At([Span(A, D - 1)], [], BUDGET), f, [Idle, Idle], Waits(), origin, 0, NoRates(), one, Some(Front()),
         z);
  }

  /** The download as it opens. */
  ghost function Opened(origin: nat -> Byte): Run {
    Run(At([Span(A, D - 1)], [], BUDGET), Write(map[], origin, 0, A), [Idle, Idle], [], false, 0, 1)
  }

  lemma OpenedOpens(origin: nat -> Byte)
    ensures Opening(Opened(origin), origin, Throughput, [Span(0, A - 1)])
  {
    OpeningState();
    WriteLaw(map[], origin, 0, A);
    forall x: nat | Has([Span(0, A - 1)], x) ensures x in Opened(origin).file { HasAt([Span(0, A - 1)], x); }
  }

  ghost function Final(origin: nat -> Byte): Run {
    Stalled(Write(Write(Write(map[], origin, 0, A), origin, A, P), origin, P, C))
  }

  lemma FinalStalls(origin: nat -> Byte)
    ensures var z := Final(origin);
            && AllExited(z) && !z.fatal && C !in z.file && z.s.unclaimed == [] && z.s.live == []
            && |z.readers| == 1 && Unfinished(z, z.readers[0]) && !Enabled(z, Emit(0))
  {
    var f := Write(map[], origin, 0, A);
    WriteLaw(map[], origin, 0, A);
    WriteLaw(f, origin, A, P);
    WriteLaw(Write(f, origin, A, P), origin, P, C);
  }

  lemma OpenedReaches(origin: nat -> Byte)
    ensures Reaches(Opened(origin), origin, Final(origin))
  {
    var r, f, reach := Opened(origin), Write(map[], origin, 0, A), Reach(origin);
    ReachesBackward(origin);
    Beginning(reach, origin, f);
    assert r.readers + [Waits()] == [Waits()];
    Then(reach, r, origin, Attach(C, D - 1), Pool(At([Span(A, D - 1)], [], BUDGET), f, [Idle, Idle], Waits()),
         Final(origin));
    assert reach(r, Final(origin));
  }

  /** Whatever the origin holds, a throughput download can end with every worker
      gone, no error, a byte of the request missing and a reader stalled in front
      of it: nobody aborted anything, a budget-cut hedge merely won its race. */
  lemma TruncatedHedgeStalls(origin: nat -> Byte) returns (r: Run, acts: seq<Act>)
    ensures Opening(r, origin, Throughput, [Span(0, A - 1)]) && r.s.reqStart == 0 && r.s.reqEnd == D - 1
    ensures OnlyStreams(acts) && Possible(r, origin, acts)
    ensures var z := Exec(r, origin, acts);
            && AllExited(z) && !z.fatal && C !in z.file && z.s.unclaimed == [] && z.s.live == []
            && |z.readers| == 1 && Unfinished(z, z.readers[0]) && !Enabled(z, Emit(0))
  {
    OpenedOpens(origin);
    OpenedReaches(origin);
    FinalStalls(origin);
    r := Opened(origin);
    acts :| OnlyStreams(acts) && Possible(r, origin, acts) && Exec(r, origin, acts) == Final(origin);
  }
}
