/** What goes wrong when a job is restarted over a plan whose claims were aborted
    and never handed back: the next report of a worker settles its stale claim. */
module StaleClaims {
  import opened Spans
  import opened Sched
  import opened SchedLaws
  import opened Conservation
  import opened RunModel
  import opened EvenSplit

  lemma CutLoserOwners(s: Sched, start: nat, x: nat)
    ensures var t := s.CutFirst(HedgeOf(start)); t.unclaimed == s.unclaimed && Owners(t.live, x) == Owners(s.live, x)
  {
    var i := FindFrom(s.live, HedgeOf(start), 0);
    if i < |s.live| { OwnersUpdate(s.live, i, s.live[i].CutShort(), x); }
  }

  /** Two claims under one worker id: a report from beyond the first claim's end
      removes that first claim, and every byte it answered for loses its holder. */
  lemma ReportSettlesTheStale(s: Sched, i: nat, reached: nat, disk: set<nat>, x: nat)
    requires i < |s.live| && FindFrom(s.live, OfWorker(s.live[i].worker), 0) == i
    requires s.live[i].Primary() && reached > s.live[i].end
    ensures var t := s.Finish(s.live[i].worker, reached);
            Holders(t, disk, x) + B(s.live[i].Owns(x)) == Holders(s, disk, x)
  {
    OwnersSplit(s.live, i, x);
    CutLoserOwners(s.Without(i), s.live[i].start, x);
  }

  ghost predicate AllWait(u: seq<Span>, a: nat, b: nat) { forall x: nat :: a <= x <= b ==> Has(u, x) }

  /** A report gives back everything its worker did not deliver exactly when the
      worker's first claim in the list is a primary that reaches as far as its own. */
  lemma ReportReturns(s: Sched, i: nat, j: nat)
    requires Canonical(s.unclaimed) && Bounded(s.unclaimed, s.reqStart, s.reqEnd) && s.reqEnd < U64_MAX
    requires i <= j < |s.live| && s.live[i].worker == s.live[j].worker && FindFrom(s.live, OfWorker(s.live[i].worker), 0) == i
    requires GoodClaim(s, s.live[i]) && GoodClaim(s, s.live[j])
    requires forall x: nat :: s.live[j].cursor <= x <= s.live[j].end ==> !Has(s.unclaimed, x)
    ensures var own, t := s.live[j], s.Finish(s.live[j].worker, s.live[j].cursor);
            AllWait(t.unclaimed, own.cursor, own.end) <==>
            own.cursor > own.end || (s.live[i].Primary() && own.end <= s.live[i].end)
  {
    var first, own := s.live[i], s.live[j];
    var t := s.Finish(own.worker, own.cursor);
    if first.Primary() && own.cursor <= first.end {
      InsertLaw(s.unclaimed, own.cursor, first.end, s.reqStart, s.reqEnd);
    } else {
      assert t.unclaimed == s.unclaimed;
    }
    forall x: nat | own.cursor <= x <= own.end ensures Has(t.unclaimed, x) <==> first.Primary() && x <= first.end {}
    if own.cursor <= own.end {
      if first.Primary() && own.end <= first.end {
        assert AllWait(t.unclaimed, own.cursor, own.end);
      } else {
        assert !Has(t.unclaimed, own.end);
      }
    }
  }

  function Plan(unclaimed: seq<Span>, live: seq<Live>): Sched {
    Sched(unclaimed, live, Throughput, None, 2, 2, Some(MIB), 0, 2 * MIB - 1, 0, 0, None, None, U64_MAX, 2 * MIB / 200)
  }

  function Stale(): Live { Live(1, 0, 0, MIB, MIB - 1, 0, 0, 0, None) }

  function Second(cursor: nat): Live { Live(1, 0, MIB, MIB, 2 * MIB - 1, cursor, cursor, MIB, None) }

  lemma Takes(live: seq<Live>, p: nat)
    requires p == 0 || p == MIB
    ensures var s := Plan([Span(p, 2 * MIB - 1)], live); var l := Live(1, 0, p, MIB, p + MIB - 1, p, p, p, None);
            s.Claim(1, Rates(None, None)) == (Plan(if p == 0 then [Span(MIB, 2 * MIB - 1)] else [], live + [l]), Some(l))
  {
    var s := Plan([Span(p, 2 * MIB - 1)], live);
    OnlyGap(s, 1, Rates(None, None), p, s.reqEnd);
    CutFront(p, p + MIB - 1, 2 * MIB - 1);
    assert s.EvenShare() >= MIB && s.ClaimLen() == MIB;
  }

  /** The report of a restarted worker that has delivered all of its own claim. */
  lemma FullReportStrands(x: nat)
    requires x < MIB
    ensures var done := Plan([], [Stale(), Second(2 * MIB)]).Finish(1, 2 * MIB);
            done.unclaimed == [] && Holders(done, Interval(MIB, 2 * MIB), x) == 0
  {
    var s := Plan([], [Stale(), Second(2 * MIB)]);
    assert FindFrom(s.live, OfWorker(1), 0) == 0;
    ReportSettlesTheStale(s, 0, 2 * MIB, Interval(MIB, 2 * MIB), x);
    OwnersConcat([Stale()], [Second(2 * MIB)], x);
    assert [Stale()] + [Second(2 * MIB)] == s.live && [Stale()][1..] == [] && [Second(2 * MIB)][1..] == [];
    assert Owners(s.live, x) == 1;
    CutLoserOwners(s.Without(0), 0, x);
  }

  /** The worker's first claim is aborted with its job; the restarted worker takes
      the rest, lands all of it and reports in: the first claim's bytes are then
      neither on disk, nor waiting, nor anybody's. */
  lemma RestartStrands(x: nat)
    requires x < MIB
    ensures New(0, 2 * MIB - 1, Throughput, None, 2, 2, Some(MIB), []) == Plan([Span(0, 2 * MIB - 1)], [])
    ensures Plan([Span(0, 2 * MIB - 1)], []).Claim(1, Rates(None, None)) ==
            (Plan([Span(MIB, 2 * MIB - 1)], [Stale()]), Some(Stale()))
    ensures Plan([Span(MIB, 2 * MIB - 1)], [Stale()]).Claim(1, Rates(None, None)) ==
            (Plan([], [Stale(), Second(MIB)]), Some(Second(MIB)))
    ensures var done := Plan([], [Stale(), Second(2 * MIB)]).Finish(1, 2 * MIB);
            done.unclaimed == [] && Holders(done, Interval(MIB, 2 * MIB), x) == 0
  {
    Takes([], 0);
    Takes([Stale()], MIB);
    assert [] + [Stale()] == [Stale()] && [Stale()] + [Second(MIB)] == [Stale(), Second(MIB)];
    FullReportStrands(x);
  }

  /** A cancelled claim that owes nothing is enough: its worker, restarted, takes
      the rest, fails at once, and the report settles the old claim. No byte is
      waiting, the failed claim is still in the list, and no worker can be given
      anything. */
  lemma SettledClaimStrands(x: nat, w: nat, rates: Rates)
    requires MIB <= x < 2 * MIB
    ensures var done := Live(1, 0, 0, MIB, MIB - 1, MIB, MIB, 0, None);
            && Plan([Span(MIB, 2 * MIB - 1)], [done]).Claim(1, Rates(None, None)) ==
               (Plan([], [done, Second(MIB)]), Some(Second(MIB)))
            && var z := Plan([], [done, Second(MIB)]).Finish(1, MIB);
               && z == Plan([], [Second(MIB)]) && Holders(z, Interval(0, MIB), x) == 1
               && z.Claim(w, rates) == (z, None)
  {
    var done := Live(1, 0, 0, MIB, MIB - 1, MIB, MIB, 0, None);
    Takes([done], MIB);
    assert [done] + [Second(MIB)] == [done, Second(MIB)];
    var s := Plan([], [done, Second(MIB)]);
    assert FindFrom(s.live, OfWorker(1), 0) == 0 && s.live[..0] + s.live[1..] == [Second(MIB)];
    assert FindFrom([Second(MIB)], HedgeOf(0), 0) == 1 by { assert FindFrom([Second(MIB)], HedgeOf(0), 1) == 1; }
    var z := Plan([], [Second(MIB)]);
    assert Owners(z.live, x) == 1 by { assert z.live[1..] == []; }
    NobodyServed(z, w, rates);
  }

  lemma NobodyServed(z: Sched, w: nat, rates: Rates)
    requires z == Plan([], [Second(MIB)])
    ensures z.Claim(w, rates) == (z, None)
  {
    var region := z.Regions()[0];
    assert z.Regions() == [region];
    assert z.Take(w, region.lo, region.hi, true, false).None? && z.Take(w, region.lo, region.hi, false, false).None?;
    assert z.TakeFrom(w, z.Regions(), 1).None?;
    assert LargestFrom(z.live, z.Robbable(w), 1, None) == None;
  }
}
