/** Duplicate work over whole runs: what every hedge costs comes out of one fixed
    budget, no two live hedges copy the same claim, and playback issues none. */
module RunHedging {
  import opened Spans
  import opened Sched
  import opened SchedLaws
  import opened Conservation
  import opened RunModel
  import opened RunSafety
  import opened RunConservation

  /** Bytes of the hedge an act hands out. */
  ghost function HedgeCost(r: Run, a: Act): nat
    requires Enabled(r, a)
  {
    match a
    case Ask(w, rates) => var l := r.s.Claim(w, rates).1; if l.Some? && l.value.hedgeOf.Some? then l.value.issued else 0
    case _ => 0
  }

  /** Bytes of all hedges handed out over a run. */
  ghost function Duplicated(r: Run, origin: nat -> Byte, acts: seq<Act>): nat
    requires Possible(r, origin, acts)
    decreases |acts|
  {
    if acts == [] then 0 else HedgeCost(r, acts[0]) + Duplicated(Apply(r, origin, acts[0]), origin, acts[1..])
  }

  ghost predicate DistinctTargets(live: seq<Live>) {
    forall i, j :: 0 <= i < j < |live| && live[i].hedgeOf.Some? ==> live[i].hedgeOf != live[j].hedgeOf
  }

  lemma DescendTargets(s: seq<Live>, t: seq<Live>)
    requires Descends(s, t) && DistinctTargets(s) && DistinctWorkers(t)
    ensures DistinctTargets(t)
  {
    forall i, j | 0 <= i < j < |t| && t[i].hedgeOf.Some? ensures t[i].hedgeOf != t[j].hedgeOf {
      assert Among(s, t[i]) && Among(s, t[j]);
      var a :| 0 <= a < |s| && SameClaim(s[a], t[i]);
      var b :| 0 <= b < |s| && SameClaim(s[b], t[j]);
      assert a != b;
    }
  }

  lemma AppendTargets(s: seq<Live>, t: seq<Live>)
    requires |t| == |s| + 1 && DistinctTargets(s) && (forall i :: 0 <= i < |s| ==> t[i].hedgeOf == s[i].hedgeOf)
    requires t[|s|].hedgeOf.Some? ==> forall i :: 0 <= i < |s| ==> s[i].hedgeOf != t[|s|].hedgeOf
    ensures DistinctTargets(t)
  {
    forall i, j | 0 <= i < j < |t| && t[i].hedgeOf.Some? ensures t[i].hedgeOf != t[j].hedgeOf {
      if j < |s| { assert s[i].hedgeOf != s[j].hedgeOf; }
    }
  }

  /** A hedge is paid for, copies a claim nobody copies yet, and is never a
      playback scheduler's. */
  lemma HedgePaid(s: Sched, w: nat, rates: Rates)
    requires Inv(s) && Absent(s, w)
    ensures var (t, l) := s.Claim(w, rates); var n := |s.live|;
            && SameJob(s, t) && n <= |t.live| == n + B(l.Some?)
            && (forall i :: 0 <= i < n ==> t.live[i].hedgeOf == s.live[i].hedgeOf)
            && (l.Some? ==> t.live[n] == l.value)
            && t.dupBudget + (if l.Some? && l.value.hedgeOf.Some? then l.value.issued else 0) == s.dupBudget
            && (l.Some? && l.value.hedgeOf.Some? ==>
                  && s.strategy.Throughput? && l.value.issued >= MIN_CLAIM
                  && forall i :: 0 <= i < n ==> s.live[i].hedgeOf != l.value.hedgeOf)
  {
    AskTracks(s, w, rates);
    var m := ClaimLaw(s, w, rates);
    var (t, l) := s.Claim(w, rates);
    forall i | 0 <= i < |s.live| ensures t.live[i].hedgeOf == s.live[i].hedgeOf { assert SameClaim(s.live[i], t.live[i]); }
    if m.Hedged? {
      if m.via != s { var p :| IsFutileCut(s, m.via, p); }
      forall i | 0 <= i < |s.live| ensures s.live[i].hedgeOf != l.value.hedgeOf {
        assert m.via.live[i].hedgeOf == s.live[i].hedgeOf;
      }
    }
  }

  lemma SameTargets(s: seq<Live>, t: seq<Live>)
    requires |t| == |s| && DistinctTargets(s) && forall i :: 0 <= i < |s| ==> t[i].hedgeOf == s[i].hedgeOf
    ensures DistinctTargets(t)
  {
  }

  lemma AskHedges(r: Run, origin: nat -> Byte, w: nat, rates: Rates)
    requires RunInv(r, origin) && Enabled(r, Ask(w, rates)) && DistinctTargets(r.s.live)
    ensures DistinctTargets(AskAct(r, w, rates).s.live)
    ensures AskAct(r, w, rates).s.dupBudget + HedgeCost(r, Ask(w, rates)) == r.s.dupBudget
    ensures r.s.strategy.Latency? ==> HedgeCost(r, Ask(w, rates)) == 0
  {
    IdleAbsent(r.s, r.tasks, w, r.file.Keys);
    HedgePaid(r.s, w, rates);
    var (t, l) := r.s.Claim(w, rates);
    if l.Some? { AppendTargets(r.s.live, t.live); } else { SameTargets(r.s.live, t.live); }
  }

  lemma ReportHedges(r: Run, origin: nat -> Byte, w: nat, v: Verdict)
    requires RunInv(r, origin) && Enabled(r, Report(w, v)) && DistinctTargets(r.s.live)
    ensures DistinctTargets(ReportAct(r, w, v).s.live) && ReportAct(r, w, v).s.dupBudget == r.s.dupBudget
  {
    SlotFacts(r, origin, w);
    FinishTracks(r.s, Slot(r.s, w));
    FinishByte(r.s, Slot(r.s, w), {}, 0);
    DescendTargets(r.s.live, ReportAct(r, w, v).s.live);
  }

  lemma RefocusHedges(r: Run, origin: nat -> Byte, window: nat)
    requires RunInv(r, origin) && Enabled(r, Refocus(window)) && DistinctTargets(r.s.live)
    ensures DistinctTargets(RefocusAct(r, window).s.live) && RefocusAct(r, window).s.dupBudget == r.s.dupBudget
  {
    if r.s.strategy.Latency? {
      var hi, grace := Sat(r.s.readHead + Max(window, 1)), Max(r.s.strategy.headClaim, MIN_CLAIM);
      RefocusShape(r.s, 0, r.s.readHead, hi, grace);
      RefocusPrunes(r.s, 0, r.s.readHead, hi, grace);
      DescendTargets(r.s.live, RefocusAct(r, window).s.live);
    }
  }

  lemma SweepHedges(r: Run, origin: nat -> Byte, idle: set<nat>)
    requires RunInv(r, origin) && DistinctTargets(r.s.live)
    ensures DistinctTargets(SweepAct(r, idle).s.live) && SweepAct(r, idle).s.dupBudget == r.s.dupBudget
  {
    ReclaimShape(r.s, 0, idle);
    ReclaimPrunes(r.s, 0, idle);
    DescendTargets(r.s.live, SweepAct(r, idle).s.live);
  }

  lemma StreamHedges(r: Run, origin: nat -> Byte, a: Act)
    requires Enabled(r, a) && DistinctTargets(r.s.live) && (a.Commit? || a.Land? || a.Flush?)
    ensures DistinctTargets(Apply(r, origin, a).s.live) && Apply(r, origin, a).s.dupBudget == r.s.dupBudget
  {
    SameTargets(r.s.live, Apply(r, origin, a).s.live);
  }

  lemma StepHedges(r: Run, origin: nat -> Byte, a: Act)
    requires RunInv(r, origin) && Enabled(r, a) && DistinctTargets(r.s.live)
    ensures DistinctTargets(Apply(r, origin, a).s.live)
    ensures !a.Pause? ==> Apply(r, origin, a).s.dupBudget + HedgeCost(r, a) == r.s.dupBudget
    ensures r.s.strategy.Latency? ==> HedgeCost(r, a) == 0
  {
    match a {
      case Ask(w, rates) => AskHedges(r, origin, w, rates);
      case Report(w, v) => ReportHedges(r, origin, w, v);
      case Refocus(window) => RefocusHedges(r, origin, window);
      case Sweep(idle) => SweepHedges(r, origin, idle);
      case Commit(_) => StreamHedges(r, origin, a);
      case Land(_, _) => StreamHedges(r, origin, a);
      case Flush(_) => StreamHedges(r, origin, a);
      case _ =>
    }
  }

  /** Between two rebuilds the budget left and the bytes duplicated add up to the
      budget at the start: duplication is bounded by it, whatever happens. */
  lemma {:induction false} HedgesWithinBudget(r: Run, origin: nat -> Byte, acts: seq<Act>)
    requires RunInv(r, origin) && DistinctTargets(r.s.live) && Possible(r, origin, acts)
    requires forall i :: 0 <= i < |acts| ==> !acts[i].Pause?
    ensures Duplicated(r, origin, acts) + Exec(r, origin, acts).s.dupBudget == r.s.dupBudget
    ensures DistinctTargets(Exec(r, origin, acts).s.live)
    decreases |acts|
  {
    if acts != [] {
      StepSafe(r, origin, acts[0]);
      StepHedges(r, origin, acts[0]);
      HedgesWithinBudget(Apply(r, origin, acts[0]), origin, acts[1..]);
    }
  }

  /** For a whole transfer: at most one byte in two hundred, and at most 32 MiB. */
  lemma TransferHedges(r: Run, origin: nat -> Byte, strategy: Strategy, staged: seq<Span>, acts: seq<Act>)
    requires Opening(r, origin, strategy, staged) && r.s.reqStart <= r.s.reqEnd && Possible(r, origin, acts)
    requires forall i :: 0 <= i < |acts| ==> !acts[i].Pause?
    ensures DUP_BUDGET_DIVISOR * Duplicated(r, origin, acts) <= r.s.reqEnd - r.s.reqStart + 1
    ensures Duplicated(r, origin, acts) <= DUP_BUDGET_MAX
    ensures DistinctTargets(Exec(r, origin, acts).s.live)
  {
    OpeningSafe(r, origin, strategy, staged);
    NewLaw(r.s, strategy, r.s.volumes, r.s.maxThreads, r.s.maxPerVolume, r.s.splitCap, staged);
    HedgesWithinBudget(r, origin, acts);
  }

  /** A transfer that starts in playback and is not retuned duplicates nothing. */
  lemma {:induction false} PlaybackDuplicatesNothing(r: Run, origin: nat -> Byte, acts: seq<Act>)
    requires RunInv(r, origin) && Playback(r.s) && Possible(r, origin, acts)
    requires forall i :: 0 <= i < |acts| ==> Streams(acts[i])
    ensures Duplicated(r, origin, acts) == 0
    decreases |acts|
  {
    if acts != [] {
      StepSafe(r, origin, acts[0]);
      PlaybackStays(r, origin, acts[0]);
      if acts[0].Ask? {
        IdleAbsent(r.s, r.tasks, acts[0].w, r.file.Keys);
        HedgePaid(r.s, acts[0].w, acts[0].rates);
      }
      PlaybackDuplicatesNothing(Apply(r, origin, acts[0]), origin, acts[1..]);
    }
  }
}
