/** What every scheduler operation keeps: the shape of the live claims and of the
    unclaimed list, and exactly which bytes each operation moves between owners. */
module SchedLaws {
  import opened Spans
  import opened Sched

  // ---- volumes: consecutive parts of one merged stream ----

  ghost predicate Tiled(vs: seq<Volume>, off: nat) {
    vs == [] || (vs[0].offset == off && Tiled(vs[1..], off + vs[0].size))
  }

  ghost function TotalSize(vs: seq<Volume>): nat {
    if vs == [] then 0 else vs[0].size + TotalSize(vs[1..])
  }

  lemma {:induction false} VolumeFound(vs: seq<Volume>, off: nat, i: nat)
    requires i <= |vs| && Tiled(vs[i..], if i == |vs| then 0 else vs[i].offset)
    requires i < |vs| && vs[i].offset <= off < vs[i].offset + TotalSize(vs[i..])
    ensures VolumeFrom(vs, off, i).Some?
    ensures var k := VolumeFrom(vs, off, i).value; i <= k < |vs| && vs[k].Holds(off)
    decreases |vs| - i
  {
    if !vs[i].Holds(off) {
      assert vs[i..][1..] == vs[i + 1..];
      if i + 1 < |vs| {
        assert vs[i + 1..][0] == vs[i + 1];
        VolumeFound(vs, off, i + 1);
      }
    }
  }

  ghost predicate Layout(s: Sched) {
    s.volumes.Some? ==> Tiled(s.volumes.value, 0) && s.reqEnd < TotalSize(s.volumes.value)
  }

  /** `[a, b]` lies inside volume `v`. */
  ghost predicate Fits(s: Sched, a: nat, b: nat, v: nat) {
    s.volumes.Some? ==>
      && v < |s.volumes.value|
      && s.volumes.value[v].offset <= a
      && b < s.volumes.value[v].offset + s.volumes.value[v].size
  }

  lemma VolumeLaw(s: Sched, off: nat, fallback: nat)
    requires Layout(s) && off <= s.reqEnd && off <= fallback
    ensures off <= s.VolumeEnd(off, fallback)
    ensures forall e: nat :: e <= s.VolumeEnd(off, fallback) ==> Fits(s, off, e, s.VolumeOf(off))
  {
    if s.volumes.Some? {
      var vs := s.volumes.value;
      assert vs[0..] == vs;
      VolumeFound(vs, off, 0);
    }
  }

  lemma {:induction false} TiledFrom(vs: seq<Volume>, off: nat, i: nat)
    requires Tiled(vs, off) && i < |vs|
    ensures off <= vs[i].offset && Tiled(vs[i..], vs[i].offset)
    ensures i > 0 ==> vs[0].offset + vs[0].size <= vs[i].offset
  {
    if i > 0 {
      TiledFrom(vs[1..], off + vs[0].size, i - 1);
      assert vs[1..][i - 1..] == vs[i..];
    } else {
      assert vs[0..] == vs;
    }
  }

  lemma OneVolume(vs: seq<Volume>, v: nat, k: nat, off: nat)
    requires Tiled(vs, 0) && v < |vs| && k < |vs| && vs[v].Holds(off) && vs[k].Holds(off)
    ensures v == k
  {
    if v < k {
      TiledFrom(vs, 0, v);
      TiledFrom(vs[v..], vs[v].offset, k - v);
    } else if k < v {
      TiledFrom(vs, 0, k);
      TiledFrom(vs[k..], vs[k].offset, v - k);
    }
  }

  // ---- the invariant ----

  /** A claim lies inside the request and one volume, no longer than the cap, and
      its marks are in order. */
  ghost predicate GoodClaim(s: Sched, l: Live) {
    && s.reqStart <= l.start <= l.cursor <= l.reserved <= l.start + l.issued <= s.reqEnd + 1
    && l.start <= l.end + 1 <= l.start + l.issued
    && Fits(s, l.start, l.start + l.issued - 1, l.volume)
    && (s.splitCap.Some? ==> l.issued <= s.splitCap.value)
  }

  ghost predicate Inv(s: Sched) {
    && s.WellFormed() && Layout(s) && s.reqEnd < U64_MAX
    && s.reqStart <= s.readHead && (s.reqStart <= s.reqEnd + 1 ==> s.readHead <= s.reqEnd + 1)
    && Canonical(s.unclaimed) && Bounded(s.unclaimed, s.reqStart, s.reqEnd)
    && (forall i :: 0 <= i < |s.live| ==> GoodClaim(s, s.live[i]))
    && (forall i, j :: 0 <= i < j < |s.live| ==> s.live[i].worker != s.live[j].worker)
  }

  ghost predicate Absent(s: Sched, worker: nat) {
    forall i :: 0 <= i < |s.live| ==> s.live[i].worker != worker
  }

  /** Same request, volumes and limits; only the work lists may differ. */
  ghost predicate SameJob(s: Sched, t: Sched) {
    t == s.(unclaimed := t.unclaimed, live := t.live, dupBudget := t.dupBudget)
  }

  // ---- a new scheduler ----

  lemma {:induction false} SubtractAllLaw(u: seq<Span>, staged: seq<Span>, a: nat, b: nat)
    requires Canonical(u) && Bounded(u, a, b)
    ensures Canonical(SubtractAll(u, staged)) && Bounded(SubtractAll(u, staged), a, b)
    ensures forall x: nat :: Has(SubtractAll(u, staged), x) <==> Has(u, x) && !Has(staged, x)
    decreases |staged|
  {
    if staged != [] {
      SubtractLaw(u, staged[0].lo, staged[0].hi, a, b);
      SubtractAllLaw(Subtract(u, staged[0].lo, staged[0].hi), staged[1..], a, b);
    }
  }

  /** A fresh scheduler has exactly the unstaged bytes of the request waiting, and has
      learned nothing yet; limits of zero mean one worker, and no cap. */
  lemma NewLaw(s: Sched, strategy: Strategy, volumes: Option<seq<Volume>>, maxThreads: nat, maxPerVolume: nat,
               splitCap: Option<nat>, staged: seq<Span>)
    requires s == New(s.reqStart, s.reqEnd, strategy, volumes, maxThreads, maxPerVolume, splitCap, staged)
    requires Layout(s) && s.reqEnd < U64_MAX
    ensures Inv(s) && s.live == [] && s.strategy == strategy && s.volumes == volumes
    ensures s.maxThreads == (if maxThreads == 0 then 1 else maxThreads)
    ensures s.maxPerVolume == (if maxPerVolume == 0 then 1 else maxPerVolume)
    ensures s.splitCap == (if splitCap == Some(0) then None else splitCap) && s.workLimit.None? && s.autoLimit.None?
    ensures s.readHead == s.reqStart && s.buffered == 0
    ensures forall x: nat :: Has(s.unclaimed, x) <==> s.reqStart <= x <= s.reqEnd && !Has(staged, x)
  {
    var u := if s.reqStart <= s.reqEnd then [Span(s.reqStart, s.reqEnd)] else [];
    SubtractAllLaw(u, staged, s.reqStart, s.reqEnd);
    forall x: nat ensures Has(u, x) <==> s.reqStart <= x <= s.reqEnd {
      assert u != [] ==> u[1..] == [];
    }
  }

  // ---- T1 ----

  predicate Meets(g: Span, rs: nat, re: nat) { !(g.hi < rs || g.lo > re) }

  /** The gap chosen meets the region; ignoring the per-volume cap, one is found
      whenever one exists; and with `nearest` it is the first. */
  lemma {:induction false} PickGapLaw(s: Sched, rs: nat, re: nat, cap: bool, nearest: bool, i: nat,
                                      best: Option<(nat, nat)>)
    requires i <= |s.unclaimed|
    requires best.Some? ==> best.value.0 < i && Meets(s.unclaimed[best.value.0], rs, re)
    requires nearest ==> best.None?
    ensures var r := s.PickGap(rs, re, cap, nearest, i, best);
            && (r.Some? ==> r.value < |s.unclaimed| && Meets(s.unclaimed[r.value], rs, re))
            && (r.Some? && nearest ==> forall k :: i <= k < r.value ==> !Meets(s.unclaimed[k], rs, re))
            && (!cap && best.Some? ==> r.Some?)
            && (!cap && r.None? ==> forall k :: i <= k < |s.unclaimed| ==> !Meets(s.unclaimed[k], rs, re))
    decreases |s.unclaimed| - i
  {
    if i < |s.unclaimed| {
      var g := s.unclaimed[i];
      if !Meets(g, rs, re) {
        PickGapLaw(s, rs, re, cap, nearest, i + 1, best);
      } else {
        var segStart := Max(g.lo, rs);
        if !nearest {
          if s.Blocked(segStart, cap) {
            PickGapLaw(s, rs, re, cap, nearest, i + 1, best);
          } else {
            var score := SatSub(Min(g.hi, re) + 1, segStart);
            PickGapLaw(s, rs, re, cap, nearest, i + 1,
                       if best.None? || score > best.value.1 then Some((i, score)) else best);
          }
        }
      }
    }
  }

  /** A fresh primary claim on `[l.start, l.end]`, whole and untouched. */
  ghost predicate Fresh(s: Sched, worker: nat, l: Live) {
    && l.worker == worker && l.cursor == l.start && l.reserved == l.start && l.lastCursor == l.start
    && l.end + 1 == l.start + l.issued && l.issued >= 1 && GoodClaim(s, l)
  }

  ghost predicate IsTake(s: Sched, t: Sched, worker: nat, l: Live) {
    && SameJob(s, t) && t.dupBudget == s.dupBudget && t.live == s.live + [l]
    && Fresh(s, worker, l) && l.Primary()
    && (forall x: nat :: l.start <= x <= l.end ==> Has(s.unclaimed, x))
    && (forall x: nat :: Has(t.unclaimed, x) <==> Has(s.unclaimed, x) && !(l.start <= x <= l.end))
  }

  /** The range cut for a claim is non-empty, in the region and in one volume. */
  lemma TakeEndLaw(s: Sched, segStart: nat, segEnd: nat)
    requires Inv(s) && s.reqStart <= segStart <= segEnd <= s.reqEnd
    ensures var end := s.TakeEnd(segStart, segEnd);
            && segStart <= end <= segEnd && end - segStart + 1 <= s.ClaimLen()
            && Fits(s, segStart, end, s.VolumeOf(segStart))
  {
    VolumeLaw(s, segStart, segEnd);
  }

  lemma TakeAtLaw(s: Sched, worker: nat, segStart: nat, end: nat, t: Sched, l: Live)
    requires Inv(s) && Absent(s, worker) && s.reqStart <= segStart <= end <= s.reqEnd
    requires end - segStart + 1 <= s.ClaimLen() && Fits(s, segStart, end, s.VolumeOf(segStart))
    requires forall x: nat :: segStart <= x <= end ==> Has(s.unclaimed, x)
    requires (t, l) == s.(unclaimed := Subtract(s.unclaimed, segStart, end))
                       .Register(worker, segStart, end, s.VolumeOf(segStart), None)
    ensures IsTake(s, t, worker, l) && Inv(t)
  {
    SubtractLaw(s.unclaimed, segStart, end, s.reqStart, s.reqEnd);
    assert Fresh(s, worker, l);
    forall i | 0 <= i < |t.live| ensures GoodClaim(t, t.live[i]) {
      assert GoodClaim(s, t.live[i]);
    }
  }

  lemma TakeLaw(s: Sched, worker: nat, rs: nat, re: nat, cap: bool, nearest: bool)
    requires Inv(s) && (rs <= re || rs > s.reqEnd) && Absent(s, worker)
    ensures var r := s.Take(worker, rs, re, cap, nearest);
            && (r.Some? ==> IsTake(s, r.value.0, worker, r.value.1) && Inv(r.value.0)
                            && r.value.1.issued <= s.ClaimLen() && rs <= r.value.1.start && r.value.1.end <= re)
            && (!cap && r.None? ==> forall k :: 0 <= k < |s.unclaimed| ==> !Meets(s.unclaimed[k], rs, re))
  {
    PickGapLaw(s, rs, re, cap, nearest, 0, None);
    var pick := s.PickGap(rs, re, cap, nearest, 0, None);
    if pick.Some? {
      var g := s.unclaimed[pick.value];
      assert Meets(g, rs, re) && g.lo <= g.hi && s.reqStart <= g.lo && g.hi <= s.reqEnd;
      var segStart := Max(g.lo, rs);
      var segEnd := Min(g.hi, re);
      TakeEndLaw(s, segStart, segEnd);
      var end := s.TakeEnd(segStart, segEnd);
      forall x: nat | segStart <= x <= end ensures Has(s.unclaimed, x) {
        HasAt(s.unclaimed, x);
      }
      var r := s.Take(worker, rs, re, cap, nearest);
      TakeAtLaw(s, worker, segStart, end, r.value.0, r.value.1);
    }
  }

  lemma RegionsLaw(s: Sched)
    requires Inv(s)
    ensures var rg := s.Regions();
            && 1 <= |rg| <= 2 && rg[|rg| - 1] == Span(s.Floor(), s.Horizon())
            && forall i :: 0 <= i < |rg| ==> rg[i].lo <= rg[i].hi || rg[i].lo > s.reqEnd
  {
  }

  lemma {:induction false} TakeFromLaw(s: Sched, worker: nat, rg: seq<Span>, i: nat)
    requires Inv(s) && Absent(s, worker) && i <= |rg|
    requires forall k :: 0 <= k < |rg| ==> rg[k].lo <= rg[k].hi || rg[k].lo > s.reqEnd
    ensures var r := s.TakeFrom(worker, rg, i);
            && (r.Some? ==> IsTake(s, r.value.0, worker, r.value.1) && Inv(r.value.0) && r.value.1.issued <= s.ClaimLen())
            && (r.None? ==> forall j, k :: i <= j < |rg| && 0 <= k < |s.unclaimed| ==> !Meets(s.unclaimed[k], rg[j].lo, rg[j].hi))
    decreases |rg| - i
  {
    if i < |rg| {
      var inCritical := i == 0 && s.strategy.Latency?;
      TakeLaw(s, worker, rg[i].lo, rg[i].hi, true, inCritical);
      TakeLaw(s, worker, rg[i].lo, rg[i].hi, false, inCritical);
      TakeFromLaw(s, worker, rg, i + 1);
    }
  }

  /** A claim lies in one volume, so clipping to the volume drops nothing from it. */
  lemma ClipDropsNothing(s: Sched, l: Live, off: nat, e: nat)
    requires Inv(s) && GoodClaim(s, l) && l.start <= off <= e <= l.end
    ensures l.end <= s.VolumeEnd(off, l.end)
    ensures Fits(s, off, e, s.VolumeOf(off))
    ensures s.volumes.Some? ==> s.VolumeOf(off) == l.volume
  {
    if s.volumes.Some? {
      var vs := s.volumes.value;
      assert vs[0..] == vs;
      VolumeFound(vs, off, 0);
      OneVolume(vs, l.volume, VolumeFrom(vs, off, 0).value, off);
    }
  }

  // ---- T2 ----

  /** Claim `pos` keeps everything but has its end moved inward. */
  ghost predicate IsCut(s: Sched, t: Sched, pos: nat) {
    && pos < |s.live| && SameJob(s, t) && t.dupBudget == s.dupBudget && t.unclaimed == s.unclaimed
    && |t.live| == |s.live|
    && (forall k :: 0 <= k < |s.live| && k != pos ==> t.live[k] == s.live[k])
    && t.live[pos] == s.live[pos].(end := t.live[pos].end)
    && s.live[pos].Primary() && s.live[pos].cursor <= t.live[pos].end + 1 <= s.live[pos].end + 1
  }

  /** The stolen tail starts after whatever the victim may still write. */
  ghost predicate IsSteal(s: Sched, t: Sched, worker: nat, l: Live, pos: nat) {
    && |t.live| == |s.live| + 1 && t.live[|s.live|] == l
    && IsCut(s, t.(live := t.live[..|s.live|]), pos)
    && s.live[pos].worker != worker && s.live[pos].cursor <= t.live[pos].end
    && Fresh(s, worker, l) && l.Primary()
    && l.start == t.live[pos].Limit() && l.end == s.live[pos].end
  }

  /** The cut left nothing for a thief: all of it is already committed. */
  ghost predicate IsFutileCut(s: Sched, t: Sched, pos: nat) {
    IsCut(s, t, pos) && s.live[pos].reserved > s.live[pos].end && s.live[pos].cursor <= t.live[pos].end
  }

  lemma CutLaw(s: Sched, pos: nat, split: nat)
    requires Inv(s) && pos < |s.live| && s.live[pos].Primary()
    requires s.live[pos].cursor <= split + 1 <= s.live[pos].end + 1
    ensures var t := s.(live := s.live[pos := s.live[pos].(end := split)]); IsCut(s, t, pos) && Inv(t)
  {
    var t := s.(live := s.live[pos := s.live[pos].(end := split)]);
    assert GoodClaim(s, s.live[pos]);
    forall i | 0 <= i < |t.live| ensures GoodClaim(t, t.live[i]) {
      assert GoodClaim(s, s.live[i]);
    }
  }

  lemma RegisterLaw(s: Sched, worker: nat, l: Live)
    requires Inv(s) && Absent(s, worker) && l.worker == worker && GoodClaim(s, l)
    ensures Inv(s.(live := s.live + [l]))
  {
    var t := s.(live := s.live + [l]);
    forall i | 0 <= i < |t.live| ensures GoodClaim(t, t.live[i]) {
      assert i < |s.live| ==> GoodClaim(s, s.live[i]);
    }
  }

  /** The tail behind a cut, registered for the thief. */
  lemma TailStolen(s: Sched, cut: Sched, worker: nat, pos: nat, l: Live)
    requires Inv(cut) && IsCut(s, cut, pos) && Absent(s, worker) && s.live[pos].cursor <= cut.live[pos].end
    requires Fresh(s, worker, l) && l.Primary() && GoodClaim(cut, l)
    requires l.start == cut.live[pos].Limit() && l.end == s.live[pos].end
    ensures var t := cut.(live := cut.live + [l]); Inv(t) && IsSteal(s, t, worker, l, pos)
  {
    var t := cut.(live := cut.live + [l]);
    forall i | 0 <= i < |cut.live| ensures cut.live[i].worker != worker { assert cut.live[i].worker == s.live[i].worker; }
    RegisterLaw(cut, worker, l);
    assert t.live[..|s.live|] == cut.live;
    assert t.(live := cut.live) == cut;
  }

  /** The victim's claim cut at `split`. */
  lemma CutBehind(s: Sched, cut: Sched, pos: nat, split: nat)
    requires Inv(s) && pos < |s.live| && s.live[pos].Primary() && s.live[pos].cursor <= split < s.live[pos].end
    requires cut == s.(live := s.live[pos := s.live[pos].(end := split)])
    ensures Inv(cut) && IsCut(s, cut, pos) && s.live[pos].cursor <= cut.live[pos].end
  {
    assert GoodClaim(s, s.live[pos]);
    CutLaw(s, pos, split);
  }

  /** And what a thief is given of it, from `at` on. */
  lemma TakeBehind(s: Sched, cut: Sched, worker: nat, pos: nat, at: nat, l: Live)
    requires Inv(s) && Inv(cut) && IsCut(s, cut, pos) && s.live[pos].cursor <= cut.live[pos].end && Absent(s, worker)
    requires at == cut.live[pos].Limit() <= s.live[pos].end
    requires var end := s.live[pos].end; l == Live(worker, cut.VolumeOf(at), at, end - at + 1, end, at, at, at, None)
    ensures s.live[pos].end <= cut.VolumeEnd(at, s.live[pos].end)
    ensures var t := cut.(live := cut.live + [l]); Inv(t) && IsSteal(s, t, worker, l, pos)
  {
    var v := s.live[pos];
    assert GoodClaim(s, v);
    assert GoodClaim(cut, v);
    ClipDropsNothing(cut, v, at, v.end);
    TailStolen(s, cut, worker, pos, l);
  }

  lemma StealAtLaw(s: Sched, worker: nat, pos: nat)
    requires Inv(s) && Absent(s, worker) && pos < |s.live| && s.live[pos].Primary() && s.live[pos].Remaining() > 0
    ensures var (t, l) := s.StealAt(worker, pos);
            && Inv(t)
            && (l.Some? ==> IsSteal(s, t, worker, l.value, pos))
            && (l.None? ==> t == s || IsFutileCut(s, t, pos))
  {
    var v := s.live[pos];
    var split := SatSub(v.end, v.Remaining() / 2);
    if split >= v.end {
      assert s.StealAt(worker, pos) == (s, None);
    } else {
      var cut, at := s.(live := s.live[pos := v.(end := split)]), Max(split + 1, v.reserved);
      CutBehind(s, cut, pos, split);
      if at > v.end {
        assert s.StealAt(worker, pos) == (cut, None);
      } else {
        var l := Live(worker, cut.VolumeOf(at), at, v.end - at + 1, v.end, at, at, at, None);
        TakeBehind(s, cut, worker, pos, at, l);
        assert s.StealAt(worker, pos) == (cut.(live := cut.live + [l]), Some(l));
      }
    }
  }

  lemma StealLaw(s: Sched, worker: nat, rates: Rates)
    requires Inv(s) && Absent(s, worker)
    ensures var (t, l) := s.Steal(worker, rates);
            && Inv(t)
            && (l.Some? ==> exists pos :: IsSteal(s, t, worker, l.value, pos))
            && (l.None? ==> t == s || exists pos :: IsFutileCut(s, t, pos))
  {
    var pick := Choose(s.live, s.Robbable(worker), rates.straggler);
    if pick.Some? {
      StealAtLaw(s, worker, pick.value);
    }
  }

  // ---- T3 ----

  ghost predicate IsHedge(s: Sched, t: Sched, worker: nat, l: Live, pos: nat) {
    && pos < |s.live| && SameJob(s, t) && t.unclaimed == s.unclaimed && t.live == s.live + [l]
    && Fresh(s, worker, l) && l.hedgeOf == Some(s.live[pos].start)
    && s.live[pos].Primary() && s.live[pos].worker != worker && !s.Hedged(s.live[pos].start)
    && l.start == s.live[pos].cursor && l.end <= s.live[pos].end
    && t.dupBudget + l.issued == s.dupBudget && l.issued >= MIN_CLAIM
  }

  lemma HedgeLaw(s: Sched, worker: nat, rates: Rates)
    requires Inv(s) && Absent(s, worker)
    ensures var (t, l) := s.Hedge(worker, rates);
            && Inv(t)
            && (l.Some? ==> exists pos :: IsHedge(s, t, worker, l.value, pos))
            && (l.None? ==> t == s)
  {
    if s.dupBudget >= MIN_CLAIM {
      var pick := Choose(s.live, s.Hedgeable(worker), rates.slowest);
      if pick.Some? {
        var pos := pick.value;
        var v := s.live[pos];
        assert GoodClaim(s, v);
        var (t, l) := s.HedgeAt(worker, pos);
        if l.Some? {
          ClipDropsNothing(s, v, v.cursor, l.value.end);
          assert Fits(s, v.start, v.end, v.volume);
          assert t == s.(dupBudget := t.dupBudget, live := s.live + [l.value]);
          RegisterLaw(s.(dupBudget := t.dupBudget), worker, l.value);
          assert IsHedge(s, t, worker, l.value, pos);
        }
      }
    }
  }

  /** Everything `claim` can do. */
  datatype Move = Nothing | FutileCut(pos: nat) | Took | Stole(pos: nat) | Hedged(via: Sched, pos: nat)

  ghost predicate Explains(m: Move, s: Sched, worker: nat, t: Sched, l: Option<Live>) {
    match m
    case Nothing => t == s && l.None?
    case FutileCut(pos) => IsFutileCut(s, t, pos) && l.None?
    case Took => l.Some? && IsTake(s, t, worker, l.value)
    case Stole(pos) => l.Some? && IsSteal(s, t, worker, l.value, pos)
    case Hedged(via, pos) =>
      && l.Some? && s.strategy.Throughput? && Inv(via) && IsHedge(via, t, worker, l.value, pos)
      && (via == s || exists p :: IsFutileCut(s, via, p))
  }

  lemma FutileCutAbsent(s: Sched, t: Sched, worker: nat)
    requires Absent(s, worker) && (t == s || exists p :: IsFutileCut(s, t, p))
    ensures Absent(t, worker)
  {
    if t != s {
      var p :| IsFutileCut(s, t, p);
      forall i | 0 <= i < |t.live| ensures t.live[i].worker != worker {
        assert t.live[i].worker == s.live[i].worker;
      }
    }
  }

  /** The third tier, after a steal that found nothing or made a futile cut. */
  lemma HedgeTier(s: Sched, via: Sched, worker: nat, rates: Rates) returns (m: Move)
    requires Inv(via) && via.strategy == s.strategy && Absent(s, worker) && (via == s || exists p :: IsFutileCut(s, via, p))
    ensures var (t, l) := if via.strategy.Throughput? && via.InTail() then via.Hedge(worker, rates) else (via, None);
            Inv(t) && Explains(m, s, worker, t, l) && !m.Took?
  {
    FutileCutAbsent(s, via, worker);
    if via.strategy.Throughput? && via.InTail() {
      HedgeLaw(via, worker, rates);
      var (t, l) := via.Hedge(worker, rates);
      if l.Some? {
        var pos :| IsHedge(via, t, worker, l.value, pos);
        m := Hedged(via, pos);
        return;
      }
    }
    if via == s { m := Nothing; } else {
      var p :| IsFutileCut(s, via, p);
      m := FutileCut(p);
    }
  }

  /** The second and the third tier. */
  lemma LaterTiers(s: Sched, worker: nat, rates: Rates) returns (m: Move)
    requires Inv(s) && Absent(s, worker) && s.TakeFrom(worker, s.Regions(), 0).None?
    ensures var (t, l) := s.Claim(worker, rates); Inv(t) && Explains(m, s, worker, t, l) && !m.Took?
  {
    StealLaw(s, worker, rates);
    var (via, stolen) := s.Steal(worker, rates);
    if stolen.Some? {
      var pos :| IsSteal(s, via, worker, stolen.value, pos);
      m := Stole(pos);
    } else {
      m := HedgeTier(s, via, worker, rates);
    }
  }

  /** One call of `claim`: the invariant is kept, the step is one of the tiers,
      and T1 was exhausted first: `None` means nothing waits in the region the
      pool may work in. */
  lemma ClaimLaw(s: Sched, worker: nat, rates: Rates) returns (m: Move)
    requires Inv(s) && Absent(s, worker)
    ensures var (t, l) := s.Claim(worker, rates);
            && Inv(t) && Explains(m, s, worker, t, l)
            && (m.Took? || forall k :: 0 <= k < |s.unclaimed| ==> !Meets(s.unclaimed[k], s.Floor(), s.Horizon()))
            && (m.Took? ==> l.value.issued <= s.ClaimLen())
  {
    RegionsLaw(s);
    TakeFromLaw(s, worker, s.Regions(), 0);
    if s.TakeFrom(worker, s.Regions(), 0).Some? { m := Took; } else { m := LaterTiers(s, worker, rates); }
  }

  /** With no work limit `claim` gives up only when nothing at all is waiting. */
  lemma ClaimComplete(s: Sched, worker: nat, rates: Rates)
    requires Inv(s) && Absent(s, worker) && s.Claim(worker, rates).1.None?
    ensures s.workLimit.None? ==> s.unclaimed == []
    ensures forall x: nat :: Has(s.unclaimed, x) ==> !(s.Floor() <= x <= s.Horizon())
    ensures s.Claim(worker, rates).0.unclaimed == s.unclaimed
  {
    var m := ClaimLaw(s, worker, rates);
    forall x: nat | Has(s.unclaimed, x) ensures !(s.Floor() <= x <= s.Horizon()) {
      HasAt(s.unclaimed, x);
      var k :| 0 <= k < |s.unclaimed| && s.unclaimed[k].lo <= x <= s.unclaimed[k].hi;
      assert !Meets(s.unclaimed[k], s.Floor(), s.Horizon());
    }
    if s.unclaimed != [] {
      assert !Meets(s.unclaimed[0], s.Floor(), s.Horizon());
    }
  }
}
