/** What each tier of `claim` settles on, told from the lists: the gap that is cut,
    the claim that is robbed and how much of it, the claim that is raced; and who
    loses the race when a worker reports. */
module TierLaws {
  import opened Spans
  import opened Sched
  import opened SchedLaws
  import opened Conservation

  // ---- how busy a volume is ----

  function VolumesOf(live: seq<Live>): seq<nat> { seq(|live|, i requires 0 <= i < |live| => live[i].volume) }

  /** Claims in flight in volume `v`, hedges included. */
  function Load(live: seq<Live>, v: nat): nat { multiset(VolumesOf(live))[v] }

  lemma {:induction false} CountInIs(live: seq<Live>, v: nat)
    ensures CountIn(live, v) == Load(live, v)
  {
    if live == [] {
      assert VolumesOf(live) == [];
    } else {
      CountInIs(live[1..], v);
      assert VolumesOf(live) == [live[0].volume] + VolumesOf(live[1..]);
    }
  }

  // ---- T1: which gap ----

  /** Where a claim cut from gap `k` would start. */
  function CutAt(s: Sched, k: nat, rs: nat): nat
    requires k < |s.unclaimed|
  {
    Max(s.unclaimed[k].lo, rs)
  }

  /** How much of gap `k` lies in the region. */
  function Within(s: Sched, k: nat, rs: nat, re: nat): nat
    requires k < |s.unclaimed|
  {
    SatSub(Min(s.unclaimed[k].hi, re) + 1, CutAt(s, k, rs))
  }

  predicate Full(s: Sched, v: nat) { Load(s.live, v) >= s.maxPerVolume }

  /** Gap `k` reaches into the region, and starts there in a volume with room if
      that matters. */
  predicate Admissible(s: Sched, k: nat, rs: nat, re: nat, cap: bool) {
    k < |s.unclaimed| && Meets(s.unclaimed[k], rs, re) && (cap ==> !Full(s, s.VolumeOf(CutAt(s, k, rs))))
  }

  /** The largest admissible gap from `i` on, the first one of that size, or `best`. */
  ghost predicate Largest(s: Sched, rs: nat, re: nat, cap: bool, i: nat, best: Option<(nat, nat)>, pick: Option<nat>) {
    match pick
    case None => best.None? && forall k: nat :: i <= k ==> !Admissible(s, k, rs, re, cap)
    case Some(p) =>
      && Admissible(s, p, rs, re, cap)
      && (p < i ==> best == Some((p, Within(s, p, rs, re))))
      && (best.Some? ==> best.value.1 <= Within(s, p, rs, re) && (i <= p ==> best.value.1 < Within(s, p, rs, re)))
      && forall k: nat :: i <= k && Admissible(s, k, rs, re, cap) ==>
           Within(s, k, rs, re) <= Within(s, p, rs, re) && (k < p ==> Within(s, k, rs, re) < Within(s, p, rs, re))
  }

  lemma {:induction false} LargestGap(s: Sched, rs: nat, re: nat, cap: bool, i: nat, best: Option<(nat, nat)>)
    requires i <= |s.unclaimed|
    requires best.Some? ==>
               best.value.0 < i && Admissible(s, best.value.0, rs, re, cap) && best.value.1 == Within(s, best.value.0, rs, re)
    ensures Largest(s, rs, re, cap, i, best, s.PickGap(rs, re, cap, false, i, best))
    decreases |s.unclaimed| - i
  {
    if i < |s.unclaimed| {
      CountInIs(s.live, s.VolumeOf(CutAt(s, i, rs)));
      var score := Within(s, i, rs, re);
      var next := if Admissible(s, i, rs, re, cap) && (best.None? || score > best.value.1) then Some((i, score)) else best;
      LargestGap(s, rs, re, cap, i + 1, next);
    }
  }

  /** The gap taken: near the reader the first one of the region, and none if that
      one may not be cut; elsewhere the largest admissible one, the first of them,
      and none if there is none. */
  ghost predicate RightGap(s: Sched, rs: nat, re: nat, cap: bool, nearest: bool, pick: Option<nat>) {
    if nearest then
      match pick
      case None =>
        forall k: nat :: k < |s.unclaimed| && Meets(s.unclaimed[k], rs, re) ==>
          !Admissible(s, k, rs, re, cap) || exists j: nat :: j < k && Meets(s.unclaimed[j], rs, re)
      case Some(p) => Admissible(s, p, rs, re, cap) && forall k: nat :: k < p ==> !Meets(s.unclaimed[k], rs, re)
    else Largest(s, rs, re, cap, 0, None, pick)
  }

  lemma {:induction false} NearestGap(s: Sched, rs: nat, re: nat, cap: bool, i: nat)
    requires i <= |s.unclaimed| && forall k: nat :: k < i ==> !Meets(s.unclaimed[k], rs, re)
    ensures RightGap(s, rs, re, cap, true, s.PickGap(rs, re, cap, true, i, None))
    decreases |s.unclaimed| - i
  {
    if i < |s.unclaimed| {
      CountInIs(s.live, s.VolumeOf(CutAt(s, i, rs)));
      if !Meets(s.unclaimed[i], rs, re) { NearestGap(s, rs, re, cap, i + 1); }
    }
  }

  lemma PickGapExact(s: Sched, rs: nat, re: nat, cap: bool, nearest: bool)
    ensures RightGap(s, rs, re, cap, nearest, s.PickGap(rs, re, cap, nearest, 0, None))
  {
    if nearest { NearestGap(s, rs, re, cap, 0); } else { LargestGap(s, rs, re, cap, 0, None); }
  }

  /** The claim cut from gap `p`: it runs as far as the gap, the region, the volume
      and the size of a claim let it. */
  ghost predicate CutFrom(s: Sched, p: nat, rs: nat, re: nat, l: Live)
    requires s.WellFormed()
  {
    && p < |s.unclaimed| && l.start == CutAt(s, p, rs) && l.volume == s.VolumeOf(l.start) && l.issued <= s.ClaimLen()
    && l.end <= Min(s.unclaimed[p].hi, re)
    && (l.end == Min(s.unclaimed[p].hi, re) || l.issued == s.ClaimLen() || !Fits(s, l.start, l.end + 1, l.volume))
  }

  lemma TakeExact(s: Sched, worker: nat, rs: nat, re: nat, cap: bool, nearest: bool) returns (pick: Option<nat>)
    requires Inv(s) && Absent(s, worker) && (rs <= re || rs > s.reqEnd)
    ensures RightGap(s, rs, re, cap, nearest, pick)
    ensures var r := s.Take(worker, rs, re, cap, nearest);
            (r.Some? <==> pick.Some?) && (r.Some? ==> CutFrom(s, pick.value, rs, re, r.value.1))
  {
    pick := s.PickGap(rs, re, cap, nearest, 0, None);
    PickGapExact(s, rs, re, cap, nearest);
    TakeLaw(s, worker, rs, re, cap, nearest);
    if pick.Some? {
      var g := s.unclaimed[pick.value];
      CutExact(s, Max(g.lo, rs), Min(g.hi, re));
    }
  }

  lemma CutExact(s: Sched, a: nat, b: nat)
    requires Inv(s) && s.reqStart <= a <= b <= s.reqEnd
    ensures var end := s.TakeEnd(a, b); end == b || end - a + 1 == s.ClaimLen() || !Fits(s, a, end + 1, s.VolumeOf(a))
  {
    if s.volumes.Some? {
      var vs := s.volumes.value;
      assert vs[0..] == vs;
      VolumeFound(vs, a, 0);
    }
  }

  /** Where the pool may work: from the reader on and no further than the work limit,
      or anywhere in the request. */
  function Lo(s: Sched): nat { if s.workLimit.Some? then Max(s.readHead, s.reqStart) else s.reqStart }

  function Hi(s: Sched): nat
    requires s.WellFormed()
  {
    if s.workLimit.Some? then Min(Sat(s.readHead + s.workLimit.value - 1), s.reqEnd) else s.reqEnd
  }

  /** The end of the reader's window: its own size, or a claim for every thread. */
  function WindowHi(s: Sched): nat
    requires s.WellFormed() && s.strategy.Latency?
  {
    Min(Sat(s.readHead + Max(Max(s.strategy.criticalWindow, Sat(s.maxThreads * s.ClaimLen())), 1) - 1), Hi(s))
  }

  /** What playback serves first: the window, or everything once the reader is done. */
  function Near(s: Sched): Span
    requires s.WellFormed() && s.strategy.Latency?
  {
    if s.readHead <= WindowHi(s) then Span(s.readHead, WindowHi(s)) else Span(Lo(s), Hi(s))
  }

  /** The claim is cut right at the first gap there, which is gap `p`. */
  ghost predicate NearestAt(s: Sched, p: nat, l: Live)
    requires s.WellFormed() && s.strategy.Latency?
  {
    RightGap(s, Near(s).lo, Near(s).hi, false, true, Some(p)) && CutFrom(s, p, Near(s).lo, Near(s).hi, l)
  }

  ghost predicate FromNearest(s: Sched, l: Live)
    requires s.WellFormed()
  {
    s.strategy.Latency? && exists p: nat :: NearestAt(s, p, l)
  }

  /** The claim is cut from gap `p`, the largest of those that start in a volume with
      room, or, when there is none, the largest of all. */
  ghost predicate LargestAt(s: Sched, p: nat, l: Live)
    requires s.WellFormed()
  {
    && CutFrom(s, p, Lo(s), Hi(s), l)
    && (|| RightGap(s, Lo(s), Hi(s), true, false, Some(p))
        || (RightGap(s, Lo(s), Hi(s), true, false, None) && RightGap(s, Lo(s), Hi(s), false, false, Some(p))))
  }

  ghost predicate FromLargest(s: Sched, l: Live)
    requires s.WellFormed()
  {
    exists p: nat :: LargestAt(s, p, l)
  }

  /** The two passes over what playback serves first. */
  lemma NearTake(s: Sched, worker: nat, rg: Span) returns (l: Option<Live>)
    requires Inv(s) && Absent(s, worker) && s.strategy.Latency? && rg == Near(s) && (rg.lo <= rg.hi || rg.lo > s.reqEnd)
    ensures var first := s.Take(worker, rg.lo, rg.hi, true, true); var second := s.Take(worker, rg.lo, rg.hi, false, true);
            l == (if first.Some? then Some(first.value.1) else if second.Some? then Some(second.value.1) else None)
    ensures l.Some? ==> FromNearest(s, l.value)
  {
    var a := TakeExact(s, worker, rg.lo, rg.hi, true, true);
    var b := TakeExact(s, worker, rg.lo, rg.hi, false, true);
    var first, second := s.Take(worker, rg.lo, rg.hi, true, true), s.Take(worker, rg.lo, rg.hi, false, true);
    l := if first.Some? then Some(first.value.1) else if second.Some? then Some(second.value.1) else None;
    if l.Some? {
      var p := if first.Some? then a.value else b.value;
      assert NearestAt(s, p, l.value);
    }
  }

  lemma WholeTake(s: Sched, worker: nat, whole: Span, l: Live)
    requires Inv(s) && Absent(s, worker) && whole == Span(Lo(s), Hi(s)) && (whole.lo <= whole.hi || whole.lo > s.reqEnd)
    requires var first := s.Take(worker, whole.lo, whole.hi, true, false);
             var second := s.Take(worker, whole.lo, whole.hi, false, false);
             if first.Some? then l == first.value.1 else second.Some? && l == second.value.1
    ensures FromLargest(s, l)
  {
    var a := TakeExact(s, worker, whole.lo, whole.hi, true, false);
    var b := TakeExact(s, worker, whole.lo, whole.hi, false, false);
    var p := if a.Some? then a.value else b.value;
    assert LargestAt(s, p, l);
  }

  /** Where a taken claim comes from. */
  lemma TakenFrom(s: Sched, worker: nat)
    requires Inv(s) && Absent(s, worker) && s.TakeFrom(worker, s.Regions(), 0).Some?
    ensures var l := s.TakeFrom(worker, s.Regions(), 0).value.1; FromNearest(s, l) || FromLargest(s, l)
  {
    RegionsLaw(s);
    var rg, l := s.Regions(), s.TakeFrom(worker, s.Regions(), 0).value.1;
    assert rg[|rg| - 1] == Span(Lo(s), Hi(s));
    if s.strategy.Latency? {
      assert rg[0] == Near(s);
      var near := NearTake(s, worker, rg[0]);
      if near.Some? {
        assert l == near.value;
      } else {
        assert s.TakeFrom(worker, rg, 0) == s.TakeFrom(worker, rg, 1);
        assert |rg| == 2 && s.TakeFrom(worker, rg, 2).None?;
        WholeTake(s, worker, rg[1], l);
      }
    } else {
      WholeTake(s, worker, rg[0], l);
    }
  }

  /** Every gap within reach starts there in a volume at its cap. */
  ghost predicate AllFull(s: Sched)
    requires s.WellFormed()
  {
    forall k: nat :: k < |s.unclaimed| && Meets(s.unclaimed[k], Lo(s), Hi(s)) ==> Full(s, s.VolumeOf(CutAt(s, k, Lo(s))))
  }

  /** The largest gap is in a volume at its cap only if all gaps within reach are. */
  lemma LargestRespectsCap(s: Sched, l: Live)
    requires s.WellFormed() && FromLargest(s, l) && Full(s, l.volume)
    ensures AllFull(s)
  {
    var p: nat :| LargestAt(s, p, l);
    assert RightGap(s, Lo(s), Hi(s), true, false, None);
    forall k: nat | k < |s.unclaimed| && Meets(s.unclaimed[k], Lo(s), Hi(s)) ensures Full(s, s.VolumeOf(CutAt(s, k, Lo(s)))) {
      assert !Admissible(s, k, Lo(s), Hi(s), true);
    }
  }

  /** In T1 the per-volume cap gives way to the reader, and otherwise only when it
      must: a claim that is not the nearest to the reader is in a volume at its cap
      only if every gap within reach starts in one. */
  lemma ClaimRespectsCap(s: Sched, worker: nat, rates: Rates)
    requires Inv(s) && Absent(s, worker) && s.TakeFrom(worker, s.Regions(), 0).Some?
    ensures var c := s.Claim(worker, rates).1;
            && c.Some? && (FromNearest(s, c.value) || FromLargest(s, c.value))
            && (!FromNearest(s, c.value) && Full(s, c.value.volume) ==> AllFull(s))
  {
    TakenFrom(s, worker);
    var l := s.TakeFrom(worker, s.Regions(), 0).value.1;
    if !FromNearest(s, l) && Full(s, l.volume) { LargestRespectsCap(s, l); }
  }

  /** With a work limit no claim is taken before the reader or beyond the limit. */
  lemma ClaimWithinLimit(s: Sched, worker: nat, rates: Rates)
    requires Inv(s) && Absent(s, worker) && s.workLimit.Some? && s.TakeFrom(worker, s.Regions(), 0).Some?
    ensures var l := s.Claim(worker, rates).1.value; s.readHead <= l.start && l.end < s.readHead + s.workLimit.value
  {
    TakenFrom(s, worker);
  }

  // ---- how large a claim is ----

  /** The end of the work is near: less is waiting or owed than four fragments per
      thread, or 64 MiB. */
  predicate Ending(s: Sched) { Total(s.unclaimed) + LiveRemaining(s.live) < Max(32 * MIB * s.maxThreads, 64 * MIB) }

  /** The smallest piece worth a request: a mebibyte near the end and for a reader,
      eight otherwise. */
  function Piece(s: Sched): nat { if s.strategy.Latency? || Ending(s) then MIB else 8 * MIB }

  lemma PieceIs(s: Sched)
    requires 32 * MIB * s.maxThreads <= U64_MAX
    ensures s.InTail() <==> Ending(s)
    ensures s.MinFrag() == Piece(s)
  {
  }

  /** `n` bytes for each worker without a claim are enough for all that waits, and
      `n` is the smallest such number that is worth a request. */
  predicate FairShare(s: Sched, n: nat) {
    var idle := Max(SatSub(s.maxThreads, |s.live|), 1);
    n >= Piece(s) && n * idle >= Total(s.unclaimed) && (n == Piece(s) || (n - 1) * idle < Total(s.unclaimed))
  }

  lemma CeilIsLeast(a: nat, d: nat)
    requires d > 0
    ensures var q := DivCeil(a, d); q * d >= a && (q == 0 || (q - 1) * d < a)
  {
    var q := DivCeil(a, d);
    assert a + d - 1 == d * q + (a + d - 1) % d;
    assert q * d == d * q && (q - 1) * d == d * q - d;
  }

  lemma ShareIsFair(s: Sched)
    requires 32 * MIB * s.maxThreads <= U64_MAX
    ensures FairShare(s, s.EvenShare())
  {
    PieceIs(s);
    var idle := Max(SatSub(s.maxThreads, |s.live|), 1);
    CeilIsLeast(Total(s.unclaimed), idle);
    GrowsWith(DivCeil(Total(s.unclaimed), idle), s.EvenShare(), idle);
  }

  lemma GrowsWith(a: nat, b: nat, d: nat)
    requires a <= b
    ensures a * d <= b * d
  {
  }

  lemma CeilAtMost(a: nat, d: nat)
    requires d > 0
    ensures DivCeil(a, d) <= a
  {
    var q := DivCeil(a, d);
    CeilIsLeast(a, d);
    if q > 1 { GrowsWith(1, d, q - 1); }
  }

  lemma ShareFits(s: Sched)
    requires Total(s.unclaimed) <= U64_MAX
    ensures s.EvenShare() <= U64_MAX
  {
    CeilAtMost(Total(s.unclaimed), Max(SatSub(s.maxThreads, |s.live|), 1));
  }

  /** What a claim is to be when a fair share is `share`. */
  function WantedLen(s: Sched, share: nat): nat
    requires s.WellFormed()
  {
    match s.strategy
    case Throughput => share
    case Latency(_, headClaim) => Min(share, Max(s.buffered / s.maxThreads, Max(headClaim, 1)))
  }

  lemma LenFrom(s: Sched, share: nat)
    requires s.WellFormed() && share == s.EvenShare() <= U64_MAX
    ensures s.ClaimLen() <= Max(WantedLen(s, share), 1)
    ensures || s.ClaimLen() == Max(WantedLen(s, share), 1) || s.autoLimit == Some(s.ClaimLen()) || s.splitCap == Some(s.ClaimLen())
            || (s.autoLimit == Some(0) && s.ClaimLen() == 1)
  {
  }

  /** A download hands out fair shares; playback at most what the reader has in hand
      for each thread, or a head claim; neither more than was learned or allowed. */
  lemma ClaimLenExact(s: Sched) returns (share: nat)
    requires s.WellFormed() && Total(s.unclaimed) <= U64_MAX && 32 * MIB * s.maxThreads <= U64_MAX
    ensures FairShare(s, share)
    ensures s.ClaimLen() <= Max(WantedLen(s, share), 1)
    ensures || s.ClaimLen() == Max(WantedLen(s, share), 1) || s.autoLimit == Some(s.ClaimLen()) || s.splitCap == Some(s.ClaimLen())
            || (s.autoLimit == Some(0) && s.ClaimLen() == 1)
  {
    share := s.EvenShare();
    ShareIsFair(s);
    ShareFits(s);
    LenFrom(s, share);
  }

  // ---- what is left to do ----

  lemma {:induction false} TotalConcat(a: seq<Span>, b: seq<Span>)
    ensures Total(a + b) == Total(a) + Total(b)
  {
    if a == [] {
      assert a + b == b;
    } else {
      assert (a + b)[1..] == a[1..] + b;
      TotalConcat(a[1..], b);
    }
  }

  lemma CutTotal(c: Span, a: nat, b: nat)
    requires c.lo <= a <= b <= c.hi
    ensures Total(Cut(c, a, b)) + (b - a + 1) == c.hi - c.lo + 1
  {
    var left := if c.lo < a then [Span(c.lo, a - 1)] else [];
    var right := if c.hi > b then [Span(b + 1, c.hi)] else [];
    TotalConcat(left, right);
    assert left != [] ==> left[1..] == [];
    assert right != [] ==> right[1..] == [];
  }

  lemma {:induction false} CutNothing(u: seq<Span>, a: nat, b: nat)
    requires forall k :: 0 <= k < |u| ==> u[k].hi < a || u[k].lo > b
    ensures CutAll(u, a, b) == u
  {
    if u != [] {
      forall k | 0 <= k < |u[1..]| ensures u[1..][k].hi < a || u[1..][k].lo > b { assert u[1..][k] == u[k + 1]; }
      CutNothing(u[1..], a, b);
    }
  }

  /** Taking a piece of one gap leaves that much less waiting. */
  lemma {:induction false} CutAllTotal(u: seq<Span>, p: nat, a: nat, b: nat)
    requires Canonical(u) && p < |u| && u[p].lo <= a <= b <= u[p].hi
    ensures Total(CutAll(u, a, b)) + (b - a + 1) == Total(u)
  {
    var rest := u[1..];
    TotalConcat(Cut(u[0], a, b), CutAll(rest, a, b));
    if p == 0 {
      forall k | 0 <= k < |rest| ensures rest[k].lo > b { assert rest[k] == u[k + 1] && u[0].hi < u[k + 1].lo; }
      CutNothing(rest, a, b);
      CutTotal(u[0], a, b);
    } else {
      assert u[0].hi < u[p].lo;
      CutAllTotal(rest, p - 1, a, b);
      assert [u[0]][1..] == [];
    }
  }

  lemma {:induction false} WorkConcat(a: seq<Live>, b: seq<Live>)
    ensures LiveRemaining(a + b) == LiveRemaining(a) + LiveRemaining(b)
  {
    if a == [] {
      assert a + b == b;
    } else {
      assert (a + b)[1..] == a[1..] + b;
      WorkConcat(a[1..], b);
    }
  }

  lemma {:induction false} TakeFromSubtracts(s: Sched, worker: nat, rg: seq<Span>, i: nat)
    requires s.WellFormed() && i <= |rg|
    ensures var r := s.TakeFrom(worker, rg, i);
            r.Some? ==> var (t, l) := r.value; t.unclaimed == Subtract(s.unclaimed, l.start, l.end) && t.live == s.live + [l]
    decreases |rg| - i
  {
    if i < |rg| { TakeFromSubtracts(s, worker, rg, i + 1); }
  }

  /** A taken claim is a piece of one gap. */
  lemma TakenPiece(s: Sched, worker: nat) returns (p: nat)
    requires Inv(s) && Absent(s, worker) && s.TakeFrom(worker, s.Regions(), 0).Some?
    ensures var l := s.TakeFrom(worker, s.Regions(), 0).value.1;
            p < |s.unclaimed| && s.unclaimed[p].lo <= l.start && l.end <= s.unclaimed[p].hi
  {
    TakenFrom(s, worker);
    var l := s.TakeFrom(worker, s.Regions(), 0).value.1;
    if FromLargest(s, l) {
      p :| LargestAt(s, p, l);
    } else {
      p :| NearestAt(s, p, l);
    }
  }

  /** Taking turns waiting bytes into owed ones, one for one. */
  lemma TakeKeepsWork(s: Sched, worker: nat)
    requires Inv(s) && Absent(s, worker) && s.TakeFrom(worker, s.Regions(), 0).Some?
    ensures var t := s.TakeFrom(worker, s.Regions(), 0).value.0;
            Total(t.unclaimed) + LiveRemaining(t.live) == Total(s.unclaimed) + LiveRemaining(s.live)
  {
    var (t, l) := s.TakeFrom(worker, s.Regions(), 0).value;
    RegionsLaw(s);
    TakeFromLaw(s, worker, s.Regions(), 0);
    TakeFromSubtracts(s, worker, s.Regions(), 0);
    var p := TakenPiece(s, worker);
    PieceTaken(s.unclaimed, t.unclaimed, p, s.live, l);
  }

  lemma PieceTaken(u: seq<Span>, v: seq<Span>, p: nat, live: seq<Live>, l: Live)
    requires Canonical(u) && p < |u| && u[p].lo <= l.start <= l.end <= u[p].hi && v == Subtract(u, l.start, l.end)
    requires l.Primary() && l.cursor == l.start
    ensures Total(v) + LiveRemaining(live + [l]) == Total(u) + LiveRemaining(live)
  {
    CutAllTotal(u, p, l.start, l.end);
    WorkConcat(live, [l]);
    assert [l][1..] == [];
  }

  /** A duplicate is no work. */
  lemma HedgeKeepsWork(s: Sched, worker: nat, rates: Rates)
    requires Inv(s) && Absent(s, worker)
    ensures var t := s.Hedge(worker, rates).0; t.unclaimed == s.unclaimed && LiveRemaining(t.live) == LiveRemaining(s.live)
  {
    HedgeLaw(s, worker, rates);
    var (t, l) := s.Hedge(worker, rates);
    if l.Some? {
      WorkConcat(s.live, [l.value]);
      assert [l.value][1..] == [];
    }
  }

  // ---- who is robbed, who is raced ----

  /** The claim picked: the one the rates point at if it is eligible, else the last
      of those with the most left to do. */
  ghost predicate Picked(live: seq<Live>, eligible: Live -> bool, hint: Option<nat>, pos: nat) {
    && pos < |live| && eligible(live[pos])
    && if hint.Some? && hint.value < |live| && eligible(live[hint.value]) then pos == hint.value
       else forall k: nat :: k < |live| && eligible(live[k]) ==>
              live[k].Remaining() <= live[pos].Remaining() && (k > pos ==> live[k].Remaining() < live[pos].Remaining())
  }

  lemma {:induction false} LargestOrigin(live: seq<Live>, p: Live -> bool, i: nat, best: Option<nat>)
    requires i <= |live| && (best.Some? ==> best.value < |live| && p(live[best.value]))
    ensures var r := LargestFrom(live, p, i, best); r == best || (r.Some? && r.value >= i)
    decreases |live| - i
  {
    if i < |live| {
      var next := if p(live[i]) && (best.None? || live[i].Remaining() >= live[best.value].Remaining()) then Some(i) else best;
      LargestOrigin(live, p, i + 1, next);
    }
  }

  lemma {:induction false} LastLargest(live: seq<Live>, p: Live -> bool, i: nat, best: Option<nat>, k: nat)
    requires i <= k < |live| && p(live[k]) && (best.Some? ==> best.value < i && p(live[best.value]))
    ensures var r := LargestFrom(live, p, i, best);
            && r.Some? && live[k].Remaining() <= live[r.value].Remaining()
            && (k > r.value ==> live[k].Remaining() < live[r.value].Remaining())
    decreases |live| - i
  {
    var next := if p(live[i]) && (best.None? || live[i].Remaining() >= live[best.value].Remaining()) then Some(i) else best;
    if i < k { LastLargest(live, p, i + 1, next, k); } else { LargestOrigin(live, p, i + 1, next); }
  }

  lemma ChooseExact(live: seq<Live>, p: Live -> bool, hint: Option<nat>)
    ensures match Choose(live, p, hint)
            case None => forall k: nat :: k < |live| ==> !p(live[k])
            case Some(pos) => Picked(live, p, hint, pos)
  {
    var r := Choose(live, p, hint);
    if r.Some? {
      forall k: nat | k < |live| && p(live[k]) && r == LargestFrom(live, p, 0, None)
        ensures live[k].Remaining() <= live[r.value].Remaining() && (k > r.value ==> live[k].Remaining() < live[r.value].Remaining())
      {
        LastLargest(live, p, 0, None, k);
      }
    }
  }

  /** Another worker's primary that owes more than two pieces. */
  ghost predicate Rich(s: Sched, worker: nat, l: Live) { l.worker != worker && l.Primary() && l.Remaining() > 2 * Piece(s) }

  ghost function Richness(s: Sched, worker: nat): Live -> bool { (l: Live) => Rich(s, worker, l) }

  ghost predicate Nobody(live: seq<Live>, p: Live -> bool) { forall k: nat :: k < |live| ==> !p(live[k]) }

  /** The victim keeps the first half of what it owes, the larger one when they
      differ; the thief gets the rest, but for what the victim has announced. */
  ghost predicate Halves(s: Sched, pos: nat, t: Sched, l: Option<Live>) {
    && pos < |s.live| && pos < |t.live|
    && var v, kept := s.live[pos], t.live[pos];
       && kept == v.(end := kept.end) && kept.Remaining() == v.Remaining() - v.Remaining() / 2
       && (l.None? <==> v.reserved > v.end)
       && (l.Some? ==> l.value.start == Max(kept.end + 1, v.reserved) && l.value.end == v.end)
  }

  lemma StealAtExact(s: Sched, worker: nat, pos: nat)
    requires Inv(s) && Absent(s, worker) && pos < |s.live| && s.live[pos].Primary() && s.live[pos].Remaining() > 2
    ensures var (t, l) := s.StealAt(worker, pos); Halves(s, pos, t, l)
  {
    var v := s.live[pos];
    assert GoodClaim(s, v);
    StealAtLaw(s, worker, pos);
    assert SatSub(v.end, v.Remaining() / 2) == v.end - v.Remaining() / 2 < v.end;
  }

  lemma SamePicks(live: seq<Live>, p: Live -> bool, q: Live -> bool, hint: Option<nat>)
    requires forall l: Live :: p(l) == q(l)
    ensures match Choose(live, p, hint) case None => Nobody(live, q) case Some(pos) => Picked(live, q, hint, pos)
  {
    ChooseExact(live, p, hint);
  }

  /** A steal finds a victim if and only if some claim is rich, and halves it. */
  lemma StealExact(s: Sched, worker: nat, rates: Rates) returns (pos: nat)
    requires Inv(s) && Absent(s, worker)
    requires 32 * MIB * s.maxThreads <= U64_MAX
    ensures var (t, l) := s.Steal(worker, rates);
            if Nobody(s.live, Richness(s, worker)) then t == s && l.None?
            else Picked(s.live, Richness(s, worker), rates.straggler, pos) && Halves(s, pos, t, l)
  {
    pos := 0;
    PieceIs(s);
    SamePicks(s.live, s.Robbable(worker), Richness(s, worker), rates.straggler);
    var pick := Choose(s.live, s.Robbable(worker), rates.straggler);
    if pick.Some? {
      pos := pick.value;
      assert Rich(s, worker, s.live[pos]);
      StealAtExact(s, worker, pos);
    }
  }

  /** Another worker's primary that owes a mebibyte or more and that nobody races. */
  ghost predicate Raceable(s: Sched, worker: nat, l: Live) {
    && l.worker != worker && l.Primary() && l.Remaining() >= MIB
    && forall k :: 0 <= k < |s.live| ==> s.live[k].hedgeOf != Some(l.start)
  }

  ghost function Raceability(s: Sched, worker: nat): Live -> bool { (l: Live) => Raceable(s, worker, l) }

  /** The duplicate starts where the claim stands and runs to its end, or as far as
      the budget lasts; every byte of it is charged. */
  ghost predicate Races(s: Sched, pos: nat, t: Sched, l: Option<Live>) {
    && pos < |s.live| && l.Some?
    && var n := Min(s.live[pos].Remaining(), s.dupBudget);
       l.value.start == s.live[pos].cursor && l.value.end + 1 == l.value.start + n && t.dupBudget == s.dupBudget - n
  }

  lemma HedgeAtExact(s: Sched, worker: nat, pos: nat)
    requires Inv(s) && pos < |s.live| && s.live[pos].Remaining() >= MIB && s.dupBudget >= MIB
    ensures var (t, l) := s.HedgeAt(worker, pos); Races(s, pos, t, l)
  {
    assert GoodClaim(s, s.live[pos]);
  }

  /** A hedge is issued if and only if a mebibyte of the budget is left and some
      claim can be raced. */
  lemma HedgeExact(s: Sched, worker: nat, rates: Rates) returns (pos: nat)
    requires Inv(s)
    ensures var (t, l) := s.Hedge(worker, rates);
            if s.dupBudget < MIB || Nobody(s.live, Raceability(s, worker)) then t == s && l.None?
            else Picked(s.live, Raceability(s, worker), rates.slowest, pos) && Races(s, pos, t, l)
  {
    pos := 0;
    forall l: Live ensures s.Hedgeable(worker)(l) == Raceability(s, worker)(l) {
      if s.Hedged(l.start) { assert !Raceable(s, worker, l); }
    }
    SamePicks(s.live, s.Hedgeable(worker), Raceability(s, worker), rates.slowest);
    var pick := Choose(s.live, s.Hedgeable(worker), rates.slowest);
    if pick.Some? {
      pos := pick.value;
      assert Raceable(s, worker, s.live[pos]);
      if s.dupBudget >= MIB { HedgeAtExact(s, worker, pos); }
    }
  }

  /** Nothing waits where the pool may work. */
  ghost predicate NothingInReach(s: Sched)
    requires s.WellFormed()
  {
    forall k :: 0 <= k < |s.unclaimed| ==> !Meets(s.unclaimed[k], Lo(s), Hi(s))
  }

  lemma TakenInReach(s: Sched, worker: nat)
    requires Inv(s) && Absent(s, worker) && s.TakeFrom(worker, s.Regions(), 0).Some?
    ensures !NothingInReach(s)
  {
    TakenFrom(s, worker);
    var l := s.TakeFrom(worker, s.Regions(), 0).value.1;
  }

  /** Hedging comes last: a duplicate is only issued by a download whose end is near,
      when nothing waits within reach. */
  lemma HedgesLast(s: Sched, worker: nat, rates: Rates)
    requires Inv(s) && Absent(s, worker) && 32 * MIB * s.maxThreads <= U64_MAX
    requires s.Claim(worker, rates).1.Some? && s.Claim(worker, rates).1.value.hedgeOf.Some?
    ensures s.strategy.Throughput? && NothingInReach(s) && Ending(s.Steal(worker, rates).0)
  {
    RegionsLaw(s);
    TakeFromLaw(s, worker, s.Regions(), 0);
    StealLaw(s, worker, rates);
    var (via, stolen) := s.Steal(worker, rates);
    assert s.TakeFrom(worker, s.Regions(), 0).None? && stolen.None?;
    assert s.Claim(worker, rates) == if via.strategy.Throughput? && via.InTail() then via.Hedge(worker, rates) else (via, None);
    assert SameJob(s, via);
    PieceIs(via);
  }

  /** And when nothing can be taken or robbed near the end of a download, the budget
      and the claims allowing it, one is issued. */
  lemma HedgesWhenIdle(s: Sched, worker: nat, rates: Rates)
    requires Inv(s) && Absent(s, worker) && 32 * MIB * s.maxThreads <= U64_MAX
    requires NothingInReach(s) && Nobody(s.live, Richness(s, worker)) && s.strategy.Throughput? && Ending(s)
    requires s.dupBudget >= MIB && !Nobody(s.live, Raceability(s, worker))
    ensures var c := s.Claim(worker, rates).1; c.Some? && c.value.hedgeOf.Some?
  {
    if s.TakeFrom(worker, s.Regions(), 0).Some? { TakenInReach(s, worker); }
    PieceIs(s);
    var p := StealExact(s, worker, rates);
    var q := HedgeExact(s, worker, rates);
    HedgeLaw(s, worker, rates);
  }

  // ---- who loses the race ----

  /** The live claim on the other side of the race that `gone` was in. */
  ghost predicate Rival(gone: Live, l: Live) {
    match gone.hedgeOf case Some(start) => l.Primary() && l.start == start case None => l.hedgeOf == Some(gone.start)
  }

  ghost predicate FirstRival(gone: Live, live: seq<Live>, k: nat)
    requires k < |live|
  {
    Rival(gone, live[k]) && forall j: nat :: j < k ==> !Rival(gone, live[j])
  }

  /** Stopped where it stands: it has nothing more to do, but for byte 0 if it has
      not begun there. */
  ghost predicate Stopped(l: Live, m: Live) { m == l.(end := m.end) && m.Remaining() <= if l.cursor == 0 then 1 else 0 }

  /** When a worker reports, its claim leaves the list. If it went past its end, the
      first rival, if any, is stopped and nothing else changes; if it did not, no
      other claim changes, and the rest of a primary waits again. */
  lemma FinishExact(s: Sched, pos: nat)
    requires Inv(s) && pos < |s.live|
    ensures var l, t, rest := s.live[pos], s.Finish(s.live[pos].worker, s.live[pos].cursor), s.Without(pos).live;
            && |t.live| == |rest|
            && (l.cursor <= l.end ==> t.live == rest && forall x: nat :: Has(t.unclaimed, x) <==>
                                        Has(s.unclaimed, x) || (l.Primary() && l.cursor <= x <= l.end))
            && (l.cursor > l.end ==> t.unclaimed == s.unclaimed && forall k: nat :: k < |rest| ==>
                                       if FirstRival(l, rest, k) then Stopped(rest[k], t.live[k]) else t.live[k] == rest[k])
  {
    var l := s.live[pos];
    assert GoodClaim(s, l);
    FindWorker(s.live, pos, 0);
    if l.cursor > l.end {
      StopsFirst(s.Without(pos), l);
    } else if l.Primary() {
      InsertLaw(s.unclaimed, l.cursor, l.end, s.reqStart, s.reqEnd);
    }
  }

  lemma StopsFirst(s: Sched, gone: Live)
    ensures var t := s.CutFirst(if gone.hedgeOf.Some? then PrimaryAt(gone.hedgeOf.value) else HedgeOf(gone.start));
            && t == s.(live := t.live) && |t.live| == |s.live|
            && forall k: nat :: k < |s.live| ==>
                 if FirstRival(gone, s.live, k) then Stopped(s.live[k], t.live[k]) else t.live[k] == s.live[k]
  {
    var p := if gone.hedgeOf.Some? then PrimaryAt(gone.hedgeOf.value) else HedgeOf(gone.start);
    var i := FindFrom(s.live, p, 0);
    forall k: nat | k < |s.live| ensures p(s.live[k]) <==> Rival(gone, s.live[k]) {}
    if i < |s.live| { assert Rival(gone, s.live[i]); }
  }
}
