/** A fresh download divides itself evenly among its workers. */
module EvenSplit {
  import opened Spans
  import opened Sched
  import opened SchedLaws
  import opened Conservation
  import opened Policy

  lemma {:induction false} TimesSucc(m: nat, y: nat)
    ensures Times(m, y + 1) == Times(m, y) + m
  {
    if m > 0 { TimesSucc(m - 1, y); }
  }

  lemma Euclid(x: nat, m: nat)
    requires m > 0
    ensures x == Times(m, x / m) + x % m && x % m < m
  {
    TimesIsProduct(m, x / m);
  }

  lemma NotAbove(m: nat, y: nat, d: nat, r: nat)
    requires m > 0 && Times(m, y) <= Times(m, d) + r && r < m
    ensures y <= d
  {
    TimesSucc(m, d);
    if y > d { TimesMonotone(m, d + 1, y); }
  }

  /** Rounding up `m * q + rest` over `m` gives `q`, or one more. */
  lemma ShareIs(m: nat, q: nat, rest: nat)
    requires m > 0 && rest <= m
    ensures DivCeil(Times(m, q) + rest, m) == q + B(rest > 0)
  {
    var x := Times(m, q) + rest + m - 1;
    Euclid(x, m);
    TimesSucc(m, q);
    var d := q + B(rest > 0);
    NotAbove(m, x / m, d, x - Times(m, d));
    NotAbove(m, d, x / m, x % m);
  }

  /** The request has `q * n + r` bytes for `n` workers, at least a mebibyte each. */
  ghost predicate FreshDownload(s: Sched, v: nat, q: nat, r: nat) {
    && s == New(s.reqStart, s.reqEnd, Throughput, s.volumes, s.maxThreads, s.maxPerVolume, None, [])
    && s.maxThreads > 0 && s.maxPerVolume > 0 && s.maxThreads * 4 * MIN_FRAGMENT <= U64_MAX
    && s.reqEnd + 1 == s.reqStart + Times(s.maxThreads, q) + r && r < s.maxThreads && q >= MIB
    && Layout(s) && s.reqEnd < U64_MAX && Fits(s, s.reqStart, s.reqEnd, v)
  }

  /** Where the j-th part begins: `r` parts of `q + 1` bytes, then parts of `q`. */
  function Part(a: nat, q: nat, r: nat, j: nat): nat { a + Times(j, q) + Min(j, r) }

  ghost predicate SplitTo(s: Sched, t: Sched, q: nat, r: nat, k: nat) {
    && SameJob(s, t) && |t.live| == k
    && t.unclaimed == (if Part(s.reqStart, q, r, k) <= s.reqEnd then [Span(Part(s.reqStart, q, r, k), s.reqEnd)] else [])
    && (forall j :: 0 <= j < k ==>
          && t.live[j].worker == j && t.live[j].Primary() && t.live[j].start == Part(s.reqStart, q, r, j)
          && t.live[j].cursor == t.live[j].start && t.live[j].end + 1 == Part(s.reqStart, q, r, j + 1))
  }

  lemma {:induction false} SplitRemaining(s: Sched, t: Sched, q: nat, r: nat, k: nat, i: nat)
    requires SplitTo(s, t, q, r, k) && i <= k && q > 0
    ensures LiveRemaining(t.live[i..]) + Part(s.reqStart, q, r, i) == Part(s.reqStart, q, r, k)
    decreases k - i
  {
    if i < k {
      SplitRemaining(s, t, q, r, k, i + 1);
      assert t.live[i..][0] == t.live[i] && t.live[i..][1..] == t.live[i + 1..];
    }
  }

  lemma TailFloor(s: Sched, t: Sched, v: nat, q: nat, r: nat, k: nat)
    requires FreshDownload(s, v, q, r) && SplitTo(s, t, q, r, k) && k < s.maxThreads
    requires Total(t.unclaimed) + LiveRemaining(t.live) == Times(s.maxThreads, q) + r
    ensures t.MinFrag() <= q
  {
    var n := s.maxThreads;
    if !t.InTail() {
      TimesIsProduct(n, 4 * MIN_FRAGMENT);
      NotAbove(n, 4 * MIN_FRAGMENT, q, r);
    }
  }

  /** After k parts, `(n - k)` parts' worth of bytes are waiting. */
  lemma SplitCounts(s: Sched, t: Sched, q: nat, r: nat, k: nat, n: nat)
    requires SplitTo(s, t, q, r, k) && k < n && r < n && q > 0 && s.reqEnd + 1 == s.reqStart + Times(n, q) + r
    ensures Part(s.reqStart, q, r, k) + q + B(k < r) <= s.reqEnd + 1
    ensures Total(t.unclaimed) == Times(n - k, q) + (r - Min(k, r))
    ensures Total(t.unclaimed) + LiveRemaining(t.live) == Times(n, q) + r
  {
    TimesSplit(k, n, q);
    TimesSplit(k + 1, n, q);
    SplitRemaining(s, t, q, r, k, 0);
    assert t.live[0..] == t.live;
    assert t.unclaimed != [] && t.unclaimed[1..] == [];
  }

  /** With no limit and no cap, a download claim is the even share. */
  lemma LenIsShare(t: Sched, share: nat)
    requires t.WellFormed() && t.strategy.Throughput? && t.autoLimit.None? && t.splitCap.None?
    requires DivCeil(Total(t.unclaimed), Max(SatSub(t.maxThreads, |t.live|), 1)) == share
    requires t.MinFrag() <= share && 1 <= share <= U64_MAX
    ensures t.ClaimLen() == share
  {
  }

  lemma PartSize(q: nat, r: nat, k: nat, n: nat)
    requires k < n && r < n
    ensures B(r - Min(k, r) > 0) == B(k < r)
    ensures r - Min(k, r) <= n - k
  {
  }

  lemma SplitLen(s: Sched, t: Sched, v: nat, q: nat, r: nat, k: nat)
    requires FreshDownload(s, v, q, r) && SplitTo(s, t, q, r, k) && k < s.maxThreads
    ensures t.ClaimLen() == q + B(k < r)
    ensures Part(s.reqStart, q, r, k) + q + B(k < r) <= s.reqEnd + 1
  {
    var n := s.maxThreads;
    SplitCounts(s, t, q, r, k, n);
    PartSize(q, r, k, n);
    ShareIs(n - k, q, r - Min(k, r));
    TailFloor(s, t, v, q, r, k);
    LenIsShare(t, q + B(k < r));
  }

  /** With one gap left a download claim starts at its front. */
  lemma OnlyGap(t: Sched, worker: nat, rates: Rates, p: nat, hi: nat)
    requires t.WellFormed() && t.strategy.Throughput? && t.workLimit.None? && t.reqStart <= p <= hi <= t.reqEnd
    requires t.unclaimed == [Span(p, hi)]
    ensures var (u, l) := t.Claim(worker, rates); var end := t.TakeEnd(p, hi);
            && u.unclaimed == Subtract(t.unclaimed, p, end) && u == t.(unclaimed := u.unclaimed, live := u.live)
            && l == Some(Live(worker, t.VolumeOf(p), p, SatSub(end, p) + 1, end, p, p, p, None))
            && u.live == t.live + [l.value]
  {
    assert t.Regions() == [Span(t.reqStart, t.reqEnd)];
    assert t.PickGap(t.reqStart, t.reqEnd, false, false, 0, None) == Some(0);
    var pick := t.PickGap(t.reqStart, t.reqEnd, true, false, 0, None);
    assert t.PickGap(t.reqStart, t.reqEnd, true, false, 1, None) == None;
    assert t.PickGap(t.reqStart, t.reqEnd, true, false, 1, Some((0, SatSub(hi + 1, p)))) == Some(0);
    assert pick == (if t.Blocked(p, true) then None else Some(0));
    assert t.TakeFrom(worker, t.Regions(), 0).Some?;
  }

  lemma SplitEnd(s: Sched, t: Sched, v: nat, p: nat, end: nat)
    requires Layout(s) && SameJob(s, t) && t.WellFormed() && s.reqStart <= p <= end <= s.reqEnd < U64_MAX
    requires Fits(s, s.reqStart, s.reqEnd, v) && t.ClaimLen() == end - p + 1
    ensures t.TakeEnd(p, t.reqEnd) == end
  {
    if t.volumes.Some? {
      var vs := t.volumes.value;
      assert vs[0..] == vs;
      VolumeFound(vs, p, 0);
      OneVolume(vs, v, VolumeFrom(vs, p, 0).value, p);
    }
  }

  lemma CutFront(p: nat, end: nat, hi: nat)
    requires p <= end <= hi
    ensures Subtract([Span(p, hi)], p, end) == if end < hi then [Span(end + 1, hi)] else []
  {
    var u := [Span(p, hi)];
    assert u[1..] == [] && CutAll(u[1..], p, end) == [];
    assert CutAll(u, p, end) == Cut(u[0], p, end);
  }

  lemma SplitExtend(s: Sched, t: Sched, u: Sched, q: nat, r: nat, k: nat, l: Live, p: nat, end: nat)
    requires SplitTo(s, t, q, r, k) && p == Part(s.reqStart, q, r, k) && end + 1 == Part(s.reqStart, q, r, k + 1)
    requires p <= end <= s.reqEnd
    requires l == Live(k, l.volume, p, l.issued, end, p, p, p, None)
    requires u == t.(unclaimed := Subtract(t.unclaimed, p, end), live := t.live + [l])
    ensures SplitTo(s, u, q, r, k + 1)
  {
    CutFront(p, end, s.reqEnd);
  }

  lemma SplitStep(s: Sched, t: Sched, v: nat, q: nat, r: nat, k: nat, rates: Rates)
    requires FreshDownload(s, v, q, r) && SplitTo(s, t, q, r, k) && k < s.maxThreads
    ensures SplitTo(s, t.Claim(k, rates).0, q, r, k + 1)
  {
    SplitLen(s, t, v, q, r, k);
    var p, end := Part(s.reqStart, q, r, k), Part(s.reqStart, q, r, k + 1) - 1;
    OnlyGap(t, k, rates, p, t.reqEnd);
    SplitEnd(s, t, v, p, end);
    var (u, l) := t.Claim(k, rates);
    SplitExtend(s, t, u, q, r, k, l.value, p, end);
  }

  lemma SplitStart(s: Sched, v: nat, q: nat, r: nat)
    requires FreshDownload(s, v, q, r)
    ensures SplitTo(s, s, q, r, 0)
  {
    assert s.unclaimed == SubtractAll([Span(s.reqStart, s.reqEnd)], []) by { assert s.reqStart <= s.reqEnd; }
  }

  lemma {:induction false} SplitRun(s: Sched, v: nat, q: nat, r: nat, rates: seq<Rates>, k: nat)
    requires FreshDownload(s, v, q, r) && k <= s.maxThreads <= |rates|
    ensures SplitTo(s, Claims(s, rates, k), q, r, k)
  {
    if k > 0 {
      SplitRun(s, v, q, r, rates, k - 1);
      SplitStep(s, Claims(s, rates, k - 1), v, q, r, k - 1, rates[k - 1]);
    } else {
      SplitStart(s, v, q, r);
    }
  }

  /** The first `maxThreads` claims of a fresh download tile the whole request in
      order: the k-th is exactly the k-th even part, so any two lengths differ by
      at most one byte and nothing is left waiting. */
  lemma EvenSplitLaw(s: Sched, v: nat, q: nat, r: nat, rates: seq<Rates>)
    requires FreshDownload(s, v, q, r) && |rates| == s.maxThreads
    ensures var t := Claims(s, rates, s.maxThreads);
            && t.unclaimed == [] && |t.live| == s.maxThreads
            && t.live[0].start == s.reqStart && t.live[s.maxThreads - 1].end == s.reqEnd
            && (forall j :: 0 <= j < s.maxThreads - 1 ==> t.live[j + 1].start == t.live[j].end + 1)
            && (forall j :: 0 <= j < s.maxThreads ==> t.live[j].end + 1 == t.live[j].start + q + B(j < r))
  {
    var n := s.maxThreads;
    SplitRun(s, v, q, r, rates, n);
    var t := Claims(s, rates, n);
    forall j | 0 <= j < n ensures t.live[j].end + 1 == t.live[j].start + q + B(j < r) {
      assert t.live[j].end + 1 == Part(s.reqStart, q, r, j + 1);
    }
    forall j | 0 <= j < n - 1 ensures t.live[j + 1].start == t.live[j].end + 1 {
      assert t.live[j].end + 1 == Part(s.reqStart, q, r, j + 1);
    }
    assert t.live[n - 1].end + 1 == Part(s.reqStart, q, r, n);
  }

  /** Every request of at least a mebibyte per worker is covered by the law. */
  lemma EvenPartsExist(s: Sched, v: nat) returns (q: nat, r: nat)
    requires s == New(s.reqStart, s.reqEnd, Throughput, s.volumes, s.maxThreads, s.maxPerVolume, None, [])
    requires s.maxThreads > 0 && s.maxPerVolume > 0 && s.maxThreads * 4 * MIN_FRAGMENT <= U64_MAX
    requires Layout(s) && s.reqEnd < U64_MAX && Fits(s, s.reqStart, s.reqEnd, v)
    requires s.reqStart <= s.reqEnd && s.reqEnd - s.reqStart + 1 >= Times(s.maxThreads, MIB)
    ensures FreshDownload(s, v, q, r)
  {
    var len, n := s.reqEnd - s.reqStart + 1, s.maxThreads;
    Euclid(len, n);
    q, r := len / n, len % n;
    NotAbove(n, MIB, q, r);
  }
}
