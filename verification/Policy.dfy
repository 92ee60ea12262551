/** What the sizing and placement rules guarantee: seeks, playback packing, the
    even split of a download, and adaptive sizing. */
module Policy {
  import opened Spans
  import opened Sched
  import opened SchedLaws
  import opened Conservation

  // ---- the reader's window ----

  lemma FirstMeeting(u: seq<Span>, head: nat, hi: nat, p: nat, r: nat, k: nat)
    requires Canonical(u) && r < |u| && head <= p <= hi
    requires k < |u| && u[k].lo <= p <= u[k].hi
    requires forall x: nat :: head <= x < p ==> !Has(u, x)
    requires Meets(u[r], head, hi) && forall j :: 0 <= j < r ==> !Meets(u[j], head, hi)
    ensures r == k && Max(u[r].lo, head) == p
  {
    forall j | 0 <= j < k ensures u[j].hi < head {
      HasAt(u, u[j].hi);
    }
    HasAt(u, Max(u[k].lo, head));
  }

  ghost predicate InWindow(s: Sched, p: nat)
    requires s.WellFormed()
  {
    s.readHead <= p <= Min(Sat(s.readHead + SatSub(s.CriticalSpan(), 1)), s.Horizon())
  }

  lemma NearestTake(s: Sched, worker: nat, p: nat, hi: nat, cap: bool, k: nat)
    requires Inv(s) && s.readHead <= p <= hi
    requires k < |s.unclaimed| && s.unclaimed[k].lo <= p <= s.unclaimed[k].hi
    requires forall x: nat :: s.readHead <= x < p ==> !Has(s.unclaimed, x)
    ensures var c := s.Take(worker, s.readHead, hi, cap, true);
            && (c.Some? ==> c.value.1.start == p && c.value.1.end == s.TakeEnd(p, Min(s.unclaimed[k].hi, hi)))
            && (!cap ==> c.Some?)
  {
    assert Meets(s.unclaimed[k], s.readHead, hi);
    PickGapLaw(s, s.readHead, hi, cap, true, 0, None);
    var pick := s.PickGap(s.readHead, hi, cap, true, 0, None);
    if pick.Some? {
      FirstMeeting(s.unclaimed, s.readHead, hi, p, pick.value, k);
    }
  }

  /** The first waiting byte of the reader's window is where the next claim
      starts, whatever the per-volume cap says. */
  lemma NearestFirst(s: Sched, worker: nat, rates: Rates, p: nat) returns (k: nat)
    requires Inv(s) && Absent(s, worker) && s.strategy.Latency? && InWindow(s, p) && Has(s.unclaimed, p)
    requires forall x: nat :: s.readHead <= x < p ==> !Has(s.unclaimed, x)
    ensures var (t, l) := s.Claim(worker, rates); l.Some? && l.value.start == p && IsTake(s, t, worker, l.value) && Inv(t)
    ensures k < |s.unclaimed| && s.unclaimed[k].lo <= p <= s.unclaimed[k].hi && p <= s.Regions()[0].hi
    ensures s.Claim(worker, rates).1.value.end == s.TakeEnd(p, Min(s.unclaimed[k].hi, s.Regions()[0].hi))
    ensures InWindow(s, s.Regions()[0].hi)
  {
    HasAt(s.unclaimed, p);
    k :| 0 <= k < |s.unclaimed| && s.unclaimed[k].lo <= p <= s.unclaimed[k].hi;
    var rg := s.Regions();
    assert rg[0].lo == s.readHead && p <= rg[0].hi;
    NearestTake(s, worker, p, rg[0].hi, true, k);
    NearestTake(s, worker, p, rg[0].hi, false, k);
    TakeLaw(s, worker, s.readHead, rg[0].hi, true, true);
    TakeLaw(s, worker, s.readHead, rg[0].hi, false, true);
    assert s.TakeFrom(worker, rg, 0).Some?;
  }

  /** In playback no claim is longer than this. */
  function PlaybackCeiling(s: Sched): nat
    requires s.WellFormed() && s.strategy.Latency?
  {
    Max(s.buffered / s.maxThreads, Max(s.strategy.headClaim, 1))
  }

  /** A claim that survived a refocus: not far behind the head, not over-committed. */
  ghost predicate Settled(l: Live, head: nat, grace: nat, ceiling: nat) {
    l.cursor > l.end || (Sat(l.cursor + grace) >= head && (l.Primary() ==> l.Remaining() <= ceiling))
  }

  lemma ShortenRemaining(s: Sched, i: nat)
    requires s.WellFormed() && i < |s.live|
    ensures s.Shorten(i).WellFormed() && |s.Shorten(i).live| == |s.live|
    ensures var l := s.Shorten(i).live[i]; l.cursor == s.live[i].cursor && (l.Primary() ==> l.Remaining() <= s.ClaimLen())
    ensures forall k :: 0 <= k < |s.live| && k != i ==> s.Shorten(i).live[k] == s.live[k]
  {
  }

  ghost predicate SettledBelow(live: seq<Live>, n: nat, head: nat, grace: nat, ceiling: nat) {
    forall k :: 0 <= k < n && k < |live| ==> Settled(live[k], head, grace, ceiling)
  }

  lemma DropSettled(s: Sched, i: nat, head: nat, grace: nat, ceiling: nat)
    requires i < |s.live| && SettledBelow(s.live, i, head, grace, ceiling)
    ensures SettledBelow(s.Drop(i).live, i, head, grace, ceiling)
  {
  }

  lemma ShortenSettled(s: Sched, i: nat, head: nat, hi: nat, grace: nat, ceiling: nat)
    requires s.WellFormed() && s.strategy.Latency? && PlaybackCeiling(s) <= ceiling
    requires i < |s.live| && SettledBelow(s.live, i, head, grace, ceiling)
    requires s.live[i].cursor <= s.live[i].end && !LetGo(s.live[i], head, hi, grace)
    ensures SettledBelow(s.Shorten(i).live, i + 1, head, grace, ceiling)
    ensures s.Shorten(i).WellFormed() && |s.Shorten(i).live| == |s.live|
  {
    ShortenRemaining(s, i);
    assert s.ClaimLen() <= PlaybackCeiling(s);
  }

  lemma {:induction false} RefocusSettles(s: Sched, i: nat, head: nat, hi: nat, grace: nat, ceiling: nat)
    requires s.WellFormed() && i <= |s.live| && s.strategy.Latency? && PlaybackCeiling(s) <= ceiling
    requires SettledBelow(s.live, i, head, grace, ceiling)
    ensures SettledBelow(s.RefocusFrom(i, head, hi, grace).0.live, |s.RefocusFrom(i, head, hi, grace).0.live|,
                         head, grace, ceiling)
    decreases |s.live| - i
  {
    if i < |s.live| {
      var l := s.live[i];
      if l.cursor > l.end {
        RefocusSettles(s, i + 1, head, hi, grace, ceiling);
      } else if LetGo(l, head, hi, grace) {
        DropSettled(s, i, head, grace, ceiling);
        RefocusSettles(s.Drop(i), i, head, hi, grace, ceiling);
      } else {
        ShortenSettled(s, i, head, hi, grace, ceiling);
        RefocusSettles(s.Shorten(i), i + 1, head, hi, grace, ceiling);
      }
    }
  }

  ghost predicate InFlight(live: seq<Live>, x: nat) {
    exists k :: 0 <= k < |live| && live[k].Primary() && live[k].cursor <= x < live[k].reserved
  }

  lemma SetReadHeadLaw(s: Sched, offset: nat)
    requires Inv(s)
    ensures Inv(s.SetReadHead(offset))
  {
    var t := s.SetReadHead(offset);
    forall k | 0 <= k < |t.live| ensures GoodClaim(t, t.live[k]) { assert GoodClaim(s, s.live[k]); }
  }

  /** The head byte survives the refocus: waiting, or in front of a settled claim. */
  lemma HeadAfterRefocus(s: Sched, window: nat, disk: set<nat>)
    requires Inv(s) && s.strategy.Latency? && Holders(s, disk, s.readHead) >= 1
    requires s.readHead !in disk && !InFlight(s.live, s.readHead)
    ensures var t := s.Refocus(window).0; Has(t.unclaimed, s.readHead) || Owners(t.live, s.readHead) >= 1
  {
    var head, hi, grace := s.readHead, Sat(s.readHead + Max(window, 1)), Max(s.strategy.headClaim, MIN_CLAIM);
    RefocusByte(s, 0, head, hi, grace, disk, head);
    forall k | 0 <= k < |s.live| && Leaving(head, hi, grace)(s.live[k]) ensures !Stranded(s.live[k], head) {}
    HeldSpared(s, disk, Leaving(head, hi, grace), head);
  }

  /** The reader's byte is close: the very next claim starts on it, or a live
      primary still owing it is at most `grace` bytes behind it. */
  ghost predicate HeadIsNear(t: Sched, worker: nat, rates: Rates, grace: nat)
    requires t.WellFormed()
  {
    || (t.Claim(worker, rates).1.Some? && t.Claim(worker, rates).1.value.start == t.readHead)
    || exists k :: 0 <= k < |t.live| && t.live[k].Primary()
                   && t.live[k].cursor <= t.readHead <= t.live[k].end && t.readHead - t.live[k].cursor <= grace
  }

  lemma HeadNear(t: Sched, worker: nat, rates: Rates, grace: nat, ceiling: nat)
    requires Inv(t) && t.strategy.Latency? && Absent(t, worker) && t.reqStart <= t.readHead <= t.reqEnd
    requires forall k :: 0 <= k < |t.live| ==> Settled(t.live[k], t.readHead, grace, ceiling)
    requires Has(t.unclaimed, t.readHead) || Owners(t.live, t.readHead) >= 1
    requires !InFlight(t.live, t.readHead)
    ensures HeadIsNear(t, worker, rates, grace)
  {
    if Has(t.unclaimed, t.readHead) {
      var k := NearestFirst(t, worker, rates, t.readHead);
    } else {
      OwnersAt(t.live, t.readHead);
      var k :| 0 <= k < |t.live| && t.live[k].Owns(t.readHead);
      assert t.readHead >= t.live[k].reserved;
    }
  }

  /** After a seek no surviving primary owes more than one playback claim, and a
      head byte that is neither on disk nor already being written is near. */
  lemma SeekGuarantee(s0: Sched, offset: nat, window: nat, disk: set<nat>, worker: nat, rates: Rates)
    requires Inv(s0) && s0.strategy.Latency? && Cover(s0, disk)
    requires Absent(s0.SetReadHead(offset).Refocus(window).0, worker)
    ensures var t := s0.SetReadHead(offset).Refocus(window).0;
            && Inv(t)
            && (forall k :: 0 <= k < |t.live| && t.live[k].Primary()
                            ==> t.live[k].Remaining() <= Max(s0.strategy.headClaim, 1))
            && (t.reqStart <= t.readHead <= t.reqEnd && t.readHead !in disk
                && !InFlight(s0.live, t.readHead) && !InFlight(t.live, t.readHead)
                ==> HeadIsNear(t, worker, rates, Max(s0.strategy.headClaim, MIN_CLAIM)))
  {
    SetReadHeadLaw(s0, offset);
    var s := s0.SetReadHead(offset);
    var head, hi, grace := s.readHead, Sat(s.readHead + Max(window, 1)), Max(s.strategy.headClaim, MIN_CLAIM);
    var t := s.Refocus(window).0;
    RefocusShape(s, 0, head, hi, grace);
    assert s.buffered / s.maxThreads == 0;
    RefocusSettles(s, 0, head, hi, grace, PlaybackCeiling(s));
    if s.reqStart <= head <= s.reqEnd && head !in disk && !InFlight(s0.live, head) && !InFlight(t.live, head) {
      assert Holders(s0, disk, head) >= 1 && Holders(s, disk, head) == Holders(s0, disk, head);
      HeadAfterRefocus(s, window, disk);
      HeadNear(t, worker, rates, grace, PlaybackCeiling(s));
    }
  }

  // ---- several claims in a row ----

  /** Workers 0, 1, … k-1 ask once each, with nothing happening in between. */
  function Claims(s: Sched, rates: seq<Rates>, k: nat): Sched
    requires s.WellFormed() && k <= |rates|
  {
    if k == 0 then s
    else
      var p := Claims(s, rates, k - 1);
      if p.WellFormed() then p.Claim(k - 1, rates[k - 1]).0 else p
  }

  // ---- playback packing ----

  /** The length of `k` claims of `c` bytes. */
  function Times(k: nat, c: nat): nat { if k == 0 then 0 else Times(k - 1, c) + c }

  lemma {:induction false} TimesIsProduct(k: nat, c: nat)
    ensures Times(k, c) == k * c
  {
    if k > 0 {
      TimesIsProduct(k - 1, c);
      assert k * c == (k - 1) * c + c;
    }
  }

  lemma {:induction false} TimesSplit(k: nat, n: nat, c: nat)
    requires k <= n
    ensures Times(k, c) + Times(n - k, c) == Times(n, c)
    decreases n - k
  {
    if k < n { TimesSplit(k + 1, n, c); }
  }

  lemma {:induction false} TimesMonotone(m: nat, a: nat, b: nat)
    requires a <= b
    ensures Times(m, a) <= Times(m, b)
  {
    if m > 0 { TimesMonotone(m - 1, a, b); }
  }

  lemma CeilAtLeast(total: nat, m: nat, c: nat)
    requires m > 0 && total >= Times(m, c)
    ensures DivCeil(total, m) >= c
  {
    var d := DivCeil(total, m);
    assert total + m - 1 < m * d + m;
    TimesIsProduct(m, d + 1);
    assert m * (d + 1) == m * d + m;
    if c > d { TimesMonotone(m, d + 1, c); }
  }

  /** A playback pool about to pack: idle, unbuffered by cap or limit, with room
      for one claim of `c` bytes per worker waiting behind the head in volume `v`. */
  ghost predicate Packable(s: Sched, c: nat, v: nat) {
    && s.WellFormed() && s.strategy.Latency? && s.live == []
    && c == PlaybackCeiling(s)
    && (s.autoLimit.Some? ==> c <= s.autoLimit.value) && (s.splitCap.Some? ==> c <= s.splitCap.value)
    && s.readHead + Times(s.maxThreads, c) <= s.reqEnd + 1 <= U64_MAX
    && (s.workLimit.Some? ==> Times(s.maxThreads, c) <= s.workLimit.value)
    && (forall x: nat :: s.readHead <= x < s.readHead + Times(s.maxThreads, c) ==> Has(s.unclaimed, x))
    && Fits(s, s.readHead, s.readHead + Times(s.maxThreads, c) - 1, v)
  }

  ghost predicate PackedTo(s: Sched, t: Sched, c: nat, k: nat) {
    && SameJob(s, t) && |t.live| == k
    && (forall j :: 0 <= j < k ==> t.live[j].worker == j && t.live[j].Primary()
                                   && t.live[j].start == s.readHead + Times(j, c)
                                   && t.live[j].end + 1 == s.readHead + Times(j + 1, c))
    && (forall x: nat :: Has(t.unclaimed, x) <==>
          Has(s.unclaimed, x) && !(s.readHead <= x < s.readHead + Times(k, c)))
  }

  /** When the even share is no less, the next claim is as long as playback allows. */
  lemma LenIsCeiling(s: Sched, t: Sched, c: nat)
    requires s.WellFormed() && s.strategy.Latency? && SameJob(s, t) && c == PlaybackCeiling(s)
    requires (s.autoLimit.Some? ==> c <= s.autoLimit.value) && (s.splitCap.Some? ==> c <= s.splitCap.value)
    requires t.EvenShare() >= c && c <= U64_MAX
    ensures t.ClaimLen() == c
  {
  }

  lemma RoundLen(s: Sched, t: Sched, c: nat, v: nat, k: nat) returns (i: nat)
    requires Packable(s, c, v) && PackedTo(s, t, c, k) && k < s.maxThreads && Canonical(t.unclaimed)
    ensures t.ClaimLen() == c
    ensures i < |t.unclaimed| && t.unclaimed[i].lo <= s.readHead + Times(k, c)
    ensures s.readHead + Times(s.maxThreads, c) <= t.unclaimed[i].hi + 1
  {
    var n, h := s.maxThreads, s.readHead;
    TimesSplit(k, n, c);
    i := RunInOneSpan(t.unclaimed, h + Times(k, c), h + Times(n, c) - 1);
    TotalAtLeast(t.unclaimed, i);
    CeilAtLeast(Total(t.unclaimed), n - k, c);
    assert t.EvenShare() >= c;
    LenIsCeiling(s, t, c);
  }

  /** The window of a packing pool reaches past its last claim. */
  lemma RoundWindow(s: Sched, t: Sched, c: nat, v: nat, k: nat)
    requires Packable(s, c, v) && PackedTo(s, t, c, k) && k < s.maxThreads && t.ClaimLen() == c
    ensures InWindow(t, s.readHead + Times(s.maxThreads, c) - 1)
  {
    TimesIsProduct(s.maxThreads, c);
    TimesSplit(1, s.maxThreads, c);
  }

  lemma PackEnd(t: Sched, h: nat, p: nat, q: nat, c: nat, v: nat, segEnd: nat)
    requires Inv(t) && t.ClaimLen() == c && h <= p <= p + c - 1 <= q <= segEnd && q <= t.reqEnd && Fits(t, h, q, v)
    ensures t.TakeEnd(p, segEnd) == p + c - 1
  {
    if t.volumes.Some? {
      var vs := t.volumes.value;
      assert vs[0..] == vs;
      VolumeFound(vs, p, 0);
      OneVolume(vs, v, VolumeFrom(vs, p, 0).value, p);
    }
  }

  /** The pool takes the piece `[p, p + c)` when it is the first one waiting. */
  lemma PackPiece(t: Sched, p: nat, q: nat, c: nat, v: nat, i: nat, worker: nat, rates: Rates)
    requires Inv(t) && Absent(t, worker) && t.strategy.Latency? && t.ClaimLen() == c && Fits(t, t.readHead, q, v)
    requires t.readHead <= p <= p + c - 1 <= q <= t.reqEnd && InWindow(t, q)
    requires i < |t.unclaimed| && t.unclaimed[i].lo <= p && q <= t.unclaimed[i].hi
    requires forall x: nat :: t.readHead <= x < p ==> !Has(t.unclaimed, x)
    ensures var (t', l) := t.Claim(worker, rates);
            && Inv(t') && l.Some? && IsTake(t, t', worker, l.value)
            && l.value.start == p && l.value.end == p + c - 1
  {
    HasAt(t.unclaimed, p);
    var j := NearestFirst(t, worker, rates, p);
    assert i == j;
    PackEnd(t, t.readHead, p, q, c, v, Min(t.unclaimed[j].hi, t.Regions()[0].hi));
  }

  lemma PackExtend(s: Sched, t: Sched, t': Sched, c: nat, k: nat, l: Live)
    requires PackedTo(s, t, c, k) && IsTake(t, t', k, l)
    requires l.start == s.readHead + Times(k, c) && l.end + 1 == s.readHead + Times(k + 1, c)
    ensures PackedTo(s, t', c, k + 1)
  {
    forall j | 0 <= j < k + 1
      ensures t'.live[j].worker == j && t'.live[j].Primary()
      ensures t'.live[j].start == s.readHead + Times(j, c) && t'.live[j].end + 1 == s.readHead + Times(j + 1, c)
    {
      assert j < k ==> t'.live[j] == t.live[j];
    }
  }

  lemma PackStep(s: Sched, t: Sched, c: nat, v: nat, k: nat, rates: Rates)
    requires Inv(t) && Packable(s, c, v) && PackedTo(s, t, c, k) && k < s.maxThreads
    ensures Inv(t.Claim(k, rates).0) && PackedTo(s, t.Claim(k, rates).0, c, k + 1)
  {
    var i := RoundLen(s, t, c, v, k);
    RoundWindow(s, t, c, v, k);
    TimesSplit(k + 1, s.maxThreads, c);
    var p, q := s.readHead + Times(k, c), s.readHead + Times(s.maxThreads, c) - 1;
    assert Absent(t, k) && Fits(t, t.readHead, q, v);
    PackPiece(t, p, q, c, v, i, k, rates);
    PackExtend(s, t, t.Claim(k, rates).0, c, k, t.Claim(k, rates).1.value);
  }

  /** One round of the whole pool covers `maxThreads * c` bytes right behind the
      read head, in order: the k-th claim is exactly its k-th piece. */
  lemma {:induction false} PlaybackPacking(s: Sched, rates: seq<Rates>, c: nat, v: nat, k: nat)
    requires Inv(s) && Packable(s, c, v) && k <= s.maxThreads <= |rates|
    ensures Inv(Claims(s, rates, k)) && PackedTo(s, Claims(s, rates, k), c, k)
  {
    if k > 0 {
      PlaybackPacking(s, rates, c, v, k - 1);
      PackStep(s, Claims(s, rates, k - 1), c, v, k - 1, rates[k - 1]);
    }
  }

  // ---- adaptive sizing ----

  ghost predicate Sizing(s: Sched) {
    && s.autoWall <= U64_MAX
    && (s.autoLimit.Some? ==> MIN_CLAIM <= s.autoLimit.value <= s.autoWall)
    && (s.autoLimit.None? ==> s.autoWall == U64_MAX)
  }

  datatype Outcome = Outcome(ok: bool, delivered: nat, issued: nat)

  function Outcomes(s: Sched, os: seq<Outcome>): (Sched, nat)
    decreases |os|
  {
    if os == [] then (s, 0)
    else
      var (t, counts) := s.NoteOutcome(os[0].ok, os[0].delivered, os[0].issued);
      var (u, n) := Outcomes(t, os[1..]);
      (u, n + B(counts))
  }

  /** Over any outcomes the limit stays between the floor and the wall, the wall
      never rises, and nothing but sizing changes. */
  lemma {:induction false} SizingLaw(s: Sched, os: seq<Outcome>)
    requires Sizing(s) && forall i :: 0 <= i < |os| ==> os[i].issued <= U64_MAX
    ensures var t := Outcomes(s, os).0;
            Sizing(t) && t.autoWall <= s.autoWall && t == s.(autoLimit := t.autoLimit, autoWall := t.autoWall)
    decreases |os|
  {
    if os != [] {
      SizingLaw(s.NoteOutcome(os[0].ok, os[0].delivered, os[0].issued).0, os[1..]);
    }
  }

  /** A failure that counts: the claim had carried real bytes, or it had been cut
      within the limit in force. */
  predicate Charged(limit: Option<nat>, o: Outcome) {
    !o.ok && (o.delivered >= MIN_FRAGMENT || (limit.Some? && o.issued <= limit.value))
  }

  /** Of the outcomes, those that count, each by the limit in force when it came in. */
  function Charges(s: Sched, os: seq<Outcome>): nat
    decreases |os|
  {
    if os == [] then 0
    else
      var before := os[..|os| - 1];
      Charges(s, before) + B(Charged(Outcomes(s, before).0.autoLimit, os[|os| - 1]))
  }

  lemma {:induction false} OutcomesSnoc(s: Sched, os: seq<Outcome>, o: Outcome)
    ensures var (t, n) := Outcomes(s, os); var (u, counts) := t.NoteOutcome(o.ok, o.delivered, o.issued);
            Outcomes(s, os + [o]) == (u, n + B(counts))
    decreases |os|
  {
    if os == [] {
      assert [] + [o] == [o] && [o][1..] == [];
    } else {
      assert (os + [o])[1..] == os[1..] + [o];
      OutcomesSnoc(s.NoteOutcome(os[0].ok, os[0].delivered, os[0].issued).0, os[1..], o);
    }
  }

  /** The next outcome: a failure counts exactly when it carried real bytes or was
      cut within the limit. Real bytes leave sizing alone, and so does a claim cut
      before the limit was learned; a success never counts, nor lowers the limit. */
  lemma OutcomeExact(s: Sched, os: seq<Outcome>, o: Outcome)
    requires Sizing(Outcomes(s, os).0)
    ensures var (t, n) := Outcomes(s, os); var (u, m) := Outcomes(s, os + [o]);
            && m == n + B(Charged(t.autoLimit, o))
            && (!o.ok && o.delivered >= MIN_FRAGMENT ==> (u, m) == (t, n + 1))
            && (!o.ok && o.delivered < MIN_FRAGMENT && t.autoLimit.Some? && o.issued > t.autoLimit.value ==> (u, m) == (t, n))
            && (o.ok ==> m == n && u.autoWall == t.autoWall && u.autoLimit.Some? == t.autoLimit.Some?
                         && (t.autoLimit.Some? ==> u.autoLimit.value >= t.autoLimit.value))
  {
    OutcomesSnoc(s, os, o);
  }

  /** Over any outcomes the failures charged are exactly those. */
  lemma {:induction false} ChargesExact(s: Sched, os: seq<Outcome>)
    requires Sizing(s) && forall i :: 0 <= i < |os| ==> os[i].issued <= U64_MAX
    ensures Outcomes(s, os).1 == Charges(s, os)
    decreases |os|
  {
    if os != [] {
      var before, o := os[..|os| - 1], os[|os| - 1];
      assert before + [o] == os;
      ChargesExact(s, before);
      SizingLaw(s, before);
      OutcomeExact(s, before, o);
    }
  }

  function Halved(a: nat, n: nat): nat { if n == 0 then a else Halved(a, n - 1) / 2 }

  function Doubled(a: nat, n: nat): nat { if n == 0 then a else 2 * Doubled(a, n - 1) }

  /** An early failure within the limit. */
  lemma Strike(s: Sched, o: Outcome, limit: nat)
    requires s.autoLimit == Some(limit) && limit >= MIN_CLAIM && (limit == s.autoWall || limit / 2 <= s.autoWall)
    requires s.autoWall >= MIN_CLAIM && !o.ok && o.delivered < MIN_FRAGMENT && o.issued <= MIN_CLAIM
    ensures var cut := Max(limit / 2, MIN_CLAIM);
            s.NoteOutcome(o.ok, o.delivered, o.issued) == (s.(autoLimit := Some(cut), autoWall := cut), true)
  {
  }

  /** Early failures in a row, each within the limit of the moment: after n of them
      the limit is what it was halved n times, but no less than a mebibyte, and that
      is the wall from then on. */
  lemma {:induction false} StrikesHalve(s: Sched, os: seq<Outcome>)
    requires Sizing(s) && s.autoLimit.Some? && os != []
    requires forall i :: 0 <= i < |os| ==> !os[i].ok && os[i].delivered < MIN_FRAGMENT && os[i].issued <= MIN_CLAIM
    ensures var limit := Max(Halved(s.autoLimit.value, |os|), MIN_CLAIM);
            Outcomes(s, os) == (s.(autoLimit := Some(limit), autoWall := limit), |os|)
    decreases |os|
  {
    var n, before, a := |os|, os[..|os| - 1], s.autoLimit.value;
    assert before + [os[n - 1]] == os;
    OutcomesSnoc(s, before, os[n - 1]);
    if before != [] {
      StrikesHalve(s, before);
      Strike(Outcomes(s, before).0, os[n - 1], Max(Halved(a, n - 1), MIN_CLAIM));
    } else {
      Strike(s, os[0], a);
      assert Halved(a, 1) == Halved(a, 0) / 2 == a / 2;
    }
  }

  /** Successes in a row: after n of them the limit is what it was doubled n times,
      but no more than the wall. */
  lemma {:induction false} SuccessesDouble(s: Sched, os: seq<Outcome>)
    requires Sizing(s) && s.autoLimit.Some? && forall i :: 0 <= i < |os| ==> os[i].ok
    ensures Outcomes(s, os) == (s.(autoLimit := Some(Min(Doubled(s.autoLimit.value, |os|), s.autoWall))), 0)
    decreases |os|
  {
    if os != [] {
      var before := os[..|os| - 1];
      assert before + [os[|os| - 1]] == os;
      OutcomesSnoc(s, before, os[|os| - 1]);
      SuccessesDouble(s, before);
    }
  }

  /** One bad round of equal claims is charged for nothing. If no limit was known it
      shrinks sizing once, to half of what failed and at most to 8 MiB; after that,
      or when the limit was smaller already, it proves nothing new. */
  lemma {:induction false} OneBadRound(s: Sched, os: seq<Outcome>, issued: nat)
    requires Sizing(s) && os != [] && MIN_CLAIM < issued <= U64_MAX
    requires s.autoLimit.None? || s.autoLimit.value < issued
    requires forall i :: 0 <= i < |os| ==> !os[i].ok && os[i].delivered < MIN_FRAGMENT && os[i].issued == issued
    ensures var half := Max(issued / 2, MIN_CLAIM);
            Outcomes(s, os) == (if s.autoLimit.Some? then s else s.(autoWall := half, autoLimit := Some(Min(RECOVERY_CLAIM, half))), 0)
    ensures Outcomes(s, os).0.autoLimit.value < issued
    decreases |os|
  {
    var t := s.NoteOutcome(os[0].ok, os[0].delivered, os[0].issued).0;
    if |os| > 1 { OneBadRound(t, os[1..], issued); }
  }

  /** A size learned by an earlier request is a ceiling for the next one. */
  lemma WallSeedsSizing(s: Sched, remembered: Option<nat>)
    requires Sizing(s) && (remembered.Some? ==> MIN_CLAIM <= remembered.value <= s.autoWall)
    ensures Sizing(s.WithClaimWall(remembered))
    ensures remembered.Some? && s.WellFormed() ==> s.WithClaimWall(remembered).ClaimLen() <= remembered.value
  {
  }

  /** It starts from 8 MiB, or less where less was learned, and successes bring it
      back to what was learned, never past it. */
  lemma SeedRecovers(s: Sched, remembered: nat, os: seq<Outcome>)
    requires Sizing(s) && MIN_CLAIM <= remembered <= s.autoWall && forall i :: 0 <= i < |os| ==> os[i].ok
    ensures var t := Outcomes(s.WithClaimWall(Some(remembered)), os).0;
            t == s.(autoWall := remembered, autoLimit := Some(Min(Doubled(Min(8 * MIB, remembered), |os|), remembered)))
  {
    SuccessesDouble(s.WithClaimWall(Some(remembered)), os);
  }
}
