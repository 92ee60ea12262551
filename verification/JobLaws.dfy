/** What the coordinator relies on between its steps: nothing requested is lost,
    and a worker has a claim exactly while it works on one. */
module JobLaws {
  import opened Spans
  import opened Sched
  import opened SchedLaws
  import opened Conservation
  import opened RunModel
  import opened RunSafety
  import opened RunRaces

  /** Nothing is announced that has not landed. */
  ghost predicate Settled(live: seq<Live>) {
    forall i :: 0 <= i < |live| ==> live[i].reserved == live[i].cursor
  }

  ghost predicate OneEach(live: seq<Live>, busy: set<nat>) {
    forall w: nat :: w in busy <==> Present(live, w)
  }

  /** The lists are in order and, with the disk, account for every byte. */
  ghost predicate Booked(s: Sched, busy: set<nat>, disk: set<nat>) {
    Inv(s) && Cover(s, disk) && Settled(s.live) && OneEach(s.live, busy)
  }

  /** What a claim has behind its cursor is on disk. */
  ghost predicate Delivered(live: seq<Live>, disk: set<nat>) {
    forall i :: 0 <= i < |live| ==> forall x: nat :: live[i].start <= x < live[i].cursor ==> x in disk
  }

  /** No byte is two claims', no start is handed out twice, no hedge starts past
      what its primary still owes. */
  ghost predicate Raced(s: Sched, disk: set<nat>) { RaceInv(s) && Undoubled(s) && Delivered(s.live, disk) }

  /** The work plan is in order. */
  ghost predicate Kept(s: Sched, busy: set<nat>, disk: set<nat>) { Booked(s, busy, disk) && Raced(s, disk) }

  /** Only workers of the pool hold claims. */
  ghost predicate OfPool(live: seq<Live>, n: nat) {
    forall i :: 0 <= i < |live| ==> live[i].worker < n
  }

  /** Same job, and still only the pool's workers. */
  ghost predicate Frames(s: Sched, t: Sched, n: nat) { SameJob(s, t) && OfPool(t.live, n) }

  function Those(gone: seq<nat>): set<nat> { set w | w in gone }

  // ---- what every operation leaves alone, whatever state the plan is in ----

  lemma {:induction false} TakeFrame(s: Sched, w: nat, regions: seq<Span>, i: nat, n: nat)
    requires s.WellFormed() && OfPool(s.live, n) && w < n && i <= |regions|
    ensures var r := s.TakeFrom(w, regions, i); r.Some? ==> Frames(s, r.value.0, n)
    decreases |regions| - i
  {
    if i < |regions| { TakeFrame(s, w, regions, i + 1, n); }
  }

  lemma StealFrame(s: Sched, w: nat, rates: Rates, n: nat)
    requires OfPool(s.live, n) && w < n
    ensures Frames(s, s.Steal(w, rates).0, n) && s.Steal(w, rates).0.WellFormed() == s.WellFormed()
  {
  }

  lemma HedgeFrame(s: Sched, w: nat, rates: Rates, n: nat)
    requires OfPool(s.live, n) && w < n
    ensures Frames(s, s.Hedge(w, rates).0, n)
  {
  }

  lemma ClaimFrame(s: Sched, w: nat, rates: Rates, n: nat)
    requires s.WellFormed() && OfPool(s.live, n) && w < n
    ensures Frames(s, s.Claim(w, rates).0, n)
  {
    TakeFrame(s, w, s.Regions(), 0, n);
    StealFrame(s, w, rates, n);
    HedgeFrame(s.Steal(w, rates).0, w, rates, n);
  }

  lemma FinishFrame(s: Sched, w: nat, reached: nat, n: nat)
    requires OfPool(s.live, n)
    ensures Frames(s, s.Finish(w, reached), n)
  {
  }

  lemma DropFrame(s: Sched, i: nat, n: nat)
    requires i < |s.live| && OfPool(s.live, n)
    ensures Frames(s, s.Drop(i), n)
  {
  }

  lemma {:induction false} RefocusFrame(s: Sched, i: nat, head: nat, hi: nat, grace: nat, n: nat)
    requires s.WellFormed() && i <= |s.live| && OfPool(s.live, n)
    ensures var (t, gone) := s.RefocusFrom(i, head, hi, grace); Frames(s, t, n) && forall w :: w in gone ==> w < n
    decreases |s.live| - i
  {
    if i < |s.live| {
      var l := s.live[i];
      if l.cursor > l.end {
        RefocusFrame(s, i + 1, head, hi, grace, n);
      } else if LetGo(l, head, hi, grace) {
        DropFrame(s, i, n);
        RefocusFrame(s.Drop(i), i, head, hi, grace, n);
      } else {
        RefocusFrame(s.Shorten(i), i + 1, head, hi, grace, n);
      }
    }
  }

  lemma {:induction false} ReclaimFrame(s: Sched, i: nat, idle: set<nat>, n: nat)
    requires i <= |s.live| && OfPool(s.live, n)
    ensures var (t, gone) := s.ReclaimFrom(i, idle); Frames(s, t, n) && forall w :: w in gone ==> w < n
    decreases |s.live| - i
  {
    if i < |s.live| {
      var l := s.live[i];
      if l.cursor > l.lastCursor || l.cursor > l.end {
        ReclaimFrame(s.Touch(i), i + 1, idle, n);
      } else if l.worker !in idle {
        ReclaimFrame(s, i + 1, idle, n);
      } else {
        DropFrame(s, i, n);
        ReclaimFrame(s.Drop(i), i, idle, n);
      }
    }
  }

  // ---- a plan in order stays in order ----

  lemma BookedNew(s: Sched, disk: set<nat>, staged: seq<Span>, wall: Option<nat>)
    requires s == New(s.reqStart, s.reqEnd, s.strategy, s.volumes, s.maxThreads, s.maxPerVolume, s.splitCap, staged)
    requires Layout(s) && s.reqEnd < U64_MAX && forall x: nat :: Has(staged, x) ==> x in disk
    ensures Booked(s.WithClaimWall(wall), {}, disk) && s.live == []
    ensures forall x: nat :: Has(s.unclaimed, x) <==> s.reqStart <= x <= s.reqEnd && !Has(staged, x)
  {
    NewLaw(s, s.strategy, s.volumes, s.maxThreads, s.maxPerVolume, s.splitCap, staged);
    SettingsKeep(s, s.WithClaimWall(wall));
  }

  lemma BookedSettings(s: Sched, t: Sched, busy: set<nat>, disk: set<nat>)
    requires Booked(s, busy, disk) && t.WellFormed() && t.live == s.live && t.unclaimed == s.unclaimed
    requires t.volumes == s.volumes && t.reqStart == s.reqStart && t.reqEnd == s.reqEnd && t.splitCap == s.splitCap
    requires s.reqStart <= t.readHead && (s.reqStart <= s.reqEnd + 1 ==> t.readHead <= s.reqEnd + 1)
    ensures Booked(t, busy, disk)
  {
    SettingsKeep(s, t);
    forall x: nat | t.reqStart <= x <= t.reqEnd ensures Holders(t, disk, x) >= 1 { assert Holders(s, disk, x) >= 1; }
  }

  lemma FreeAbsent(s: Sched, busy: set<nat>, w: nat)
    requires OneEach(s.live, busy) && w !in busy
    ensures Absent(s, w)
  {
    if i :| 0 <= i < |s.live| && s.live[i].worker == w { assert Present(s.live, w); }
  }

  lemma BookedClaim(s: Sched, busy: set<nat>, disk: set<nat>, w: nat, rates: Rates)
    requires Booked(s, busy, disk) && w !in busy && s.WellFormed()
    ensures var (t, l) := s.Claim(w, rates); Booked(t, if l.Some? then busy + {w} else busy, disk)
    ensures s.workLimit.None? && s.Claim(w, rates).1.None? ==> s.Claim(w, rates).0.unclaimed == []
  {
    FreeAbsent(s, busy, w);
    AskTracks(s, w, rates);
    var (t, l) := s.Claim(w, rates);
    ClaimFrame(s, w, rates, Bound(s.live, w));
    forall x: nat | t.reqStart <= x <= t.reqEnd ensures Holders(t, disk, x) >= 1 {
      ClaimConserves(s, w, rates, disk, x);
      assert Holders(s, disk, x) >= 1;
    }
    ClaimedEach(s.live, t.live, busy, w);
    if l.None? && s.workLimit.None? { ClaimComplete(s, w, rates); }
  }

  /** Some number above every worker in the list, and above `w`. */
  ghost function Bound(live: seq<Live>, w: nat): (n: nat)
    ensures w < n && OfPool(live, n)
  {
    if live == [] then w + 1
    else
      var m := Bound(live[1..], w);
      assert forall i :: 0 < i < |live| ==> live[i] == live[1..][i - 1];
      Max(m, live[0].worker + 1)
  }

  lemma ClaimedEach(s: seq<Live>, t: seq<Live>, busy: set<nat>, w: nat)
    requires OneEach(s, busy) && Settled(s) && |s| <= |t| <= |s| + 1 && forall i :: 0 <= i < |s| ==> SameClaim(s[i], t[i])
    requires |t| > |s| ==> t[|s|].worker == w && t[|s|].reserved == t[|s|].cursor
    ensures Settled(t) && OneEach(t, if |t| > |s| then busy + {w} else busy)
  {
    forall v: nat ensures v in (if |t| > |s| then busy + {w} else busy) <==> Present(t, v) {
      if Present(s, v) {
        var i :| 0 <= i < |s| && s[i].worker == v;
        assert t[i].worker == v;
      }
      if Present(t, v) {
        var i :| 0 <= i < |t| && t[i].worker == v;
        if i < |s| { assert s[i].worker == v; }
      }
      if v == w && |t| > |s| { assert t[|s|].worker == v; }
    }
  }

  lemma MovedInv(s: Sched, i: nat, m: Live)
    requires Inv(s) && i < |s.live| && GoodClaim(s, m) && m.worker == s.live[i].worker
    ensures Inv(s.(live := s.live[i := m]))
  {
    var t := s.(live := s.live[i := m]);
    forall k | 0 <= k < |t.live| ensures GoodClaim(t, t.live[k]) { assert GoodClaim(s, if k == i then m else s.live[k]); }
  }

  lemma MovedEach(live: seq<Live>, busy: set<nat>, i: nat, m: Live)
    requires OneEach(live, busy) && i < |live| && m.worker == live[i].worker
    ensures OneEach(live[i := m], busy)
  {
    var t := live[i := m];
    forall v: nat ensures v in busy <==> Present(t, v) {
      if Present(live, v) { var k :| 0 <= k < |live| && live[k].worker == v; assert t[k].worker == v; }
      if Present(t, v) { var k :| 0 <= k < |t| && t[k].worker == v; assert live[k].worker == v; }
    }
  }

  /** A byte that stops being the claim's is on disk by then. */
  lemma MovedByte(s: Sched, disk: set<nat>, i: nat, n: nat, x: nat)
    requires i < |s.live| && s.live[i].reserved == s.live[i].cursor && s.live[i].cursor + n <= s.live[i].end + 1
    requires Holders(s, disk, x) >= 1
    ensures var l := s.live[i];
            Holders(s.(live := s.live[i := l.AdvanceTo(l.cursor + n)]), disk + Interval(l.cursor, l.cursor + n), x) >= 1
  {
    OwnersUpdate(s.live, i, s.live[i].AdvanceTo(s.live[i].cursor + n), x);
  }

  /** What is booked stays booked when an item lands. */
  lemma BookedLand(s: Sched, busy: set<nat>, disk: set<nat>, i: nat, n: nat)
    requires Booked(s, busy, disk) && i < |s.live| && s.live[i].cursor + n <= s.live[i].end + 1
    ensures var l := s.live[i];
            l.cursor + n <= s.reqEnd + 1 &&
            Booked(s.(live := s.live[i := l.AdvanceTo(l.cursor + n)]), busy, disk + Interval(l.cursor, l.cursor + n))
  {
    var l := s.live[i];
    assert GoodClaim(s, l) && l.reserved == l.cursor;
    var m := l.AdvanceTo(l.cursor + n);
    MarksMove(s, l, l.cursor + n, l.cursor + n);
    MovedInv(s, i, m);
    MovedEach(s.live, busy, i, m);
    var t, after := s.(live := s.live[i := m]), disk + Interval(l.cursor, l.cursor + n);
    forall x: nat | t.reqStart <= x <= t.reqEnd ensures Holders(t, after, x) >= 1 {
      assert Holders(s, disk, x) >= 1;
      MovedByte(s, disk, i, n, x);
    }
  }

  /** Reporting in abandons nothing that is not on disk. */
  ghost predicate NothingAbandoned(s: Sched, i: nat, disk: set<nat>)
    requires i < |s.live|
  {
    var rest := s.Without(i);
    var k := RaceLoser(rest, s.live[i]);
    s.live[i].cursor > s.live[i].end && k < |rest.live| ==> forall x: nat :: Abandoned(rest.live[k], x) ==> x in disk
  }

  lemma DescendsSettled(s: seq<Live>, t: seq<Live>)
    requires Settled(s) && Descends(s, t)
    ensures Settled(t)
  {
    forall j | 0 <= j < |t| ensures t[j].reserved == t[j].cursor {
      assert Among(s, t[j]);
      var i :| 0 <= i < |s| && SameClaim(s[i], t[j]);
    }
  }

  lemma DescendsPresent(s: seq<Live>, t: seq<Live>, w: nat)
    requires Descends(s, t) && Present(t, w)
    ensures Present(s, w)
  {
    var j :| 0 <= j < |t| && t[j].worker == w;
    assert Among(s, t[j]);
    var i :| 0 <= i < |s| && SameClaim(s[i], t[j]);
    assert s[i].worker == w;
  }

  lemma BookedFinish(s: Sched, busy: set<nat>, disk: set<nat>, i: nat)
    requires Booked(s, busy, disk) && i < |s.live| && NothingAbandoned(s, i, disk)
    ensures Booked(s.Finish(s.live[i].worker, s.live[i].cursor), busy - {s.live[i].worker}, disk)
  {
    var l := s.live[i];
    var t := s.Finish(l.worker, l.cursor);
    assert l.reserved == l.cursor;
    FinishByte(s, i, disk, 0);
    forall x: nat | t.reqStart <= x <= t.reqEnd ensures Holders(t, disk, x) >= 1 {
      assert Holders(s, disk, x) >= 1;
      FinishByte(s, i, disk, x);
    }
    FinishTracks(s, i);
    DescendsSettled(s.live, t.live);
    forall v: nat ensures v in busy - {l.worker} <==> Present(t.live, v) {
      if Present(t.live, v) { DescendsPresent(s.live, t.live, v); }
    }
  }

  lemma PrunedEach(s: seq<Live>, t: seq<Live>, gone: seq<nat>, busy: set<nat>)
    requires OneEach(s, busy) && Settled(s) && Prunes(s, t, gone)
    ensures Settled(t) && OneEach(t, busy - Those(gone))
  {
    DescendsSettled(s, t);
    forall v: nat ensures v in busy - Those(gone) <==> Present(t, v) {
      if Present(t, v) { DescendsPresent(s, t, v); }
      if v in busy && v !in gone { var i :| 0 <= i < |s| && s[i].worker == v; }
    }
  }

  lemma BookedRefocus(s: Sched, busy: set<nat>, disk: set<nat>, window: nat)
    requires Booked(s, busy, disk) && s.WellFormed()
    ensures var (t, gone) := s.Refocus(window); Booked(t, busy - Those(gone), disk)
  {
    var (t, gone) := s.Refocus(window);
    if s.strategy.Latency? {
      var hi, grace := Sat(s.readHead + Max(window, 1)), Max(s.strategy.headClaim, MIN_CLAIM);
      RefocusShape(s, 0, s.readHead, hi, grace);
      forall x: nat | t.reqStart <= x <= t.reqEnd ensures Holders(t, disk, x) >= 1 {
        assert Holders(s, disk, x) >= 1;
        RefocusByte(s, 0, s.readHead, hi, grace, disk, x);
        HeldSpared(s, disk, Leaving(s.readHead, hi, grace), x);
      }
      RefocusPrunes(s, 0, s.readHead, hi, grace);
    } else {
      PruneNothing(s.live);
    }
    PrunedEach(s.live, t.live, gone, busy);
  }

  lemma BookedReclaim(s: Sched, busy: set<nat>, disk: set<nat>, idle: set<nat>)
    requires Booked(s, busy, disk)
    ensures var (t, gone) := s.ReclaimStalled(idle); Booked(t, busy - Those(gone), disk)
  {
    var (t, gone) := s.ReclaimStalled(idle);
    ReclaimShape(s, 0, idle);
    forall x: nat | t.reqStart <= x <= t.reqEnd ensures Holders(t, disk, x) >= 1 {
      assert Holders(s, disk, x) >= 1;
      ReclaimByte(s, 0, idle, disk, x);
      HeldSpared(s, disk, Silent(idle), x);
    }
    ReclaimPrunes(s, 0, idle);
    PrunedEach(s.live, t.live, gone, busy);
  }

  // ---- who may still deliver what ----

  lemma DescendsDelivered(s: seq<Live>, t: seq<Live>, disk: set<nat>)
    requires Delivered(s, disk) && Descends(s, t)
    ensures Delivered(t, disk)
  {
    forall j, x: nat | 0 <= j < |t| && t[j].start <= x < t[j].cursor ensures x in disk {
      assert Among(s, t[j]);
      var i :| 0 <= i < |s| && SameClaim(s[i], t[j]);
    }
  }

  lemma RacedSame(s: Sched, t: Sched, disk: set<nat>)
    requires Raced(s, disk) && t.live == s.live && t.unclaimed == s.unclaimed
    ensures Raced(t, disk)
  {
    SameLists(s, t);
    forall x: nat ensures Outstanding(t, x) <= 1 { assert Outstanding(s, x) <= 1; }
  }

  lemma RacedClaim(s: Sched, w: nat, rates: Rates, disk: set<nat>)
    requires Inv(s) && Absent(s, w) && Raced(s, disk)
    ensures Raced(s.Claim(w, rates).0, disk)
  {
    var t := s.Claim(w, rates).0;
    ClaimRaces(s, w, rates);
    AskTracks(s, w, rates);
    forall x: nat ensures Outstanding(t, x) <= 1 {
      ClaimConserves(s, w, rates, {}, x);
      assert Outstanding(s, x) <= 1;
    }
    forall j, x: nat | 0 <= j < |t.live| && t.live[j].start <= x < t.live[j].cursor ensures x in disk {
      if j < |s.live| { assert SameClaim(s.live[j], t.live[j]); }
    }
  }

  lemma RacedLand(s: Sched, i: nat, n: nat, disk: set<nat>)
    requires Raced(s, disk) && i < |s.live| && s.live[i].reserved == s.live[i].cursor
    requires s.live[i].cursor + n <= s.live[i].end + 1
    ensures var l := s.live[i];
            Raced(s.(live := s.live[i := l.AdvanceTo(l.cursor + n)]), disk + Interval(l.cursor, l.cursor + n))
  {
    var l := s.live[i];
    var m := l.AdvanceTo(l.cursor + n);
    var t := s.(live := s.live[i := m]);
    ClaimFades(s, i, m);
    forall x: nat ensures Outstanding(t, x) <= 1 {
      OwnersUpdate(s.live, i, m, x);
      assert Outstanding(s, x) <= 1;
    }
  }

  lemma RacedFinish(s: Sched, i: nat, disk: set<nat>)
    requires Inv(s) && Raced(s, disk) && i < |s.live| && s.live[i].reserved == s.live[i].cursor
    ensures Raced(s.Finish(s.live[i].worker, s.live[i].cursor), disk)
  {
    var t := s.Finish(s.live[i].worker, s.live[i].cursor);
    FinishRaces(s, i);
    FinishTracks(s, i);
    DescendsDelivered(s.live, t.live, disk);
    forall x: nat ensures Outstanding(t, x) <= 1 {
      FinishByte(s, i, {}, x);
      assert Outstanding(s, x) <= 1;
    }
  }

  lemma RacedRefocus(s: Sched, window: nat, disk: set<nat>)
    requires Inv(s) && Raced(s, disk)
    ensures Raced(s.Refocus(window).0, disk)
  {
    var t := s.Refocus(window).0;
    if s.strategy.Latency? {
      var hi, grace := Sat(s.readHead + Max(window, 1)), Max(s.strategy.headClaim, MIN_CLAIM);
      RefocusRaces(s, 0, s.readHead, hi, grace);
      RefocusPrunes(s, 0, s.readHead, hi, grace);
      DescendsDelivered(s.live, t.live, disk);
      forall x: nat ensures Outstanding(t, x) <= 1 {
        SeekByte(s, window, {}, x);
        assert Outstanding(s, x) <= 1;
      }
    }
  }

  lemma RacedReclaim(s: Sched, idle: set<nat>, disk: set<nat>)
    requires Inv(s) && Raced(s, disk)
    ensures Raced(s.ReclaimStalled(idle).0, disk)
  {
    var t := s.ReclaimStalled(idle).0;
    ReclaimRaces(s, 0, idle);
    ReclaimPrunes(s, 0, idle);
    DescendsDelivered(s.live, t.live, disk);
    forall x: nat ensures Outstanding(t, x) <= 1 {
      ReclaimByte(s, 0, idle, {}, x);
      assert Outstanding(s, x) <= 1;
    }
  }

  // ---- both together ----

  lemma KeptNew(s: Sched, disk: set<nat>, staged: seq<Span>, wall: Option<nat>)
    requires s == New(s.reqStart, s.reqEnd, s.strategy, s.volumes, s.maxThreads, s.maxPerVolume, s.splitCap, staged)
    requires Layout(s) && s.reqEnd < U64_MAX && forall x: nat :: Has(staged, x) ==> x in disk
    ensures Kept(s.WithClaimWall(wall), {}, disk) && s.live == []
    ensures forall x: nat :: Has(s.unclaimed, x) <==> s.reqStart <= x <= s.reqEnd && !Has(staged, x)
  {
    BookedNew(s, disk, staged, wall);
    FreshRaces(s.WithClaimWall(wall));
  }

  lemma KeptSettings(s: Sched, t: Sched, busy: set<nat>, disk: set<nat>)
    requires Kept(s, busy, disk) && t.WellFormed() && t.live == s.live && t.unclaimed == s.unclaimed
    requires t.volumes == s.volumes && t.reqStart == s.reqStart && t.reqEnd == s.reqEnd && t.splitCap == s.splitCap
    requires s.reqStart <= t.readHead && (s.reqStart <= s.reqEnd + 1 ==> t.readHead <= s.reqEnd + 1)
    ensures Kept(t, busy, disk)
  {
    BookedSettings(s, t, busy, disk);
    RacedSame(s, t, disk);
  }

  /** A turn at the scheduler keeps the plan in order, and `None` without a limit means nothing waits. */
  lemma KeptClaim(s: Sched, busy: set<nat>, disk: set<nat>, w: nat, rates: Rates)
    requires Kept(s, busy, disk) && w !in busy && s.WellFormed()
    ensures var (t, l) := s.Claim(w, rates); Kept(t, if l.Some? then busy + {w} else busy, disk)
    ensures s.workLimit.None? && s.Claim(w, rates).1.None? ==> s.Claim(w, rates).0.unclaimed == []
  {
    FreeAbsent(s, busy, w);
    BookedClaim(s, busy, disk, w, rates);
    RacedClaim(s, w, rates, disk);
  }

  /** One item lands: the claim's marks and the disk move together. */
  lemma KeptLand(s: Sched, busy: set<nat>, disk: set<nat>, i: nat, n: nat)
    requires Kept(s, busy, disk) && i < |s.live| && s.live[i].cursor + n <= s.live[i].end + 1
    ensures var l := s.live[i];
            l.cursor + n <= s.reqEnd + 1 &&
            Kept(s.(live := s.live[i := l.AdvanceTo(l.cursor + n)]), busy, disk + Interval(l.cursor, l.cursor + n))
  {
    BookedLand(s, busy, disk, i, n);
    RacedLand(s, i, n, disk);
  }

  /** A hedge that reports in reaches the end of what its primary still owes. */
  predicate CleanFinish(s: Sched, i: nat)
    requires i < |s.live|
  {
    var rest := s.Without(i);
    var k := RaceLoser(rest, s.live[i]);
    s.live[i].cursor > s.live[i].end && k < |rest.live| ==>
      s.live[i].end >= rest.live[k].end || rest.live[k].cursor > rest.live[k].end
  }

  lemma CleanAbandons(s: Sched, busy: set<nat>, disk: set<nat>, i: nat)
    requires Kept(s, busy, disk) && i < |s.live| && CleanFinish(s, i)
    ensures NothingAbandoned(s, i, disk)
  {
    var l, rest := s.live[i], s.Without(i);
    var k := RaceLoser(rest, l);
    if l.cursor > l.end && k < |rest.live| {
      var j := if k < i then k else k + 1;
      assert rest.live[k] == s.live[j] && Hedges(l, s.live[j]) && HedgeBehind(s, l);
      assert s.live[j].reserved == s.live[j].cursor && GoodClaim(s, s.live[j]);
    }
  }

  /** So does a report, unless a hedge stopped short of what its primary still owes. */
  lemma KeptFinish(s: Sched, busy: set<nat>, disk: set<nat>, i: nat)
    requires Kept(s, busy, disk) && i < |s.live| && CleanFinish(s, i)
    ensures Kept(s.Finish(s.live[i].worker, s.live[i].cursor), busy - {s.live[i].worker}, disk)
  {
    CleanAbandons(s, busy, disk, i);
    BookedFinish(s, busy, disk, i);
    RacedFinish(s, i, disk);
  }

  lemma KeptRefocus(s: Sched, busy: set<nat>, disk: set<nat>, window: nat)
    requires Kept(s, busy, disk) && s.WellFormed()
    ensures var (t, gone) := s.Refocus(window); Kept(t, busy - Those(gone), disk)
  {
    BookedRefocus(s, busy, disk, window);
    RacedRefocus(s, window, disk);
  }

  lemma KeptReclaim(s: Sched, busy: set<nat>, disk: set<nat>, idle: set<nat>)
    requires Kept(s, busy, disk)
    ensures var (t, gone) := s.ReclaimStalled(idle); Kept(t, busy - Those(gone), disk)
  {
    BookedReclaim(s, busy, disk, idle);
    RacedReclaim(s, idle, disk);
  }

  /** When nobody works and nothing waits, everything is on disk. */
  lemma AllOnDisk(s: Sched, disk: set<nat>)
    requires Kept(s, {}, disk) && s.unclaimed == []
    ensures forall x: nat :: s.reqStart <= x <= s.reqEnd ==> x in disk
  {
    if s.live != [] { assert Present(s.live, s.live[0].worker); }
    forall x: nat | s.reqStart <= x <= s.reqEnd ensures x in disk { assert Holders(s, disk, x) >= 1; }
  }
}
