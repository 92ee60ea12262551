/** What is still to be delivered, and who may deliver it: a byte waits or is owed
    by one primary, over every run; so a claim's start is handed out once, and a
    hedge never starts behind the claim it duplicates. */
module RunRaces {
  import opened Spans
  import opened Sched
  import opened SchedLaws
  import opened Conservation
  import opened RunModel
  import opened RunSafety

  // ---- counting what is owed ----

  /** The claim has yet to deliver `x`, and nobody cut it off. */
  predicate Owes(l: Live, x: nat) { l.Primary() && l.cursor <= x <= l.end }

  ghost function Debtors(live: seq<Live>, x: nat): nat {
    if live == [] then 0 else B(Owes(live[0], x)) + Debtors(live[1..], x)
  }

  /** How often `x` waits or is owed. */
  ghost function Owed(s: Sched, x: nat): nat { B(Has(s.unclaimed, x)) + Debtors(s.live, x) }

  lemma {:induction false} DebtorsConcat(a: seq<Live>, b: seq<Live>, x: nat)
    ensures Debtors(a + b, x) == Debtors(a, x) + Debtors(b, x)
  {
    if a == [] {
      assert a + b == b;
    } else {
      assert (a + b)[1..] == a[1..] + b;
      DebtorsConcat(a[1..], b, x);
    }
  }

  lemma DebtorsAppend(live: seq<Live>, l: Live, x: nat)
    ensures Debtors(live + [l], x) == Debtors(live, x) + B(Owes(l, x))
  {
    DebtorsConcat(live, [l], x);
    assert [l][1..] == [];
  }

  lemma DebtorsSplit(live: seq<Live>, i: nat, x: nat)
    requires i < |live|
    ensures Debtors(live, x) == Debtors(live[..i] + live[i + 1..], x) + B(Owes(live[i], x))
  {
    assert live == live[..i] + ([live[i]] + live[i + 1..]);
    assert ([live[i]] + live[i + 1..])[1..] == live[i + 1..];
    DebtorsConcat(live[..i], [live[i]] + live[i + 1..], x);
    DebtorsConcat(live[..i], live[i + 1..], x);
  }

  lemma DebtorsUpdate(live: seq<Live>, i: nat, l: Live, x: nat)
    requires i < |live|
    ensures Debtors(live[i := l], x) + B(Owes(live[i], x)) == Debtors(live, x) + B(Owes(l, x))
  {
    var after := live[i := l];
    DebtorsSplit(live, i, x);
    DebtorsSplit(after, i, x);
    assert after[..i] + after[i + 1..] == live[..i] + live[i + 1..];
  }

  lemma OneDebt(live: seq<Live>, i: nat, x: nat)
    requires i < |live| && Owes(live[i], x)
    ensures Debtors(live, x) >= 1
  {
    DebtorsSplit(live, i, x);
  }

  lemma TwoDebts(live: seq<Live>, i: nat, j: nat, x: nat)
    requires i < j < |live| && Owes(live[i], x) && Owes(live[j], x)
    ensures Debtors(live, x) >= 2
  {
    DebtorsSplit(live, i, x);
    var rest := live[..i] + live[i + 1..];
    assert rest[j - 1] == live[j];
    OneDebt(rest, j - 1, x);
  }

  // ---- the invariant ----

  /** The claim still has its first byte to deliver. */
  predicate AtStart(l: Live) { l.Primary() && l.cursor == l.start <= l.end }

  ghost predicate OwedOnce(s: Sched) { forall x: nat :: Owed(s, x) <= 1 }

  ghost predicate Spent(s: Sched, l: Live) { l.Primary() ==> AtStart(l) || Owed(s, l.start) == 0 }

  ghost predicate StartsSpent(s: Sched) { forall i :: 0 <= i < |s.live| ==> Spent(s, s.live[i]) }

  predicate SameStart(a: Live, b: Live) { a.Primary() && b.Primary() && a.start == b.start }

  ghost predicate DistinctStarts(live: seq<Live>) {
    forall i, j :: 0 <= i < j < |live| ==> !SameStart(live[i], live[j])
  }

  predicate Hedges(h: Live, p: Live) { p.Primary() && h.hedgeOf == Some(p.start) }

  /** A hedge starts no later than its target's cursor, and where it starts past
      the target's start, nobody can be handed that start any more. */
  ghost predicate HedgeBehind(s: Sched, h: Live) {
    h.hedgeOf.Some? ==>
      && (h.start == h.hedgeOf.value || Owed(s, h.hedgeOf.value) == 0)
      && forall j :: 0 <= j < |s.live| && Hedges(h, s.live[j]) ==> h.start <= s.live[j].cursor
  }

  ghost predicate HedgesBehind(s: Sched) { forall i :: 0 <= i < |s.live| ==> HedgeBehind(s, s.live[i]) }

  ghost predicate RaceInv(s: Sched) {
    OwedOnce(s) && StartsSpent(s) && DistinctStarts(s.live) && HedgesBehind(s)
  }

  // ---- steps that hand nothing out ----

  /** The same claim, further on or cut back. */
  predicate Faded(a: Live, b: Live) {
    && b == a.(end := b.end, cursor := b.cursor, reserved := b.reserved, lastCursor := b.lastCursor)
    && a.cursor <= b.cursor && b.end <= a.end
  }

  /** Where claim `k` stood before claim `gone` left the list. */
  function Src(k: nat, gone: nat): nat { if k < gone then k else k + 1 }

  /** Claim `k` of `t` descends from its source, and if it no longer has its start
      to deliver, nobody has. */
  ghost predicate Follows(s: Sched, t: Sched, gone: nat, k: nat) {
    && k < |t.live| && Src(k, gone) < |s.live| && Faded(s.live[Src(k, gone)], t.live[k])
    && (AtStart(s.live[Src(k, gone)]) && !AtStart(t.live[k]) ==> Owed(t, t.live[k].start) == 0)
  }

  /** At most claim `gone` leaves; the others only fade, and nothing more is owed. */
  ghost predicate Shrinks(s: Sched, t: Sched, gone: nat) {
    && (forall k: nat :: k < |t.live| ==> Follows(s, t, gone, k))
    && forall x: nat :: Owed(t, x) <= Owed(s, x)
  }

  lemma SpentFades(s: Sched, t: Sched, gone: nat, k: nat)
    requires RaceInv(s) && Shrinks(s, t, gone) && k < |t.live|
    ensures Spent(t, t.live[k])
  {
    assert Follows(s, t, gone, k) && Spent(s, s.live[Src(k, gone)]);
    assert Owed(t, t.live[k].start) <= Owed(s, t.live[k].start);
  }

  lemma HedgeFades(s: Sched, t: Sched, gone: nat, k: nat)
    requires RaceInv(s) && Shrinks(s, t, gone) && k < |t.live|
    ensures HedgeBehind(t, t.live[k])
  {
    var h := t.live[k];
    assert Follows(s, t, gone, k) && HedgeBehind(s, s.live[Src(k, gone)]);
    if h.hedgeOf.Some? {
      assert Owed(t, h.hedgeOf.value) <= Owed(s, h.hedgeOf.value);
      forall j | 0 <= j < |t.live| && Hedges(h, t.live[j]) ensures h.start <= t.live[j].cursor {
        assert Follows(s, t, gone, j) && Hedges(s.live[Src(k, gone)], s.live[Src(j, gone)]);
      }
    }
  }

  lemma RaceShrinks(s: Sched, t: Sched, gone: nat)
    requires RaceInv(s) && Shrinks(s, t, gone)
    ensures RaceInv(t)
  {
    forall x: nat ensures Owed(t, x) <= 1 { assert Owed(t, x) <= Owed(s, x) <= 1; }
    forall i | 0 <= i < |t.live| ensures Spent(t, t.live[i]) && HedgeBehind(t, t.live[i]) {
      SpentFades(s, t, gone, i);
      HedgeFades(s, t, gone, i);
    }
    forall i, j | 0 <= i < j < |t.live| ensures !SameStart(t.live[i], t.live[j]) {
      assert Follows(s, t, gone, i) && Follows(s, t, gone, j);
      assert !SameStart(s.live[Src(i, gone)], s.live[Src(j, gone)]);
    }
  }

  /** Only claim `p` changes. */
  lemma OneFades(s: Sched, t: Sched, p: nat)
    requires RaceInv(s) && p < |s.live| == |t.live| && t.live == s.live[p := t.live[p]] && Faded(s.live[p], t.live[p])
    requires forall x: nat :: Owed(t, x) <= Owed(s, x)
    requires AtStart(s.live[p]) && !AtStart(t.live[p]) ==> Owed(t, t.live[p].start) == 0
    ensures RaceInv(t)
  {
    forall k: nat | k < |t.live| ensures Follows(s, t, |s.live|, k) {}
    RaceShrinks(s, t, |s.live|);
  }

  /** A claim that only fades on its own owes less, and nobody takes over. */
  lemma ClaimFades(s: Sched, p: nat, l: Live)
    requires RaceInv(s) && p < |s.live| && Faded(s.live[p], l)
    ensures RaceInv(s.(live := s.live[p := l]))
    ensures forall x: nat :: Owed(s.(live := s.live[p := l]), x) <= Owed(s, x)
  {
    var t := s.(live := s.live[p := l]);
    forall x: nat ensures Owed(t, x) <= Owed(s, x) { DebtorsUpdate(s.live, p, l, x); }
    if AtStart(s.live[p]) && !AtStart(l) {
      DebtorsUpdate(s.live, p, l, l.start);
      assert Owed(s, l.start) <= 1;
    }
    OneFades(s, t, p);
  }

  lemma SameLists(s: Sched, t: Sched)
    requires RaceInv(s) && t.live == s.live && t.unclaimed == s.unclaimed
    ensures RaceInv(t) && forall x: nat :: Owed(t, x) == Owed(s, x)
  {
    forall x: nat ensures Owed(t, x) == Owed(s, x) {}
    forall k: nat | k < |t.live| ensures Follows(s, t, |s.live|, k) {}
    RaceShrinks(s, t, |s.live|);
  }

  // ---- steps that hand something out ----

  /** `t` has one claim more; the others kept their starts to deliver. */
  ghost predicate Grew(s: Sched, t: Sched, l: Live) {
    && |t.live| == |s.live| + 1 && t.live[|s.live|] == l
    && (forall k :: 0 <= k < |s.live| ==> Faded(s.live[k], t.live[k]) && (AtStart(s.live[k]) ==> AtStart(t.live[k])))
    && forall x: nat :: Owed(t, x) <= Owed(s, x)
  }

  /** A start that is waiting, or owed past somebody's cursor, is no live primary's. */
  ghost predicate FreeStart(s: Sched, start: nat) {
    Owed(s, start) == 1 && forall k :: 0 <= k < |s.live| && AtStart(s.live[k]) ==> s.live[k].start != start
  }

  lemma NobodysStart(s: Sched, l: Live, k: nat)
    requires RaceInv(s) && FreeStart(s, l.start) && k < |s.live| && l.Primary()
    ensures !SameStart(s.live[k], l)
  {
    assert Spent(s, s.live[k]);
  }

  lemma NobodysTarget(s: Sched, t: Sched, l: Live, k: nat)
    requires RaceInv(s) && FreeStart(s, l.start) && k < |s.live| && Grew(s, t, l) && l.cursor == l.start
    ensures HedgeBehind(t, t.live[k])
  {
    var h := t.live[k];
    assert Faded(s.live[k], h) && HedgeBehind(s, s.live[k]);
    if h.hedgeOf.Some? {
      assert Owed(t, h.hedgeOf.value) <= Owed(s, h.hedgeOf.value);
      forall j | 0 <= j < |t.live| && Hedges(h, t.live[j]) ensures h.start <= t.live[j].cursor {
        if j < |s.live| { assert Faded(s.live[j], t.live[j]) && Hedges(s.live[k], s.live[j]); }
      }
    }
  }

  lemma PrimaryGrows(s: Sched, t: Sched, l: Live)
    requires RaceInv(s) && Grew(s, t, l) && l.Primary() && AtStart(l) && FreeStart(s, l.start)
    ensures RaceInv(t)
  {
    var n := |s.live|;
    forall x: nat ensures Owed(t, x) <= 1 { assert Owed(t, x) <= Owed(s, x) <= 1; }
    forall i | 0 <= i < |t.live| ensures Spent(t, t.live[i]) && HedgeBehind(t, t.live[i]) {
      if i < n {
        assert Faded(s.live[i], t.live[i]) && Spent(s, s.live[i]);
        assert Owed(t, t.live[i].start) <= Owed(s, t.live[i].start);
        NobodysTarget(s, t, l, i);
      }
    }
    forall i, j | 0 <= i < j < |t.live| ensures !SameStart(t.live[i], t.live[j]) {
      assert Faded(s.live[i], t.live[i]);
      if j < n {
        assert Faded(s.live[j], t.live[j]) && !SameStart(s.live[i], s.live[j]);
      } else {
        NobodysStart(s, l, i);
      }
    }
  }

  lemma OnlyOneThere(live: seq<Live>, i: nat, j: nat)
    requires DistinctStarts(live) && i < |live| && j < |live| && SameStart(live[i], live[j])
    ensures i == j
  {
  }

  lemma HedgeGrows(s: Sched, t: Sched, l: Live, pos: nat)
    requires RaceInv(s) && t.live == s.live + [l] && t.unclaimed == s.unclaimed
    requires pos < |s.live| && s.live[pos].Primary() && l.hedgeOf == Some(s.live[pos].start) && l.start == s.live[pos].cursor
    requires s.live[pos].start <= s.live[pos].cursor <= s.live[pos].end
    ensures RaceInv(t)
  {
    forall x: nat ensures Owed(t, x) == Owed(s, x) { DebtorsAppend(s.live, l, x); }
    forall i | 0 <= i < |t.live| ensures Spent(t, t.live[i]) && HedgeBehind(t, t.live[i]) {
      if i < |s.live| {
        assert Spent(s, s.live[i]) && HedgeBehind(s, s.live[i]);
        forall j | 0 <= j < |t.live| && Hedges(t.live[i], t.live[j]) ensures t.live[i].start <= t.live[j].cursor {
          assert Hedges(s.live[i], s.live[j]);
        }
      } else {
        assert Spent(s, s.live[pos]);
        forall j | 0 <= j < |t.live| && Hedges(l, t.live[j]) ensures l.start <= t.live[j].cursor {
          OnlyOneThere(s.live, j, pos);
        }
      }
    }
    forall i, j | 0 <= i < j < |t.live| ensures !SameStart(t.live[i], t.live[j]) {
      if j < |s.live| { assert !SameStart(s.live[i], s.live[j]); }
    }
  }

  // ---- the scheduler's operations ----

  lemma CutOwed(s: Sched, t: Sched, pos: nat, x: nat)
    requires IsCut(s, t, pos)
    ensures Owed(t, x) + B(Owes(s.live[pos], x)) == Owed(s, x) + B(Owes(t.live[pos], x))
  {
    assert t.live == s.live[pos := t.live[pos]];
    DebtorsUpdate(s.live, pos, t.live[pos], x);
  }

  lemma FutileRaces(s: Sched, t: Sched, pos: nat)
    requires RaceInv(s) && IsFutileCut(s, t, pos)
    ensures RaceInv(t) && forall x: nat :: Owed(t, x) <= Owed(s, x)
  {
    assert t.live == s.live[pos := t.live[pos]];
    forall x: nat ensures Owed(t, x) <= Owed(s, x) { CutOwed(s, t, pos, x); }
    OneFades(s, t, pos);
  }

  lemma TakeRaces(s: Sched, t: Sched, worker: nat, l: Live)
    requires RaceInv(s) && IsTake(s, t, worker, l)
    ensures RaceInv(t) && forall x: nat :: Owed(t, x) <= Owed(s, x)
  {
    forall x: nat ensures Owed(t, x) <= Owed(s, x) { DebtorsAppend(s.live, l, x); }
    assert Has(s.unclaimed, l.start) && Owed(s, l.start) <= 1;
    forall k | 0 <= k < |s.live| && AtStart(s.live[k]) ensures s.live[k].start != l.start {
      if s.live[k].start == l.start { OneDebt(s.live, k, l.start); }
    }
    PrimaryGrows(s, t, l);
  }

  lemma StealOwed(s: Sched, t: Sched, worker: nat, l: Live, pos: nat, x: nat)
    requires IsSteal(s, t, worker, l, pos)
    ensures Owed(t, x) <= Owed(s, x)
  {
    var cut := t.(live := t.live[..|s.live|]);
    CutOwed(s, cut, pos, x);
    assert t.live == cut.live + [l] && cut.live[pos] == t.live[pos];
    DebtorsAppend(cut.live, l, x);
  }

  lemma StealRaces(s: Sched, t: Sched, worker: nat, l: Live, pos: nat)
    requires Inv(s) && RaceInv(s) && IsSteal(s, t, worker, l, pos)
    ensures RaceInv(t) && forall x: nat :: Owed(t, x) <= Owed(s, x)
  {
    forall x: nat ensures Owed(t, x) <= Owed(s, x) { StealOwed(s, t, worker, l, pos, x); }
    var cut := t.(live := t.live[..|s.live|]);
    forall k | 0 <= k < |s.live|
      ensures Faded(s.live[k], t.live[k]) && (AtStart(s.live[k]) ==> AtStart(t.live[k]))
    {
      assert cut.live[k] == t.live[k];
    }
    assert GoodClaim(s, s.live[pos]);
    OneDebt(s.live, pos, l.start);
    assert Owed(s, l.start) <= 1;
    forall k | 0 <= k < |s.live| && AtStart(s.live[k]) ensures s.live[k].start != l.start {
      if s.live[k].start == l.start {
        if k < pos { TwoDebts(s.live, k, pos, l.start); } else if k > pos { TwoDebts(s.live, pos, k, l.start); }
      }
    }
    PrimaryGrows(s, t, l);
  }

  lemma HedgeRaces(s: Sched, t: Sched, worker: nat, l: Live, pos: nat)
    requires Inv(s) && RaceInv(s) && IsHedge(s, t, worker, l, pos)
    ensures RaceInv(t) && forall x: nat :: Owed(t, x) <= Owed(s, x)
  {
    assert GoodClaim(s, s.live[pos]);
    forall x: nat ensures Owed(t, x) <= Owed(s, x) { DebtorsAppend(s.live, l, x); }
    HedgeGrows(s, t, l, pos);
  }

  /** Claiming hands out only what waits or is owed, and no start twice. */
  lemma ClaimRaces(s: Sched, worker: nat, rates: Rates)
    requires Inv(s) && Absent(s, worker) && RaceInv(s)
    ensures var t := s.Claim(worker, rates).0; RaceInv(t) && forall x: nat :: Owed(t, x) <= Owed(s, x)
  {
    var m := ClaimLaw(s, worker, rates);
    var (t, l) := s.Claim(worker, rates);
    match m {
      case Nothing =>
      case FutileCut(pos) => FutileRaces(s, t, pos);
      case Took => TakeRaces(s, t, worker, l.value);
      case Stole(pos) => StealRaces(s, t, worker, l.value, pos);
      case Hedged(via, pos) =>
        if via != s {
          var p :| IsFutileCut(s, via, p);
          FutileRaces(s, via, p);
        }
        HedgeRaces(via, t, worker, l.value, pos);
    }
  }

  /** A claim leaves and hands back at most what it owed. */
  lemma LeaveRaces(s: Sched, t: Sched, i: nat, a: nat, b: nat)
    requires Inv(s) && RaceInv(s) && i < |s.live|
    requires t == s.Without(i).(unclaimed := t.unclaimed)
    requires t.unclaimed == s.unclaimed || (t.unclaimed == Insert(s.unclaimed, a, b) && s.live[i].Primary()
                                            && s.live[i].cursor <= a && b <= s.live[i].end)
    ensures RaceInv(t) && forall x: nat :: Owed(t, x) <= Owed(s, x)
  {
    assert GoodClaim(s, s.live[i]);
    if s.live[i].cursor <= a && b <= s.live[i].end { InsertLaw(s.unclaimed, a, b, s.reqStart, s.reqEnd); }
    forall x: nat ensures Owed(t, x) <= Owed(s, x) { DebtorsSplit(s.live, i, x); }
    forall k: nat | k < |t.live| ensures Follows(s, t, i, k) { assert t.live[k] == s.live[Src(k, i)]; }
    RaceShrinks(s, t, i);
  }

  lemma CutFirstRaces(s: Sched, p: Live -> bool)
    requires RaceInv(s)
    ensures RaceInv(s.CutFirst(p)) && forall x: nat :: Owed(s.CutFirst(p), x) <= Owed(s, x)
  {
    var i := FindFrom(s.live, p, 0);
    if i < |s.live| { ClaimFades(s, i, s.live[i].CutShort()); }
  }

  lemma FinishRaces(s: Sched, pos: nat)
    requires Inv(s) && RaceInv(s) && pos < |s.live|
    ensures var t := s.Finish(s.live[pos].worker, s.live[pos].cursor);
            RaceInv(t) && forall x: nat :: Owed(t, x) <= Owed(s, x)
  {
    var l := s.live[pos];
    FindWorker(s.live, pos, 0);
    var rest := s.Without(pos);
    LeaveRaces(s, rest, pos, 1, 0);
    if l.hedgeOf.Some? {
      if l.cursor > l.end { CutFirstRaces(rest, PrimaryAt(l.hedgeOf.value)); }
    } else if l.cursor > l.end {
      CutFirstRaces(rest, HedgeOf(l.start));
    } else {
      LeaveRaces(s, rest.(unclaimed := Insert(s.unclaimed, l.cursor, l.end)), pos, l.cursor, l.end);
    }
  }

  lemma DropRaces(s: Sched, i: nat)
    requires Inv(s) && RaceInv(s) && i < |s.live|
    ensures RaceInv(s.Drop(i)) && forall x: nat :: Owed(s.Drop(i), x) <= Owed(s, x)
  {
    LeaveRaces(s, s.Drop(i), i, s.live[i].cursor, s.live[i].end);
  }

  lemma TrimmedRaces(s: Sched, t: Sched, i: nat, keep: nat)
    requires Inv(s) && RaceInv(s) && i < |s.live| && s.live[i].cursor <= s.live[i].end && s.live[i].cursor <= keep
    requires Trimmed(s, t, i, keep)
    ensures RaceInv(t) && forall x: nat :: Owed(t, x) <= Owed(s, x)
  {
    var l := s.live[i];
    TrimmedShape(s, t, i, keep);
    if l.Primary() && keep < l.end {
      assert GoodClaim(s, l);
      InsertLaw(s.unclaimed, Max(Sat(keep + 1), l.reserved), l.end, s.reqStart, s.reqEnd);
      forall x: nat ensures Owed(t, x) <= Owed(s, x) { DebtorsUpdate(s.live, i, t.live[i], x); }
      OneFades(s, t, i);
    }
  }

  lemma ShortenRaces(s: Sched, i: nat)
    requires Inv(s) && RaceInv(s) && i < |s.live| && s.live[i].cursor <= s.live[i].end
    ensures RaceInv(s.Shorten(i)) && forall x: nat :: Owed(s.Shorten(i), x) <= Owed(s, x)
  {
    var keep := ShortenTrims(s, i);
    TrimmedRaces(s, s.Shorten(i), i, keep);
  }

  lemma {:induction false} RefocusRaces(s: Sched, i: nat, head: nat, hi: nat, grace: nat)
    requires Inv(s) && RaceInv(s) && i <= |s.live|
    ensures var t := s.RefocusFrom(i, head, hi, grace).0; RaceInv(t) && forall x: nat :: Owed(t, x) <= Owed(s, x)
    decreases |s.live| - i
  {
    if i < |s.live| {
      if s.live[i].cursor > s.live[i].end {
        RefocusRaces(s, i + 1, head, hi, grace);
      } else if LetGo(s.live[i], head, hi, grace) {
        DropLaw(s, i, {}, 0);
        DropRaces(s, i);
        RefocusRaces(s.Drop(i), i, head, hi, grace);
      } else {
        ShortenShape(s, i);
        ShortenRaces(s, i);
        RefocusRaces(s.Shorten(i), i + 1, head, hi, grace);
      }
    }
  }

  lemma {:induction false} ReclaimRaces(s: Sched, i: nat, idle: set<nat>)
    requires Inv(s) && RaceInv(s) && i <= |s.live|
    ensures var t := s.ReclaimFrom(i, idle).0; RaceInv(t) && forall x: nat :: Owed(t, x) <= Owed(s, x)
    decreases |s.live| - i
  {
    if i < |s.live| {
      var l := s.live[i];
      if l.cursor > l.lastCursor || l.cursor > l.end {
        TouchLaw(s, i, {}, 0);
        ClaimFades(s, i, l.(lastCursor := l.cursor));
        ReclaimRaces(s.Touch(i), i + 1, idle);
      } else if l.worker !in idle {
        ReclaimRaces(s, i + 1, idle);
      } else {
        DropLaw(s, i, {}, 0);
        DropRaces(s, i);
        ReclaimRaces(s.Drop(i), i, idle);
      }
    }
  }

  /** A plan built from the disk starts clean, whatever it saw. */
  lemma FreshRaces(s: Sched)
    requires s.live == []
    ensures RaceInv(s)
  {
  }

  // ---- every act ----

  lemma WorkerRaces(r: Run, origin: nat -> Byte, w: nat, l: Live)
    requires RunInv(r, origin) && RaceInv(r.s) && HasBusy(r, w) && Faded(r.s.live[Slot(r.s, w)], l)
    ensures RaceInv(WithLive(r, w, l)) && forall x: nat :: Owed(WithLive(r, w, l), x) <= Owed(r.s, x)
  {
    ClaimFades(r.s, Slot(r.s, w), l);
  }

  /** No act but a rebuild makes a byte owed again. */
  ghost predicate Settles(s: Sched, t: Sched) { RaceInv(t) && forall x: nat :: Owed(t, x) <= Owed(s, x) }

  lemma CommitRaces(r: Run, origin: nat -> Byte, w: nat)
    requires RunInv(r, origin) && Enabled(r, Commit(w)) && RaceInv(r.s)
    ensures Settles(r.s, CommitAct(r, w).s)
  {
    SlotFacts(r, origin, w);
    var l := r.s.live[Slot(r.s, w)].Reserve(r.tasks[w].at + r.tasks[w].item);
    WorkerRaces(r, origin, w, l);
    assert CommitAct(r, w).s == WithLive(r, w, l);
  }

  lemma LandRaces(r: Run, origin: nat -> Byte, w: nat, flush: bool)
    requires RunInv(r, origin) && Enabled(r, Land(w, flush)) && RaceInv(r.s)
    ensures Settles(r.s, LandAct(r, origin, w, flush).s)
  {
    SlotFacts(r, origin, w);
    WorkerRaces(r, origin, w, Landed(r.s.live[Slot(r.s, w)], r.tasks[w], flush));
  }

  lemma FlushRaces(r: Run, origin: nat -> Byte, w: nat)
    requires RunInv(r, origin) && Enabled(r, Flush(w)) && RaceInv(r.s)
    ensures Settles(r.s, FlushAct(r, origin, w).s)
  {
    SlotFacts(r, origin, w);
    WorkerRaces(r, origin, w, r.s.live[Slot(r.s, w)].AdvanceTo(r.tasks[w].at));
  }

  lemma StreamRaces(r: Run, origin: nat -> Byte, a: Act)
    requires RunInv(r, origin) && Enabled(r, a) && RaceInv(r.s) && (a.Commit? || a.Land? || a.Flush?)
    ensures Settles(r.s, Apply(r, origin, a).s)
  {
    match a {
      case Commit(w) => CommitRaces(r, origin, w);
      case Land(w, flush) => LandRaces(r, origin, w, flush);
      case Flush(w) => FlushRaces(r, origin, w);
    }
  }

  lemma ListRaces(r: Run, origin: nat -> Byte, a: Act)
    requires RunInv(r, origin) && Enabled(r, a) && RaceInv(r.s) && (a.Ask? || a.Report? || a.Refocus? || a.Sweep?)
    ensures Settles(r.s, Apply(r, origin, a).s)
  {
    match a {
      case Ask(w, rates) =>
        IdleAbsent(r.s, r.tasks, w, r.file.Keys);
        ClaimRaces(r.s, w, rates);
      case Report(w, v) =>
        SlotFacts(r, origin, w);
        FinishRaces(r.s, Slot(r.s, w));
      case Refocus(window) =>
        if r.s.strategy.Latency? {
          RefocusRaces(r.s, 0, r.s.readHead, Sat(r.s.readHead + Max(window, 1)), Max(r.s.strategy.headClaim, MIN_CLAIM));
        }
      case Sweep(idle) => ReclaimRaces(r.s, 0, idle);
    }
  }

  lemma QuietRaces(r: Run, origin: nat -> Byte, a: Act)
    requires Enabled(r, a) && RaceInv(r.s)
    requires a.Quit? || a.See? || a.Note? || a.Emit? || a.Tell? || a.Tune? || a.Attach? || a.Staff?
    ensures Settles(r.s, Apply(r, origin, a).s)
  {
    SameLists(r.s, Apply(r, origin, a).s);
  }

  /** Every act keeps the invariant, and none but a rebuild makes a byte owed again. */
  lemma RaceStep(r: Run, origin: nat -> Byte, a: Act)
    requires RunInv(r, origin) && Enabled(r, a) && RaceInv(r.s)
    ensures RaceInv(Apply(r, origin, a).s)
    ensures !a.Pause? ==> forall x: nat :: Owed(Apply(r, origin, a).s, x) <= Owed(r.s, x)
  {
    if a.Pause? {
      FreshRaces(Apply(r, origin, a).s);
    } else if a.Commit? || a.Land? || a.Flush? {
      StreamRaces(r, origin, a);
    } else if a.Ask? || a.Report? || a.Refocus? || a.Sweep? {
      ListRaces(r, origin, a);
    } else {
      QuietRaces(r, origin, a);
    }
  }
}
