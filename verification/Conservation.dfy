/** Who holds a byte: the disk, the waiting list, or a primary claim. Every
    scheduler operation conserves the holders of every byte, except an abort
    that strands bytes already committed past a cut end, and a hedge that wins a
    race it did not cover. */
module Conservation {
  import opened Spans
  import opened Sched
  import opened SchedLaws

  function B(b: bool): nat { if b then 1 else 0 }

  ghost function Owners(live: seq<Live>, x: nat): nat {
    if live == [] then 0 else B(live[0].Owns(x)) + Owners(live[1..], x)
  }

  /** How many of disk, waiting list and live primaries hold byte `x`. */
  ghost function Holders(s: Sched, disk: set<nat>, x: nat): nat {
    B(x in disk) + B(Has(s.unclaimed, x)) + Owners(s.live, x)
  }

  /** Nothing requested is lost. */
  ghost predicate Cover(s: Sched, disk: set<nat>) {
    forall x: nat :: s.reqStart <= x <= s.reqEnd ==> Holders(s, disk, x) >= 1
  }

  /** How often `x` waits or is a primary's to write, on disk or not. */
  ghost function Outstanding(s: Sched, x: nat): nat { Holders(s, {}, x) }

  /** Every byte waits once, or is one primary's, at most. */
  ghost predicate Undoubled(s: Sched) { forall x: nat :: Outstanding(s, x) <= 1 }

  // ---- counting owners ----

  lemma {:induction false} OwnersConcat(a: seq<Live>, b: seq<Live>, x: nat)
    ensures Owners(a + b, x) == Owners(a, x) + Owners(b, x)
  {
    if a == [] {
      assert a + b == b;
    } else {
      assert (a + b)[1..] == a[1..] + b;
      OwnersConcat(a[1..], b, x);
    }
  }

  lemma OwnersAppend(live: seq<Live>, l: Live, x: nat)
    ensures Owners(live + [l], x) == Owners(live, x) + B(l.Owns(x))
  {
    OwnersConcat(live, [l], x);
    assert [l][1..] == [];
  }

  lemma OwnersSplit(live: seq<Live>, i: nat, x: nat)
    requires i < |live|
    ensures Owners(live, x) == Owners(live[..i] + live[i + 1..], x) + B(live[i].Owns(x))
  {
    assert live == live[..i] + ([live[i]] + live[i + 1..]);
    assert ([live[i]] + live[i + 1..])[1..] == live[i + 1..];
    OwnersConcat(live[..i], [live[i]] + live[i + 1..], x);
    OwnersConcat(live[..i], live[i + 1..], x);
  }

  lemma OwnersUpdate(live: seq<Live>, i: nat, l: Live, x: nat)
    requires i < |live|
    ensures Owners(live[i := l], x) + B(live[i].Owns(x)) == Owners(live, x) + B(l.Owns(x))
  {
    OwnersSplit(live, i, x);
    OwnersSplit(live[i := l], i, x);
    assert live[i := l][..i] + live[i := l][i + 1..] == live[..i] + live[i + 1..];
  }

  lemma {:induction false} OwnersAt(live: seq<Live>, x: nat)
    ensures Owners(live, x) >= 1 <==> exists i :: 0 <= i < |live| && live[i].Owns(x)
  {
    if live != [] {
      OwnersAt(live[1..], x);
      if i :| 0 <= i < |live[1..]| && live[1..][i].Owns(x) { assert live[i + 1].Owns(x); }
      if i :| 0 <= i < |live| && live[i].Owns(x) {
        if i > 0 { assert live[1..][i - 1] == live[i]; }
      }
    }
  }

  // ---- claiming ----

  lemma CutHolders(s: Sched, t: Sched, pos: nat, disk: set<nat>, x: nat)
    requires IsCut(s, t, pos)
    ensures Holders(t, disk, x) + B(s.live[pos].Owns(x)) == Holders(s, disk, x) + B(t.live[pos].Owns(x))
  {
    assert t.live == s.live[pos := t.live[pos]];
    OwnersUpdate(s.live, pos, t.live[pos], x);
  }

  lemma TakeHolders(s: Sched, t: Sched, worker: nat, l: Live, disk: set<nat>, x: nat)
    requires IsTake(s, t, worker, l)
    ensures Holders(t, disk, x) == Holders(s, disk, x)
  {
    OwnersAppend(s.live, l, x);
  }

  lemma StealHolders(s: Sched, t: Sched, worker: nat, l: Live, pos: nat, disk: set<nat>, x: nat)
    requires IsSteal(s, t, worker, l, pos)
    ensures Holders(t, disk, x) == Holders(s, disk, x)
  {
    var cut := t.(live := t.live[..|s.live|]);
    CutHolders(s, cut, pos, disk, x);
    assert t.live == cut.live + [l];
    OwnersAppend(cut.live, l, x);
    assert cut.live[pos] == t.live[pos];
  }

  lemma FutileHolders(s: Sched, t: Sched, pos: nat, disk: set<nat>, x: nat)
    requires IsFutileCut(s, t, pos)
    ensures Holders(t, disk, x) == Holders(s, disk, x)
  {
    CutHolders(s, t, pos, disk, x);
  }

  lemma HedgeHolders(s: Sched, t: Sched, worker: nat, l: Live, pos: nat, disk: set<nat>, x: nat)
    requires IsHedge(s, t, worker, l, pos)
    ensures Holders(t, disk, x) == Holders(s, disk, x)
  {
    OwnersAppend(s.live, l, x);
  }

  /** Taking, stealing and hedging move bytes between holders one for one. */
  lemma ClaimConserves(s: Sched, worker: nat, rates: Rates, disk: set<nat>, x: nat)
    requires Inv(s) && Absent(s, worker)
    ensures Holders(s.Claim(worker, rates).0, disk, x) == Holders(s, disk, x)
  {
    var m := ClaimLaw(s, worker, rates);
    var (t, l) := s.Claim(worker, rates);
    match m {
      case Nothing =>
      case FutileCut(pos) => FutileHolders(s, t, pos, disk, x);
      case Took => TakeHolders(s, t, worker, l.value, disk, x);
      case Stole(pos) => StealHolders(s, t, worker, l.value, pos, disk, x);
      case Hedged(via, pos) =>
        HedgeHolders(via, t, worker, l.value, pos, disk, x);
        if via != s {
          var p :| IsFutileCut(s, via, p);
          FutileHolders(s, via, p, disk, x);
        }
    }
  }

  // ---- dropping and shortening ----

  lemma WithoutLaw(s: Sched, i: nat)
    requires Inv(s) && i < |s.live|
    ensures Inv(s.Without(i)) && Absent(s.Without(i), s.live[i].worker)
    ensures forall k :: 0 <= k < |s.Without(i).live| ==>
              s.Without(i).live[k] == s.live[if k < i then k else k + 1]
  {
    var t := s.Without(i);
    forall k | 0 <= k < |t.live| ensures GoodClaim(t, t.live[k]) {
      assert GoodClaim(s, s.live[if k < i then k else k + 1]);
    }
  }

  /** Committed past a cut end: the part an abort of this claim would strand. */
  ghost predicate Stranded(l: Live, x: nat) { l.Primary() && l.end < x < l.reserved }

  lemma DropLaw(s: Sched, i: nat, disk: set<nat>, x: nat)
    requires Inv(s) && i < |s.live| && s.live[i].cursor <= s.live[i].end
    ensures Inv(s.Drop(i))
    ensures Holders(s.Drop(i), disk, x) <= Holders(s, disk, x)
    ensures !Stranded(s.live[i], x) && Holders(s, disk, x) >= 1 ==> Holders(s.Drop(i), disk, x) >= 1
    ensures Stranded(s.live[i], x) ==> Holders(s.Drop(i), disk, x) + 1 == Holders(s, disk, x)
  {
    var l := s.live[i];
    assert GoodClaim(s, l);
    WithoutLaw(s, i);
    OwnersSplit(s.live, i, x);
    InsertLaw(s.unclaimed, l.cursor, l.end, s.reqStart, s.reqEnd);
    if l.Primary() { GiveBackLaw(s.Without(i), l.cursor, l.end); }
  }

  lemma GiveBackLaw(s: Sched, a: nat, b: nat)
    requires Inv(s) && (a <= b ==> s.reqStart <= a && b <= s.reqEnd)
    ensures Inv(s.(unclaimed := Insert(s.unclaimed, a, b)))
  {
    var t := s.(unclaimed := Insert(s.unclaimed, a, b));
    InsertLaw(s.unclaimed, a, b, s.reqStart, s.reqEnd);
    forall k | 0 <= k < |t.live| ensures GoodClaim(t, t.live[k]) { assert GoodClaim(s, s.live[k]); }
  }

  /** `t` is `s` with an over-long claim cut at `keep` and its tail waiting again. */
  ghost predicate Trimmed(s: Sched, t: Sched, i: nat, keep: nat)
    requires i < |s.live|
  {
    var l := s.live[i];
    t == if l.Primary() && keep < l.end then
           s.(live := s.live[i := l.(end := keep)], unclaimed := Insert(s.unclaimed, Max(Sat(keep + 1), l.reserved), l.end))
         else s
  }

  lemma ShortenTrims(s: Sched, i: nat) returns (keep: nat)
    requires Inv(s) && i < |s.live| && s.live[i].cursor <= s.live[i].end
    ensures Trimmed(s, s.Shorten(i), i, keep) && s.live[i].cursor <= keep
    ensures Min(keep, s.live[i].end) + 1 - s.live[i].cursor <= s.ClaimLen()
  {
    assert GoodClaim(s, s.live[i]);
    keep := Sat(s.live[i].cursor + SatSub(s.ClaimLen(), 1));
  }

  lemma TrimmedShape(s: Sched, t: Sched, i: nat, keep: nat)
    requires Inv(s) && i < |s.live| && s.live[i].cursor <= s.live[i].end && s.live[i].cursor <= keep && Trimmed(s, t, i, keep)
    ensures Inv(t) && |t.live| == |s.live|
    ensures forall k :: 0 <= k < |s.live| && k != i ==> t.live[k] == s.live[k]
    ensures var l := t.live[i]; l == s.live[i].(end := l.end) && l.cursor <= l.end <= s.live[i].end
    ensures s.live[i].Primary() ==> t.live[i].end <= keep
  {
    var l := s.live[i];
    if l.Primary() && keep < l.end {
      assert GoodClaim(s, l);
      CutLaw(s, i, keep);
      GiveBackLaw(s.(live := s.live[i := l.(end := keep)]), Max(Sat(keep + 1), l.reserved), l.end);
    }
  }

  lemma ShortenShape(s: Sched, i: nat)
    requires Inv(s) && i < |s.live| && s.live[i].cursor <= s.live[i].end
    ensures Inv(s.Shorten(i)) && |s.Shorten(i).live| == |s.live|
    ensures forall k :: 0 <= k < |s.live| && k != i ==> s.Shorten(i).live[k] == s.live[k]
    ensures var l := s.Shorten(i).live[i]; l == s.live[i].(end := l.end) && l.cursor <= l.end <= s.live[i].end
    ensures s.live[i].Primary() ==> s.Shorten(i).live[i].Remaining() <= s.ClaimLen()
  {
    var keep := ShortenTrims(s, i);
    TrimmedShape(s, s.Shorten(i), i, keep);
  }

  /** What waits or is owed after the cut, of the claim that was cut. */
  lemma TrimmedWaits(s: Sched, t: Sched, i: nat, keep: nat, x: nat)
    requires Inv(s) && i < |s.live| && s.live[i].cursor <= s.live[i].end && s.live[i].cursor <= keep && Trimmed(s, t, i, keep)
    ensures Has(t.unclaimed, x) || t.live[i].Owns(x) <==> Has(s.unclaimed, x) || s.live[i].Owns(x)
    ensures Has(s.unclaimed, x) ==> Has(t.unclaimed, x)
    ensures B(Has(t.unclaimed, x)) + B(t.live[i].Owns(x)) <= B(Has(s.unclaimed, x)) + B(s.live[i].Owns(x))
  {
    var l := s.live[i];
    if l.Primary() && keep < l.end {
      assert GoodClaim(s, l);
      InsertLaw(s.unclaimed, Max(Sat(keep + 1), l.reserved), l.end, s.reqStart, s.reqEnd);
    }
  }

  lemma TrimmedHolders(s: Sched, t: Sched, i: nat, keep: nat, disk: set<nat>, x: nat)
    requires Inv(s) && i < |s.live| && s.live[i].cursor <= s.live[i].end && s.live[i].cursor <= keep && Trimmed(s, t, i, keep)
    ensures Holders(t, disk, x) <= Holders(s, disk, x)
    ensures Holders(s, disk, x) >= 1 ==> Holders(t, disk, x) >= 1
  {
    TrimmedWaits(s, t, i, keep, x);
    var l := s.live[i];
    if l.Primary() && keep < l.end { OwnersUpdate(s.live, i, l.(end := keep), x); }
  }

  lemma ShortenHolders(s: Sched, i: nat, disk: set<nat>, x: nat)
    requires Inv(s) && i < |s.live| && s.live[i].cursor <= s.live[i].end
    ensures Holders(s.Shorten(i), disk, x) <= Holders(s, disk, x)
    ensures Holders(s, disk, x) >= 1 ==> Holders(s.Shorten(i), disk, x) >= 1
  {
    var keep := ShortenTrims(s, i);
    TrimmedHolders(s, s.Shorten(i), i, keep, disk, x);
  }

  // ---- refocusing on the reader ----

  /** The claims a pass over the list takes back. */
  function Leaving(head: nat, hi: nat, grace: nat): Live -> bool {
    (l: Live) => l.cursor <= l.end && LetGo(l, head, hi, grace)
  }

  function Silent(idle: set<nat>): Live -> bool { (l: Live) => Dead(l, idle) }

  predicate Dead(l: Live, idle: set<nat>) { l.cursor <= l.lastCursor && l.cursor <= l.end && l.worker in idle }

  /** Claim `k` answers for `x`, and a pass from `i` on does not strand it. */
  ghost predicate Keeps(s: Sched, i: nat, going: Live -> bool, x: nat, k: nat) {
    k < |s.live| && s.live[k].Owns(x) && !(i <= k && going(s.live[k]) && Stranded(s.live[k], x))
  }

  /** `x` will have a holder after the pass. */
  ghost predicate Spared(s: Sched, disk: set<nat>, i: nat, going: Live -> bool, x: nat) {
    x in disk || Has(s.unclaimed, x) || exists k: nat :: Keeps(s, i, going, x, k)
  }

  lemma SparedAtEnd(s: Sched, disk: set<nat>, going: Live -> bool, x: nat)
    ensures Spared(s, disk, |s.live|, going, x) <==> Holders(s, disk, x) >= 1
  {
    OwnersAt(s.live, x);
    if k: nat :| k < |s.live| && s.live[k].Owns(x) { assert Keeps(s, |s.live|, going, x, k); }
  }

  /** Taking claim `i` back loses `x` exactly when it had committed to it past a
      cut end and nobody else holds it. */
  lemma SparedDrop(s: Sched, disk: set<nat>, i: nat, going: Live -> bool, x: nat)
    requires Inv(s) && i < |s.live| && s.live[i].cursor <= s.live[i].end && going(s.live[i])
    ensures Spared(s, disk, i, going, x) <==> Spared(s.Drop(i), disk, i, going, x)
  {
    var l, t := s.live[i], s.Drop(i);
    assert GoodClaim(s, l);
    InsertLaw(s.unclaimed, l.cursor, l.end, s.reqStart, s.reqEnd);
    if k: nat :| Keeps(s, i, going, x, k) {
      if k < i { assert Keeps(t, i, going, x, k); } else if k > i { assert Keeps(t, i, going, x, k - 1); }
    }
    if k: nat :| Keeps(t, i, going, x, k) { assert Keeps(s, i, going, x, if k < i then k else k + 1); }
    if Has(t.unclaimed, x) && !Has(s.unclaimed, x) { assert Keeps(s, i, going, x, i); }
  }

  /** A claim that stays keeps what it does not give back. */
  lemma SparedPass(s: Sched, t: Sched, disk: set<nat>, i: nat, j: nat, going: Live -> bool, x: nat)
    requires i < |s.live| == |t.live| && !going(s.live[i]) && forall k :: 0 <= k < |s.live| && k != i ==> t.live[k] == s.live[k]
    requires Has(t.unclaimed, x) || t.live[i].Owns(x) <==> Has(s.unclaimed, x) || s.live[i].Owns(x)
    requires j == i + 1
    ensures Spared(s, disk, i, going, x) <==> Spared(t, disk, j, going, x)
  {
    if k: nat :| Keeps(s, i, going, x, k) {
      if k != i { assert Keeps(t, j, going, x, k); } else if t.live[i].Owns(x) { assert Keeps(t, j, going, x, i); }
    }
    if k: nat :| Keeps(t, j, going, x, k) {
      if k != i { assert Keeps(s, i, going, x, k); } else if s.live[i].Owns(x) { assert Keeps(s, i, going, x, i); }
    }
    if s.live[i].Owns(x) { assert Keeps(s, i, going, x, i); }
    if t.live[i].Owns(x) { assert Keeps(t, j, going, x, i); }
  }

  /** Where nothing is stranded, whatever is held is spared. */
  lemma HeldSpared(s: Sched, disk: set<nat>, going: Live -> bool, x: nat)
    requires Holders(s, disk, x) >= 1
    requires forall k :: 0 <= k < |s.live| && going(s.live[k]) ==> !Stranded(s.live[k], x)
    ensures Spared(s, disk, 0, going, x)
  {
    OwnersAt(s.live, x);
    if k :| 0 <= k < |s.live| && s.live[k].Owns(x) { assert Keeps(s, 0, going, x, k); }
  }

  lemma {:induction false} RefocusShape(s: Sched, i: nat, head: nat, hi: nat, grace: nat)
    requires Inv(s) && i <= |s.live|
    ensures var t := s.RefocusFrom(i, head, hi, grace).0; Inv(t) && SameJob(s, t) && t.dupBudget == s.dupBudget
    decreases |s.live| - i
  {
    if i < |s.live| {
      var l := s.live[i];
      if l.cursor > l.end {
        RefocusShape(s, i + 1, head, hi, grace);
      } else if LetGo(l, head, hi, grace) {
        DropLaw(s, i, {}, 0);
        RefocusShape(s.Drop(i), i, head, hi, grace);
      } else {
        ShortenShape(s, i);
        RefocusShape(s.Shorten(i), i + 1, head, hi, grace);
      }
    }
  }

  lemma TrimmedSpares(s: Sched, t: Sched, disk: set<nat>, i: nat, keep: nat, j: nat, going: Live -> bool, x: nat)
    requires Inv(s) && i < |s.live| && s.live[i].cursor <= s.live[i].end && s.live[i].cursor <= keep && Trimmed(s, t, i, keep)
    requires !going(s.live[i]) && j == i + 1
    ensures Spared(s, disk, i, going, x) <==> Spared(t, disk, j, going, x)
  {
    TrimmedShape(s, t, i, keep);
    TrimmedWaits(s, t, i, keep, x);
    SparedPass(s, t, disk, i, j, going, x);
  }

  lemma ShortenSpares(s: Sched, disk: set<nat>, i: nat, going: Live -> bool, x: nat)
    requires Inv(s) && i < |s.live| && s.live[i].cursor <= s.live[i].end && !going(s.live[i])
    ensures Spared(s, disk, i, going, x) <==> Spared(s.Shorten(i), disk, i + 1, going, x)
  {
    var keep := ShortenTrims(s, i);
    TrimmedSpares(s, s.Shorten(i), disk, i, keep, i + 1, going, x);
  }

  /** One byte across a refocus: it gains no holder, and keeps one exactly when it
      is spared. */
  lemma {:induction false} RefocusByte(s: Sched, i: nat, head: nat, hi: nat, grace: nat, disk: set<nat>, x: nat)
    requires Inv(s) && i <= |s.live|
    ensures var t := s.RefocusFrom(i, head, hi, grace).0;
            && Holders(t, disk, x) <= Holders(s, disk, x)
            && (Holders(t, disk, x) >= 1 <==> Spared(s, disk, i, Leaving(head, hi, grace), x))
    decreases |s.live| - i
  {
    var going := Leaving(head, hi, grace);
    if i == |s.live| {
      SparedAtEnd(s, disk, going, x);
    } else if s.live[i].cursor > s.live[i].end {
      SparedPass(s, s, disk, i, i + 1, going, x);
      RefocusByte(s, i + 1, head, hi, grace, disk, x);
    } else if LetGo(s.live[i], head, hi, grace) {
      DropLaw(s, i, disk, x);
      SparedDrop(s, disk, i, going, x);
      RefocusByte(s.Drop(i), i, head, hi, grace, disk, x);
    } else {
      ShortenShape(s, i);
      ShortenHolders(s, i, disk, x);
      ShortenSpares(s, disk, i, going, x);
      RefocusByte(s.Shorten(i), i + 1, head, hi, grace, disk, x);
    }
  }

  /** Who a seek takes back in latency mode. */
  function Seeking(s: Sched, window: nat): Live -> bool
    requires s.strategy.Latency?
  {
    Leaving(s.readHead, Sat(s.readHead + Max(window, 1)), Max(s.strategy.headClaim, MIN_CLAIM))
  }

  ghost predicate Aborted(s: Sched, window: nat, l: Live) { s.strategy.Latency? && Seeking(s, window)(l) }

  /** `x` is on disk, waits, or is answered for by a claim the seek does not abort
      with `x` committed past its cut end. */
  ghost predicate SeekSpares(s: Sched, window: nat, disk: set<nat>, x: nat) {
    || x in disk || Has(s.unclaimed, x)
    || exists k: nat :: k < |s.live| && s.live[k].Owns(x) && !(Aborted(s, window, s.live[k]) && Stranded(s.live[k], x))
  }

  lemma SeekByte(s: Sched, window: nat, disk: set<nat>, x: nat)
    requires Inv(s)
    ensures var t := s.Refocus(window).0;
            Holders(t, disk, x) <= Holders(s, disk, x) && (Holders(t, disk, x) >= 1 <==> SeekSpares(s, window, disk, x))
  {
    if s.strategy.Latency? {
      var going := Seeking(s, window);
      RefocusByte(s, 0, s.readHead, Sat(s.readHead + Max(window, 1)), Max(s.strategy.headClaim, MIN_CLAIM), disk, x);
      if k: nat :| Keeps(s, 0, going, x, k) { assert s.live[k].Owns(x); }
      if k: nat :| k < |s.live| && s.live[k].Owns(x) && !(Aborted(s, window, s.live[k]) && Stranded(s.live[k], x)) {
        assert Keeps(s, 0, going, x, k);
      }
    } else {
      OwnersAt(s.live, x);
    }
  }

  /** A seek gives no byte a new holder, and keeps every requested byte exactly when
      each byte an aborted request had committed past a cut end is on disk or
      somebody else's. */
  lemma RefocusLossless(s: Sched, window: nat, disk: set<nat>)
    requires Inv(s)
    ensures var t := s.Refocus(window).0;
            && Inv(t) && (forall x: nat :: Outstanding(t, x) <= Outstanding(s, x))
            && (Cover(t, disk) <==> forall x: nat :: s.reqStart <= x <= s.reqEnd ==> SeekSpares(s, window, disk, x))
  {
    var t := s.Refocus(window).0;
    if s.strategy.Latency? {
      RefocusShape(s, 0, s.readHead, Sat(s.readHead + Max(window, 1)), Max(s.strategy.headClaim, MIN_CLAIM));
    }
    forall x: nat
      ensures Outstanding(t, x) <= Outstanding(s, x)
      ensures Holders(t, disk, x) >= 1 <==> SeekSpares(s, window, disk, x)
    {
      SeekByte(s, window, {}, x);
      SeekByte(s, window, disk, x);
    }
  }

  // ---- reclaiming dead claims ----

  lemma TouchLaw(s: Sched, i: nat, disk: set<nat>, x: nat)
    requires Inv(s) && i < |s.live|
    ensures Inv(s.Touch(i)) && Holders(s.Touch(i), disk, x) == Holders(s, disk, x)
  {
    var t := s.Touch(i);
    OwnersUpdate(s.live, i, t.live[i], x);
    forall k | 0 <= k < |t.live| ensures GoodClaim(t, t.live[k]) { assert GoodClaim(s, s.live[k]); }
  }

  lemma {:induction false} ReclaimShape(s: Sched, i: nat, idle: set<nat>)
    requires Inv(s) && i <= |s.live|
    ensures var t := s.ReclaimFrom(i, idle).0; Inv(t) && SameJob(s, t) && t.dupBudget == s.dupBudget
    decreases |s.live| - i
  {
    if i < |s.live| {
      var l := s.live[i];
      if l.cursor > l.lastCursor || l.cursor > l.end {
        TouchLaw(s, i, {}, 0);
        ReclaimShape(s.Touch(i), i + 1, idle);
      } else if l.worker !in idle {
        ReclaimShape(s, i + 1, idle);
      } else {
        DropLaw(s, i, {}, 0);
        ReclaimShape(s.Drop(i), i, idle);
      }
    }
  }

  /** One byte across a sweep: it gains no holder, and keeps one exactly when it is
      spared. */
  lemma {:induction false} ReclaimByte(s: Sched, i: nat, idle: set<nat>, disk: set<nat>, x: nat)
    requires Inv(s) && i <= |s.live|
    ensures var t := s.ReclaimFrom(i, idle).0;
            && Holders(t, disk, x) <= Holders(s, disk, x)
            && (Holders(t, disk, x) >= 1 <==> Spared(s, disk, i, Silent(idle), x))
    decreases |s.live| - i
  {
    var going := Silent(idle);
    if i == |s.live| {
      SparedAtEnd(s, disk, going, x);
    } else if s.live[i].cursor > s.live[i].lastCursor || s.live[i].cursor > s.live[i].end {
      TouchLaw(s, i, disk, x);
      SparedPass(s, s.Touch(i), disk, i, i + 1, going, x);
      ReclaimByte(s.Touch(i), i + 1, idle, disk, x);
    } else if s.live[i].worker !in idle {
      SparedPass(s, s, disk, i, i + 1, going, x);
      ReclaimByte(s, i + 1, idle, disk, x);
    } else {
      DropLaw(s, i, disk, x);
      SparedDrop(s, disk, i, going, x);
      ReclaimByte(s.Drop(i), i, idle, disk, x);
    }
  }

  /** The same of a sweep over dead requests. */
  lemma ReclaimLossless(s: Sched, idle: set<nat>, disk: set<nat>)
    requires Inv(s)
    ensures var t := s.ReclaimStalled(idle).0;
            && Inv(t) && (forall x: nat :: Outstanding(t, x) <= Outstanding(s, x))
            && (Cover(t, disk) <==> forall x: nat :: s.reqStart <= x <= s.reqEnd ==> Spared(s, disk, 0, Silent(idle), x))
  {
    var t := s.ReclaimStalled(idle).0;
    ReclaimShape(s, 0, idle);
    forall x: nat
      ensures Outstanding(t, x) <= Outstanding(s, x)
      ensures Holders(t, disk, x) >= 1 <==> Spared(s, disk, 0, Silent(idle), x)
    {
      ReclaimByte(s, 0, idle, {}, x);
      ReclaimByte(s, 0, idle, disk, x);
    }
  }

  // ---- reporting in ----

  /** Bytes a claim still answers for that cutting it short would abandon. */
  ghost predicate Abandoned(l: Live, x: nat) { l.Owns(x) && !l.CutShort().Owns(x) }

  lemma CutFirstLaw(s: Sched, p: Live -> bool, disk: set<nat>, x: nat)
    requires Inv(s)
    ensures var t := s.CutFirst(p); var i := FindFrom(s.live, p, 0);
            && Inv(t) && SameJob(s, t) && t.dupBudget == s.dupBudget && t.unclaimed == s.unclaimed
            && |t.live| == |s.live|
            && (forall k :: 0 <= k < |s.live| && k != i ==> t.live[k] == s.live[k])
            && (i < |s.live| ==> t.live[i] == s.live[i].CutShort())
            && Holders(t, disk, x) + B(i < |s.live| && Abandoned(s.live[i], x)) == Holders(s, disk, x)
  {
    var i := FindFrom(s.live, p, 0);
    if i < |s.live| {
      var t := s.CutFirst(p);
      assert GoodClaim(s, s.live[i]);
      OwnersUpdate(s.live, i, t.live[i], x);
      forall k | 0 <= k < |t.live| ensures GoodClaim(t, t.live[k]) { assert GoodClaim(s, s.live[k]); }
    }
  }

  lemma {:induction false} FindWorker(live: seq<Live>, pos: nat, i: nat)
    requires pos < |live| && i <= pos
    requires forall a, b :: 0 <= a < b < |live| ==> live[a].worker != live[b].worker
    ensures FindFrom(live, OfWorker(live[pos].worker), i) == pos
    decreases pos - i
  {
    if i < pos { FindWorker(live, pos, i + 1); }
  }

  /** The primary a finished hedge cuts short, when it is still live. */
  function RaceLoser(s: Sched, gone: Live): nat
  {
    if gone.hedgeOf.Some? then FindFrom(s.live, PrimaryAt(gone.hedgeOf.value), 0) else |s.live|
  }

  /** What reporting in does to one byte, when the worker has flushed all it
      reserved: a primary conserves it; a hedge conserves it unless it won
      and cut a primary that still answered for it. */
  lemma FinishByte(s: Sched, pos: nat, disk: set<nat>, x: nat)
    requires Inv(s) && pos < |s.live| && s.live[pos].reserved == s.live[pos].cursor
    ensures var l := s.live[pos]; var t := s.Finish(l.worker, l.cursor);
            var rest := s.Without(pos); var i := RaceLoser(rest, l);
            && Inv(t) && SameJob(s, t) && t.dupBudget == s.dupBudget && Absent(t, l.worker)
            && Holders(t, disk, x) <= Holders(s, disk, x)
            && (Holders(s, disk, x) >= 1 && !(l.cursor > l.end && i < |rest.live| && Abandoned(rest.live[i], x))
                ==> Holders(t, disk, x) >= 1)
            && (l.cursor > l.end && i < |rest.live| && Abandoned(rest.live[i], x)
                ==> Holders(t, disk, x) + 1 == Holders(s, disk, x))
  {
    var l := s.live[pos];
    assert GoodClaim(s, l);
    FindWorker(s.live, pos, 0);
    WithoutLaw(s, pos);
    OwnersSplit(s.live, pos, x);
    var rest := s.Without(pos);
    var t := rest.Settle(l, l.cursor);
    if l.hedgeOf.Some? {
      if l.cursor > l.end { CutFirstLaw(rest, PrimaryAt(l.hedgeOf.value), disk, x); }
    } else if l.cursor > l.end {
      CutFirstLaw(rest, HedgeOf(l.start), disk, x);
    } else {
      InsertLaw(s.unclaimed, l.cursor, l.end, s.reqStart, s.reqEnd);
      GiveBackLaw(rest, l.cursor, l.end);
    }
    forall k | 0 <= k < |t.live| ensures t.live[k].worker != l.worker {
      assert t.live[k].worker == rest.live[k].worker;
    }
  }
}
