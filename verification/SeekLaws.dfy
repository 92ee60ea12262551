/** Which requests a seek or a sweep takes back, told from the claims before and
    after it, in the arithmetic of the reader's window. */
module SeekLaws {
  import opened Spans
  import opened Sched
  import opened SchedLaws
  import opened Policy

  // ---- a pass over the list ----

  /** The claims with `p`, in list order. */
  function Filtered(live: seq<Live>, p: Live -> bool): seq<Live> {
    if live == [] then [] else (if p(live[0]) then [live[0]] else []) + Filtered(live[1..], p)
  }

  function Workers(live: seq<Live>): seq<nat> { seq(|live|, i requires 0 <= i < |live| => live[i].worker) }

  function Not(p: Live -> bool): Live -> bool { (l: Live) => !p(l) }

  /** Each claim has become the one at its place, by what may `become` of it. */
  ghost predicate Became(before: seq<Live>, after: seq<Live>, become: (Live, Live) -> bool) {
    |before| == |after| && forall k :: 0 <= k < |before| ==> become(before[k], after[k])
  }

  /** From `i` on, exactly the claims with `p` have left, and `gone` names their
      workers in order; of the others, in order too, `after` has what became of them. */
  ghost predicate Culled(before: seq<Live>, i: nat, p: Live -> bool, become: (Live, Live) -> bool, after: seq<Live>, gone: seq<nat>) {
    && i <= |before| && i <= |after| && after[..i] == before[..i]
    && gone == Workers(Filtered(before[i..], p)) && Became(Filtered(before[i..], Not(p)), after[i..], become)
  }

  lemma FilteredFirst(live: seq<Live>, i: nat, p: Live -> bool)
    requires i < |live|
    ensures Filtered(live[i..], p) == (if p(live[i]) then [live[i]] else []) + Filtered(live[i + 1..], p)
  {
    assert live[i..][1..] == live[i + 1..];
  }

  lemma CullGone(live: seq<Live>, i: nat, p: Live -> bool, become: (Live, Live) -> bool, after: seq<Live>, gone: seq<nat>)
    requires i < |live| && p(live[i]) && Culled(live[..i] + live[i + 1..], i, p, become, after, gone)
    ensures Culled(live, i, p, become, after, [live[i].worker] + gone)
  {
    var rest := live[..i] + live[i + 1..];
    FilteredFirst(live, i, p);
    FilteredFirst(live, i, Not(p));
    assert rest[i..] == live[i + 1..] && rest[..i] == live[..i];
  }

  lemma CullKept(live: seq<Live>, i: nat, l: Live, p: Live -> bool, become: (Live, Live) -> bool, after: seq<Live>, gone: seq<nat>)
    requires i < |live| && !p(live[i]) && become(live[i], l) && Culled(live[i := l], i + 1, p, become, after, gone)
    ensures Culled(live, i, p, become, after, gone)
  {
    var next := live[i := l];
    FilteredFirst(live, i, p);
    FilteredFirst(live, i, Not(p));
    assert next[i + 1..] == live[i + 1..];
    assert after[..i + 1][..i] == after[..i] && next[..i + 1][..i] == live[..i];
    assert after[i] == after[..i + 1][i] == l;
    assert after[i..] == [l] + after[i + 1..];
  }

  // ---- a seek ----

  /** The claim is unfinished, and either beyond the window of a reader at `head`,
      behind the reader, or too far behind to be worth waiting for. */
  predicate Useless(l: Live, head: nat, window: nat, headClaim: nat) {
    && l.cursor <= l.end
    && !(l.cursor < Sat(head + Max(window, 1)) && head <= l.end && head <= Sat(l.cursor + Max(headClaim, MIN_CLAIM)))
  }

  function Uselessness(head: nat, window: nat, headClaim: nat): Live -> bool {
    (l: Live) => Useless(l, head, window, headClaim)
  }

  /** Playback hands out no claim shorter than this while it can help it: a mebibyte,
      or less where the head claim, the learned limit or the split cap is less. */
  function LeastClaim(s: Sched): nat
    requires s.strategy.Latency?
  {
    var least := Min(MIN_CLAIM, s.strategy.headClaim);
    var learned := if s.autoLimit.Some? then Min(least, s.autoLimit.value) else least;
    Max(if s.splitCap.Some? then Min(learned, s.splitCap.value) else learned, 1)
  }

  /** A claim is left alone, an unfinished primary only when it owes no more than
      `most`; otherwise it loses a tail and still owes between `least` and `most`. */
  function Trimming(least: nat, most: nat): (Live, Live) -> bool {
    (a: Live, b: Live) =>
      if !a.Primary() || a.cursor > a.end then b == a
      else (b == a || (b == a.(end := b.end) && b.end < a.end && b.Remaining() >= least)) && b.Remaining() <= most
  }

  /** Offsets are 64 bits wide. */
  ghost predicate Fit64(live: seq<Live>) { forall k :: 0 <= k < |live| ==> live[k].end <= U64_MAX }

  /** What the pass over the list relies on. */
  ghost predicate Playing(s: Sched, least: nat, most: nat) {
    s.WellFormed() && s.strategy.Latency? && Fit64(s.live) && least == LeastClaim(s) && most == PlaybackCeiling(s)
  }

  lemma DropPlays(s: Sched, i: nat, least: nat, most: nat)
    requires Playing(s, least, most) && i < |s.live|
    ensures Playing(s.Drop(i), least, most) && s.Drop(i).live == s.live[..i] + s.live[i + 1..]
  {
  }

  lemma ShortenPlays(s: Sched, i: nat, least: nat, most: nat)
    requires Playing(s, least, most) && i < |s.live|
    ensures var u := if s.live[i].cursor > s.live[i].end then s else s.Shorten(i);
            Playing(u, least, most) && u.live == s.live[i := u.live[i]] && Trimming(least, most)(s.live[i], u.live[i])
  {
    assert least <= s.ClaimLen() <= most;
  }

  lemma {:induction false} RefocusCulls(s: Sched, i: nat, head: nat, window: nat, headClaim: nat, least: nat, most: nat)
    requires Playing(s, least, most) && i <= |s.live|
    ensures var (t, gone) := s.RefocusFrom(i, head, Sat(head + Max(window, 1)), Max(headClaim, MIN_CLAIM));
            Culled(s.live, i, Uselessness(head, window, headClaim), Trimming(least, most), t.live, gone)
    decreases |s.live| - i
  {
    var p, hi, grace := Uselessness(head, window, headClaim), Sat(head + Max(window, 1)), Max(headClaim, MIN_CLAIM);
    var (t, gone) := s.RefocusFrom(i, head, hi, grace);
    if i < |s.live| {
      var l := s.live[i];
      if p(l) {
        DropPlays(s, i, least, most);
        RefocusCulls(s.Drop(i), i, head, window, headClaim, least, most);
        CullGone(s.live, i, p, Trimming(least, most), t.live, gone[1..]);
        assert [l.worker] + gone[1..] == gone;
      } else {
        ShortenPlays(s, i, least, most);
        var u := if l.cursor > l.end then s else s.Shorten(i);
        RefocusCulls(u, i + 1, head, window, headClaim, least, most);
        CullKept(s.live, i, u.live[i], p, Trimming(least, most), t.live, gone);
      }
    }
  }

  /** A seek takes back exactly the useless claims and names their workers in order;
      the others stay, in order, finished ones and hedges as they are, and primaries
      cut to what playback would hand out anew. A download has no reader to focus on. */
  lemma RefocusExact(s: Sched, window: nat)
    requires s.WellFormed() && Fit64(s.live)
    ensures var (t, gone) := s.Refocus(window);
            match s.strategy
            case Throughput => t == s && gone == []
            case Latency(_, headClaim) =>
              var p := Uselessness(s.readHead, window, headClaim);
              && gone == Workers(Filtered(s.live, p))
              && Became(Filtered(s.live, Not(p)), t.live, Trimming(LeastClaim(s), PlaybackCeiling(s)))
  {
    if s.strategy.Latency? {
      var (t, gone) := s.Refocus(window);
      RefocusCulls(s, 0, s.readHead, window, s.strategy.headClaim, LeastClaim(s), PlaybackCeiling(s));
      assert s.live[0..] == s.live && t.live[0..] == t.live;
    }
  }

  lemma {:induction false} FilteredAt(live: seq<Live>, p: Live -> bool, k: nat) returns (j: nat)
    requires k < |live| && p(live[k])
    ensures j < |Filtered(live, p)| && Filtered(live, p)[j] == live[k]
  {
    if k == 0 {
      j := 0;
    } else {
      j := FilteredAt(live[1..], p, k - 1);
      if p(live[0]) { j := j + 1; }
    }
  }

  lemma {:induction false} FilteredFrom(live: seq<Live>, p: Live -> bool, j: nat) returns (k: nat)
    requires j < |Filtered(live, p)|
    ensures k < |live| && live[k] == Filtered(live, p)[j] && p(live[k])
  {
    if p(live[0]) && j == 0 {
      k := 0;
    } else {
      k := FilteredFrom(live[1..], p, if p(live[0]) then j - 1 else j);
      k := k + 1;
    }
  }

  ghost predicate OnePerWorker(live: seq<Live>) { forall i, j :: 0 <= i < j < |live| ==> live[i].worker != live[j].worker }

  lemma SameWorker(live: seq<Live>, i: nat, k: nat)
    requires OnePerWorker(live) && i < |live| && k < |live| && live[i].worker == live[k].worker
    ensures i == k
  {
  }

  /** Exactly the claims with `p` are named. */
  lemma NamedExact(live: seq<Live>, p: Live -> bool, k: nat)
    requires OnePerWorker(live) && k < |live|
    ensures p(live[k]) <==> live[k].worker in Workers(Filtered(live, p))
  {
    var gone := Workers(Filtered(live, p));
    if p(live[k]) {
      var j := FilteredAt(live, p, k);
      assert gone[j] == live[k].worker;
    }
    if m: nat :| m < |gone| && gone[m] == live[k].worker {
      var i := FilteredFrom(live, p, m);
      SameWorker(live, i, k);
    }
  }

  /** And what becomes of a claim carries its worker's name. */
  lemma BecameExact(before: seq<Live>, after: seq<Live>, become: (Live, Live) -> bool, w: nat)
    requires Became(before, after, become) && forall a, b :: become(a, b) ==> a.worker == b.worker
    ensures w in Workers(before) <==> exists j :: 0 <= j < |after| && after[j].worker == w
  {
    if j :| 0 <= j < |after| && after[j].worker == w {
      assert become(before[j], after[j]);
      assert Workers(before)[j] == w;
    }
    if j :| 0 <= j < |before| && Workers(before)[j] == w { assert become(before[j], after[j]); }
  }

  /** An unfinished claim survives a seek if and only if it starts its next byte
      within the window, reaches the reader, and is not too far behind; otherwise
      its worker is named. */
  lemma SurvivesSeek(s: Sched, window: nat, k: nat)
    requires Inv(s) && s.strategy.Latency? && k < |s.live| && s.live[k].cursor <= s.live[k].end
    ensures var (t, gone) := s.Refocus(window); var l, head := s.live[k], s.readHead;
            var kept := l.cursor < Sat(head + Max(window, 1)) && l.end >= head
                        && Sat(l.cursor + Max(s.strategy.headClaim, MIN_CLAIM)) >= head;
            && (kept <==> exists j :: 0 <= j < |t.live| && t.live[j].worker == l.worker)
            && (!kept <==> l.worker in gone)
  {
    forall i | 0 <= i < |s.live| ensures s.live[i].end <= U64_MAX { assert GoodClaim(s, s.live[i]); }
    RefocusExact(s, window);
    var (t, gone) := s.Refocus(window);
    var p := Uselessness(s.readHead, window, s.strategy.headClaim);
    NamedExact(s.live, p, k);
    NamedExact(s.live, Not(p), k);
    BecameExact(Filtered(s.live, Not(p)), t.live, Trimming(LeastClaim(s), PlaybackCeiling(s)), s.live[k].worker);
  }

  // ---- a sweep ----

  /** Unfinished, not moved since the last sweep, and silent for too long. */
  predicate Stalled(l: Live, idle: set<nat>) { l.cursor <= l.end && l.cursor <= l.lastCursor && l.worker in idle }

  function Stalling(idle: set<nat>): Live -> bool { (l: Live) => Stalled(l, idle) }

  /** The sweep remembers how far a claim that moved, or finished, has come. */
  function Noted(): (Live, Live) -> bool {
    (a: Live, b: Live) => b == if a.cursor > a.lastCursor || a.cursor > a.end then a.(lastCursor := a.cursor) else a
  }

  lemma {:induction false} ReclaimCulls(s: Sched, i: nat, idle: set<nat>)
    requires i <= |s.live|
    ensures var (t, gone) := s.ReclaimFrom(i, idle); Culled(s.live, i, Stalling(idle), Noted(), t.live, gone)
    decreases |s.live| - i
  {
    var p := Stalling(idle);
    var (t, gone) := s.ReclaimFrom(i, idle);
    if i < |s.live| {
      var l := s.live[i];
      if p(l) {
        ReclaimCulls(s.Drop(i), i, idle);
        CullGone(s.live, i, p, Noted(), t.live, gone[1..]);
        assert [l.worker] + gone[1..] == gone;
      } else {
        var u := if l.cursor > l.lastCursor || l.cursor > l.end then s.Touch(i) else s;
        ReclaimCulls(u, i + 1, idle);
        assert u.live == s.live[i := u.live[i]];
        CullKept(s.live, i, u.live[i], p, Noted(), t.live, gone);
      }
    }
  }

  /** A sweep takes back exactly the stalled claims and names their workers in order;
      the others stay, in order, with their progress noted. */
  lemma ReclaimExact(s: Sched, idle: set<nat>)
    ensures var (t, gone) := s.ReclaimStalled(idle);
            && gone == Workers(Filtered(s.live, Stalling(idle)))
            && Became(Filtered(s.live, Not(Stalling(idle))), t.live, Noted())
  {
    var (t, gone) := s.ReclaimStalled(idle);
    ReclaimCulls(s, 0, idle);
    assert s.live[0..] == s.live && t.live[0..] == t.live;
  }

  /** A claim survives a sweep if and only if it is finished, has moved since the last
      one, or its worker has been heard from; otherwise its worker is named. */
  lemma SurvivesSweep(s: Sched, idle: set<nat>, k: nat)
    requires Inv(s) && k < |s.live|
    ensures var (t, gone) := s.ReclaimStalled(idle); var l := s.live[k];
            var kept := l.cursor > l.end || l.cursor > l.lastCursor || l.worker !in idle;
            && (kept <==> exists j :: 0 <= j < |t.live| && t.live[j].worker == l.worker)
            && (!kept <==> l.worker in gone)
  {
    ReclaimExact(s, idle);
    var (t, gone) := s.ReclaimStalled(idle);
    NamedExact(s.live, Stalling(idle), k);
    NamedExact(s.live, Not(Stalling(idle)), k);
    BecameExact(Filtered(s.live, Not(Stalling(idle))), t.live, Noted(), s.live[k].worker);
  }
}
