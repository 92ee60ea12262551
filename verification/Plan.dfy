/** The in-memory path's fetch plan: consecutive pieces that cover the range, each
    inside one volume and no longer than the split, with a zone of small pieces
    at the front of an open-ended request. */
module Plan {
  import opened Spans
  import opened Sched
  import opened SchedLaws

  /** `p` runs from `a` to just before `b` without gap or overlap. */
  ghost predicate Chain(p: seq<Span>, a: nat, b: nat)
    decreases |p|
  {
    if p == [] then a == b else p[0].lo == a <= p[0].hi && Chain(p[1..], p[0].hi + 1, b)
  }

  lemma {:induction false} ChainConcat(p: seq<Span>, q: seq<Span>, a: nat, m: nat, b: nat)
    requires Chain(p, a, m) && Chain(q, m, b)
    ensures Chain(p + q, a, b)
    decreases |p|
  {
    if p == [] {
      assert p + q == q;
    } else {
      assert (p + q)[1..] == p[1..] + q;
      ChainConcat(p[1..], q, p[0].hi + 1, m, b);
    }
  }

  /** A chain holds exactly the bytes between its ends. */
  lemma {:induction false} ChainHas(p: seq<Span>, a: nat, b: nat, x: nat)
    requires Chain(p, a, b)
    ensures a <= b && (Has(p, x) <==> a <= x < b)
    decreases |p|
  {
    if p != [] { ChainHas(p[1..], p[0].hi + 1, b, x); }
  }

  predicate InVolume(v: Volume, p: Span) { v.Holds(p.lo) && v.Holds(p.hi) }

  ghost predicate InOneVolume(volumes: Option<seq<Volume>>, p: Span) {
    volumes.Some? ==> exists k :: 0 <= k < |volumes.value| && InVolume(volumes.value[k], p)
  }

  ghost predicate Pieces(volumes: Option<seq<Volume>>, plan: seq<Span>, split: nat) {
    forall i :: 0 <= i < |plan| ==> plan[i].lo <= plan[i].hi < plan[i].lo + split && InOneVolume(volumes, plan[i])
  }

  ghost predicate Covers(volumes: Option<seq<Volume>>, end: nat) {
    volumes.Some? ==> Tiled(volumes.value, 0) && end < TotalSize(volumes.value)
  }

  /** `[lo, hi]` in pieces of `split`, the last one as long as what is left. */
  method CutEvery(lo: nat, hi: nat, split: nat) returns (plan: seq<Span>)
    requires split > 0
    ensures Chain(plan, lo, Max(lo, hi + 1))
    ensures forall i :: 0 <= i < |plan| ==> lo <= plan[i].lo <= plan[i].hi <= hi && plan[i].hi < plan[i].lo + split
    ensures forall i :: 0 <= i < |plan| ==> plan[i].hi + 1 == plan[i].lo + split || plan[i].hi == hi
  {
    plan := [];
    var cur := lo;
    while cur <= hi
      invariant lo <= cur <= Max(lo, hi + 1) && Chain(plan, lo, cur)
      invariant forall i :: 0 <= i < |plan| ==> plan[i].hi + 1 == plan[i].lo + split || plan[i].hi == hi
      invariant forall i :: 0 <= i < |plan| ==> lo <= plan[i].lo <= plan[i].hi <= hi && plan[i].hi < plan[i].lo + split
    {
      var stop := Min(cur + split - 1, hi);
      assert [Span(cur, stop)][1..] == [];
      ChainConcat(plan, [Span(cur, stop)], lo, cur, stop + 1);
      plan, cur := plan + [Span(cur, stop)], stop + 1;
    }
  }

  /** The piece is as long as a piece can be: it has the full size, or the range or a
      volume ends with it. */
  ghost predicate Ample(volumes: Option<seq<Volume>>, end: nat, s: Span, split: nat) {
    || s.hi + 1 == s.lo + split || s.hi == end
    || (volumes.Some? && exists k :: 0 <= k < |volumes.value| && volumes.value[k].offset + volumes.value[k].size == s.hi + 1)
  }

  ghost predicate AllAmple(volumes: Option<seq<Volume>>, end: nat, plan: seq<Span>, split: nat) {
    forall i :: 0 <= i < |plan| ==> Ample(volumes, end, plan[i], split)
  }

  lemma AppendAmple(volumes: Option<seq<Volume>>, end: nat, plan: seq<Span>, more: seq<Span>, split: nat, k: nat, hi: nat)
    requires AllAmple(volumes, end, plan, split) && volumes.Some? && k < |volumes.value|
    requires hi == end || volumes.value[k].offset + volumes.value[k].size == hi + 1
    requires forall i :: 0 <= i < |more| ==> more[i].hi + 1 == more[i].lo + split || more[i].hi == hi
    ensures AllAmple(volumes, end, plan + more, split)
  {
    var r := plan + more;
    forall i | 0 <= i < |r| ensures Ample(volumes, end, r[i], split) {
      if i < |plan| { assert r[i] == plan[i]; } else { assert r[i] == more[i - |plan|]; }
    }
  }

  /** How far a plan reaches before and after the volume at `[off, off + size)`. */
  lemma Reach(start: nat, end: nat, off: nat, size: nat)
    ensures var (from, to) := (Max(start, Min(off, end + 1)), Max(start, Min(off + size, end + 1)));
            if size > 0 && off + size - 1 >= start && off <= end && Max(off, start) <= Min(off + size - 1, end)
            then from == Max(off, start) && to == Min(off + size - 1, end) + 1
            else from == to
  {
  }

  /** One request per piece: split at volume boundaries, then by size. */
  method PlanChunks(start: nat, end: nat, maxSplit: nat, volumes: Option<seq<Volume>>) returns (plan: seq<Span>)
    requires Covers(volumes, end)
    ensures Chain(plan, start, Max(start, end + 1)) && Pieces(volumes, plan, Max(maxSplit, 1))
    ensures AllAmple(volumes, end, plan, Max(maxSplit, 1))
  {
    var split := Max(maxSplit, 1);
    if volumes.None? {
      plan := CutEvery(start, end, split);
      return;
    }
    var vols := volumes.value;
    plan := [];
    ghost var off: nat := 0;
    var i := 0;
    assert vols[0..] == vols;
    while i < |vols|
      invariant i <= |vols| && Tiled(vols[i..], off) && off + TotalSize(vols[i..]) == TotalSize(vols)
      invariant Chain(plan, start, Max(start, Min(off, end + 1))) && Pieces(volumes, plan, split)
      invariant AllAmple(volumes, end, plan, split)
    {
      var v := vols[i];
      assert vols[i..][0] == v && vols[i..][1..] == vols[i + 1..];
      Reach(start, end, off, v.size);
      if v.size > 0 && v.offset + v.size - 1 >= start && v.offset <= end {
        var clipStart, clipEnd := Max(v.offset, start), Min(v.offset + v.size - 1, end);
        if clipStart <= clipEnd {
          var more := CutEvery(clipStart, clipEnd, split);
          ChainConcat(plan, more, start, clipStart, clipEnd + 1);
          AppendPieces(volumes, plan, more, split, i, clipStart, clipEnd);
          AppendAmple(volumes, end, plan, more, split, i, clipEnd);
          plan := plan + more;
        }
      }
      i, off := i + 1, off + v.size;
    }
  }

  lemma AppendPieces(volumes: Option<seq<Volume>>, plan: seq<Span>, more: seq<Span>, split: nat, k: nat, lo: nat, hi: nat)
    requires Pieces(volumes, plan, split) && volumes.Some? && k < |volumes.value|
    requires forall i :: 0 <= i < |more| ==> lo <= more[i].lo <= more[i].hi <= hi && more[i].hi < more[i].lo + split
    requires lo <= hi ==> InVolume(volumes.value[k], Span(lo, hi))
    ensures Pieces(volumes, plan + more, split)
  {
    var r := plan + more;
    forall i | 0 <= i < |r| ensures r[i].lo <= r[i].hi < r[i].lo + split && InOneVolume(volumes, r[i]) {
      if i < |plan| { assert r[i] == plan[i]; } else { assert r[i] == more[i - |plan|] && InVolume(volumes.value[k], r[i]); }
    }
  }

  // ---- the head zone ----

  /** `q` is a suffix of `p` whose first piece may have lost its front. */
  ghost predicate TailOf(q: seq<Span>, p: seq<Span>) {
    q == [] || (|q| <= |p| && q[1..] == p[|p| - |q| + 1..]
                && p[|p| - |q|].lo <= q[0].lo <= q[0].hi == p[|p| - |q|].hi)
  }

  ghost predicate PieceOf(s: Span, p: seq<Span>) {
    exists k :: 0 <= k < |p| && p[k].lo <= s.lo <= s.hi <= p[k].hi
  }

  lemma TailPieces(q: seq<Span>, p: seq<Span>)
    requires TailOf(q, p) && forall k :: 0 <= k < |p| ==> p[k].lo <= p[k].hi
    ensures forall i :: 0 <= i < |q| ==> PieceOf(q[i], p)
  {
    forall i | 0 <= i < |q| ensures PieceOf(q[i], p) {
      var k := |p| - |q| + i;
      if i > 0 { assert q[i] == q[1..][i - 1] == p[k]; }
      assert p[k].lo <= q[i].lo <= q[i].hi <= p[k].hi;
    }
  }

  lemma TailShrinks(q: seq<Span>, r: seq<Span>, p: seq<Span>, cut: bool)
    requires q != [] && TailOf(q, p) && forall k :: 0 <= k < |p| ==> p[k].lo <= p[k].hi
    requires if cut then |r| == |q| && r[1..] == q[1..] && q[0].lo <= r[0].lo <= r[0].hi == q[0].hi else r == q[1..]
    ensures TailOf(r, p)
  {
    if !cut && r != [] { assert r[0] == p[|p| - |r|] && r[1..] == p[|p| - |q| + 1..][1..]; }
  }

  ghost predicate Peeling(heads: seq<Span>, rest: seq<Span>, plan: seq<Span>, small: nat, a: nat, at: nat, b: nat) {
    && TailOf(rest, plan) && Chain(heads, a, at) && Chain(rest, at, b)
    && forall i :: 0 <= i < |heads| ==> heads[i].hi < heads[i].lo + small && PieceOf(heads[i], plan) && CutHead(heads[i], plan, small)
  }

  /** A head piece has the small size, unless a piece of the plan ends with it. */
  ghost predicate CutHead(s: Span, plan: seq<Span>, small: nat) {
    s.hi + 1 == s.lo + small || exists k :: 0 <= k < |plan| && plan[k].hi == s.hi
  }

  /** The front piece of `c` that goes out, and what is left of the list. */
  function Front(c: Span, small: nat): Span
    requires small > 0
  {
    if SatSub(c.hi + 1, c.lo) <= small then c else Span(c.lo, c.lo + small - 1)
  }

  function Left(rest: seq<Span>, small: nat): seq<Span>
    requires rest != [] && small > 0
  {
    var cut := Front(rest[0], small);
    if cut == rest[0] then rest[1..] else [Span(cut.hi + 1, rest[0].hi)] + rest[1..]
  }

  lemma Peel(heads: seq<Span>, rest: seq<Span>, plan: seq<Span>, small: nat, a: nat, at: nat, b: nat)
    requires Peeling(heads, rest, plan, small, a, at, b) && rest != [] && small > 0
    requires forall k :: 0 <= k < |plan| ==> plan[k].lo <= plan[k].hi
    ensures var cut := Front(rest[0], small); Peeling(heads + [cut], Left(rest, small), plan, small, a, cut.hi + 1, b)
  {
    TailPieces(rest, plan);
    var c := rest[0];
    var cut, left := Front(c, small), Left(rest, small);
    assert [cut][1..] == [];
    assert PieceOf(c, plan);
    var k :| 0 <= k < |plan| && plan[k].lo <= c.lo <= c.hi <= plan[k].hi;
    assert plan[k].lo <= cut.lo <= cut.hi <= plan[k].hi;
    ChainConcat(heads, [cut], a, at, cut.hi + 1);
    assert cut != c ==> left[1..] == rest[1..];
    TailShrinks(rest, left, plan, cut != c);
  }

  lemma PeelEnds(heads: seq<Span>, rest: seq<Span>, plan: seq<Span>, small: nat, count: nat, a: nat, at: nat, b: nat)
    requires Peeling(heads, rest, plan, small, a, at, b) && |heads| <= count && (|heads| == count || rest == [])
    requires forall k :: 0 <= k < |plan| ==> plan[k].lo <= plan[k].hi
    ensures var out := heads + rest;
            && Chain(out, a, b)
            && (forall i :: 0 <= i < |out| && i < count ==> out[i].hi < out[i].lo + small && CutHead(out[i], plan, small))
            && (forall i :: 0 <= i < |out| ==> PieceOf(out[i], plan))
            && (|out| > count ==> TailOf(out[count..], plan))
  {
    TailPieces(rest, plan);
    ChainConcat(heads, rest, a, at, b);
    var out := heads + rest;
    assert |out| > count ==> out[count..] == rest;
    forall i | 0 <= i < |out| ensures PieceOf(out[i], plan) {
      if i < |heads| { assert out[i] == heads[i]; } else { assert out[i] == rest[i - |heads|]; }
    }
  }

  /** Peel `count` small pieces off the front; a chunk cut short leaves its
      remainder at the head of the rest, where it may be cut again. */
  method HeadZone(plan: seq<Span>, small: nat, count: nat, ghost a: nat, ghost b: nat) returns (out: seq<Span>)
    requires small > 0 && Chain(plan, a, b) && forall k :: 0 <= k < |plan| ==> plan[k].lo <= plan[k].hi
    ensures Chain(out, a, b)
    ensures forall i :: 0 <= i < |out| && i < count ==> out[i].hi < out[i].lo + small && CutHead(out[i], plan, small)
    ensures forall i :: 0 <= i < |out| ==> PieceOf(out[i], plan)
    ensures |out| > count ==> TailOf(out[count..], plan)
  {
    var heads, rest := [], plan;
    ghost var at: nat := a;
    while |heads| < count && |rest| > 0
      invariant |heads| <= count && Peeling(heads, rest, plan, small, a, at, b)
      decreases count - |heads|
    {
      Peel(heads, rest, plan, small, a, at, b);
      var cut := Front(rest[0], small);
      heads, rest, at := heads + [cut], Left(rest, small), cut.hi + 1;
    }
    PeelEnds(heads, rest, plan, small, count, a, at, b);
    out := heads + rest;
  }

  /** The plan of an in-memory stream: the whole range in order, every piece
      inside one volume and at most `split` long, the first `head.1` of them at
      most `head.0`. */
  method PlanWithHead(start: nat, end: nat, split: nat, volumes: Option<seq<Volume>>, head: Option<(nat, nat)>)
    returns (out: seq<Span>)
    requires Covers(volumes, end)
    ensures Chain(out, start, Max(start, end + 1)) && Pieces(volumes, out, Max(split, 1))
    ensures head.Some? && head.value.0 > 0 ==>
              forall i :: 0 <= i < |out| && i < head.value.1 ==> out[i].hi < out[i].lo + head.value.0
  {
    var plan := PlanChunks(start, end, split, volumes);
    if head.None? || head.value.0 == 0 || head.value.1 == 0 { return plan; }
    out := HeadZone(plan, head.value.0, head.value.1, start, Max(start, end + 1));
    forall i | 0 <= i < |out|
      ensures out[i].lo <= out[i].hi < out[i].lo + Max(split, 1) && InOneVolume(volumes, out[i])
    {
      PieceInVolume(volumes, plan, out[i], Max(split, 1));
    }
  }

  lemma PieceInVolume(volumes: Option<seq<Volume>>, plan: seq<Span>, s: Span, split: nat)
    requires Pieces(volumes, plan, split) && PieceOf(s, plan)
    ensures s.lo <= s.hi < s.lo + split && InOneVolume(volumes, s)
  {
    var k :| 0 <= k < |plan| && plan[k].lo <= s.lo <= s.hi <= plan[k].hi;
    assert InOneVolume(volumes, plan[k]);
    if volumes.Some? {
      var v :| 0 <= v < |volumes.value| && InVolume(volumes.value[v], plan[k]);
      assert InVolume(volumes.value[v], s);
    }
  }

  // ---- spans that straddle volumes ----

  /** The part of `[start, end]` inside one volume, if any. */
  function SliceOf(v: Volume, start: nat, end: nat): seq<Span> {
    var s, e := Max(start, v.offset), Min(end, SatSub(v.offset + v.size, 1));
    if v.size == 0 || v.offset + v.size <= start || v.offset > end || s > e then [] else [Span(s, e)]
  }

  /** The parts of `[start, end]` in the volumes from the i-th on. */
  function SlicesFrom(vols: seq<Volume>, i: nat, start: nat, end: nat): seq<Span>
    requires i <= |vols|
    decreases |vols| - i
  {
    if i == |vols| then [] else SliceOf(vols[i], start, end) + SlicesFrom(vols, i + 1, start, end)
  }

  /** A span cut at volume boundaries only; outside all volumes it stays as it is. */
  function Slices(volumes: Option<seq<Volume>>, start: nat, end: nat): seq<Span> {
    if volumes.None? || SlicesFrom(volumes.value, 0, start, end) == [] then [Span(start, end)]
    else SlicesFrom(volumes.value, 0, start, end)
  }

  /** One volume's part, put before what the later volumes contribute. */
  lemma SliceFirst(volumes: Option<seq<Volume>>, k: nat, rest: seq<Span>, start: nat, end: nat)
    requires volumes.Some? && k < |volumes.value| && start <= end && Pieces(volumes, rest, end - start + 1)
    requires var v := volumes.value[k]; Chain(rest, Min(Max(start, v.offset + v.size), end + 1), end + 1)
    ensures var r := SliceOf(volumes.value[k], start, end) + rest;
            Chain(r, Min(Max(start, volumes.value[k].offset), end + 1), end + 1) && Pieces(volumes, r, end - start + 1)
  {
    var v := volumes.value[k];
    var own := SliceOf(v, start, end);
    if own == [] {
      assert own + rest == rest;
    } else {
      FirstSlice(volumes, rest, start, end, k, own[0].lo, own[0].hi);
      assert own == [Span(own[0].lo, own[0].hi)];
    }
  }

  lemma {:induction false} SlicesFromLaw(volumes: Option<seq<Volume>>, i: nat, start: nat, end: nat, off: nat)
    requires volumes.Some? && i <= |volumes.value| && Tiled(volumes.value[i..], off) && start <= end
    requires end < off + TotalSize(volumes.value[i..])
    ensures Chain(SlicesFrom(volumes.value, i, start, end), Min(Max(start, off), end + 1), end + 1)
    ensures Pieces(volumes, SlicesFrom(volumes.value, i, start, end), end - start + 1)
    decreases |volumes.value| - i
  {
    var vols := volumes.value;
    if i < |vols| {
      var v := vols[i];
      assert vols[i..][0] == v && vols[i..][1..] == vols[i + 1..];
      if end < off + v.size {
        SlicesAfter(vols, i + 1, start, end, off + v.size);
      } else {
        SlicesFromLaw(volumes, i + 1, start, end, off + v.size);
      }
      SliceFirst(volumes, i, SlicesFrom(vols, i + 1, start, end), start, end);
    }
  }

  /** Volumes past the span contribute nothing. */
  lemma {:induction false} SlicesAfter(vols: seq<Volume>, i: nat, start: nat, end: nat, off: nat)
    requires i <= |vols| && Tiled(vols[i..], off) && end < off
    ensures SlicesFrom(vols, i, start, end) == []
    decreases |vols| - i
  {
    if i < |vols| {
      assert vols[i..][0] == vols[i] && vols[i..][1..] == vols[i + 1..];
      SlicesAfter(vols, i + 1, start, end, off + vols[i].size);
    }
  }

  lemma FirstSlice(volumes: Option<seq<Volume>>, rest: seq<Span>, start: nat, end: nat, k: nat, s: nat, e: nat)
    requires start <= s <= e <= end && Chain(rest, e + 1, end + 1) && Pieces(volumes, rest, end - start + 1)
    requires volumes.Some? && k < |volumes.value| && InVolume(volumes.value[k], Span(s, e))
    ensures Chain([Span(s, e)] + rest, s, end + 1) && Pieces(volumes, [Span(s, e)] + rest, end - start + 1)
  {
    assert ([Span(s, e)] + rest)[1..] == rest;
    AppendPieces(volumes, [], [Span(s, e)], end - start + 1, k, s, e);
    assert [] + [Span(s, e)] == [Span(s, e)];
    forall i | 0 <= i < |rest| + 1
      ensures var r := [Span(s, e)] + rest; r[i].lo <= r[i].hi < r[i].lo + (end - start + 1) && InOneVolume(volumes, r[i])
    {
      if i > 0 { assert ([Span(s, e)] + rest)[i] == rest[i - 1]; } else { assert [Span(s, e)][0] == Span(s, e); }
    }
  }

  /** The sub-spans cover the span exactly, each inside one volume. */
  lemma SlicesLaw(volumes: Option<seq<Volume>>, start: nat, end: nat)
    requires Covers(volumes, end) && start <= end
    ensures Chain(Slices(volumes, start, end), start, end + 1) && Pieces(volumes, Slices(volumes, start, end), end - start + 1)
  {
    if volumes.Some? {
      assert volumes.value[0..] == volumes.value;
      SlicesFromLaw(volumes, 0, start, end, 0);
    } else {
      assert [Span(start, end)][1..] == [];
    }
  }

  /** The same, volume by volume. */
  method SliceByVolumes(volumes: Option<seq<Volume>>, start: nat, end: nat) returns (out: seq<Span>)
    ensures out == Slices(volumes, start, end)
  {
    if volumes.None? { return [Span(start, end)]; }
    var vols := volumes.value;
    out := [];
    var i := 0;
    while i < |vols|
      invariant i <= |vols| && SlicesFrom(vols, 0, start, end) == out + SlicesFrom(vols, i, start, end)
    {
      out, i := out + SliceOf(vols[i], start, end), i + 1;
    }
    if out == [] { out := [Span(start, end)]; }
  }
}
