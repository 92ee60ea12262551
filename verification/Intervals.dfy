/** The per-block list of written byte ranges: half-open, sorted, with a gap
    between any two. */
module Intervals {
  import opened Spans

  /** `[lo, hi)`, relative to the start of its block. */
  datatype Iv = Iv(lo: nat, hi: nat)

  ghost predicate In(s: seq<Iv>, x: nat) { exists i :: 0 <= i < |s| && s[i].lo <= x < s[i].hi }

  /** Sorted, non-empty, and no two overlap or touch. */
  ghost predicate Merged(s: seq<Iv>) {
    && (forall i :: 0 <= i < |s| ==> s[i].lo < s[i].hi)
    && (forall i, j :: 0 <= i < j < |s| ==> s[i].hi < s[j].lo)
  }

  ghost predicate Below(s: seq<Iv>, m: nat) { forall i :: 0 <= i < |s| ==> s[i].hi <= m }

  /** Insert `[lo, hi)`, swallowing every range it overlaps or touches. */
  method MergeInterval(s: seq<Iv>, lo: nat, hi: nat) returns (r: seq<Iv>)
    requires Merged(s)
    ensures Merged(r)
    ensures forall x: nat :: In(r, x) <==> In(s, x) || lo <= x < hi
    ensures forall m: nat :: hi <= m && Below(s, m) ==> Below(r, m)
  {
    if hi <= lo { return s; }
    var i := 0;
    while i < |s| && s[i].hi < lo
      invariant i <= |s| && forall k :: 0 <= k < i ==> s[k].hi < lo
    {
      i := i + 1;
    }
    if i == |s| || s[i].lo > hi {
      r := s[..i] + [Iv(lo, hi)] + s[i..];
      Placed(s, i, i, lo, hi, lo, hi);
      return;
    }
    var mergedLo, mergedHi := Min(s[i].lo, lo), Max(s[i].hi, hi);
    var j := i + 1;
    while j < |s| && s[j].lo <= mergedHi
      invariant i < j <= |s| && mergedLo == Min(s[i].lo, lo) && mergedHi == Max(s[j - 1].hi, hi)
      invariant forall k :: i < k < j ==> s[k].lo <= hi
    {
      mergedHi := Max(mergedHi, s[j].hi);
      mergedLo := Min(mergedLo, s[j].lo);
      j := j + 1;
    }
    r := s[..i] + [Iv(mergedLo, mergedHi)] + s[j..];
    Placed(s, i, j, lo, hi, mergedLo, mergedHi);
  }

  /** The window `[a, b)` takes the place of `s[i..j]`. */
  ghost predicate Window(s: seq<Iv>, i: nat, j: nat, lo: nat, hi: nat, a: nat, b: nat) {
    && i <= j <= |s| && lo < hi
    && (if i == j then a == lo && b == hi else a == Min(s[i].lo, lo) && b == Max(s[j - 1].hi, hi))
    && (i < j ==> lo <= s[i].hi && s[j - 1].lo <= hi)
  }

  lemma MergedConcat(p: seq<Iv>, q: seq<Iv>)
    requires Merged(p) && Merged(q) && (p != [] && q != [] ==> p[|p| - 1].hi < q[0].lo)
    ensures Merged(p + q)
  {
    var r := p + q;
    forall i, j | 0 <= i < j < |r| ensures r[i].hi < r[j].lo {
      if i < |p| <= j { assert r[i] == p[i] && r[j] == q[j - |p|] && p[i].hi <= p[|p| - 1].hi && q[0].lo <= r[j].lo; }
    }
  }

  lemma PlacedShape(s: seq<Iv>, i: nat, j: nat, lo: nat, hi: nat, a: nat, b: nat)
    requires Merged(s) && Window(s, i, j, lo, hi, a, b)
    requires (forall k :: 0 <= k < i ==> s[k].hi < lo) && (j < |s| ==> b < s[j].lo)
    ensures Merged(s[..i] + [Iv(a, b)] + s[j..])
  {
    var mid := [Iv(a, b)];
    assert i > 0 && i < |s| ==> s[i - 1].hi < s[i].lo;
    MergedConcat(s[..i], mid);
    MergedConcat(s[..i] + mid, s[j..]);
  }

  lemma PlacedBelow(s: seq<Iv>, i: nat, j: nat, lo: nat, hi: nat, a: nat, b: nat, m: nat)
    requires Window(s, i, j, lo, hi, a, b) && hi <= m && Below(s, m)
    ensures Below(s[..i] + [Iv(a, b)] + s[j..], m)
  {
    var r := s[..i] + [Iv(a, b)] + s[j..];
    forall k | 0 <= k < |r| ensures r[k].hi <= m {
      if k < i { assert r[k] == s[k]; } else if k > i { assert r[k] == s[j + (k - i - 1)]; }
    }
  }

  lemma Placed(s: seq<Iv>, i: nat, j: nat, lo: nat, hi: nat, a: nat, b: nat)
    requires Merged(s) && Window(s, i, j, lo, hi, a, b)
    requires (forall k :: 0 <= k < i ==> s[k].hi < lo) && (j < |s| ==> b < s[j].lo)
    ensures var r := s[..i] + [Iv(a, b)] + s[j..];
            && Merged(r)
            && (forall x: nat :: In(r, x) <==> In(s, x) || lo <= x < hi)
            && forall m: nat :: hi <= m && Below(s, m) ==> Below(r, m)
  {
    PlacedShape(s, i, j, lo, hi, a, b);
    forall m: nat | hi <= m && Below(s, m) ensures Below(s[..i] + [Iv(a, b)] + s[j..], m) { PlacedBelow(s, i, j, lo, hi, a, b, m); }
    forall x: nat ensures In(s[..i] + [Iv(a, b)] + s[j..], x) <==> In(s, x) || lo <= x < hi {
      PlacedAt(s, i, j, lo, hi, a, b, x);
    }
  }

  lemma PlacedAt(s: seq<Iv>, i: nat, j: nat, lo: nat, hi: nat, a: nat, b: nat, x: nat)
    requires Merged(s) && Window(s, i, j, lo, hi, a, b)
    ensures In(s[..i] + [Iv(a, b)] + s[j..], x) <==> In(s, x) || lo <= x < hi
  {
    var mid := [Iv(a, b)];
    InConcat(s[..i] + mid, s[j..], x);
    InConcat(s[..i], mid, x);
    assert In(mid, x) <==> a <= x < b by { assert mid[0] == Iv(a, b); }
    InConcat(s[..i], s[i..j], x);
    InConcat(s[..i] + s[i..j], s[j..], x);
    assert s == s[..i] + s[i..j] + s[j..];
    Swallowed(s, i, j, lo, hi, a, b, x);
  }

  lemma InConcat(s: seq<Iv>, t: seq<Iv>, x: nat)
    ensures In(s + t, x) <==> In(s, x) || In(t, x)
  {
    if i :| 0 <= i < |s| && s[i].lo <= x < s[i].hi { assert (s + t)[i] == s[i]; }
    if i :| 0 <= i < |t| && t[i].lo <= x < t[i].hi { assert (s + t)[|s| + i] == t[i]; }
  }

  /** The merged window is exactly the swallowed ranges and the new one. */
  lemma Swallowed(s: seq<Iv>, i: nat, j: nat, lo: nat, hi: nat, a: nat, b: nat, x: nat)
    requires Merged(s) && Window(s, i, j, lo, hi, a, b)
    ensures a <= x < b <==> In(s[i..j], x) || lo <= x < hi
  {
    var w := s[i..j];
    if i < j { assert w[0] == s[i] && w[j - 1 - i] == s[j - 1]; }
    if k :| 0 <= k < |w| && w[k].lo <= x < w[k].hi {
      assert w[k] == s[i + k] && (k > 0 ==> s[i].hi < s[i + k].lo) && (i + k < j - 1 ==> s[i + k].hi < s[j - 1].lo);
    }
  }

  /** A minimal list covers a block exactly when it is the one range that does. */
  predicate Covers(s: seq<Iv>, len: nat) { |s| == 1 && s[0].lo == 0 && s[0].hi >= len }

  lemma {:induction false} RunInOne(s: seq<Iv>, a: nat, b: nat) returns (i: nat)
    requires Merged(s) && a < b && forall x: nat :: a <= x < b ==> In(s, x)
    ensures i < |s| && s[i].lo <= a && b <= s[i].hi
    decreases b - a
  {
    assert In(s, b - 1);
    if a + 1 == b {
      i :| 0 <= i < |s| && s[i].lo <= a < s[i].hi;
    } else {
      i := RunInOne(s, a, b - 1);
      var j :| 0 <= j < |s| && s[j].lo <= b - 1 < s[j].hi;
    }
  }

  lemma FullCovers(s: seq<Iv>, len: nat)
    requires Merged(s) && Below(s, len) && len > 0 && forall x: nat :: x < len ==> In(s, x)
    ensures Covers(s, len)
  {
    assert |s| > 1 ==> s[0].hi < s[1].lo < s[1].hi <= len;
    var i := RunInOne(s, 0, len);
  }

  lemma CoversLaw(s: seq<Iv>, len: nat)
    requires Merged(s) && Below(s, len) && len > 0
    ensures Covers(s, len) <==> forall x: nat :: x < len ==> In(s, x)
  {
    if Covers(s, len) {
      forall x: nat | x < len ensures In(s, x) { assert s[0].lo <= x < s[0].hi; }
    } else if forall x: nat :: x < len ==> In(s, x) {
      FullCovers(s, len);
      assert false;
    }
  }

  /** Where the run holding `x` ends; `x` itself when it is not covered. The scan
      stops at the first range that starts past `x`. */
  function CoveredTo(s: seq<Iv>, x: nat): nat {
    if s == [] || s[0].lo > x then x else if x < s[0].hi then s[0].hi else CoveredTo(s[1..], x)
  }

  lemma {:induction false} CoveredToLaw(s: seq<Iv>, x: nat)
    requires Merged(s)
    ensures CoveredTo(s, x) >= x && (CoveredTo(s, x) > x <==> In(s, x))
    ensures forall y: nat :: x <= y < CoveredTo(s, x) ==> In(s, y)
    ensures !In(s, CoveredTo(s, x))
    ensures forall m: nat :: x <= m && Below(s, m) ==> CoveredTo(s, x) <= m
  {
    if s == [] || s[0].lo > x {
    } else if x < s[0].hi {
      forall y: nat | x <= y < s[0].hi ensures In(s, y) { assert s[0].lo <= y < s[0].hi; }
    } else {
      CoveredToLaw(s[1..], x);
      forall y: nat | y >= x ensures In(s, y) <==> In(s[1..], y) { TailIn(s, y); }
      forall m: nat | Below(s, m) ensures Below(s[1..], m) {}
    }
  }

  lemma TailIn(s: seq<Iv>, y: nat)
    requires s != [] && y >= s[0].hi
    ensures In(s, y) <==> In(s[1..], y)
  {
    if i :| 0 <= i < |s| && s[i].lo <= y < s[i].hi { assert s[1..][i - 1] == s[i]; }
    if i :| 0 <= i < |s[1..]| && s[1..][i].lo <= y < s[1..][i].hi { assert s[i + 1].lo <= y < s[i + 1].hi; }
  }

  /** The list is determined by the bytes it holds. */
  lemma {:induction false} MergedUnique(s: seq<Iv>, t: seq<Iv>)
    requires Merged(s) && Merged(t) && forall x: nat :: In(s, x) <==> In(t, x)
    ensures s == t
    decreases |s|
  {
    if s == [] {
      if t != [] { assert In(t, t[0].lo); }
    } else {
      assert In(s, s[0].lo);
      assert In(t, s[0].lo);
      assert In(t, t[0].lo);
      FirstLow(s, t[0].lo);
      FirstLow(t, s[0].lo);
      CoveredToLaw(s, s[0].lo);
      CoveredToLaw(t, t[0].lo);
      assert s[0].hi == t[0].hi;
      forall x: nat ensures In(s[1..], x) <==> In(t[1..], x) { DropFirst(s, x); DropFirst(t, x); }
      MergedUnique(s[1..], t[1..]);
    }
  }

  lemma FirstLow(s: seq<Iv>, x: nat)
    requires Merged(s) && In(s, x)
    ensures s[0].lo <= x
  {
  }

  lemma DropFirst(s: seq<Iv>, x: nat)
    requires s != [] && Merged(s)
    ensures In(s[1..], x) <==> In(s, x) && x >= s[0].hi
  {
    if i :| 0 <= i < |s| && s[i].lo <= x < s[i].hi { if i > 0 { assert s[1..][i - 1] == s[i]; } }
    if i :| 0 <= i < |s[1..]| && s[1..][i].lo <= x < s[1..][i].hi { assert s[i + 1].lo <= x < s[i + 1].hi; }
  }
}
