/** Byte sets, and the sorted interval list that holds work nobody owns. */
module Spans {
  const U64_MAX: nat := 0xFFFF_FFFF_FFFF_FFFF

  datatype Option<+T> = None | Some(value: T)

  /** A byte range with an inclusive end, as the scheduler stores it. */
  datatype Span = Span(lo: nat, hi: nat)

  function Min(a: nat, b: nat): nat { if a <= b then a else b }

  function Max(a: nat, b: nat): nat { if a <= b then b else a }

  function Sat(a: nat): nat { Min(a, U64_MAX) }

  function SatSub(a: nat, b: nat): nat { if a <= b then 0 else a - b }

  function DivCeil(a: nat, b: nat): nat
    requires b > 0
  {
    (a + b - 1) / b
  }

  /** Byte `x` lies in one of the spans. */
  ghost predicate Has(u: seq<Span>, x: nat) {
    u != [] && (u[0].lo <= x <= u[0].hi || Has(u[1..], x))
  }

  /** Sorted, non-empty, disjoint and non-adjacent. */
  ghost predicate Canonical(u: seq<Span>) {
    && (forall i :: 0 <= i < |u| ==> u[i].lo <= u[i].hi)
    && (forall i, j :: 0 <= i < j < |u| ==> u[i].hi + 1 < u[j].lo)
  }

  ghost predicate Bounded(u: seq<Span>, a: nat, b: nat) {
    forall i :: 0 <= i < |u| ==> a <= u[i].lo && u[i].hi <= b
  }

  function Total(u: seq<Span>): nat {
    if u == [] then 0 else (if u[0].lo <= u[0].hi then u[0].hi - u[0].lo + 1 else 0) + Total(u[1..])
  }

  lemma {:induction false} HasAt(u: seq<Span>, x: nat)
    ensures Has(u, x) <==> exists i :: 0 <= i < |u| && u[i].lo <= x <= u[i].hi
  {
    if u != [] {
      HasAt(u[1..], x);
      if i :| 0 <= i < |u[1..]| && u[1..][i].lo <= x <= u[1..][i].hi {
        assert u[i + 1].lo <= x <= u[i + 1].hi;
      }
      if i :| 0 <= i < |u| && u[i].lo <= x <= u[i].hi {
        if i > 0 { assert u[1..][i - 1] == u[i]; }
      }
    }
  }

  lemma {:induction false} HasConcat(a: seq<Span>, b: seq<Span>, x: nat)
    ensures Has(a + b, x) <==> Has(a, x) || Has(b, x)
  {
    if a == [] {
      assert a + b == b;
    } else {
      assert (a + b)[1..] == a[1..] + b;
      HasConcat(a[1..], b, x);
    }
  }

  lemma {:induction false} TotalAtLeast(u: seq<Span>, i: nat)
    requires i < |u| && u[i].lo <= u[i].hi
    ensures Total(u) >= u[i].hi - u[i].lo + 1
  {
    if i > 0 { TotalAtLeast(u[1..], i - 1); }
  }

  /** A run of bytes in a minimal list lies in a single span of it. */
  lemma {:induction false} RunInOneSpan(u: seq<Span>, a: nat, b: nat) returns (i: nat)
    requires Canonical(u) && a <= b
    requires forall x: nat :: a <= x <= b ==> Has(u, x)
    ensures i < |u| && u[i].lo <= a && b <= u[i].hi
    decreases b - a
  {
    if a == b {
      assert Has(u, a);
      HasAt(u, a);
      i :| 0 <= i < |u| && u[i].lo <= a <= u[i].hi;
    } else {
      i := RunInOneSpan(u, a, b - 1);
      assert Has(u, b);
      HasAt(u, b);
      var j: nat :| j < |u| && u[j].lo <= b <= u[j].hi;
    }
  }

  // ---- taking a range out ----

  /** What is left of one span once [s, e] is removed. */
  function Cut(c: Span, s: nat, e: nat): seq<Span> {
    if c.hi < s || c.lo > e then [c]
    else (if c.lo < s then [Span(c.lo, s - 1)] else []) + (if c.hi > e then [Span(e + 1, c.hi)] else [])
  }

  function CutAll(u: seq<Span>, s: nat, e: nat): seq<Span> {
    if u == [] then [] else Cut(u[0], s, e) + CutAll(u[1..], s, e)
  }

  function Subtract(u: seq<Span>, s: nat, e: nat): seq<Span> {
    if s > e then u else CutAll(u, s, e)
  }

  lemma CutAllStep(u: seq<Span>, i: nat, s: nat, e: nat, out: seq<Span>)
    requires i < |u|
    ensures out + CutAll(u[i..], s, e) == (out + Cut(u[i], s, e)) + CutAll(u[i + 1..], s, e)
  {
    assert u[i..][1..] == u[i + 1..];
  }

  lemma CutShape(c: Span, s: nat, e: nat)
    requires s <= e && c.lo <= c.hi
    ensures Canonical(Cut(c, s, e)) && Bounded(Cut(c, s, e), c.lo, c.hi)
  {
  }

  lemma JoinShape(p: seq<Span>, q: seq<Span>, a: nat, m: nat, b: nat)
    requires Canonical(p) && Bounded(p, a, m) && Canonical(q) && Bounded(q, m + 2, b) && a <= m <= b
    ensures Canonical(p + q) && Bounded(p + q, a, b)
  {
    var r: seq<Span> := p + q;
    forall i, j | 0 <= i < j < |r| ensures r[i].hi + 1 < r[j].lo {
      if i < |p| <= j { assert r[i] == p[i] && r[j] == q[j - |p|]; }
    }
  }

  lemma {:induction false} CutAllShape(u: seq<Span>, s: nat, e: nat, a: nat, b: nat)
    requires Canonical(u) && s <= e && Bounded(u, a, b)
    ensures Canonical(CutAll(u, s, e)) && Bounded(CutAll(u, s, e), a, b)
  {
    if u != [] {
      CutShape(u[0], s, e);
      CutAllShape(u[1..], s, e, u[0].hi + 2, b);
      JoinShape(Cut(u[0], s, e), CutAll(u[1..], s, e), u[0].lo, u[0].hi, b);
    }
  }

  lemma {:induction false} CutAllHas(u: seq<Span>, s: nat, e: nat, x: nat)
    requires s <= e
    ensures Has(CutAll(u, s, e), x) <==> Has(u, x) && !(s <= x <= e)
  {
    if u != [] {
      CutAllHas(u[1..], s, e, x);
      HasConcat(Cut(u[0], s, e), CutAll(u[1..], s, e), x);
      HasAt(Cut(u[0], s, e), x);
      if u[0].lo <= x <= u[0].hi && !(s <= x <= e) {
        var k := if u[0].lo < s && x > e && !(u[0].hi < s) then 1 else 0;
        assert Cut(u[0], s, e)[k].lo <= x <= Cut(u[0], s, e)[k].hi;
      }
    }
  }

  /** Removing a range removes exactly its bytes and keeps the list minimal. */
  lemma SubtractLaw(u: seq<Span>, s: nat, e: nat, a: nat, b: nat)
    requires Canonical(u) && Bounded(u, a, b)
    ensures Canonical(Subtract(u, s, e)) && Bounded(Subtract(u, s, e), a, b)
    ensures forall x: nat :: Has(Subtract(u, s, e), x) <==> Has(u, x) && !(s <= x <= e)
  {
    if s <= e {
      CutAllShape(u, s, e, a, b);
      forall x: nat ensures Has(CutAll(u, s, e), x) <==> Has(u, x) && !(s <= x <= e) { CutAllHas(u, s, e, x); }
    }
  }

  // ---- putting a range back ----

  /** The list after `push` and a sort by start: one new element in its place. */
  function InsertSorted(u: seq<Span>, c: Span): seq<Span> {
    if u == [] then [c]
    else if c.lo <= u[0].lo then [c] + u
    else [u[0]] + InsertSorted(u[1..], c)
  }

  lemma InsertSortedStep(u: seq<Span>, k: nat, c: Span)
    requires k < |u| && u[k].lo < c.lo
    ensures u[..k] + InsertSorted(u[k..], c) == u[..k + 1] + InsertSorted(u[k + 1..], c)
  {
    assert u[k..][1..] == u[k + 1..];
  }

  function Absorb(acc: seq<Span>, c: Span): seq<Span> {
    if acc != [] && c.lo <= Sat(acc[|acc| - 1].hi + 1)
    then acc[..|acc| - 1] + [Span(acc[|acc| - 1].lo, Max(acc[|acc| - 1].hi, c.hi))]
    else acc + [c]
  }

  function MergeAll(acc: seq<Span>, rest: seq<Span>): seq<Span>
    decreases |rest|
  {
    if rest == [] then acc else MergeAll(Absorb(acc, rest[0]), rest[1..])
  }

  lemma MergeAllStep(acc: seq<Span>, u: seq<Span>, j: nat)
    requires j < |u|
    ensures MergeAll(acc, u[j..]) == MergeAll(Absorb(acc, u[j]), u[j + 1..])
  {
    assert u[j..][1..] == u[j + 1..];
  }

  function Insert(u: seq<Span>, s: nat, e: nat): seq<Span> {
    if s > e then u else MergeAll([], InsertSorted(u, Span(s, e)))
  }

  ghost predicate SortedByStart(u: seq<Span>) {
    && (forall i :: 0 <= i < |u| ==> u[i].lo <= u[i].hi < U64_MAX)
    && (forall i, j :: 0 <= i < j < |u| ==> u[i].lo <= u[j].lo)
  }

  lemma {:induction false} InsertSortedShape(u: seq<Span>, c: Span, a: nat, b: nat)
    requires SortedByStart(u) && c.lo <= c.hi < U64_MAX && Bounded(u, a, b) && a <= c.lo && c.hi <= b
    ensures SortedByStart(InsertSorted(u, c)) && Bounded(InsertSorted(u, c), a, b)
  {
    if u != [] && c.lo > u[0].lo {
      assert Bounded(u[1..], u[0].lo, Max(b, U64_MAX));
      InsertSortedShape(u[1..], c, u[0].lo, Max(b, U64_MAX));
      InsertSortedShape(u[1..], c, a, b);
    }
  }

  lemma {:induction false} InsertSortedHas(u: seq<Span>, c: Span, x: nat)
    ensures Has(InsertSorted(u, c), x) <==> Has(u, x) || c.lo <= x <= c.hi
  {
    var r := InsertSorted(u, c);
    if u == [] {
      assert r[1..] == [];
    } else if c.lo <= u[0].lo {
      assert r[1..] == u;
    } else {
      InsertSortedHas(u[1..], c, x);
      assert r[1..] == InsertSorted(u[1..], c);
    }
  }

  ghost predicate Room(acc: seq<Span>, c: Span) {
    acc != [] ==> acc[|acc| - 1].lo <= c.lo && acc[|acc| - 1].hi < U64_MAX
  }

  lemma AbsorbShape(acc: seq<Span>, c: Span, a: nat, b: nat)
    requires Canonical(acc) && Bounded(acc, a, b) && c.lo <= c.hi < U64_MAX && a <= c.lo && c.hi <= b && Room(acc, c)
    ensures Canonical(Absorb(acc, c)) && Bounded(Absorb(acc, c), a, b)
    ensures var r := Absorb(acc, c); r != [] && r[|r| - 1].lo <= c.lo && r[|r| - 1].hi < U64_MAX
  {
  }

  lemma AbsorbHas(acc: seq<Span>, c: Span, x: nat)
    requires c.lo <= c.hi && Room(acc, c)
    ensures Has(Absorb(acc, c), x) <==> Has(acc, x) || c.lo <= x <= c.hi
  {
    if acc != [] && c.lo <= acc[|acc| - 1].hi + 1 {
      var k := |acc| - 1;
      var m := Span(acc[k].lo, Max(acc[k].hi, c.hi));
      HasConcat(acc[..k], [acc[k]], x);
      assert acc == acc[..k] + [acc[k]];
      HasConcat(acc[..k], [m], x);
      assert [acc[k]][1..] == [] && [m][1..] == [];
    } else {
      HasConcat(acc, [c], x);
      assert [c][1..] == [];
    }
  }

  lemma {:induction false} MergeShape(acc: seq<Span>, rest: seq<Span>, a: nat, b: nat)
    requires Canonical(acc) && Bounded(acc, a, b) && SortedByStart(rest) && Bounded(rest, a, b)
    requires rest != [] ==> Room(acc, rest[0])
    ensures Canonical(MergeAll(acc, rest)) && Bounded(MergeAll(acc, rest), a, b)
    decreases |rest|
  {
    if rest != [] {
      AbsorbShape(acc, rest[0], a, b);
      MergeShape(Absorb(acc, rest[0]), rest[1..], a, b);
    }
  }

  lemma {:induction false} MergeHas(acc: seq<Span>, rest: seq<Span>, x: nat, b: nat)
    requires Canonical(acc) && Bounded(acc, 0, b) && SortedByStart(rest) && Bounded(rest, 0, b)
    requires rest != [] ==> Room(acc, rest[0])
    ensures Has(MergeAll(acc, rest), x) <==> Has(acc, x) || Has(rest, x)
    decreases |rest|
  {
    if rest != [] {
      AbsorbShape(acc, rest[0], 0, b);
      AbsorbHas(acc, rest[0], x);
      MergeHas(Absorb(acc, rest[0]), rest[1..], x, b);
    }
  }

  /** Giving a range back adds exactly its bytes and keeps the list minimal. */
  lemma InsertLaw(u: seq<Span>, s: nat, e: nat, a: nat, b: nat)
    requires Canonical(u) && Bounded(u, a, b) && b < U64_MAX
    requires s <= e ==> a <= s && e <= b
    ensures Canonical(Insert(u, s, e)) && Bounded(Insert(u, s, e), a, b)
    ensures forall x: nat :: Has(Insert(u, s, e), x) <==> Has(u, x) || s <= x <= e
  {
    if s <= e {
      var r := InsertSorted(u, Span(s, e));
      InsertSortedShape(u, Span(s, e), a, b);
      MergeShape([], r, a, b);
      forall x: nat ensures Has(MergeAll([], r), x) <==> Has(u, x) || s <= x <= e {
        InsertSortedHas(u, Span(s, e), x);
        MergeHas([], r, x, b);
      }
    }
  }
}
