/** The sparse staging file: a block bitmap, per-block interval lists for the
    blocks still being filled, and the data file itself, all of them agreeing
    with one plain set of written bytes. */
module Cache {
  import opened Spans
  import opened Intervals
  import opened RunModel

  // ---- geometry ----

  datatype Geometry = Geometry(total: nat, bs: nat) {
    predicate Ok() { bs > 0 }

    function Blocks(): nat
      requires Ok()
    {
      DivCeil(total, bs)
    }

    /** The block byte `x` lies in. */
    function Index(x: nat): nat
      requires Ok()
    {
      x / bs
    }

    function Start(b: nat): nat { b * bs }

    /** One past the block's last byte; the last block may be short. */
    function End(b: nat): nat { Min((b + 1) * bs, total) }

    function Len(b: nat): nat { SatSub(End(b), Start(b)) }
  }

  lemma MulMono(a: nat, b: nat, c: nat)
    requires a <= b
    ensures a * c <= b * c
  {
  }

  lemma DivLaw(x: nat, d: nat)
    requires d > 0
    ensures (x / d) * d <= x < (x / d + 1) * d
  {
  }

  /** Byte `x` lies in block `x / bs` and in no other. */
  lemma BlockOf(g: Geometry, x: nat, b: nat)
    requires g.Ok() && x < g.total
    ensures x / g.bs < g.Blocks()
    ensures b == x / g.bs <==> g.Start(b) <= x < g.End(b)
    ensures b < x / g.bs ==> g.End(b) <= x
    ensures b > x / g.bs ==> x < g.Start(b)
  {
    DivLaw(x, g.bs);
    DivLaw(g.total + g.bs - 1, g.bs);
    var k := x / g.bs;
    if k >= g.Blocks() { MulMono(g.Blocks(), k, g.bs); }
    if b < k { MulMono(b + 1, k, g.bs); }
    if b > k { MulMono(k + 1, b, g.bs); }
  }

  lemma BlockShape(g: Geometry, b: nat)
    requires g.Ok() && b < g.Blocks()
    ensures g.Start(b) < g.End(b) <= g.total && g.Start(b) + g.Len(b) == g.End(b)
    ensures b + 1 < g.Blocks() ==> g.Start(b + 1) == g.End(b)
    ensures b + 1 == g.Blocks() ==> g.End(b) == g.total
  {
    DivLaw(g.total + g.bs - 1, g.bs);
    MulMono(b + 1, g.Blocks(), g.bs);
    if b + 1 < g.Blocks() { MulMono(b + 2, g.Blocks(), g.bs); }
  }

  // ---- the bitmap ----

  /** `1 << k` */
  function Mask(k: nat): bv8
    requires k < 8
  {
    match k case 0 => 1 case 1 => 2 case 2 => 4 case 3 => 8 case 4 => 16 case 5 => 32 case 6 => 64 case 7 => 128
  }

  lemma MaskLaw(x: bv8, j: nat, k: nat)
    requires j < 8 && k < 8
    ensures (x | Mask(j)) & Mask(k) != 0 <==> j == k || x & Mask(k) != 0
    ensures (0 as bv8) & Mask(k) == 0
  {
  }

  /** Bits past the end of the bitmap read as unset. */
  function Bit(bm: seq<bv8>, b: nat): bool { b / 8 < |bm| && bm[b / 8] & Mask(b % 8) != 0 }

  function SetBit(bm: seq<bv8>, b: nat): seq<bv8>
    requires b / 8 < |bm|
  {
    bm[b / 8 := bm[b / 8] | Mask(b % 8)]
  }

  lemma SamePlace(a: nat, b: nat)
    ensures a == b <==> a / 8 == b / 8 && a % 8 == b % 8
  {
  }

  lemma SetBitAt(bm: seq<bv8>, b: nat, k: nat)
    requires b / 8 < |bm|
    ensures Bit(SetBit(bm, b), k) <==> k == b || Bit(bm, k)
  {
    SamePlace(k, b);
    if k / 8 == b / 8 {
      MaskLaw(bm[b / 8], b % 8, k % 8);
    } else {
      assert k / 8 < |bm| ==> SetBit(bm, b)[k / 8] == bm[k / 8];
    }
  }

  lemma SetBitLaw(bm: seq<bv8>, b: nat)
    requires b / 8 < |bm|
    ensures forall k: nat :: Bit(SetBit(bm, b), k) <==> k == b || Bit(bm, k)
  {
    forall k: nat ensures Bit(SetBit(bm, b), k) <==> k == b || Bit(bm, k) { SetBitAt(bm, b, k); }
  }

  /** Bytes in complete blocks among the first `n`. */
  function DoneBytes(g: Geometry, bm: seq<bv8>, n: nat): nat {
    if n == 0 then 0 else DoneBytes(g, bm, n - 1) + (if Bit(bm, n - 1) then g.Len(n - 1) else 0)
  }

  lemma DoneStep(g: Geometry, bm: seq<bv8>, n: nat, bit: bool, len: nat)
    requires n > 0 && bit == Bit(bm, n - 1) && len == g.Len(n - 1)
    ensures DoneBytes(g, bm, n) == DoneBytes(g, bm, n - 1) + if bit then len else 0
  {
  }

  lemma {:induction false} DoneBytesSet(g: Geometry, bm: seq<bv8>, after: seq<bv8>, b: nat, n: nat)
    requires !Bit(bm, b) && forall k: nat :: Bit(after, k) <==> k == b || Bit(bm, k)
    ensures DoneBytes(g, after, n) == DoneBytes(g, bm, n) + if b < n then g.Len(b) else 0
  {
    if n > 0 {
      DoneBytesSet(g, bm, after, b, n - 1);
      var bit := Bit(bm, n - 1);
      DoneStep(g, bm, n, bit, g.Len(n - 1));
      DoneStep(g, after, n, n - 1 == b || bit, g.Len(n - 1));
    }
  }

  // ---- what a block's record says ----

  /** A set bit means the whole block is written; otherwise the interval list is
      the minimal form of exactly the block's written bytes, and not all of it. */
  ghost predicate BlockOk(g: Geometry, b: nat, bit: bool, ivs: seq<Iv>, w: set<nat>) {
    if bit then ivs == [] && forall x: nat :: g.Start(b) <= x < g.End(b) ==> x in w
    else
      && Merged(ivs) && Below(ivs, g.Len(b)) && !Covers(ivs, g.Len(b))
      && forall x: nat :: g.Start(b) <= x < g.End(b) ==> (x in w <==> In(ivs, x - g.Start(b)))
  }

  /** The bit of a block says exactly whether all of it has been written. */
  lemma BitIffWritten(g: Geometry, b: nat, bit: bool, ivs: seq<Iv>, w: set<nat>)
    requires g.Ok() && b < g.Blocks() && BlockOk(g, b, bit, ivs, w)
    ensures bit <==> forall x: nat :: g.Start(b) <= x < g.End(b) ==> x in w
  {
    BlockShape(g, b);
    if !bit && forall x: nat :: g.Start(b) <= x < g.End(b) ==> x in w {
      forall y: nat | y < g.Len(b) ensures In(ivs, y) { assert g.Start(b) + y in w; }
      FullCovers(ivs, g.Len(b));
      assert false;
    }
  }

  /** Two records of the same block and the same written bytes are identical. */
  lemma RecordUnique(g: Geometry, b: nat, bit: bool, ivs: seq<Iv>, bit': bool, ivs': seq<Iv>, w: set<nat>)
    requires g.Ok() && b < g.Blocks() && BlockOk(g, b, bit, ivs, w) && BlockOk(g, b, bit', ivs', w)
    ensures bit == bit' && ivs == ivs'
  {
    BitIffWritten(g, b, bit, ivs, w);
    BitIffWritten(g, b, bit', ivs', w);
    if !bit {
      BlockShape(g, b);
      forall y: nat ensures In(ivs, y) <==> In(ivs', y) {
        if y < g.Len(b) { assert g.Start(b) + y in w <==> In(ivs, y); }
      }
      MergedUnique(ivs, ivs');
    }
  }

  lemma BlockElsewhere(g: Geometry, b: nat, bit: bool, ivs: seq<Iv>, w: set<nat>, w': set<nat>)
    requires BlockOk(g, b, bit, ivs, w) && forall x: nat :: g.Start(b) <= x < g.End(b) ==> (x in w <==> x in w')
    ensures BlockOk(g, b, bit, ivs, w')
  {
  }

  ghost predicate Recorded(g: Geometry, bm: seq<bv8>, partial: seq<seq<Iv>>, k: nat, w: set<nat>)
    requires k < |partial|
  {
    BlockOk(g, k, Bit(bm, k), partial[k], w)
  }

  /** The data file once `data` has been written at offset `at`. */
  function Put(file: map<nat, Byte>, at: nat, data: seq<Byte>): map<nat, Byte>
    decreases |data|
  {
    if data == [] then file else Put(file[at := data[0]], at + 1, data[1..])
  }

  lemma {:induction false} PutLaw(file: map<nat, Byte>, at: nat, data: seq<Byte>)
    ensures forall x: nat :: x in Put(file, at, data) <==> x in file || at <= x < at + |data|
    ensures forall x: nat :: x in Put(file, at, data) ==>
              Put(file, at, data)[x] == if at <= x < at + |data| then data[x - at] else file[x]
    decreases |data|
  {
    if data != [] { PutLaw(file[at := data[0]], at + 1, data[1..]); }
  }

  ghost predicate Consistent(g: Geometry, bm: seq<bv8>, partial: seq<seq<Iv>>, w: set<nat>) {
    && g.Ok() && |partial| == g.Blocks() && |bm| >= DivCeil(g.Blocks(), 8)
    && (forall b: nat :: b < g.Blocks() ==> Recorded(g, bm, partial, b, w))
  }

  lemma WrittenInFile(g: Geometry, file: map<nat, Byte>, w: set<nat>, start: nat, data: seq<Byte>)
    requires forall x: nat :: x in w ==> x < g.total && x in file
    ensures forall x: nat :: x in w + Interval(start, Min(start + |data|, g.total)) ==> x < g.total && x in Put(file, start, data)
  {
    var more, after := Interval(start, Min(start + |data|, g.total)), Put(file, start, data);
    PutLaw(file, start, data);
    forall x: nat | x in w + more ensures x < g.total && x in after {
      assert x in w || x in more;
    }
  }

  class CacheEntry {
    const g: Geometry
    var file: map<nat, Byte>
    var bitmap: seq<bv8>
    var partial: seq<seq<Iv>>
    var bytesCached: nat
    var bytesWritten: nat
    ghost var written: set<nat>

    ghost predicate Valid()
      reads this
    {
      && Consistent(g, bitmap, partial, written)
      && forall x: nat :: x in written ==> x < g.total && x in file
    }

    /** How far the count of cached bytes is above that of the complete blocks' bytes. */
    ghost function Surplus(): int
      reads this
      requires Valid()
    {
      bytesCached - DoneBytes(g, bitmap, g.Blocks())
    }

    /** An entry with nothing written yet. */
    constructor (g: Geometry, blank: map<nat, Byte>)
      requires g.Ok()
      ensures Valid() && this.g == g && written == {} && file == blank && bytesCached == Surplus() == 0
    {
      this.g := g;
      file := blank;
      bitmap := seq(DivCeil(g.Blocks(), 8), i => 0);
      partial := seq(g.Blocks(), i => []);
      bytesCached, bytesWritten := 0, 0;
      written := {};
      new;
      BlankEntry(g, bitmap, partial);
    }

    /** An entry found on disk: its bitmap, padded if it is short, and no record of
        blocks that were being filled. What it holds is the complete blocks. */
    constructor Reopen(g: Geometry, file: map<nat, Byte>, persisted: seq<bv8>)
      requires g.Ok()
      requires forall x: nat :: x in Complete(g, persisted) ==> x in file
      ensures Valid() && this.g == g && this.file == file && written == Complete(g, persisted)
      ensures forall b: nat :: Bit(bitmap, b) == Bit(persisted, b)
      ensures bytesCached == ReopenedBytes(g, bitmap) && Surplus() >= 0
    {
      var short := SatSub(DivCeil(g.Blocks(), 8), |persisted|);
      this.g := g;
      this.file := file;
      bitmap := persisted + seq(short, i => 0);
      partial := seq(g.Blocks(), i => []);
      bytesCached, bytesWritten := ReopenedBytes(g, persisted + seq(short, i => 0)), 0;
      written := Complete(g, persisted);
      new;
      PaddedBits(persisted, bitmap, short);
      ReopenedEntry(g, persisted, bitmap, partial);
      ReopenedCount(g, bitmap);
    }

    /** Write `data` in place and record, block by block, what it covers of the
        file. What lies past the file's end is written but not recorded. */
    method WriteRange(start: nat, data: seq<Byte>)
      requires Valid()
      modifies this
      ensures Valid() && written == old(written) + Interval(start, Min(start + |data|, g.total))
      ensures file == if g.total == 0 then old(file) else Put(old(file), start, data)
      ensures bytesWritten == old(bytesWritten) + if g.total == 0 then 0 else |data|
      ensures Surplus() == old(Surplus())
    {
      if |data| == 0 || g.total == 0 { return; }
      WrittenInFile(g, file, written, start, data);
      file := Put(file, start, data);
      bytesWritten := bytesWritten + |data|;
      var bm, ps, marked := Record(g, bitmap, partial, start, start + |data| - 1, written);
      bitmap, partial, bytesCached := bm, ps, bytesCached + marked;
      written := written + Interval(start, Min(start + |data|, g.total));
    }

    /** How many bytes can be read from `offset` on, up to `limit`. */
    method ContiguousFrom(offset: nat, limit: nat) returns (avail: nat)
      requires Valid()
      ensures avail == RunLength(written, offset, limit)
    {
      if limit == 0 || g.total == 0 || offset >= g.total {
        RunLengthIs(written, offset, limit, 0);
        return 0;
      }
      var cap := Min(limit, g.total - offset);
      avail := 0;
      while avail < cap
        invariant avail <= cap && forall x: nat :: offset <= x < offset + avail ==> x in written
      {
        BlockOf(g, offset + avail, g.Index(offset + avail));
        RunInBlockLaw(g, bitmap, partial, written, offset + avail, g.Index(offset + avail));
        var (covered, toEnd) := RunInBlock(g, bitmap, partial, offset + avail);
        if covered == 0 { break; }
        avail := avail + Min(covered, cap - avail);
        if !toEnd { break; }
      }
      RunLengthIs(written, offset, limit, avail);
    }

    /** The runs on disk inside `[start, end]`, found by walking from run to run
        and, across a hole, from block boundary to block boundary. */
    method StagedRanges(start: nat, end: nat) returns (out: seq<Span>)
      requires Valid()
      ensures Canonical(out) && Bounded(out, start, end)
      ensures forall x: nat :: Has(out, x) <==> x <= end && Anchored(g, written, start, x)
    {
      out := [];
      if start > end {
        NothingAnchored(g, written, start, end);
        return;
      }
      var cur := start;
      while cur <= end
        invariant start <= cur && StagedTo(g, written, out, start, end, cur)
        decreases end + 1 - cur
      {
        var n := ContiguousFrom(cur, end - cur + 1);
        if n > 0 {
          StagedRun(g, written, out, start, end, cur, n);
          out, cur := out + [Span(cur, cur + n - 1)], cur + n;
        } else {
          StagedHole(g, written, out, start, end, cur);
          cur := (cur / g.bs + 1) * g.bs;
        }
      }
      StagedAll(g, written, out, start, end, cur);
    }
  }

  // ---- the runs a walk over the bitmap finds ----

  predicate Stop(g: Geometry, start: nat, y: nat)
    requires g.Ok()
  {
    y == start || y == g.Start(y / g.bs)
  }

  ghost predicate Solid(w: set<nat>, y: nat, x: nat) { forall z: nat :: y <= z <= x ==> z in w }

  /** Everything from the start, or from a block boundary, up to `x` is written. */
  ghost predicate Anchored(g: Geometry, w: set<nat>, start: nat, x: nat)
    requires g.Ok()
  {
    exists y: nat :: start <= y <= x && Stop(g, start, y) && Solid(w, y, x)
  }

  ghost predicate StagedTo(g: Geometry, w: set<nat>, out: seq<Span>, start: nat, end: nat, cur: nat) {
    && g.Ok() && Canonical(out) && Bounded(out, start, end)
    && (forall i :: 0 <= i < |out| ==> out[i].hi < cur)
    && (forall x: nat :: x < cur ==> (Has(out, x) <==> x <= end && Anchored(g, w, start, x)))
    && (cur <= end && cur in w ==> Stop(g, start, cur) && forall i :: 0 <= i < |out| ==> out[i].hi + 1 < cur)
  }

  lemma NothingAnchored(g: Geometry, w: set<nat>, start: nat, end: nat)
    requires g.Ok() && start > end
    ensures forall x: nat :: !(x <= end && Anchored(g, w, start, x))
  {
  }

  lemma StagedRun(g: Geometry, w: set<nat>, out: seq<Span>, start: nat, end: nat, cur: nat, n: nat)
    requires StagedTo(g, w, out, start, end, cur) && start <= cur && 0 < n <= end + 1 - cur && n == RunLength(w, cur, end + 1 - cur)
    ensures StagedTo(g, w, out + [Span(cur, cur + n - 1)], start, end, cur + n)
  {
    var run := [Span(cur, cur + n - 1)];
    forall x: nat | x < cur + n ensures Has(out + run, x) <==> x <= end && Anchored(g, w, start, x) {
      HasConcat(out, run, x);
      assert run[1..] == [];
      if x >= cur {
        assert Solid(w, cur, x) && Stop(g, start, cur);
        assert Anchored(g, w, start, x);
      }
    }
  }

  lemma MulDiv(k: nat, d: nat)
    requires d > 0
    ensures (k * d) / d == k
  {
    var q := (k * d) / d;
    DivLaw(k * d, d);
    if q < k { MulMono(q + 1, k, d); }
    if q > k { MulMono(k + 1, q, d); }
  }

  lemma NoBoundaryBetween(g: Geometry, cur: nat, y: nat)
    requires g.Ok() && cur < y && y == g.Start(y / g.bs)
    ensures g.Start(cur / g.bs + 1) <= y
  {
    DivLaw(cur, g.bs);
    if y / g.bs < cur / g.bs + 1 { MulMono(y / g.bs, cur / g.bs, g.bs); } else { MulMono(cur / g.bs + 1, y / g.bs, g.bs); }
  }

  lemma HoleBlocks(g: Geometry, w: set<nat>, start: nat, cur: nat, x: nat)
    requires g.Ok() && start <= cur <= x < g.Start(cur / g.bs + 1) && cur !in w
    ensures !Anchored(g, w, start, x)
  {
    forall y: nat | start <= y <= x && Stop(g, start, y) ensures !Solid(w, y, x) {
      if y > cur { NoBoundaryBetween(g, cur, y); }
    }
  }

  lemma StagedHole(g: Geometry, w: set<nat>, out: seq<Span>, start: nat, end: nat, cur: nat)
    requires StagedTo(g, w, out, start, end, cur) && start <= cur <= end && cur !in w
    ensures cur < g.Start(cur / g.bs + 1) && StagedTo(g, w, out, start, end, g.Start(cur / g.bs + 1))
  {
    DivLaw(cur, g.bs);
    MulDiv(cur / g.bs + 1, g.bs);
    var next := g.Start(cur / g.bs + 1);
    forall x: nat | cur <= x < next ensures !Has(out, x) && !Anchored(g, w, start, x) {
      HasAt(out, x);
      HoleBlocks(g, w, start, cur, x);
    }
  }

  lemma StagedAll(g: Geometry, w: set<nat>, out: seq<Span>, start: nat, end: nat, cur: nat)
    requires StagedTo(g, w, out, start, end, cur) && cur > end
    ensures forall x: nat :: Has(out, x) <==> x <= end && Anchored(g, w, start, x)
  {
    forall x: nat | x >= cur ensures !Has(out, x) { HasAt(out, x); }
  }

  /** Of a complete block, every byte inside the asked range is found. */
  lemma CompleteBlocksStaged(g: Geometry, w: set<nat>, start: nat, b: nat, x: nat)
    requires g.Ok() && b < g.Blocks() && g.Start(b) <= x < g.End(b) && start <= x
    requires forall z: nat :: g.Start(b) <= z < g.End(b) ==> z in w
    ensures Anchored(g, w, start, x)
  {
    var y := Max(start, g.Start(b));
    MulDiv(b, g.bs);
    assert Stop(g, start, y) && Solid(w, y, x);
  }

  /** The covered run a block's record reports at a byte of the block. */
  lemma CoveredRun(g: Geometry, b: nat, bit: bool, ivs: seq<Iv>, w: set<nat>, at: nat)
    requires g.Ok() && b < g.Blocks() && BlockOk(g, b, bit, ivs, w) && at < g.Len(b)
    ensures var to := if bit then g.Len(b) else CoveredTo(ivs, at);
            && at <= to <= g.Len(b)
            && (forall x: nat :: g.Start(b) + at <= x < g.Start(b) + to ==> x in w)
            && (to < g.Len(b) ==> g.Start(b) + to !in w)
  {
    BlockShape(g, b);
    if !bit { CoveredToLaw(ivs, at); }
  }

  /** What the record of `cur`'s block says from `cur` on: how many bytes are
      covered, and whether they reach the end of the block. */
  function RunInBlock(g: Geometry, bm: seq<bv8>, partial: seq<seq<Iv>>, cur: nat): (nat, bool)
    requires g.Ok()
  {
    RunInBlockAt(g, bm, partial, g.Index(cur), cur)
  }

  function RunInBlockAt(g: Geometry, bm: seq<bv8>, partial: seq<seq<Iv>>, b: nat, cur: nat): (nat, bool) {
    var inBlock := SatSub(cur, g.Start(b));
    var to := if Bit(bm, b) then g.Len(b) else if b < |partial| then CoveredTo(partial[b], inBlock) else inBlock;
    (SatSub(to, inBlock), to >= g.Len(b))
  }

  lemma RunInBlockLaw(g: Geometry, bm: seq<bv8>, partial: seq<seq<Iv>>, w: set<nat>, cur: nat, b: nat)
    requires Consistent(g, bm, partial, w) && b < g.Blocks() && g.Start(b) <= cur < g.End(b)
    ensures var (n, toEnd) := RunInBlockAt(g, bm, partial, b, cur);
            && (forall x: nat :: cur <= x < cur + n ==> x in w)
            && (toEnd || cur + n !in w) && (toEnd ==> n > 0)
  {
    BlockShape(g, b);
    assert Recorded(g, bm, partial, b, w);
    CoveredRun(g, b, Bit(bm, b), partial[b], w, cur - g.Start(b));
  }

  lemma {:induction false} RunLengthIs(w: set<nat>, o: nat, limit: nat, n: nat)
    requires n <= limit && (forall x: nat :: o <= x < o + n ==> x in w) && (n < limit ==> o + n !in w)
    ensures RunLength(w, o, limit) == n
    decreases n
  {
    if n > 0 { RunLengthIs(w, o + 1, limit - 1, n - 1); }
  }

  lemma DivMono(a: nat, b: nat, d: nat)
    requires d > 0 && a <= b
    ensures a / d <= b / d
  {
    DivLaw(a, d);
    DivLaw(b, d);
    if a / d > b / d { MulMono(b / d + 1, a / d, d); }
  }

  /** During the sweep over blocks, those behind it already see the new bytes. */
  ghost function Upto(before: set<nat>, after: set<nat>, k: nat, b: nat): set<nat> { if k < b then after else before }

  ghost predicate Swept(g: Geometry, bm: seq<bv8>, partial: seq<seq<Iv>>, before: set<nat>, after: set<nat>, b: nat) {
    && g.Ok() && |partial| == g.Blocks() && |bm| >= DivCeil(g.Blocks(), 8)
    && (forall k: nat :: k < g.Blocks() ==> Recorded(g, bm, partial, k, Upto(before, after, k, b)))
  }

  /** Blocks outside the range have the same bytes written before and after. */
  lemma OutsideBlock(g: Geometry, k: nat, bit: bool, ivs: seq<Iv>, before: set<nat>, start: nat, end: nat)
    requires g.Ok() && start <= end && (k < start / g.bs || k > end / g.bs)
    ensures var after := before + Interval(start, Min(end + 1, g.total));
            BlockOk(g, k, bit, ivs, before) <==> BlockOk(g, k, bit, ivs, after)
  {
    var after := before + Interval(start, Min(end + 1, g.total));
    if start < g.total {
      var cut := Min(end, g.total - 1);
      BlockOf(g, start, k);
      BlockOf(g, cut, k);
      DivMono(cut, end, g.bs);
    }
    assert forall x: nat :: g.Start(k) <= x < g.End(k) ==> (x in before <==> x in after);
    if BlockOk(g, k, bit, ivs, before) { BlockElsewhere(g, k, bit, ivs, before, after); }
    if BlockOk(g, k, bit, ivs, after) { BlockElsewhere(g, k, bit, ivs, after, before); }
  }

  /** Before the sweep, blocks ahead of the range count as behind it. */
  lemma BlockBegins(g: Geometry, bm: seq<bv8>, partial: seq<seq<Iv>>, k: nat, before: set<nat>, after: set<nat>, start: nat,
                    end: nat, first: nat)
    requires g.Ok() && k < |partial| && Recorded(g, bm, partial, k, before) && start <= end && first == start / g.bs
    requires after == before + Interval(start, Min(end + 1, g.total))
    ensures Recorded(g, bm, partial, k, Upto(before, after, k, first))
  {
    if k < first { OutsideBlock(g, k, Bit(bm, k), partial[k], before, start, end); }
  }

  lemma SweepBegins(g: Geometry, bm: seq<bv8>, partial: seq<seq<Iv>>, before: set<nat>, after: set<nat>, start: nat, end: nat,
                    first: nat)
    requires Consistent(g, bm, partial, before) && start <= end && first == start / g.bs
    requires after == before + Interval(start, Min(end + 1, g.total))
    ensures Swept(g, bm, partial, before, after, first)
  {
    forall k: nat | k < g.Blocks() ensures Recorded(g, bm, partial, k, Upto(before, after, k, first)) {
      assert Recorded(g, bm, partial, k, before);
      BlockBegins(g, bm, partial, k, before, after, start, end, first);
    }
  }

  /** After it, blocks beyond the range count as passed. */
  lemma BlockEnds(g: Geometry, bm: seq<bv8>, partial: seq<seq<Iv>>, k: nat, before: set<nat>, after: set<nat>, start: nat,
                  end: nat, last: nat)
    requires g.Ok() && k < |partial| && Recorded(g, bm, partial, k, Upto(before, after, k, last + 1)) && start <= end
    requires last == end / g.bs && after == before + Interval(start, Min(end + 1, g.total))
    ensures Recorded(g, bm, partial, k, after)
  {
    if k > last { OutsideBlock(g, k, Bit(bm, k), partial[k], before, start, end); }
  }

  lemma SweepEnds(g: Geometry, bm: seq<bv8>, partial: seq<seq<Iv>>, before: set<nat>, after: set<nat>, start: nat, end: nat,
                  last: nat, next: nat)
    requires g.Ok() && start <= end && last == end / g.bs && after == before + Interval(start, Min(end + 1, g.total))
    requires next == last + 1 && Swept(g, bm, partial, before, after, next)
    ensures Consistent(g, bm, partial, after)
  {
    forall k: nat | k < g.Blocks() ensures Recorded(g, bm, partial, k, after) {
      assert Recorded(g, bm, partial, k, Upto(before, after, k, next));
      BlockEnds(g, bm, partial, k, before, after, start, end, last);
    }
  }

  /** The block's record before and after the sweep passes it. */
  lemma SweepStep(g: Geometry, bm: seq<bv8>, partial: seq<seq<Iv>>, bm': seq<bv8>, partial': seq<seq<Iv>>,
                  before: set<nat>, after: set<nat>, b: nat)
    requires Swept(g, bm, partial, before, after, b) && b < g.Blocks()
    requires |partial'| == |partial| && partial' == partial[b := partial'[b]] && (bm' == bm || bm' == SetBit(bm, b))
    requires Recorded(g, bm', partial', b, after)
    ensures Swept(g, bm', partial', before, after, b + 1)
  {
    SetBitLaw(bm, b);
    var next := b + 1;
    forall k: nat | k < g.Blocks() ensures Recorded(g, bm', partial', k, Upto(before, after, k, next)) {
      if k != b { assert Recorded(g, bm, partial, k, Upto(before, after, k, b)); }
    }
  }

  /** The block's share of `[start, end]`, merged into its list. */
  lemma MergedRecord(g: Geometry, b: nat, ivs: seq<Iv>, ivs': seq<Iv>, before: set<nat>, start: nat, end: nat)
    requires g.Ok() && b < g.Blocks() && BlockOk(g, b, false, ivs, before) && Merged(ivs') && Below(ivs', g.Len(b))
    requires Max(start, g.Start(b)) <= Min(end, g.End(b) - 1)
    requires forall y: nat :: In(ivs', y) <==>
               In(ivs, y) || Max(start, g.Start(b)) - g.Start(b) <= y < Min(end, g.End(b) - 1) - g.Start(b) + 1
    ensures BlockOk(g, b, Covers(ivs', g.Len(b)), if Covers(ivs', g.Len(b)) then [] else ivs', before + Interval(start, end + 1))
  {
    BlockShape(g, b);
    var after := before + Interval(start, end + 1);
    forall x: nat | g.Start(b) <= x < g.End(b) ensures x in after <==> In(ivs', x - g.Start(b)) {
      assert x in before <==> In(ivs, x - g.Start(b));
    }
    CoversLaw(ivs', g.Len(b));
  }

  /** A block that the part of the range inside the file does not reach. */
  lemma SweepSkips(g: Geometry, bm: seq<bv8>, partial: seq<seq<Iv>>, before: set<nat>, after: set<nat>, b: nat, start: nat, end: nat)
    requires Swept(g, bm, partial, before, after, b) && start <= end
    requires after == before + Interval(start, Min(end + 1, g.total)) && (b >= g.Blocks() || start >= g.total)
    ensures Swept(g, bm, partial, before, after, b + 1)
  {
    var next := b + 1;
    forall k: nat | k < g.Blocks() ensures Recorded(g, bm, partial, k, Upto(before, after, k, next)) {
      assert Recorded(g, bm, partial, k, Upto(before, after, k, b));
      if k == b { BlockElsewhere(g, b, Bit(bm, b), partial[b], before, after); }
    }
  }

  /** One block's share of a write: merged in, and ticked off when nothing of the
      block is missing any more. */
  method RecordBlock(g: Geometry, bitmap: seq<bv8>, partial: seq<seq<Iv>>, b: nat, start: nat, end: nat,
                     ghost before: set<nat>, ghost after: set<nat>)
    returns (bm: seq<bv8>, ps: seq<seq<Iv>>, marked: nat)
    requires g.total > 0 && start <= end && after == before + Interval(start, Min(end + 1, g.total))
    requires Swept(g, bitmap, partial, before, after, b) && start / g.bs <= b <= end / g.bs
    ensures Swept(g, bm, ps, before, after, b + 1)
    ensures DoneBytes(g, bm, g.Blocks()) == DoneBytes(g, bitmap, g.Blocks()) + marked
  {
    bm, ps, marked := bitmap, partial, 0;
    BlockMeets(g, start, end, b);
    if b / 8 < |bm| && !Bit(bm, b) {
      var inStart, inEnd := Max(start, g.Start(b)), Min(end, g.End(b) - 1);
      if inStart <= inEnd && b < |ps| {
        assert Recorded(g, bm, ps, b, Upto(before, after, b, b));
        var ivs := MergeInterval(ps[b], inStart - g.Start(b), inEnd - g.Start(b) + 1);
        MergedRecord(g, b, ps[b], ivs, before, start, end);
        if Covers(ivs, g.Len(b)) {
          SetBitLaw(bm, b);
          DoneBytesSet(g, bm, SetBit(bm, b), b, g.Blocks());
          bm, ps, marked := SetBit(bm, b), ps[b := []], g.Len(b);
        } else {
          ps := ps[b := ivs];
        }
        assert Recorded(g, bm, ps, b, after);
        SweepStep(g, bitmap, partial, bm, ps, before, after, b);
        return;
      }
    }
    SweepLeaves(g, bm, ps, before, after, b, start, end);
  }

  /** A block already complete, or out of the file's reach, stays as it is. */
  lemma SweepLeaves(g: Geometry, bm: seq<bv8>, partial: seq<seq<Iv>>, before: set<nat>, after: set<nat>, b: nat, start: nat, end: nat)
    requires Swept(g, bm, partial, before, after, b) && start <= end && after == before + Interval(start, Min(end + 1, g.total))
    requires b >= g.Blocks() || start >= g.total || Bit(bm, b)
    ensures Swept(g, bm, partial, before, after, b + 1)
  {
    if b >= g.Blocks() || start >= g.total {
      SweepSkips(g, bm, partial, before, after, b, start, end);
    } else {
      assert Recorded(g, bm, partial, b, Upto(before, after, b, b));
      assert Recorded(g, bm, partial, b, after);
      SweepStep(g, bm, partial, bm, partial, before, after, b);
    }
  }

  /** Record that `[start, end]` has been written, block by block. */
  method Record(g: Geometry, bitmap: seq<bv8>, partial: seq<seq<Iv>>, start: nat, end: nat, ghost before: set<nat>)
    returns (bm: seq<bv8>, ps: seq<seq<Iv>>, marked: nat)
    requires Consistent(g, bitmap, partial, before) && g.total > 0 && start <= end
    ensures Consistent(g, bm, ps, before + Interval(start, Min(end + 1, g.total)))
    ensures DoneBytes(g, bm, g.Blocks()) == DoneBytes(g, bitmap, g.Blocks()) + marked
  {
    bm, ps, marked := bitmap, partial, 0;
    ghost var after := before + Interval(start, Min(end + 1, g.total));
    var first, last := g.Index(start), g.Index(end);
    DivMono(start, end, g.bs);
    SweepBegins(g, bm, ps, before, after, start, end, first);
    var b := first;
    while b <= last
      invariant first <= b <= last + 1
      invariant Swept(g, bm, ps, before, after, b)
      invariant DoneBytes(g, bm, g.Blocks()) == DoneBytes(g, bitmap, g.Blocks()) + marked
    {
      var more: nat;
      bm, ps, more := RecordBlock(g, bm, ps, b, start, end, before, after);
      b, marked := b + 1, marked + more;
    }
    SweepEnds(g, bm, ps, before, after, start, end, last, b);
  }

  /** Between a first block that starts no later than the range, and a last one that
      starts no later than its end. */
  lemma BlockReaches(g: Geometry, start: nat, end: nat, b: nat, first: nat, last: nat)
    requires first <= b <= last && start < (first + 1) * g.bs && last * g.bs <= end
    ensures g.Start(b) <= end && start < (b + 1) * g.bs
  {
    MulMono(b, last, g.bs);
    MulMono(first + 1, b + 1, g.bs);
  }

  /** A block between the first and the last byte's meets the range, unless it lies
      past the file or the range does. */
  lemma BlockMeets(g: Geometry, start: nat, end: nat, b: nat)
    requires g.Ok() && g.total > 0 && start <= end && start / g.bs <= b <= end / g.bs
    ensures g.End(b) > 0 && (b >= g.Blocks() ==> g.End(b) <= g.Start(b))
    ensures b < g.Blocks() ==> b / 8 < DivCeil(g.Blocks(), 8) && g.Start(b) < g.End(b) <= g.total
    ensures b < g.Blocks() && start >= g.total ==> Min(end, g.End(b) - 1) < Max(start, g.Start(b))
    ensures b < g.Blocks() && start < g.total ==> Max(start, g.Start(b)) <= Min(end, g.End(b) - 1)
  {
    MulMono(1, b + 1, g.bs);
    if b < g.Blocks() {
      BlockShape(g, b);
      DivLaw(end, g.bs);
      DivLaw(start, g.bs);
      BlockReaches(g, start, end, b, start / g.bs, end / g.bs);
    } else {
      PastBlocks(g, b);
    }
  }

  lemma PastBlocks(g: Geometry, b: nat)
    requires g.Ok() && b >= g.Blocks()
    ensures g.Start(b) >= g.total
  {
    DivLaw(g.total + g.bs - 1, g.bs);
    MulMono(g.Blocks(), b, g.bs);
  }

  lemma {:induction false} NoBits(g: Geometry, bm: seq<bv8>, n: nat)
    requires forall b: nat :: !Bit(bm, b)
    ensures DoneBytes(g, bm, n) == 0
  {
    if n > 0 { NoBits(g, bm, n - 1); }
  }

  lemma BlankEntry(g: Geometry, bm: seq<bv8>, partial: seq<seq<Iv>>)
    requires g.Ok() && bm == seq(DivCeil(g.Blocks(), 8), i => 0 as bv8) && partial == seq(g.Blocks(), i => [])
    ensures Consistent(g, bm, partial, {}) && DoneBytes(g, bm, g.Blocks()) == 0
  {
    forall b: nat ensures !Bit(bm, b) { if b / 8 < |bm| { MaskLaw(0, b % 8, b % 8); } }
    NoBits(g, bm, g.Blocks());
  }

  // ---- reopening ----

  /** The bytes of complete blocks. */
  ghost function Complete(g: Geometry, bm: seq<bv8>): set<nat>
    requires g.Ok()
  {
    set x: nat | x < g.total && Bit(bm, x / g.bs)
  }

  lemma PaddedBits(bm: seq<bv8>, padded: seq<bv8>, short: nat)
    requires padded == bm + seq(short, i => 0 as bv8)
    ensures forall b: nat :: Bit(padded, b) == Bit(bm, b)
  {
    forall b: nat ensures Bit(padded, b) == Bit(bm, b) {
      if |bm| <= b / 8 < |padded| {
        assert padded[b / 8] == 0;
        MaskLaw(0, b % 8, b % 8);
      }
    }
  }

  lemma ReopenedEntry(g: Geometry, bm: seq<bv8>, padded: seq<bv8>, partial: seq<seq<Iv>>)
    requires g.Ok() && |padded| >= DivCeil(g.Blocks(), 8) && partial == seq(g.Blocks(), i => [])
    requires forall b: nat :: Bit(padded, b) == Bit(bm, b)
    ensures Consistent(g, padded, partial, Complete(g, bm))
  {
    forall b: nat | b < g.Blocks() ensures Recorded(g, padded, partial, b, Complete(g, bm)) {
      BlockShape(g, b);
      forall x: nat | g.Start(b) <= x < g.End(b) ensures x in Complete(g, bm) <==> Bit(bm, b) { BlockOf(g, x, b); }
    }
  }

  /** What reopening keeps of an entry is exactly the blocks all of whose bytes had
      been written. */
  lemma ReopenKeeps(g: Geometry, bm: seq<bv8>, partial: seq<seq<Iv>>, w: set<nat>, b: nat, x: nat)
    requires Consistent(g, bm, partial, w) && b < g.Blocks() && g.Start(b) <= x < g.End(b)
    ensures x in Complete(g, bm) <==> forall y: nat :: g.Start(b) <= y < g.End(b) ==> y in w
  {
    BlockShape(g, b);
    BlockOf(g, x, b);
    assert Recorded(g, bm, partial, b, w);
    BitIffWritten(g, b, Bit(bm, b), partial[b], w);
  }

  /** Set bits among the first `n`, at a full block each. */
  function FullBytes(g: Geometry, bm: seq<bv8>, n: nat): nat {
    if n == 0 then 0 else FullBytes(g, bm, n - 1) + (if Bit(bm, n - 1) then g.bs else 0)
  }

  /** The count a reopened entry starts with: set bits times the block size, at
      most the file. Bits past the last block are counted too. */
  function ReopenedBytes(g: Geometry, bm: seq<bv8>): nat { Min(FullBytes(g, bm, 8 * |bm|), g.total) }

  /** A bit past the last block is set. */
  ghost predicate Stray(g: Geometry, bm: seq<bv8>)
    requires g.Ok()
  {
    exists b: nat :: g.Blocks() <= b && Bit(bm, b)
  }

  lemma {:induction false} FullTail(g: Geometry, bm: seq<bv8>, k: nat, n: nat)
    requires k <= n
    ensures FullBytes(g, bm, k) <= FullBytes(g, bm, n)
    ensures (exists b: nat :: k <= b < n && Bit(bm, b)) ==> FullBytes(g, bm, k) + g.bs <= FullBytes(g, bm, n)
    ensures !(exists b: nat :: k <= b < n && Bit(bm, b)) ==> FullBytes(g, bm, k) == FullBytes(g, bm, n)
    decreases n - k
  {
    if k < n {
      FullTail(g, bm, k, n - 1);
      if Bit(bm, n - 1) { assert k <= n - 1 < n && Bit(bm, n - 1); }
    }
  }

  ghost predicate AllSet(bm: seq<bv8>, n: nat) { forall k: nat :: k < n ==> Bit(bm, k) }

  lemma NotLast(g: Geometry, n: nat)
    requires g.Ok() && 0 < n < g.Blocks()
    ensures g.Len(n - 1) == g.bs && g.Start(n) == g.Start(n - 1) + g.bs
  {
    BlockShape(g, n - 1);
  }

  lemma AllSetStep(bm: seq<bv8>, n: nat)
    ensures AllSet(bm, n + 1) <==> AllSet(bm, n) && Bit(bm, n)
  {
  }

  lemma {:induction false} FullPrefix(g: Geometry, bm: seq<bv8>, n: nat)
    requires g.Ok() && n < g.Blocks()
    ensures FullBytes(g, bm, n) == DoneBytes(g, bm, n)
    ensures if AllSet(bm, n) then FullBytes(g, bm, n) == g.Start(n) else FullBytes(g, bm, n) + g.bs <= g.Start(n)
  {
    if n > 0 {
      FullPrefix(g, bm, n - 1);
      NotLast(g, n);
      AllSetStep(bm, n - 1);
    }
  }

  lemma LastBlock(g: Geometry)
    requires g.Ok() && g.Blocks() > 0
    ensures var n := g.Blocks() - 1; 0 < g.Len(n) <= g.bs && g.Start(n) + g.Len(n) == g.total
  {
    BlockShape(g, g.Blocks() - 1);
  }

  /** Counting every block in full is right unless a short last block is complete. */
  lemma BlockCount(g: Geometry, bm: seq<bv8>)
    requires g.Ok() && g.Blocks() > 0
    ensures var n := g.Blocks(); var full, done := FullBytes(g, bm, n), DoneBytes(g, bm, n);
            && done <= full && done <= g.total
            && (done == g.total <==> AllSet(bm, n)) && (full >= g.total <==> AllSet(bm, n))
            && (full == done <==> !Bit(bm, n - 1) || g.Len(n - 1) == g.bs)
  {
    var n := g.Blocks() - 1;
    FullPrefix(g, bm, n);
    LastBlock(g);
    AllSetStep(bm, n);
    var start, len := g.Start(n), g.Len(n);
    assert FullBytes(g, bm, n + 1) == FullBytes(g, bm, n) + (if Bit(bm, n) then g.bs else 0);
    assert DoneBytes(g, bm, n + 1) == FullBytes(g, bm, n) + (if Bit(bm, n) then len else 0);
  }

  /** It is the number of bytes in complete blocks, unless a block is missing and a
      short last block is complete or a bit past the last block is set: then it
      counts too many. */
  lemma ReopenedCount(g: Geometry, bm: seq<bv8>)
    requires g.Ok() && |bm| >= DivCeil(g.Blocks(), 8)
    ensures ReopenedBytes(g, bm) >= DoneBytes(g, bm, g.Blocks())
    ensures ReopenedBytes(g, bm) == DoneBytes(g, bm, g.Blocks()) <==>
              g.Blocks() == 0 || AllSet(bm, g.Blocks())
              || ((!Bit(bm, g.Blocks() - 1) || g.Len(g.Blocks() - 1) == g.bs) && !Stray(g, bm))
  {
    var n := g.Blocks();
    EightPer(n, |bm|);
    FullTail(g, bm, n, 8 * |bm|);
    assert Stray(g, bm) <==> exists b: nat :: n <= b < 8 * |bm| && Bit(bm, b);
    if n > 0 { BlockCount(g, bm); }
  }

  lemma EightPer(n: nat, len: nat)
    requires len >= DivCeil(n, 8)
    ensures n <= 8 * len
  {
  }
}
