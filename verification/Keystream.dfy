/** Stream encryption: a keystream addressed by absolute offset, applied by any
    number of workers, split over volumes, and undone from any offset. */
module Keystream {
  import opened Spans

  const BLOCK: nat := 64
  const PARALLEL_MIN: nat := 256 * 1024
  const MAX_WORKERS: nat := 8

  /** The keystream either reaches over all of `[off, off + n)` or the seek fails. */
  predicate Reaches(ks: seq<bv8>, off: nat, n: nat) { off + n <= |ks| || off >= |ks| }

  /** Byte `x` of the stream, masked; beyond the keystream nothing is. */
  function At(ks: seq<bv8>, x: nat, b: bv8): bv8 { if x < |ks| then b ^ ks[x] else b }

  function Masked(ks: seq<bv8>, off: nat, data: seq<bv8>): seq<bv8> {
    seq(|data|, i requires 0 <= i < |data| => At(ks, off + i, data[i]))
  }

  lemma AtTwice(ks: seq<bv8>, x: nat, b: bv8)
    ensures At(ks, x, At(ks, x, b)) == b
  {
    if x < |ks| { XorTwice(b, ks[x]); }
  }

  lemma XorTwice(b: bv8, k: bv8)
    ensures (b ^ k) ^ k == b
  {
  }

  lemma MaskedTwice(ks: seq<bv8>, off: nat, data: seq<bv8>)
    ensures Masked(ks, off, Masked(ks, off, data)) == data
  {
    var t := Masked(ks, off, Masked(ks, off, data));
    forall i | 0 <= i < |data| ensures t[i] == data[i] { AtTwice(ks, off + i, data[i]); }
  }

  /** The keystream is addressed absolutely: a slice is masked as if on its own. */
  lemma MaskedSlice(ks: seq<bv8>, off: nat, data: seq<bv8>, i: nat, j: nat)
    requires i <= j <= |data|
    ensures Masked(ks, off, data)[i..j] == Masked(ks, off + i, data[i..j])
  {
  }

  // ---- the workers ----

  datatype Slice = Slice(lo: nat, hi: nat)

  ghost predicate Covered(p: seq<Slice>, x: nat) { exists i :: 0 <= i < |p| && p[i].lo <= x < p[i].hi }

  ghost predicate Ordered(p: seq<Slice>, n: nat) {
    && (forall i :: 0 <= i < |p| ==> p[i].lo < p[i].hi <= n)
    && forall i, j :: 0 <= i < j < |p| ==> p[i].hi <= p[j].lo
  }

  method ParallelWorkerCount(len: nat, cores: nat) returns (r: nat)
    ensures 1 <= r <= MAX_WORKERS && (len < PARALLEL_MIN ==> r == 1) && (cores > 0 ==> r <= cores)
    ensures r > 1 ==> r * PARALLEL_MIN <= len
    ensures r < cores && r < MAX_WORKERS ==> (r + 1) * PARALLEL_MIN > len
  {
    if len < PARALLEL_MIN { return 1; }
    var bySize := Max(len / PARALLEL_MIN, 1);
    r := Max(Min(Min(cores, MAX_WORKERS), bySize), 1);
  }

  /** Blocks in `k` chunks of `per`. */
  function Times(per: nat, k: nat): nat { if k == 0 then 0 else Times(per, k - 1) + per }

  lemma {:induction false} TimesIs(per: nat, k: nat)
    ensures Times(per, k) == per * k
  {
    if k > 0 { TimesIs(per, k - 1); }
  }

  lemma {:induction false} TimesGrows(per: nat, j: nat, k: nat)
    requires j <= k
    ensures Times(per, j) <= Times(per, k)
  {
    if j < k { TimesGrows(per, j, k - 1); }
  }

  lemma Rounded(a: nat, b: nat)
    requires b > 0
    ensures DivCeil(a, b) * b >= a
  {
    var n := a + b - 1;
    assert n == (n / b) * b + n % b;
  }

  lemma MulGrows(a: nat, b: nat, c: nat)
    requires a <= b
    ensures a * c <= b * c
  {
  }

  /** Blocks per worker: enough for all of them to finish the buffer. */
  method BlocksPerWorker(blocks: nat, workers: nat) returns (per: nat)
    requires workers > 0
    ensures per > 0 && Times(per, workers) >= blocks && per == Max(DivCeil(blocks, workers), 1)
  {
    per := Max(DivCeil(blocks, workers), 1);
    TimesIs(per, workers);
    Rounded(blocks, workers);
    MulGrows(DivCeil(blocks, workers), per, workers);
  }

  predicate OnBlock(x: nat) { x % BLOCK == 0 }

  lemma BlockStart(k: nat)
    ensures OnBlock(k * BLOCK)
  {
  }

  /** A worker's share of a buffer in bytes: whole blocks, enough of them for all
      workers to finish the buffer. */
  function Share(total: nat, workers: nat): nat
    requires workers > 0
  {
    Max(DivCeil(total / BLOCK, workers), 1) * BLOCK
  }

  /** Every slice but the last is one share; the last has the tail at most on top. */
  ghost predicate EvenShares(p: seq<Slice>, chunk: nat, trailing: nat) {
    && (forall i :: 0 <= i < |p| - 1 ==> p[i].hi - p[i].lo == chunk)
    && (p != [] ==> p[|p| - 1].lo <= p[|p| - 1].hi && p[|p| - 1].hi - p[|p| - 1].lo <= chunk + trailing)
  }

  lemma EvenSnoc(p: seq<Slice>, lo: nat, hi: nat, chunk: nat, trailing: nat)
    requires EvenShares(p, chunk, trailing) && (p != [] ==> p[|p| - 1].hi - p[|p| - 1].lo == chunk)
    requires lo <= hi <= lo + chunk + trailing
    ensures EvenShares(p + [Slice(lo, hi)], chunk, trailing)
  {
  }

  ghost predicate AllOnBlock(p: seq<Slice>) { forall i :: 0 <= i < |p| ==> OnBlock(p[i].lo) }

  /** The slices cut so far. */
  ghost predicate Cutting(total: nat, workers: nat, per: nat, p: seq<Slice>, done: nat) {
    && done <= total && Ordered(p, done) && AllCovered(p, done) && AllOnBlock(p) && |p| <= workers && (p == [] ==> done == 0)
    && EvenShares(p, per * BLOCK, total % BLOCK)
    && (done < total ==>
          && done == Times(per, |p|) * BLOCK && (p == [] || Times(per, |p|) < total / BLOCK)
          && (p != [] ==> p[|p| - 1].hi - p[|p| - 1].lo == per * BLOCK))
  }

  /** The next slice after `k` shares: within the buffer, and short of its end only
      when a whole share was cut and blocks are left. */
  lemma NextSlice(total: nat, blocks: nat, trailing: nat, per: nat, workers: nat, k: nat, done: nat, take: nat)
    requires total == blocks * BLOCK + trailing && done < total && per > 0 && Times(per, workers) >= blocks && workers > 0
    requires done == Times(per, k) * BLOCK && (k == 0 || Times(per, k) < blocks)
    requires take == if total - done <= per * BLOCK + trailing then total - done else per * BLOCK
    ensures 0 < take <= total - done && k < workers && OnBlock(done) && take <= per * BLOCK + trailing
    ensures done + take < total ==> take == per * BLOCK && done + take == Times(per, k + 1) * BLOCK && Times(per, k + 1) < blocks
  {
    BlockStart(Times(per, k));
    if k >= workers { TimesGrows(per, workers, k); }
  }

  lemma CutNext(total: nat, workers: nat, per: nat, p: seq<Slice>, done: nat, take: nat)
    requires Cutting(total, workers, per, p, done) && done < total && per > 0 && workers > 0 && Times(per, workers) >= total / BLOCK
    requires take == if total - done <= per * BLOCK + total % BLOCK then total - done else per * BLOCK
    ensures take > 0 && Cutting(total, workers, per, p + [Slice(done, done + take)], done + take)
  {
    NextSlice(total, total / BLOCK, total % BLOCK, per, workers, |p|, done, take);
    Covering(p, done, take, done + take);
    EvenSnoc(p, done, done + take, per * BLOCK, total % BLOCK);
  }

  /** Cut a buffer at keystream blocks, the tail going with the last slice. */
  method CutSlices(total: nat, workers: nat) returns (p: seq<Slice>)
    requires total > 0 && workers > 0
    ensures 1 <= |p| <= workers && Ordered(p, total)
    ensures forall x: nat :: x < total ==> Covered(p, x)
    ensures forall i :: 0 <= i < |p| ==> OnBlock(p[i].lo)
    ensures EvenShares(p, Share(total, workers), total % BLOCK)
  {
    var blocks, trailing := total / BLOCK, total % BLOCK;
    var per := BlocksPerWorker(blocks, workers);
    var chunk, done := per * BLOCK, 0;
    p := [];
    while done < total
      invariant Cutting(total, workers, per, p, done)
    {
      var rest := total - done;
      var take := if rest <= chunk + trailing then rest else chunk;
      CutNext(total, workers, per, p, done, take);
      p, done := p + [Slice(done, done + take)], done + take;
    }
  }

  ghost predicate AllCovered(p: seq<Slice>, n: nat) { forall x: nat :: x < n ==> Covered(p, x) }

  lemma Covering(p: seq<Slice>, done: nat, take: nat, end: nat)
    requires AllCovered(p, done) && end == done + take
    ensures AllCovered(p + [Slice(done, end)], end)
  {
    var q := p + [Slice(done, end)];
    forall x: nat | x < end ensures Covered(q, x) {
      if x < done {
        assert Covered(p, x);
        var i :| 0 <= i < |p| && p[i].lo <= x < p[i].hi;
        assert q[i] == p[i];
      } else {
        assert q[|p|].lo <= x < q[|p|].hi;
      }
    }
  }

  /** One worker: seek, then mask the slice; a failed seek leaves it alone. */
  method ApplySlice(ks: seq<bv8>, off: nat, a: array<bv8>, s: Slice)
    requires s.lo <= s.hi <= a.Length && Reaches(ks, off, s.hi - s.lo)
    modifies a
    ensures forall x :: 0 <= x < a.Length ==>
              a[x] == if s.lo <= x < s.hi then At(ks, off + (x - s.lo), old(a[x])) else old(a[x])
  {
    if off < |ks| {
      forall x | s.lo <= x < s.hi { a[x] := a[x] ^ ks[off + (x - s.lo)]; }
    }
  }

  lemma Dropped(p: seq<Slice>, k: nat, n: nat, x: nat)
    requires k < |p| && Ordered(p, n)
    ensures var q := p[..k] + p[k + 1..];
            Ordered(q, n) && (Covered(q, x) <==> Covered(p, x) && !(p[k].lo <= x < p[k].hi))
  {
    var q := p[..k] + p[k + 1..];
    assert forall i :: 0 <= i < |q| ==> q[i] == p[if i < k then i else i + 1];
    if Covered(p, x) {
      var i :| 0 <= i < |p| && p[i].lo <= x < p[i].hi;
      if i < k { assert q[i] == p[i]; } else if i > k { assert q[i - 1] == p[i]; }
    }
  }

  /** The slices still to do cover what is not masked yet. */
  ghost predicate Masking(ks: seq<bv8>, off: nat, n: nat, p: seq<Slice>, was: seq<bv8>, now: seq<bv8>) {
    && Ordered(p, n) && n <= |was| == |now| && now[n..] == was[n..]
    && forall x: nat :: x < n ==> now[x] == if Covered(p, x) then was[x] else At(ks, off + x, was[x])
  }

  lemma SliceDone(ks: seq<bv8>, off: nat, n: nat, p: seq<Slice>, k: nat, was: seq<bv8>, before: seq<bv8>, after: seq<bv8>)
    requires Masking(ks, off, n, p, was, before) && k < |p| && |after| == |before|
    requires forall x: nat :: x < |after| ==>
               after[x] == if p[k].lo <= x < p[k].hi then At(ks, off + x, before[x]) else before[x]
    ensures Masking(ks, off, n, p[..k] + p[k + 1..], was, after)
  {
    var q := p[..k] + p[k + 1..];
    forall x: nat | x < n ensures after[x] == if Covered(q, x) then was[x] else At(ks, off + x, was[x]) {
      Dropped(p, k, n, x);
      if p[k].lo <= x < p[k].hi { assert Covered(p, x); }
    }
    Dropped(p, k, n, 0);
    forall i | 0 <= i < |was| - n ensures after[n..][i] == was[n..][i] { assert before[n..][i] == was[n..][i]; }
  }

  /** However many workers there are and in whatever order they run, the buffer
      ends up masked at its absolute offsets. */
  method ApplyKeystreamParallel(ks: seq<bv8>, off: nat, a: array<bv8>, n: nat, cores: nat) returns (used: nat)
    requires n <= a.Length && Reaches(ks, off, n)
    modifies a
    ensures a[..] == Masked(ks, off, old(a[..n])) + old(a[n..])
    ensures used <= MAX_WORKERS && (cores > 0 ==> used <= cores)
  {
    used := 0;
    if n == 0 { return; }
    var workers := ParallelWorkerCount(n, cores);
    var p := [Slice(0, n)];
    if workers <= 1 {
      forall x: nat | x < n ensures Covered(p, x) { assert p[0].lo <= x < p[0].hi; }
    } else {
      p := CutSlices(n, workers);
    }
    used := |p|;
    ghost var was := a[..];
    while p != []
      invariant Masking(ks, off, n, p, was, a[..])
      decreases |p|
    {
      var k: nat :| k < |p|;
      ghost var before := a[..];
      ApplySlice(ks, off + p[k].lo, a, p[k]);
      SliceDone(ks, off, n, p, k, was, before, a[..]);
      p := p[..k] + p[k + 1..];
    }
    AllMasked(ks, off, n, was, a[..]);
  }

  lemma AllMasked(ks: seq<bv8>, off: nat, n: nat, was: seq<bv8>, now: seq<bv8>)
    requires Masking(ks, off, n, [], was, now)
    ensures now == Masked(ks, off, was[..n]) + was[n..]
  {
    forall x: nat | x < n ensures now[x] == Masked(ks, off, was[..n])[x] { assert !Covered([], x); }
    assert now == now[..n] + now[n..];
  }

  /** Decrypting in place, at the merged offset of the first byte. */
  method Transform(ks: seq<bv8>, off: nat, a: array<bv8>)
    requires Reaches(ks, off, a.Length)
    modifies a
    ensures a[..] == Masked(ks, off, old(a[..]))
  {
    if a.Length == 0 { return; }
    ApplySlice(ks, off, a, Slice(0, a.Length));
  }

  // ---- the volumes ----

  const MIN_VOLUME: nat := 1024 * 1024

  datatype SplitMode = Fixed | Random

  function Sum(sizes: seq<nat>): nat { if sizes == [] then 0 else Sum(sizes[..|sizes| - 1]) + sizes[|sizes| - 1] }

  /** The least a volume other than the last holds. */
  function LeastVolume(max: nat, mode: SplitMode): nat {
    if mode == Fixed then max else Max(max / 2, Min(MIN_VOLUME, max))
  }

  lemma SumSnoc(sizes: seq<nat>, last: nat)
    ensures Sum(sizes + [last]) == Sum(sizes) + last
  {
    assert (sizes + [last])[..|sizes|] == sizes;
  }

  lemma LeastLaw(max: nat, mode: SplitMode)
    requires max > 0
    ensures 0 < LeastVolume(max, mode) <= max
  {
  }

  ghost predicate Between(plan: seq<nat>, lo: nat, hi: nat) { forall i :: 0 <= i < |plan| ==> lo <= plan[i] <= hi }

  lemma BetweenSnoc(plan: seq<nat>, lo: nat, hi: nat, size: nat)
    requires Between(plan, lo, hi) && lo <= size <= hi
    ensures Between(plan + [size], lo, hi)
  {
  }

  /** All volumes but the last hold between the least size and the maximum, the
      last one holds what is left, and together they hold everything. */
  method PlanVolumeSizes(total: nat, max: nat, mode: SplitMode) returns (plan: seq<nat>)
    ensures Sum(plan) == total && |plan| > 0
    ensures max == 0 || total <= max ==> plan == [total]
    ensures max > 0 ==> forall i :: 0 <= i < |plan| ==> plan[i] <= max
    ensures forall i :: 0 <= i < |plan| - 1 ==> plan[i] >= LeastVolume(max, mode) > 0
    ensures total > 0 ==> plan[|plan| - 1] > 0
  {
    if max == 0 || total <= max {
      assert [total][..0] == [];
      return [total];
    }
    LeastLaw(max, mode);
    ghost var least := LeastVolume(max, mode);
    plan := [];
    var remaining := total;
    while remaining > max
      invariant 0 < remaining && Sum(plan) + remaining == total && (plan == [] ==> remaining > max)
      invariant Between(plan, least, max)
      decreases remaining
    {
      var pick := max;
      if mode == Random {
        var high := Min(max, remaining - 1);
        var low := Min(Max(max / 2, Min(MIN_VOLUME, max)), high);
        var any: nat :| low <= any <= high;
        pick := any;
      }
      SumSnoc(plan, pick);
      BetweenSnoc(plan, least, max, pick);
      plan, remaining := plan + [pick], remaining - pick;
    }
    SumSnoc(plan, remaining);
    plan := plan + [remaining];
  }

  function Flatten(vs: seq<seq<bv8>>): seq<bv8> { if vs == [] then [] else vs[0] + Flatten(vs[1..]) }

  lemma {:induction false} FlattenSnoc(vs: seq<seq<bv8>>, last: seq<bv8>)
    ensures Flatten(vs + [last]) == Flatten(vs) + last
  {
    if vs == [] {
      assert [] + [last] == [last] && [last][1..] == [];
    } else {
      assert (vs + [last])[1..] == vs[1..] + [last];
      FlattenSnoc(vs[1..], last);
    }
  }

  /** What the volumes hold end to end. */
  function Sealed(ks: seq<bv8>, plain: seq<bv8>, encrypt: bool): (r: seq<bv8>)
    ensures |r| == |plain|
  {
    if encrypt then Masked(ks, 0, plain) else plain
  }

  lemma SliceOn(s: seq<bv8>, a: nat, b: nat, c: nat)
    requires a <= b <= c <= |s|
    ensures s[a..b] + s[b..c] == s[a..c]
  {
  }

  /** One volume: read a buffer, mask it at its merged offset, write it out. */
  method WriteVolume(ks: seq<bv8>, plain: seq<bv8>, at: nat, size: nat, buf: array<bv8>, encrypt: bool, cores: nat)
    returns (volume: seq<bv8>)
    requires at <= |plain| && buf.Length > 0 && (encrypt ==> |plain| <= |ks|)
    modifies buf
    ensures volume == Sealed(ks, plain, encrypt)[at..Min(at + size, |plain|)]
  {
    var remaining, merged := size, at;
    ghost var all := Sealed(ks, plain, encrypt);
    volume := [];
    while remaining > 0
      invariant at <= merged <= |plain| && merged + remaining == at + size
      invariant volume == all[at..merged]
      decreases remaining
    {
      var n := Min(Min(remaining, buf.Length), |plain| - merged);
      if n == 0 { break; }
      forall i | 0 <= i < n { buf[i] := plain[merged + i]; }
      assert buf[..n] == plain[merged..merged + n];
      if encrypt {
        MaskedSlice(ks, 0, plain, merged, merged + n);
        var used := ApplyKeystreamParallel(ks, merged, buf, n, cores);
      }
      assert buf[..n] == all[merged..merged + n];
      SliceOn(all, at, merged, merged + n);
      volume, merged, remaining := volume + buf[..n], merged + n, remaining - n;
    }
  }

  /** The volumes, read end to end, are the masked input, however it was buffered
      and split; a plan that asks for more than there is gets what there is. */
  method Forward(ks: seq<bv8>, plain: seq<bv8>, plan: seq<nat>, bufferSize: nat, encrypt: bool, cores: nat)
    returns (volumes: seq<seq<bv8>>)
    requires bufferSize > 0 && (encrypt ==> |plain| <= |ks|)
    ensures |volumes| == |plan| && Flatten(volumes) == Sealed(ks, plain, encrypt)[..Min(Sum(plan), |plain|)]
    ensures Sum(plan) == |plain| ==> forall i :: 0 <= i < |plan| ==> |volumes[i]| == plan[i]
  {
    var buf, merged := new bv8[bufferSize], 0;
    ghost var all := Sealed(ks, plain, encrypt);
    volumes := [];
    assert plan[..|plan|] == plan;
    for k := 0 to |plan|
      invariant |volumes| == k && merged == Min(Sum(plan[..k]), |plain|)
      invariant Flatten(volumes) == all[..merged]
      invariant Sum(plan) == |plain| ==> forall i :: 0 <= i < k ==> |volumes[i]| == plan[i]
    {
      assert plan[..k + 1] == plan[..k] + [plan[k]];
      SumSnoc(plan[..k], plan[k]);
      SumPrefix(plan, k + 1);
      var volume := WriteVolume(ks, plain, merged, plan[k], buf, encrypt, cores);
      SliceOn(all, 0, merged, Min(merged + plan[k], |plain|));
      FlattenSnoc(volumes, volume);
      volumes, merged := volumes + [volume], merged + |volume|;
    }
  }

  lemma {:induction false} SumPrefix(sizes: seq<nat>, k: nat)
    requires k <= |sizes|
    ensures Sum(sizes[..k]) <= Sum(sizes)
  {
    if k == |sizes| {
      assert sizes[..k] == sizes;
    } else {
      var rest := sizes[..|sizes| - 1];
      SumPrefix(rest, k);
      assert rest[..k] == sizes[..k];
    }
  }

  // ---- opening them again ----

  /** Each piece opened on its own, at the merged offset of its first byte. */
  function Opened(ks: seq<bv8>, off: nat, pieces: seq<seq<bv8>>): seq<bv8>
    decreases |pieces|
  {
    if pieces == [] then [] else Masked(ks, off, pieces[0]) + Opened(ks, off + |pieces[0]|, pieces[1..])
  }

  lemma MaskedConcat(ks: seq<bv8>, off: nat, p: seq<bv8>, q: seq<bv8>)
    ensures Masked(ks, off, p + q) == Masked(ks, off, p) + Masked(ks, off + |p|, q)
  {
    var all, parts := Masked(ks, off, p + q), Masked(ks, off, p) + Masked(ks, off + |p|, q);
    forall i | 0 <= i < |p| + |q| ensures all[i] == parts[i] {
      if i >= |p| { assert (p + q)[i] == q[i - |p|] && off + i == off + |p| + (i - |p|); }
    }
  }

  lemma {:induction false} PieceByPiece(ks: seq<bv8>, off: nat, pieces: seq<seq<bv8>>)
    ensures Opened(ks, off, pieces) == Masked(ks, off, Flatten(pieces))
    decreases |pieces|
  {
    if pieces != [] {
      PieceByPiece(ks, off + |pieces[0]|, pieces[1..]);
      MaskedConcat(ks, off, pieces[0], Flatten(pieces[1..]));
    }
  }

  /** A stretch of the sealed stream, masked again where it lies. */
  lemma Reopens(ks: seq<bv8>, plain: seq<bv8>, from: nat, to: nat)
    requires from <= to <= |plain|
    ensures Masked(ks, from, Sealed(ks, plain, true)[from..to]) == plain[from..to]
  {
    MaskedTwice(ks, 0, plain);
    MaskedSlice(ks, 0, Sealed(ks, plain, true), from, to);
  }

  /** Any stretch of the sealed stream, cut anywhere into pieces, opens to the
      plain bytes at the same place. */
  lemma RoundTrip(ks: seq<bv8>, plain: seq<bv8>, from: nat, to: nat, pieces: seq<seq<bv8>>)
    requires from <= to <= |plain| && Flatten(pieces) == Sealed(ks, plain, true)[from..to]
    ensures Opened(ks, from, pieces) == plain[from..to]
  {
    PieceByPiece(ks, from, pieces);
    Reopens(ks, plain, from, to);
  }

  /** Plan, encrypt and split a file, then read any stretch of the volumes back:
      what comes out is what went in. */
  method SealThenOpen(ks: seq<bv8>, plain: seq<bv8>, max: nat, mode: SplitMode, bufferSize: nat, cores: nat,
                      from: nat, to: nat)
    returns (plan: seq<nat>, volumes: seq<seq<bv8>>, back: seq<bv8>)
    requires bufferSize > 0 && from <= to <= |plain| <= |ks|
    ensures |volumes| == |plan| && forall i :: 0 <= i < |plan| ==> |volumes[i]| == plan[i]
    ensures back == plain[from..to]
  {
    plan := PlanVolumeSizes(|plain|, max, mode);
    volumes := Forward(ks, plain, plan, bufferSize, true, cores);
    var merged := Flatten(volumes);
    assert merged == Sealed(ks, plain, true);
    var a := new bv8[to - from];
    forall i | 0 <= i < to - from { a[i] := merged[from + i]; }
    assert a[..] == merged[from..to];
    Transform(ks, from, a);
    back := a[..];
    Reopens(ks, plain, from, to);
  }
}
