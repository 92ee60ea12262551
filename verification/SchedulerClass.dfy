/** The scheduler as the object the workers share: each method updates the
    fields in place and lands exactly on the specified next state. */
module SchedulerClass {
  import opened Spans
  import opened Sched

  /** A claim's shared record: the scheduler's list and the worker's handle hold
      the same object, so an end moved here is seen there. */
  class LiveClaim {
    const worker: nat
    const volume: nat
    const start: nat
    const issued: nat
    const hedgeOf: Option<nat>
    var end: nat
    var cursor: nat
    var reserved: nat
    var lastCursor: nat

    function View(): Live
      reads this
    {
      Live(worker, volume, start, issued, end, cursor, reserved, lastCursor, hedgeOf)
    }

    constructor (worker: nat, start: nat, end: nat, volume: nat, hedgeOf: Option<nat>)
      ensures View() == Live(worker, volume, start, SatSub(end, start) + 1, end, start, start, start, hedgeOf)
    {
      this.worker, this.volume, this.start, this.hedgeOf := worker, volume, start, hedgeOf;
      this.issued := SatSub(end, start) + 1;
      this.end, this.cursor, this.reserved, this.lastCursor := end, start, start, start;
    }

    /** Announce bytes below `next` before writing them. */
    method Reserve(next: nat)
      modifies this
      ensures View() == old(View()).Reserve(next)
      ensures old(reserved) <= reserved && next <= reserved && (reserved == old(reserved) || reserved == next)
    {
      if reserved < next { reserved := next; }
    }

    /** Confirm that bytes below `next` have landed. */
    method AdvanceTo(next: nat)
      modifies this
      ensures View() == old(View()).AdvanceTo(next)
      ensures cursor == next && old(reserved) <= reserved && next <= reserved && (reserved == old(reserved) || reserved == next)
    {
      if reserved < next { reserved := next; }
      cursor := next;
    }
  }

  function Views(ls: seq<LiveClaim>): (r: seq<Live>)
    reads ls
    ensures |r| == |ls| && forall i :: 0 <= i < |ls| ==> r[i] == ls[i].View()
  {
    seq(|ls|, i requires 0 <= i < |ls| reads ls => ls[i].View())
  }

  class Scheduler {
    var unclaimed: seq<Span>
    var live: seq<LiveClaim>
    var strategy: Strategy
    const volumes: Option<seq<Volume>>
    const maxThreads: nat
    const maxPerVolume: nat
    const splitCap: Option<nat>
    const reqStart: nat
    const reqEnd: nat
    var readHead: nat
    var buffered: nat
    var workLimit: Option<nat>
    var autoLimit: Option<nat>
    var autoWall: nat
    var dupBudget: nat

    function View(): Sched
      reads this, live
    {
      Sched(unclaimed, Views(live), strategy, volumes, maxThreads, maxPerVolume, splitCap, reqStart, reqEnd,
            readHead, buffered, workLimit, autoLimit, autoWall, dupBudget)
    }

    ghost predicate Valid()
      reads this, live
    {
      && View().WellFormed()
      && forall i, j :: 0 <= i < j < |live| ==> live[i] != live[j]
    }

    constructor (reqStart: nat, reqEnd: nat, strategy: Strategy, volumes: Option<seq<Volume>>, maxThreads: nat,
                 maxPerVolume: nat, splitCap: Option<nat>, staged: seq<Span>)
      ensures Valid() && live == []
      ensures View() == New(reqStart, reqEnd, strategy, volumes, maxThreads, maxPerVolume, splitCap, staged)
    {
      this.live, this.strategy, this.volumes := [], strategy, volumes;
      this.maxThreads, this.maxPerVolume := Max(maxThreads, 1), Max(maxPerVolume, 1);
      this.splitCap := if splitCap == Some(0) then None else splitCap;
      this.reqStart, this.reqEnd, this.readHead, this.buffered := reqStart, reqEnd, reqStart, 0;
      this.workLimit, this.autoLimit, this.autoWall := None, None, U64_MAX;
      this.dupBudget := InitialBudget(reqStart, reqEnd);
      this.unclaimed := if reqStart <= reqEnd then [Span(reqStart, reqEnd)] else [];
      new;
      var i := 0;
      ghost var u0 := unclaimed;
      while i < |staged|
        invariant i <= |staged| && live == []
        invariant SubtractAll(unclaimed, staged[i..]) == SubtractAll(u0, staged)
        invariant View() == New(reqStart, reqEnd, strategy, volumes, maxThreads, maxPerVolume, splitCap, staged)
                            .(unclaimed := unclaimed)
      {
        RemoveUnclaimed(staged[i].lo, staged[i].hi);
        i := i + 1;
      }
    }

    // ---- the unclaimed list ----

    method RemoveUnclaimed(s: nat, e: nat)
      modifies this`unclaimed
      ensures unclaimed == Subtract(old(unclaimed), s, e)
    {
      if s > e { return; }
      var out: seq<Span> := [];
      var i := 0;
      var u := unclaimed;
      while i < |u|
        invariant i <= |u|
        invariant out + CutAll(u[i..], s, e) == CutAll(u, s, e)
      {
        var c := u[i];
        ghost var before := out;
        if c.hi < s || c.lo > e {
          out := out + [c];
        } else {
          if c.lo < s { out := out + [Span(c.lo, s - 1)]; }
          if c.hi > e { out := out + [Span(e + 1, c.hi)]; }
        }
        assert out == before + Cut(c, s, e);
        CutAllStep(u, i, s, e, before);
        i := i + 1;
      }
      assert out + CutAll(u[|u|..], s, e) == out;
      unclaimed := out;
    }

    /** Push one range and sort by start. */
    method PushSorted(c: Span) returns (sorted: seq<Span>)
      ensures sorted == InsertSorted(unclaimed, c)
    {
      var u := unclaimed;
      var k := 0;
      while k < |u| && u[k].lo < c.lo
        invariant k <= |u|
        invariant InsertSorted(u, c) == u[..k] + InsertSorted(u[k..], c)
      {
        InsertSortedStep(u, k, c);
        k := k + 1;
      }
      assert InsertSorted(u[k..], c) == [c] + u[k..];
      sorted := u[..k] + ([c] + u[k..]);
    }

    method InsertUnclaimed(s: nat, e: nat)
      modifies this`unclaimed
      ensures unclaimed == Insert(old(unclaimed), s, e)
    {
      if s > e { return; }
      var sorted := PushSorted(Span(s, e));
      var merged: seq<Span> := [];
      var j := 0;
      while j < |sorted|
        invariant j <= |sorted|
        invariant MergeAll(merged, sorted[j..]) == MergeAll([], sorted)
      {
        var d := sorted[j];
        ghost var was := merged;
        if merged != [] && d.lo <= Sat(merged[|merged| - 1].hi + 1) {
          var last := merged[|merged| - 1];
          merged := merged[..|merged| - 1] + [Span(last.lo, Max(last.hi, d.hi))];
        } else {
          merged := merged + [d];
        }
        assert merged == Absorb(was, d);
        MergeAllStep(was, sorted, j);
        j := j + 1;
      }
      unclaimed := merged;
    }

    // ---- settings ----

    method SetReadHead(offset: nat)
      requires Valid()
      modifies this
      ensures Valid() && live == old(live) && View() == old(View()).SetReadHead(offset)
    {
      readHead := Max(reqStart, Min(offset, Sat(reqEnd + 1)));
      buffered := 0;
    }

    method SetReaderBuffer(n: nat)
      requires Valid()
      modifies this
      ensures Valid() && live == old(live) && View() == old(View()).SetReaderBuffer(n)
    {
      buffered := n;
    }

    method SetStrategy(s: Strategy)
      requires Valid()
      modifies this
      ensures Valid() && live == old(live) && View() == old(View()).SetStrategy(s)
    {
      strategy := s;
    }

    method SetWorkLimit(limit: Option<nat>)
      requires Valid()
      modifies this
      ensures Valid() && live == old(live) && View() == old(View()).SetWorkLimit(limit)
    {
      workLimit := if limit == Some(0) then None else limit;
    }

    method WithClaimWall(remembered: Option<nat>)
      requires Valid()
      modifies this
      ensures Valid() && live == old(live) && View() == old(View()).WithClaimWall(remembered)
    {
      if remembered.Some? {
        autoWall := remembered.value;
        autoLimit := Some(Min(RECOVERY_CLAIM, remembered.value));
      }
    }

    // ---- T1: take ----

    method PickGap(rs: nat, re: nat, respectCap: bool, nearest: bool) returns (r: Option<nat>)
      ensures r == View().PickGap(rs, re, respectCap, nearest, 0, None)
    {
      var s := View();
      var best: Option<(nat, nat)> := None;
      var i := 0;
      while i < |unclaimed|
        invariant i <= |unclaimed|
        invariant s.PickGap(rs, re, respectCap, nearest, 0, None) == s.PickGap(rs, re, respectCap, nearest, i, best)
      {
        var g := unclaimed[i];
        if !(g.hi < rs || g.lo > re) {
          var segStart := Max(g.lo, rs);
          var blocked := respectCap && CountIn(s.live, s.VolumeOf(segStart)) >= maxPerVolume;
          if nearest {
            return if blocked then None else Some(i);
          }
          if !blocked {
            var score := SatSub(Min(g.hi, re) + 1, segStart);
            if best.None? || score > best.value.1 { best := Some((i, score)); }
          }
        }
        i := i + 1;
      }
      r := if best.Some? then Some(best.value.0) else None;
    }

    method Register(worker: nat, start: nat, end: nat, volume: nat, hedgeOf: Option<nat>) returns (c: LiveClaim)
      requires Valid()
      modifies this`live
      ensures Valid() && fresh(c) && live == old(live) + [c]
      ensures (View(), c.View()) == old(View()).Register(worker, start, end, volume, hedgeOf)
    {
      ghost var s := View();
      c := new LiveClaim(worker, start, end, volume, hedgeOf);
      live := live + [c];
      assert Views(live) == s.live + [c.View()];
    }

    method Take(worker: nat, rs: nat, re: nat, respectCap: bool, inCritical: bool) returns (c: LiveClaim?)
      requires Valid()
      modifies this
      ensures Valid()
      ensures match old(View()).Take(worker, rs, re, respectCap, inCritical)
              case None => c == null && View() == old(View()) && live == old(live)
              case Some(r) => c != null && fresh(c) && live == old(live) + [c] && View() == r.0 && c.View() == r.1
    {
      var idx := PickGap(rs, re, respectCap, inCritical);
      if idx.None? || idx.value >= |unclaimed| { return null; }
      var segStart := Max(unclaimed[idx.value].lo, rs);
      var segEnd := Min(unclaimed[idx.value].hi, re);
      var s := View();
      var volume := s.VolumeOf(segStart);
      var hardEnd := Min(segEnd, s.VolumeEnd(segStart, segEnd));
      var end := Min(hardEnd, Sat(segStart + SatSub(s.ClaimLen(), 1)));
      RemoveUnclaimed(segStart, end);
      c := Register(worker, segStart, end, volume, None);
    }

    // ---- T2: steal ----

    method Largest(p: Live -> bool) returns (best: Option<nat>)
      ensures best == LargestFrom(View().live, p, 0, None)
    {
      var s := View();
      best := None;
      var i := 0;
      while i < |live|
        invariant i <= |live|
        invariant best.Some? ==> best.value < |live| && p(s.live[best.value])
        invariant LargestFrom(s.live, p, 0, None) == LargestFrom(s.live, p, i, best)
      {
        var l := live[i].View();
        if p(l) && (best.None? || l.Remaining() >= live[best.value].View().Remaining()) { best := Some(i); }
        i := i + 1;
      }
    }

    method PickClaim(p: Live -> bool, hint: Option<nat>) returns (r: Option<nat>)
      ensures r == Choose(View().live, p, hint)
    {
      if hint.Some? && hint.value < |live| && p(live[hint.value].View()) { return hint; }
      r := Largest(p);
    }

    method SetEnd(i: nat, end: nat)
      requires Valid() && i < |live|
      modifies live[i]
      ensures Valid() && View() == old(View()).(live := old(View()).live[i := old(View()).live[i].(end := end)])
    {
      ghost var s := View();
      live[i].end := end;
      assert Views(live) == s.live[i := s.live[i].(end := end)];
    }

    method StealAt(worker: nat, pos: nat) returns (c: LiveClaim?)
      requires Valid() && pos < |live|
      modifies this, live[pos]
      ensures Valid() && View() == old(View()).StealAt(worker, pos).0
      ensures match old(View()).StealAt(worker, pos).1
              case None => c == null && live == old(live)
              case Some(l) => c != null && fresh(c) && live == old(live) + [c] && c.View() == l
    {
      var victim := live[pos];
      var vEnd := victim.end;
      var split := SatSub(vEnd, victim.View().Remaining() / 2);
      if split >= vEnd { return null; }
      SetEnd(pos, split);
      var newStart := Max(split + 1, victim.reserved);
      if newStart > vEnd { return null; }
      var s := View();
      var newEnd := Min(s.VolumeEnd(newStart, vEnd), vEnd);
      if newEnd < newStart { return null; }
      c := Register(worker, newStart, newEnd, s.VolumeOf(newStart), None);
    }

    method Steal(worker: nat, rates: Rates) returns (c: LiveClaim?)
      requires Valid()
      modifies this, live
      ensures Valid() && View() == old(View()).Steal(worker, rates).0
      ensures match old(View()).Steal(worker, rates).1
              case None => c == null && live == old(live)
              case Some(l) => c != null && fresh(c) && live == old(live) + [c] && c.View() == l
    {
      var pos := PickClaim(View().Robbable(worker), rates.straggler);
      if pos.None? { return null; }
      c := StealAt(worker, pos.value);
    }

    // ---- T3: hedge ----

    method Hedge(worker: nat, rates: Rates) returns (c: LiveClaim?)
      requires Valid()
      modifies this
      ensures Valid() && View() == old(View()).Hedge(worker, rates).0
      ensures match old(View()).Hedge(worker, rates).1
              case None => c == null && live == old(live)
              case Some(l) => c != null && fresh(c) && live == old(live) + [c] && c.View() == l
    {
      if dupBudget < MIN_CLAIM { return null; }
      var s := View();
      var pos := PickClaim(s.Hedgeable(worker), rates.slowest);
      if pos.None? { return null; }
      var target := live[pos.value];
      var lo := target.cursor;
      var hi := Min(target.end, Sat(lo + SatSub(dupBudget, 1)));
      if hi < lo || hi - lo + 1 < MIN_CLAIM { return null; }
      dupBudget := SatSub(dupBudget, hi - lo + 1);
      c := Register(worker, lo, hi, s.VolumeOf(lo), Some(target.start));
    }

    /** Take, else steal, else (in a download's tail) hedge. */
    method Claim(worker: nat, rates: Rates) returns (c: LiveClaim?)
      requires Valid()
      modifies this, live
      ensures Valid() && View() == old(View()).Claim(worker, rates).0
      ensures match old(View()).Claim(worker, rates).1
              case None => c == null && live == old(live)
              case Some(l) => c != null && fresh(c) && live == old(live) + [c] && c.View() == l
    {
      var s := View();
      var regions := s.Regions();
      var i := 0;
      while i < |regions|
        invariant i <= |regions| && Valid() && View() == s && live == old(live)
        invariant s.TakeFrom(worker, regions, 0) == s.TakeFrom(worker, regions, i)
      {
        var inCritical := i == 0 && strategy.Latency?;
        c := Take(worker, regions[i].lo, regions[i].hi, true, inCritical);
        if c != null { return; }
        c := Take(worker, regions[i].lo, regions[i].hi, false, inCritical);
        if c != null { return; }
        i := i + 1;
      }
      c := Steal(worker, rates);
      if c != null { return; }
      if strategy.Throughput? && View().InTail() {
        c := Hedge(worker, rates);
      }
    }

    // ---- giving back ----

    method Find(p: Live -> bool) returns (i: nat)
      ensures i == FindFrom(View().live, p, 0)
    {
      var s := View();
      i := 0;
      while i < |live| && !p(live[i].View())
        invariant i <= |live| && FindFrom(s.live, p, 0) == FindFrom(s.live, p, i)
      {
        i := i + 1;
      }
    }

    method CutFirst(p: Live -> bool)
      requires Valid()
      modifies live
      ensures Valid() && View() == old(View()).CutFirst(p)
    {
      var i := Find(p);
      if i < |live| {
        SetEnd(i, Min(live[i].end, SatSub(live[i].cursor, 1)));
      }
    }

    method RemoveLive(i: nat) returns (gone: LiveClaim)
      requires Valid() && i < |live|
      modifies this`live
      ensures gone == old(live)[i] && live == old(live)[..i] + old(live)[i + 1..]
      ensures Valid() && View() == old(View()).Without(i)
    {
      gone := live[i];
      ghost var s := View();
      live := live[..i] + live[i + 1..];
      assert Views(live) == s.live[..i] + s.live[i + 1..];
    }

    method Settle(gone: LiveClaim, reached: nat)
      requires Valid() && gone !in live
      modifies this`unclaimed, live
      ensures Valid() && live == old(live) && View() == old(View()).Settle(old(gone.View()), reached)
    {
      if gone.hedgeOf.Some? {
        if reached > gone.end { CutFirst(PrimaryAt(gone.hedgeOf.value)); }
      } else if reached > gone.end {
        CutFirst(HedgeOf(gone.start));
      } else {
        InsertUnclaimed(reached, gone.end);
      }
    }

    method Finish(worker: nat, reached: nat)
      requires Valid()
      modifies this, live
      ensures Valid() && View() == old(View()).Finish(worker, reached)
      ensures forall l :: l in live ==> l in old(live)
    {
      var i := Find(OfWorker(worker));
      if i == |live| { return; }
      var gone := RemoveLive(i);
      Settle(gone, reached);
    }

    method DropAt(i: nat) returns (worker: nat)
      requires Valid() && i < |live|
      modifies this
      ensures Valid() && View() == old(View()).Drop(i) && worker == old(View()).live[i].worker
      ensures live == old(live)[..i] + old(live)[i + 1..]
    {
      var l := live[i];
      var gone := RemoveLive(i);
      if l.hedgeOf.None? { InsertUnclaimed(l.cursor, l.end); }
      worker := l.worker;
    }

    method ShortenAt(i: nat)
      requires Valid() && i < |live|
      modifies this, live[i]
      ensures Valid() && View() == old(View()).Shorten(i) && live == old(live)
    {
      var s := View();
      var l := live[i];
      if l.hedgeOf.None? {
        var keep := Sat(l.cursor + SatSub(s.ClaimLen(), 1));
        if keep < l.end {
          var end := l.end;
          SetEnd(i, keep);
          InsertUnclaimed(Max(Sat(keep + 1), l.reserved), end);
        }
      }
    }

    method RefocusOnReader(window: nat) returns (reclaimed: seq<nat>)
      requires Valid()
      modifies this, live
      ensures Valid() && (View(), reclaimed) == old(View()).Refocus(window)
      ensures forall l :: l in live ==> l in old(live)
    {
      reclaimed := [];
      if strategy.Throughput? { return; }
      ghost var s := View();
      var head := readHead;
      var hi := Sat(head + Max(window, 1));
      var grace := Max(strategy.headClaim, MIN_CLAIM);
      var i := 0;
      assert [] + s.RefocusFrom(0, head, hi, grace).1 == s.RefocusFrom(0, head, hi, grace).1;
      while i < |live|
        invariant i <= |live| && Valid()
        invariant forall l :: l in live ==> l in old(live)
        invariant var r := View().RefocusFrom(i, head, hi, grace);
                  s.RefocusFrom(0, head, hi, grace) == (r.0, reclaimed + r.1)
        decreases |live| - i
      {
        assert live[i] in old(live);
        var l := live[i].View();
        if l.cursor > l.end {
          i := i + 1;
        } else if LetGo(l, head, hi, grace) {
          ghost var was := reclaimed;
          var w := DropAt(i);
          reclaimed := reclaimed + [w];
          ghost var r' := View().RefocusFrom(i, head, hi, grace);
          assert was + ([w] + r'.1) == reclaimed + r'.1;
        } else {
          ShortenAt(i);
          i := i + 1;
        }
      }
      assert reclaimed + [] == reclaimed;
    }

    method Touch(i: nat)
      requires Valid() && i < |live|
      modifies live[i]
      ensures Valid() && View() == old(View()).Touch(i)
    {
      ghost var s := View();
      live[i].lastCursor := live[i].cursor;
      assert Views(live) == s.live[i := s.live[i].(lastCursor := s.live[i].cursor)];
    }

    method ReclaimStalled(idle: set<nat>) returns (dead: seq<nat>)
      requires Valid()
      modifies this, live
      ensures Valid() && (View(), dead) == old(View()).ReclaimStalled(idle)
      ensures forall l :: l in live ==> l in old(live)
    {
      dead := [];
      ghost var s := View();
      var i := 0;
      assert [] + s.ReclaimFrom(0, idle).1 == s.ReclaimFrom(0, idle).1;
      while i < |live|
        invariant i <= |live| && Valid()
        invariant forall l :: l in live ==> l in old(live)
        invariant var r := View().ReclaimFrom(i, idle); s.ReclaimFrom(0, idle) == (r.0, dead + r.1)
        decreases |live| - i
      {
        assert live[i] in old(live);
        var l := live[i];
        if l.cursor > l.lastCursor || l.cursor > l.end {
          Touch(i);
          i := i + 1;
        } else if l.worker !in idle {
          i := i + 1;
        } else {
          ghost var was := dead;
          var w := DropAt(i);
          dead := dead + [w];
          ghost var r' := View().ReclaimFrom(i, idle);
          assert was + ([w] + r'.1) == dead + r'.1;
        }
      }
      assert dead + [] == dead;
    }

    // ---- adaptive sizing ----

    method NoteClaimOutcome(ok: bool, claim: LiveClaim) returns (counts: bool)
      requires Valid()
      modifies this
      ensures Valid() && live == old(live)
      ensures (View(), counts) == old(View()).NoteOutcome(ok, SatSub(claim.cursor, claim.start), claim.issued)
    {
      if ok {
        if autoLimit.Some? { autoLimit := Some(Min(Sat(autoLimit.value * 2), autoWall)); }
        return false;
      }
      if SatSub(claim.cursor, claim.start) >= MIN_FRAGMENT { return true; }
      if autoLimit.Some? {
        if claim.issued > autoLimit.value { return false; }
        var cut := Max(autoLimit.value / 2, MIN_CLAIM);
        autoWall := Min(autoWall, cut);
        autoLimit := Some(cut);
        return true;
      }
      autoWall := Max(claim.issued / 2, MIN_CLAIM);
      autoLimit := Some(Min(RECOVERY_CLAIM, autoWall));
      return false;
    }
  }
}
