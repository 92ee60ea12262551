/** The claim scheduler as a value: its fields and every operation on them.
    Worker speeds are measured by a clock, so what they single out is a parameter. */
module Sched {
  import opened Spans

  const MIB: nat := 1024 * 1024
  const MIN_CLAIM: nat := MIB
  const MIN_FRAGMENT: nat := 8 * MIB
  const ENDGAME_FLOOR: nat := 64 * MIB
  const RECOVERY_CLAIM: nat := 8 * MIB
  const DUP_BUDGET_DIVISOR: nat := 200
  const DUP_BUDGET_MAX: nat := 32 * MIB

  datatype Strategy = Throughput | Latency(criticalWindow: nat, headClaim: nat)

  datatype Volume = Volume(offset: nat, size: nat) {
    predicate Holds(off: nat) { size > 0 && offset <= off < offset + size }
  }

  /** A handed-out claim. `end` is inclusive and may be moved inward by others;
      the worker advances `reserved` before a write and `cursor` after it. */
  datatype Live = Live(worker: nat, volume: nat, start: nat, issued: nat, end: nat, cursor: nat, reserved: nat,
                       lastCursor: nat, hedgeOf: Option<nat>)
  {
    function Remaining(): nat { if cursor > end then 0 else end - cursor + 1 }

    predicate Primary() { hedgeOf.None? }

    /** First byte past everything this claim still answers for: bytes beyond a
        cut end that the worker had already committed to writing included. */
    function Limit(): nat { Max(end + 1, reserved) }

    /** Byte `x` is one this claim alone answers for; a hedge answers for none. */
    predicate Owns(x: nat) { Primary() && cursor <= x < Limit() }

    function Reserve(next: nat): Live { this.(reserved := Max(reserved, next)) }

    function AdvanceTo(next: nat): Live { this.(reserved := Max(reserved, next), cursor := next) }

    /** Pull the end below the cursor, saturating at byte 0. */
    function CutShort(): Live { this.(end := Min(end, SatSub(cursor, 1))) }
  }

  /** What the rate samples single out: the slowest trustworthy straggler, and
      the slowest claim of all, when there is one. */
  datatype Rates = Rates(straggler: Option<nat>, slowest: Option<nat>)

  /** A seek hands this request's range back: it is beyond the window, behind the
      reader, or too far behind to be worth waiting for. */
  predicate LetGo(l: Live, head: nat, hi: nat, grace: nat) {
    l.cursor >= hi || l.end < head || (l.end >= head && Sat(l.cursor + grace) < head)
  }

  // ---- searches over the live list, in list order ----

  function FindFrom(live: seq<Live>, p: Live -> bool, i: nat): nat
    requires i <= |live|
    ensures i <= FindFrom(live, p, i) <= |live|
    ensures FindFrom(live, p, i) < |live| ==> p(live[FindFrom(live, p, i)])
    ensures forall k :: i <= k < FindFrom(live, p, i) ==> !p(live[k])
    decreases |live| - i
  {
    if i == |live| || p(live[i]) then i else FindFrom(live, p, i + 1)
  }

  /** Index of the last eligible claim with the most left to do. */
  function LargestFrom(live: seq<Live>, p: Live -> bool, i: nat, best: Option<nat>): (r: Option<nat>)
    requires i <= |live|
    requires best.Some? ==> best.value < |live| && p(live[best.value])
    ensures r.Some? ==> r.value < |live| && p(live[r.value])
    ensures best.Some? ==> r.Some? && live[best.value].Remaining() <= live[r.value].Remaining()
    ensures forall k :: i <= k < |live| && p(live[k]) ==> r.Some? && live[k].Remaining() <= live[r.value].Remaining()
    decreases |live| - i
  {
    if i == |live| then best
    else if p(live[i]) && (best.None? || live[i].Remaining() >= live[best.value].Remaining())
    then LargestFrom(live, p, i + 1, Some(i))
    else LargestFrom(live, p, i + 1, best)
  }

  /** The claim the rates point at when it is eligible, else the largest one. */
  function Choose(live: seq<Live>, p: Live -> bool, hint: Option<nat>): (r: Option<nat>)
    ensures r.Some? ==> r.value < |live| && p(live[r.value])
    ensures r.None? ==> forall k :: 0 <= k < |live| ==> !p(live[k])
  {
    if hint.Some? && hint.value < |live| && p(live[hint.value]) then hint else LargestFrom(live, p, 0, None)
  }

  function OfWorker(worker: nat): Live -> bool { (l: Live) => l.worker == worker }

  function PrimaryAt(start: nat): Live -> bool { (l: Live) => l.Primary() && l.start == start }

  function HedgeOf(start: nat): Live -> bool { (l: Live) => l.hedgeOf == Some(start) }

  function LiveRemaining(live: seq<Live>): nat {
    if live == [] then 0
    else (if live[0].Primary() then live[0].Remaining() else 0) + LiveRemaining(live[1..])
  }

  function CountIn(live: seq<Live>, volume: nat): nat {
    if live == [] then 0 else (if live[0].volume == volume then 1 else 0) + CountIn(live[1..], volume)
  }

  function VolumeFrom(vols: seq<Volume>, off: nat, i: nat): Option<nat>
    requires i <= |vols|
    decreases |vols| - i
  {
    if i == |vols| then None else if vols[i].Holds(off) then Some(i) else VolumeFrom(vols, off, i + 1)
  }

  function SubtractAll(u: seq<Span>, staged: seq<Span>): seq<Span>
    decreases |staged|
  {
    if staged == [] then u else SubtractAll(Subtract(u, staged[0].lo, staged[0].hi), staged[1..])
  }

  function InitialBudget(reqStart: nat, reqEnd: nat): nat {
    Min(Sat(SatSub(reqEnd, reqStart) + 1) / DUP_BUDGET_DIVISOR, DUP_BUDGET_MAX)
  }

  function New(reqStart: nat, reqEnd: nat, strategy: Strategy, volumes: Option<seq<Volume>>, maxThreads: nat,
               maxPerVolume: nat, splitCap: Option<nat>, staged: seq<Span>): Sched
  {
    Sched(SubtractAll(if reqStart <= reqEnd then [Span(reqStart, reqEnd)] else [], staged), [], strategy, volumes,
          Max(maxThreads, 1), Max(maxPerVolume, 1), if splitCap == Some(0) then None else splitCap,
          reqStart, reqEnd, reqStart, 0, None, None, U64_MAX, InitialBudget(reqStart, reqEnd))
  }

  datatype Sched = Sched(unclaimed: seq<Span>, live: seq<Live>, strategy: Strategy, volumes: Option<seq<Volume>>,
                         maxThreads: nat, maxPerVolume: nat, splitCap: Option<nat>, reqStart: nat, reqEnd: nat,
                         readHead: nat, buffered: nat, workLimit: Option<nat>, autoLimit: Option<nat>, autoWall: nat,
                         dupBudget: nat)
  {
    predicate WellFormed() {
      && maxThreads > 0
      && maxPerVolume > 0
      && (splitCap.Some? ==> splitCap.value > 0)
      && (workLimit.Some? ==> workLimit.value > 0)
    }

    // ---- settings ----

    function WithClaimWall(remembered: Option<nat>): Sched {
      if remembered.None? then this
      else this.(autoWall := remembered.value, autoLimit := Some(Min(RECOVERY_CLAIM, remembered.value)))
    }

    function SetReadHead(offset: nat): Sched {
      this.(readHead := Max(reqStart, Min(offset, Sat(reqEnd + 1))), buffered := 0)
    }

    function SetReaderBuffer(n: nat): Sched { this.(buffered := n) }

    function SetStrategy(s: Strategy): Sched { this.(strategy := s) }

    function SetWorkLimit(limit: Option<nat>): Sched {
      this.(workLimit := if limit == Some(0) then None else limit)
    }

    // ---- sizing ----

    function RemainingWork(): nat { Sat(Total(unclaimed) + LiveRemaining(live)) }

    function EndgameThreshold(): nat { Max(Sat(maxThreads * 4 * MIN_FRAGMENT), ENDGAME_FLOOR) }

    predicate InTail() { RemainingWork() < EndgameThreshold() }

    function MinFrag(): nat {
      if strategy.Latency? || InTail() then MIN_CLAIM else MIN_FRAGMENT
    }

    function EvenShare(): nat {
      Max(DivCeil(Total(unclaimed), Max(SatSub(maxThreads, |live|), 1)), MinFrag())
    }

    function ClaimLen(): (n: nat)
      requires WellFormed()
      ensures n >= 1
      ensures splitCap.Some? ==> n <= splitCap.value
      ensures autoLimit.Some? ==> n <= Max(autoLimit.value, 1)
    {
      var policy := match strategy
        case Throughput => EvenShare()
        case Latency(_, headClaim) => Min(Max(buffered / maxThreads, Max(headClaim, 1)), EvenShare());
      var bounded := Min(policy, if autoLimit.Some? then autoLimit.value else U64_MAX);
      Max(if splitCap.Some? then Min(bounded, splitCap.value) else bounded, 1)
    }

    function CriticalSpan(): nat
      requires WellFormed()
    {
      match strategy
      case Throughput => 0
      case Latency(window, _) => Max(Max(window, Sat(maxThreads * ClaimLen())), 1)
    }

    function Horizon(): nat {
      if workLimit.Some? then Min(Sat(readHead + SatSub(workLimit.value, 1)), reqEnd) else reqEnd
    }

    function Floor(): nat { if workLimit.Some? then Max(readHead, reqStart) else reqStart }

    function Regions(): seq<Span>
      requires WellFormed()
    {
      var whole := Span(Floor(), Horizon());
      var hi := Min(Sat(readHead + SatSub(CriticalSpan(), 1)), Horizon());
      if strategy.Latency? && readHead <= hi then [Span(readHead, hi), whole] else [whole]
    }

    // ---- volumes ----

    function VolumeOf(off: nat): nat {
      if volumes.None? then 0
      else match VolumeFrom(volumes.value, off, 0) case Some(i) => i case None => 0
    }

    function VolumeEnd(off: nat, fallback: nat): nat {
      if volumes.None? then fallback
      else match VolumeFrom(volumes.value, off, 0)
           case Some(i) =>
             if i < |volumes.value| then SatSub(volumes.value[i].offset + volumes.value[i].size, 1) else fallback
           case None => fallback
    }

    // ---- T1: take ----

    predicate Blocked(off: nat, respectCap: bool) {
      respectCap && CountIn(live, VolumeOf(off)) >= maxPerVolume
    }

    function PickGap(rs: nat, re: nat, respectCap: bool, nearest: bool, i: nat, best: Option<(nat, nat)>): Option<nat>
      requires i <= |unclaimed|
      decreases |unclaimed| - i
    {
      if i == |unclaimed| then (if best.Some? then Some(best.value.0) else None)
      else
        var g := unclaimed[i];
        if g.hi < rs || g.lo > re then PickGap(rs, re, respectCap, nearest, i + 1, best)
        else
          var segStart := Max(g.lo, rs);
          if nearest then (if Blocked(segStart, respectCap) then None else Some(i))
          else if Blocked(segStart, respectCap) then PickGap(rs, re, respectCap, nearest, i + 1, best)
          else
            var score := SatSub(Min(g.hi, re) + 1, segStart);
            PickGap(rs, re, respectCap, nearest, i + 1,
                    if best.None? || score > best.value.1 then Some((i, score)) else best)
    }

    function Register(worker: nat, start: nat, end: nat, volume: nat, hedgeOf: Option<nat>): (Sched, Live) {
      var l := Live(worker, volume, start, SatSub(end, start) + 1, end, start, start, start, hedgeOf);
      (this.(live := live + [l]), l)
    }

    function TakeEnd(segStart: nat, segEnd: nat): nat
      requires WellFormed()
    {
      Min(Min(segEnd, VolumeEnd(segStart, segEnd)), Sat(segStart + SatSub(ClaimLen(), 1)))
    }

    function Take(worker: nat, rs: nat, re: nat, respectCap: bool, inCritical: bool): Option<(Sched, Live)>
      requires WellFormed()
    {
      match PickGap(rs, re, respectCap, inCritical, 0, None)
      case None => None
      case Some(idx) =>
        if idx >= |unclaimed| then None
        else
          var segStart := Max(unclaimed[idx].lo, rs);
          var end := TakeEnd(segStart, Min(unclaimed[idx].hi, re));
          Some(this.(unclaimed := Subtract(unclaimed, segStart, end))
               .Register(worker, segStart, end, VolumeOf(segStart), None))
    }

    function TakeFrom(worker: nat, regions: seq<Span>, i: nat): Option<(Sched, Live)>
      requires WellFormed() && i <= |regions|
      decreases |regions| - i
    {
      if i == |regions| then None
      else
        var inCritical := i == 0 && strategy.Latency?;
        var first := Take(worker, regions[i].lo, regions[i].hi, true, inCritical);
        if first.Some? then first
        else
          var second := Take(worker, regions[i].lo, regions[i].hi, false, inCritical);
          if second.Some? then second else TakeFrom(worker, regions, i + 1)
    }

    // ---- T2: steal ----

    function Robbable(worker: nat): Live -> bool {
      var need := Sat(MinFrag() * 2);
      (l: Live) => l.worker != worker && l.Primary() && l.Remaining() > need
    }

    function StealAt(worker: nat, pos: nat): (Sched, Option<Live>)
      requires pos < |live|
    {
      var v := live[pos];
      var split := SatSub(v.end, v.Remaining() / 2);
      if split >= v.end then (this, None)
      else
        var cut := this.(live := live[pos := v.(end := split)]);
        var newStart := Max(split + 1, v.reserved);
        if newStart > v.end then (cut, None)
        else
          var newEnd := Min(VolumeEnd(newStart, v.end), v.end);
          if newEnd < newStart then (cut, None)
          else
            var (s, l) := cut.Register(worker, newStart, newEnd, VolumeOf(newStart), None);
            (s, Some(l))
    }

    function Steal(worker: nat, rates: Rates): (Sched, Option<Live>) {
      match Choose(live, Robbable(worker), rates.straggler)
      case None => (this, None)
      case Some(pos) => StealAt(worker, pos)
    }

    // ---- T3: hedge ----

    predicate Hedged(start: nat) { exists k :: 0 <= k < |live| && live[k].hedgeOf == Some(start) }

    function Hedgeable(worker: nat): Live -> bool {
      (l: Live) => l.worker != worker && l.Primary() && l.Remaining() >= MIN_CLAIM && !Hedged(l.start)
    }

    function HedgeAt(worker: nat, pos: nat): (Sched, Option<Live>)
      requires pos < |live|
    {
      var t := live[pos];
      var hi := Min(t.end, Sat(t.cursor + SatSub(dupBudget, 1)));
      if hi < t.cursor || hi - t.cursor + 1 < MIN_CLAIM then (this, None)
      else
        var (s, l) := this.(dupBudget := SatSub(dupBudget, hi - t.cursor + 1))
                      .Register(worker, t.cursor, hi, VolumeOf(t.cursor), Some(t.start));
        (s, Some(l))
    }

    function Hedge(worker: nat, rates: Rates): (Sched, Option<Live>) {
      if dupBudget < MIN_CLAIM then (this, None)
      else
        match Choose(live, Hedgeable(worker), rates.slowest)
        case None => (this, None)
        case Some(pos) => HedgeAt(worker, pos)
    }

    /** The three tiers, in cost order. */
    function Claim(worker: nat, rates: Rates): (Sched, Option<Live>)
      requires WellFormed()
    {
      var taken := TakeFrom(worker, Regions(), 0);
      if taken.Some? then (taken.value.0, Some(taken.value.1))
      else
        var (s, stolen) := Steal(worker, rates);
        if stolen.Some? then (s, stolen)
        else if s.strategy.Throughput? && s.InTail() then s.Hedge(worker, rates)
        else (s, None)
    }

    // ---- giving back ----

    function CutFirst(p: Live -> bool): Sched {
      var i := FindFrom(live, p, 0);
      if i < |live| then this.(live := live[i := live[i].CutShort()]) else this
    }

    /** After the claim `gone` has left the list. */
    function Settle(gone: Live, reached: nat): Sched {
      if gone.hedgeOf.Some? then (if reached > gone.end then CutFirst(PrimaryAt(gone.hedgeOf.value)) else this)
      else if reached > gone.end then CutFirst(HedgeOf(gone.start))
      else this.(unclaimed := Insert(unclaimed, reached, gone.end))
    }

    function Without(i: nat): Sched
      requires i < |live|
    {
      this.(live := live[..i] + live[i + 1..])
    }

    function Finish(worker: nat, reached: nat): Sched {
      var i := FindFrom(live, OfWorker(worker), 0);
      if i == |live| then this else Without(i).Settle(live[i], reached)
    }

    function Drop(i: nat): Sched
      requires i < |live|
    {
      var l := live[i];
      Without(i).(unclaimed := if l.Primary() then Insert(unclaimed, l.cursor, l.end) else unclaimed)
    }

    /** Shorten an over-long claim in place and give its tail back. */
    function Shorten(i: nat): Sched
      requires WellFormed() && i < |live|
    {
      var l := live[i];
      var keep := Sat(l.cursor + SatSub(ClaimLen(), 1));
      if l.Primary() && keep < l.end then
        this.(live := live[i := l.(end := keep)],
              unclaimed := Insert(unclaimed, Max(Sat(keep + 1), l.reserved), l.end))
      else this
    }

    function RefocusFrom(i: nat, head: nat, hi: nat, grace: nat): (Sched, seq<nat>)
      requires WellFormed() && i <= |live|
      decreases |live| - i
    {
      if i == |live| then (this, [])
      else
        var l := live[i];
        if l.cursor > l.end then RefocusFrom(i + 1, head, hi, grace)
        else if LetGo(l, head, hi, grace) then
          var (s, gone) := Drop(i).RefocusFrom(i, head, hi, grace);
          (s, [l.worker] + gone)
        else Shorten(i).RefocusFrom(i + 1, head, hi, grace)
    }

    function Refocus(window: nat): (Sched, seq<nat>)
      requires WellFormed()
    {
      match strategy
      case Throughput => (this, [])
      case Latency(_, headClaim) =>
        RefocusFrom(0, readHead, Sat(readHead + Max(window, 1)), Max(headClaim, MIN_CLAIM))
    }

    function Touch(i: nat): Sched
      requires i < |live|
    {
      this.(live := live[i := live[i].(lastCursor := live[i].cursor)])
    }

    /** `idle` holds the workers whose last progress is at least the dead-claim window ago. */
    function ReclaimFrom(i: nat, idle: set<nat>): (Sched, seq<nat>)
      requires i <= |live|
      decreases |live| - i
    {
      if i == |live| then (this, [])
      else
        var l := live[i];
        if l.cursor > l.lastCursor || l.cursor > l.end then
          Touch(i).ReclaimFrom(i + 1, idle)
        else if l.worker !in idle then ReclaimFrom(i + 1, idle)
        else
          var (s, gone) := Drop(i).ReclaimFrom(i, idle);
          (s, [l.worker] + gone)
    }

    function ReclaimStalled(idle: set<nat>): (Sched, seq<nat>) { ReclaimFrom(0, idle) }

    // ---- adaptive sizing ----

    function NoteOutcome(ok: bool, delivered: nat, issued: nat): (Sched, bool) {
      if ok then
        (if autoLimit.Some? then this.(autoLimit := Some(Min(Sat(autoLimit.value * 2), autoWall))) else this, false)
      else if delivered >= MIN_FRAGMENT then (this, true)
      else if autoLimit.Some? && issued > autoLimit.value then (this, false)
      else if autoLimit.Some? then
        var cut := Max(autoLimit.value / 2, MIN_CLAIM);
        (this.(autoWall := Min(autoWall, cut), autoLimit := Some(cut)), true)
      else
        var wall := Max(issued / 2, MIN_CLAIM);
        (this.(autoWall := wall, autoLimit := Some(Min(RECOVERY_CLAIM, wall))), false)
    }
  }
}
