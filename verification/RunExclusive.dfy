/** Who writes a byte: over every run, hedges, seeks, sweeps and rebuilds included,
    a byte is one primary's at most, and no primary writes it again before a
    rebuild that did not find it, exactly as long as no end moves between a
    primary reading it and announcing its write. */
module RunExclusive {
  import opened Spans
  import opened Sched
  import opened SchedLaws
  import opened Conservation
  import opened RunModel
  import opened RunSafety
  import opened RunConservation

  /** The end a primary read for this item still stands when it announces the write. */
  ghost predicate EndStands(r: Run, w: nat)
    requires HasBusy(r, w)
  {
    var l, t := r.s.live[Slot(r.s, w)], r.tasks[w];
    l.Primary() ==> t.at + t.item <= l.end + 1
  }

  ghost predicate NothingAdded(s: Sched, t: Sched) { forall x: nat :: Outstanding(t, x) <= Outstanding(s, x) }

  lemma CommitOutstanding(r: Run, origin: nat -> Byte, w: nat, x: nat)
    requires RunInv(r, origin) && Enabled(r, Commit(w))
    ensures var l, t := r.s.live[Slot(r.s, w)], r.tasks[w];
            Outstanding(CommitAct(r, w).s, x) == Outstanding(r.s, x) + B(l.Primary() && l.Limit() <= x < t.at + t.item)
  {
    SlotFacts(r, origin, w);
    var l, t := r.s.live[Slot(r.s, w)], r.tasks[w];
    WorkerClaimUpdate(r, origin, w, l.Reserve(t.at + t.item), {}, x);
  }

  /** Announcing a write gives no byte a second owner exactly when the end still
      stands; otherwise only bytes of the one item in hand gain one. */
  lemma CommitExact(r: Run, origin: nat -> Byte, w: nat)
    requires RunInv(r, origin) && Enabled(r, Commit(w))
    ensures NothingAdded(r.s, CommitAct(r, w).s) <==> EndStands(r, w)
    ensures forall x: nat :: Outstanding(CommitAct(r, w).s, x)
                             <= Outstanding(r.s, x) + B(r.tasks[w].at <= x < r.tasks[w].at + r.tasks[w].item)
  {
    SlotFacts(r, origin, w);
    var l, t := r.s.live[Slot(r.s, w)], r.tasks[w];
    var after := CommitAct(r, w).s;
    forall x: nat
      ensures Outstanding(after, x) == Outstanding(r.s, x) + B(l.Primary() && l.Limit() <= x < t.at + t.item)
    {
      CommitOutstanding(r, origin, w, x);
    }
    if !EndStands(r, w) { assert Outstanding(after, l.Limit()) == Outstanding(r.s, l.Limit()) + 1; }
  }

  // ---- one byte, one act ----

  /** With reading the end and announcing the write as one step, every act is. */
  ghost predicate Orderly(r: Run, a: Act)
    requires Enabled(r, a)
  {
    a.Commit? ==> EndStands(r, a.w)
  }

  /** A primary puts `x` on disk. */
  ghost predicate Lands(r: Run, a: Act, x: nat)
    requires Enabled(r, a)
  {
    match a
    case Land(w, flush) =>
      var l := r.s.live[Slot(r.s, w)];
      flush && l.Primary() && l.cursor <= x < r.tasks[w].at + r.tasks[w].item
    case Flush(w) => var l := r.s.live[Slot(r.s, w)]; l.Primary() && l.cursor <= x < r.tasks[w].at
    case _ => false
  }

  /** A rebuild that did not find `x` on disk. */
  ghost predicate Reopens(r: Run, a: Act, x: nat) {
    a.Pause? && r.s.reqStart <= x <= r.s.reqEnd && !Has(a.staged, x)
  }

  lemma LandOwed(r: Run, origin: nat -> Byte, w: nat, flush: bool, x: nat)
    requires RunInv(r, origin) && Enabled(r, Land(w, flush))
    ensures var l, t := r.s.live[Slot(r.s, w)], r.tasks[w];
            Outstanding(LandAct(r, origin, w, flush).s, x) + B(flush && l.Primary() && l.cursor <= x < t.at + t.item)
            == Outstanding(r.s, x)
  {
    SlotFacts(r, origin, w);
    WorkerClaimUpdate(r, origin, w, Landed(r.s.live[Slot(r.s, w)], r.tasks[w], flush), {}, x);
  }

  lemma FlushOwed(r: Run, origin: nat -> Byte, w: nat, x: nat)
    requires RunInv(r, origin) && Enabled(r, Flush(w))
    ensures var l, t := r.s.live[Slot(r.s, w)], r.tasks[w];
            Outstanding(FlushAct(r, origin, w).s, x) + B(l.Primary() && l.cursor <= x < t.at) == Outstanding(r.s, x)
  {
    SlotFacts(r, origin, w);
    WorkerClaimUpdate(r, origin, w, r.s.live[Slot(r.s, w)].AdvanceTo(r.tasks[w].at), {}, x);
  }

  lemma LandOutstanding(r: Run, origin: nat -> Byte, a: Act, x: nat)
    requires RunInv(r, origin) && Enabled(r, a) && (a.Land? || a.Flush?)
    ensures Outstanding(Apply(r, origin, a).s, x) + B(Lands(r, a, x)) == Outstanding(r.s, x)
  {
    SlotFacts(r, origin, a.w);
    if a.Land? { LandOwed(r, origin, a.w, a.flush, x); } else { FlushOwed(r, origin, a.w, x); }
  }

  /** A primary announces `x` although it lies past the end that stands. */
  ghost predicate Oversteps(r: Run, a: Act, x: nat)
    requires Enabled(r, a)
  {
    a.Commit? && (var l, t := r.s.live[Slot(r.s, a.w)], r.tasks[a.w]; l.Primary() && l.Limit() <= x < t.at + t.item)
  }

  lemma ListOutstanding(r: Run, origin: nat -> Byte, a: Act, x: nat)
    requires RunInv(r, origin) && Enabled(r, a) && (a.Ask? || a.Report? || a.Refocus? || a.Sweep?)
    ensures Outstanding(Apply(r, origin, a).s, x) <= Outstanding(r.s, x)
  {
    match a {
      case Ask(w, rates) =>
        IdleAbsent(r.s, r.tasks, w, r.file.Keys);
        ClaimConserves(r.s, w, rates, {}, x);
      case Report(w, v) =>
        SlotFacts(r, origin, w);
        FinishByte(r.s, Slot(r.s, w), {}, x);
      case Refocus(window) => SeekByte(r.s, window, {}, x);
      case Sweep(idle) => ReclaimByte(r.s, 0, idle, {}, x);
    }
  }

  lemma PauseOutstanding(r: Run, origin: nat -> Byte, a: Act, x: nat)
    requires RunInv(r, origin) && Enabled(r, a) && a.Pause?
    ensures Outstanding(Apply(r, origin, a).s, x) == B(Reopens(r, a, x))
  {
    var blank := New(r.s.reqStart, r.s.reqEnd, a.strategy, r.s.volumes, r.s.maxThreads, r.s.maxPerVolume, r.s.splitCap,
        a.staged);
    NewLaw(blank, a.strategy, r.s.volumes, r.s.maxThreads, r.s.maxPerVolume, r.s.splitCap, a.staged);
  }

  lemma QuietOutstanding(r: Run, origin: nat -> Byte, a: Act, x: nat)
    requires Enabled(r, a)
    requires a.Quit? || a.See? || a.Note? || a.Emit? || a.Tell? || a.Tune? || a.Attach? || a.Staff?
    ensures Outstanding(Apply(r, origin, a).s, x) == Outstanding(r.s, x)
  {
  }

  /** A primary pays for each byte it writes; only a rebuild that missed the byte, or
      an announcement past the end that stands, gives it another owner. */
  lemma ActByte(r: Run, origin: nat -> Byte, a: Act, x: nat)
    requires RunInv(r, origin) && Enabled(r, a)
    ensures Outstanding(Apply(r, origin, a).s, x) + B(Lands(r, a, x))
            <= Outstanding(r.s, x) + B(Reopens(r, a, x)) + B(Oversteps(r, a, x))
    ensures a.Pause? ==> Outstanding(Apply(r, origin, a).s, x) <= 1
  {
    match a {
      case Ask(_, _) => ListOutstanding(r, origin, a, x);
      case Report(_, _) => ListOutstanding(r, origin, a, x);
      case Refocus(_) => ListOutstanding(r, origin, a, x);
      case Sweep(_) => ListOutstanding(r, origin, a, x);
      case Commit(w) =>
        SlotFacts(r, origin, w);
        CommitOutstanding(r, origin, w, x);
      case Land(_, _) => LandOutstanding(r, origin, a, x);
      case Flush(_) => LandOutstanding(r, origin, a, x);
      case Pause(_, _, _) => PauseOutstanding(r, origin, a, x);
      case _ => QuietOutstanding(r, origin, a, x);
    }
  }

  /** Only a rebuild, as long as every end stands. */
  lemma OrderlyByte(r: Run, origin: nat -> Byte, a: Act, x: nat)
    requires RunInv(r, origin) && Enabled(r, a) && Orderly(r, a)
    ensures !Oversteps(r, a, x)
    ensures Outstanding(Apply(r, origin, a).s, x) + B(Lands(r, a, x)) <= Outstanding(r.s, x) + B(Reopens(r, a, x))
    ensures a.Pause? ==> Outstanding(Apply(r, origin, a).s, x) <= 1
  {
    if a.Commit? { SlotFacts(r, origin, a.w); }
    ActByte(r, origin, a, x);
  }

  // ---- every run ----

  ghost predicate AllOrderly(r: Run, origin: nat -> Byte, acts: seq<Act>)
    requires Possible(r, origin, acts)
    decreases |acts|
  {
    acts == [] || (Orderly(r, acts[0]) && AllOrderly(Apply(r, origin, acts[0]), origin, acts[1..]))
  }

  /** How often primaries put `x` on disk. */
  ghost function Writes(r: Run, origin: nat -> Byte, acts: seq<Act>, x: nat): nat
    requires Possible(r, origin, acts)
    decreases |acts|
  {
    if acts == [] then 0 else B(Lands(r, acts[0], x)) + Writes(Apply(r, origin, acts[0]), origin, acts[1..], x)
  }

  /** How many rebuilds did not find `x`. */
  ghost function Misses(r: Run, origin: nat -> Byte, acts: seq<Act>, x: nat): nat
    requires Possible(r, origin, acts)
    decreases |acts|
  {
    if acts == [] then 0 else B(Reopens(r, acts[0], x)) + Misses(Apply(r, origin, acts[0]), origin, acts[1..], x)
  }

  /** How often a primary announced `x` past the end that stood. */
  ghost function Excess(r: Run, origin: nat -> Byte, acts: seq<Act>, x: nat): nat
    requires Possible(r, origin, acts)
    decreases |acts|
  {
    if acts == [] then 0 else B(Oversteps(r, acts[0], x)) + Excess(Apply(r, origin, acts[0]), origin, acts[1..], x)
  }

  lemma {:induction false} OrderlyExcess(r: Run, origin: nat -> Byte, acts: seq<Act>, x: nat)
    requires RunInv(r, origin) && Possible(r, origin, acts) && AllOrderly(r, origin, acts)
    ensures Excess(r, origin, acts, x) == 0
    decreases |acts|
  {
    if acts != [] {
      StepSafe(r, origin, acts[0]);
      OrderlyByte(r, origin, acts[0], x);
      OrderlyExcess(Apply(r, origin, acts[0]), origin, acts[1..], x);
    }
  }

  /** No byte ever has two owners. */
  lemma {:induction false} RunUndoubled(r: Run, origin: nat -> Byte, acts: seq<Act>)
    requires RunInv(r, origin) && Undoubled(r.s) && Possible(r, origin, acts) && AllOrderly(r, origin, acts)
    ensures Undoubled(Exec(r, origin, acts).s)
    decreases |acts|
  {
    if acts != [] {
      var r' := Apply(r, origin, acts[0]);
      StepSafe(r, origin, acts[0]);
      forall x: nat ensures Outstanding(r'.s, x) <= 1 {
        OrderlyByte(r, origin, acts[0], x);
        assert Outstanding(r.s, x) <= 1;
      }
      RunUndoubled(r', origin, acts[1..]);
    }
  }

  /** Over any run the primaries' writes of a byte and its owners at the end are
      paid for by its owners at the start, the rebuilds that missed it, and the
      announcements past an end that stood. */
  lemma {:induction false} WritesPaid(r: Run, origin: nat -> Byte, acts: seq<Act>, x: nat)
    requires RunInv(r, origin) && Possible(r, origin, acts)
    ensures Writes(r, origin, acts, x) + Outstanding(Exec(r, origin, acts).s, x)
            <= Outstanding(r.s, x) + Misses(r, origin, acts, x) + Excess(r, origin, acts, x)
    decreases |acts|
  {
    if acts != [] {
      StepSafe(r, origin, acts[0]);
      ActByte(r, origin, acts[0], x);
      WritesPaid(Apply(r, origin, acts[0]), origin, acts[1..], x);
    }
  }

  lemma {:induction false} NoPauseNoMiss(r: Run, origin: nat -> Byte, acts: seq<Act>, x: nat)
    requires Possible(r, origin, acts) && forall i :: 0 <= i < |acts| ==> !acts[i].Pause?
    ensures Misses(r, origin, acts, x) == 0
    decreases |acts|
  {
    if acts != [] { NoPauseNoMiss(Apply(r, origin, acts[0]), origin, acts[1..], x); }
  }

  /** A byte nobody owns is nobody's, and written by no primary, until a rebuild or
      an announcement that oversteps. */
  lemma NeverAgain(r: Run, origin: nat -> Byte, acts: seq<Act>, x: nat)
    requires RunInv(r, origin) && Possible(r, origin, acts) && Excess(r, origin, acts, x) == 0
    requires Outstanding(r.s, x) == 0 && forall i :: 0 <= i < |acts| ==> !acts[i].Pause?
    ensures Outstanding(Exec(r, origin, acts).s, x) == 0 && Writes(r, origin, acts, x) == 0
  {
    WritesPaid(r, origin, acts, x);
    NoPauseNoMiss(r, origin, acts, x);
  }

  /** Over a whole transfer a byte found on disk at the start is written by no
      primary, any other by one at most, once more for each rebuild that did not find
      it, and once more for each announcement past an end that stood. With every end
      standing when the write is announced there is none of those, and no byte ends
      up with two owners. */
  lemma NoDoubleWrite(r: Run, origin: nat -> Byte, strategy: Strategy, staged: seq<Span>, acts: seq<Act>, x: nat)
    requires Opening(r, origin, strategy, staged) && Possible(r, origin, acts)
    ensures Writes(r, origin, acts, x) <= B(!Has(staged, x)) + Misses(r, origin, acts, x) + Excess(r, origin, acts, x)
    ensures AllOrderly(r, origin, acts) ==> Excess(r, origin, acts, x) == 0 && Undoubled(Exec(r, origin, acts).s)
  {
    OpeningSafe(r, origin, strategy, staged);
    forall y: nat ensures Outstanding(r.s, y) == B(r.s.reqStart <= y <= r.s.reqEnd && !Has(staged, y)) {
      NewLaw(r.s, strategy, r.s.volumes, r.s.maxThreads, r.s.maxPerVolume, r.s.splitCap, staged);
    }
    WritesPaid(r, origin, acts, x);
    if AllOrderly(r, origin, acts) {
      OrderlyExcess(r, origin, acts, x);
      RunUndoubled(r, origin, acts);
    }
  }

  /** What a primary has announced or buffered is waiting for nobody, and no other
      primary's. */
  lemma OneWriter(r: Run, origin: nat -> Byte, w: nat, v: nat, x: nat)
    requires RunInv(r, origin) && Undoubled(r.s) && HasBusy(r, w) && HasBusy(r, v) && v != w
    requires var l, t := r.s.live[Slot(r.s, w)], r.tasks[w]; l.Primary() && l.cursor <= x < l.reserved
    ensures !Has(r.s.unclaimed, x) && !r.s.live[Slot(r.s, v)].Owns(x)
  {
    SlotFacts(r, origin, w);
    SlotFacts(r, origin, v);
    var p, q := Slot(r.s, w), Slot(r.s, v);
    assert Outstanding(r.s, x) <= 1;
    OwnersSplit(r.s.live, p, x);
    var rest := r.s.live[..p] + r.s.live[p + 1..];
    OwnersAt(rest, x);
    assert rest[if q < p then q else q - 1] == r.s.live[q];
  }
}
