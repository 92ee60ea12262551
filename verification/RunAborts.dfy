/** Aborts are safe where the code performs them: a request is only cancelled
    while it waits for its next item, and by then no byte it has accepted lies
    past the end of its claim. */
module RunAborts {
  import opened Spans
  import opened Sched
  import opened SchedLaws
  import opened Conservation
  import opened Policy
  import opened RunModel
  import opened RunSafety
  import opened RunRaces
  import opened RunConservation

  /** The write buffer is flushed once it holds this much. */
  const COALESCE_BYTES: nat := MIB

  /** A primary's buffer is short, and an item in hand either still fits the claim
      or the claim reaches past anything the buffer can hold; except for a claim
      cut at byte 0, which a hedge has already delivered as far as the buffer goes. */
  ghost predicate Snug(l: Live, t: Task, disk: set<nat>) {
    && t.Busy?
    && (!l.Primary() || l.cursor > l.end || Echoed(l, t, disk)
        || (t.at < l.cursor + COALESCE_BYTES
            && (t.at + t.item <= l.end + 1 || (t.item > 0 && l.cursor + COALESCE_BYTES <= l.end + 1))))
  }

  ghost predicate Echoed(l: Live, t: Task, disk: set<nat>)
    requires t.Busy?
  {
    l.cursor == 0 && l.end == 0 && t.at < COALESCE_BYTES
    && forall x: nat :: x < t.at + t.item && x < COALESCE_BYTES ==> x in disk
  }

  ghost predicate SnugAll(live: seq<Live>, tasks: seq<Task>, disk: set<nat>) {
    forall i :: 0 <= i < |live| ==> live[i].worker < |tasks| && Snug(live[i], tasks[live[i].worker], disk)
  }

  predicate Roomy(s: Strategy) { s.Latency? ==> s.headClaim >= MIN_CLAIM }

  ghost predicate Careful(r: Run) { Sizing(r.s) && Roomy(r.s.strategy) && SnugAll(r.s.live, r.tasks, r.file.Keys) }

  ghost predicate AbortInv(r: Run) { Careful(r) && RaceInv(r.s) }

  ghost predicate AtRest(r: Run, l: Live) {
    l.worker < |r.tasks| && r.tasks[l.worker].Busy? && r.tasks[l.worker].item == 0
  }

  /** A hedge that wins reaches the end of the primary it cuts short. */
  ghost predicate WinCovers(r: Run, w: nat)
    requires HasBusy(r, w)
  {
    var p := Slot(r.s, w);
    var l, rest := r.s.live[p], r.s.Without(p);
    var i := RaceLoser(rest, l);
    l.cursor > l.end && i < |rest.live| ==> l.end >= rest.live[i].end
  }

  /** The buffer holds less than a block after a write that did not flush; a
      request is aborted only between items; a winning hedge covers its primary. */
  ghost predicate Prudent(r: Run, a: Act)
    requires Enabled(r, a)
  {
    match a
    case Land(w, flush) =>
      flush || r.tasks[w].at + r.tasks[w].item < r.s.live[Slot(r.s, w)].cursor + COALESCE_BYTES
    case Report(w, _) => WinCovers(r, w)
    case Refocus(window) => forall k :: 0 <= k < |r.s.live| && Aborted(r.s, window, r.s.live[k]) ==> AtRest(r, r.s.live[k])
    case Sweep(idle) => forall k :: 0 <= k < |r.s.live| && Dead(r.s.live[k], idle) ==> AtRest(r, r.s.live[k])
    case Tune(strategy, _) => Roomy(strategy)
    case Pause(strategy, wall, _) => Roomy(strategy) && (wall.Some? ==> MIN_CLAIM <= wall.value <= U64_MAX)
    case Note(w) => r.tasks[w].issued <= U64_MAX
    case _ => true
  }

  // ---- every cut leaves room ----

  /** A claim is only ever shortened to an end a full buffer cannot reach. */
  lemma ShortenLeavesRoom(s: Sched, i: nat)
    requires Inv(s) && i < |s.live| && s.live[i].cursor <= s.live[i].end && Roomy(s.strategy) && Sizing(s)
    ensures var l := s.Shorten(i).live[i]; l == s.live[i] || l.cursor + COALESCE_BYTES <= l.end + 1
  {
    var l := s.live[i];
    assert GoodClaim(s, l);
    assert s.ClaimLen() >= MIN_CLAIM || (s.splitCap.Some? && s.ClaimLen() == s.splitCap.value);
  }

  lemma StealLeavesRoom(s: Sched, pos: nat)
    requires pos < |s.live| && s.live[pos].Remaining() >= 2 * COALESCE_BYTES
    ensures var v := s.live[pos]; var split := SatSub(v.end, v.Remaining() / 2);
            v.cursor + COALESCE_BYTES <= split + 1
  {
  }

  lemma StealSnug(s: Sched, worker: nat, pos: nat, tasks: seq<Task>, disk: set<nat>)
    requires Inv(s) && pos < |s.live| && SnugAll(s.live, tasks, disk) && s.live[pos].Remaining() >= 2 * COALESCE_BYTES
    ensures var t := s.StealAt(worker, pos).0;
            |t.live| >= |s.live| && SnugAll(t.live[..|s.live|], tasks, disk)
  {
    StealLeavesRoom(s, pos);
    var t := s.StealAt(worker, pos).0;
    forall i | 0 <= i < |s.live| ensures t.live[i].worker < |tasks| && Snug(t.live[i], tasks[t.live[i].worker], disk) {
      assert Snug(s.live[i], tasks[s.live[i].worker], disk);
    }
  }

  lemma HedgeSnug(s: Sched, worker: nat, rates: Rates, tasks: seq<Task>, disk: set<nat>, n: nat)
    requires n <= |s.live| && SnugAll(s.live[..n], tasks, disk)
    ensures n <= |s.Hedge(worker, rates).0.live| && SnugAll(s.Hedge(worker, rates).0.live[..n], tasks, disk)
  {
    assert s.Hedge(worker, rates).0.live[..n] == s.live[..n];
  }

  /** No claim loses its room when another worker takes or steals. */
  lemma ClaimSnug(s: Sched, worker: nat, rates: Rates, tasks: seq<Task>, disk: set<nat>)
    requires Inv(s) && Absent(s, worker) && SnugAll(s.live, tasks, disk)
    ensures var t := s.Claim(worker, rates).0; |t.live| >= |s.live| && SnugAll(t.live[..|s.live|], tasks, disk)
  {
    RegionsLaw(s);
    TakeFromLaw(s, worker, s.Regions(), 0);
    var taken := s.TakeFrom(worker, s.Regions(), 0);
    var n := |s.live|;
    assert s.live[..n] == s.live;
    if taken.Some? {
      assert taken.value.0.live[..n] == s.live;
    } else {
      var pick := Choose(s.live, s.Robbable(worker), rates.straggler);
      if pick.Some? { StealSnug(s, worker, pick.value, tasks, disk); }
      var via := s.Steal(worker, rates).0;
      assert |via.live| >= n && SnugAll(via.live[..n], tasks, disk);
      HedgeSnug(via, worker, rates, tasks, disk, n);
    }
  }

  lemma {:induction false} RefocusSnug(s: Sched, i: nat, head: nat, hi: nat, grace: nat, tasks: seq<Task>, disk: set<nat>)
    requires Inv(s) && i <= |s.live| && Roomy(s.strategy) && Sizing(s) && SnugAll(s.live, tasks, disk)
    ensures SnugAll(s.RefocusFrom(i, head, hi, grace).0.live, tasks, disk)
    decreases |s.live| - i
  {
    if i < |s.live| {
      var l := s.live[i];
      if l.cursor > l.end {
        RefocusSnug(s, i + 1, head, hi, grace, tasks, disk);
      } else if LetGo(l, head, hi, grace) {
        DropLaw(s, i, {}, 0);
        RefocusSnug(s.Drop(i), i, head, hi, grace, tasks, disk);
      } else {
        ShortenSnug(s, i, tasks, disk);
        RefocusSnug(s.Shorten(i), i + 1, head, hi, grace, tasks, disk);
      }
    }
  }

  lemma ShortenSnug(s: Sched, i: nat, tasks: seq<Task>, disk: set<nat>)
    requires Inv(s) && i < |s.live| && s.live[i].cursor <= s.live[i].end
    requires Roomy(s.strategy) && Sizing(s) && SnugAll(s.live, tasks, disk)
    ensures var t := s.Shorten(i);
            Inv(t) && Roomy(t.strategy) && Sizing(t) && |t.live| == |s.live| && SnugAll(t.live, tasks, disk)
  {
    ShortenShape(s, i);
    ShortenLeavesRoom(s, i);
    var t := s.Shorten(i);
    forall k | 0 <= k < |t.live| ensures t.live[k].worker < |tasks| && Snug(t.live[k], tasks[t.live[k].worker], disk) {
      assert Snug(s.live[k], tasks[s.live[k].worker], disk);
    }
  }

  lemma {:induction false} ReclaimSnug(s: Sched, i: nat, idle: set<nat>, tasks: seq<Task>, disk: set<nat>)
    requires i <= |s.live| && SnugAll(s.live, tasks, disk)
    ensures SnugAll(s.ReclaimFrom(i, idle).0.live, tasks, disk)
    decreases |s.live| - i
  {
    if i < |s.live| {
      var l := s.live[i];
      if l.cursor > l.lastCursor || l.cursor > l.end {
        ReclaimSnug(s.Touch(i), i + 1, idle, tasks, disk);
      } else if l.worker !in idle {
        ReclaimSnug(s, i + 1, idle, tasks, disk);
      } else {
        ReclaimSnug(s.Drop(i), i, idle, tasks, disk);
      }
    }
  }

  // ---- the invariant over acts ----

  lemma MoreDiskSnug(live: seq<Live>, tasks: seq<Task>, disk: set<nat>, more: set<nat>)
    requires SnugAll(live, tasks, disk) && disk <= more
    ensures SnugAll(live, tasks, more)
  {
    forall i | 0 <= i < |live| ensures live[i].worker < |tasks| && Snug(live[i], tasks[live[i].worker], more) {
      assert Snug(live[i], tasks[live[i].worker], disk);
    }
  }

  /** One claim and its task change; everyone else's stay as they were. */
  lemma UpdateSnug(live: seq<Live>, tasks: seq<Task>, disk: set<nat>, more: set<nat>, p: nat, l: Live, task: Task)
    requires p < |live| && l.worker == live[p].worker && SnugAll(live, tasks, disk) && disk <= more
    requires DistinctWorkers(live) && Snug(l, task, more)
    ensures SnugAll(live[p := l], tasks[l.worker := task], more)
  {
    MoreDiskSnug(live, tasks, disk, more);
    var after, tasks' := live[p := l], tasks[l.worker := task];
    forall i | 0 <= i < |after| ensures after[i].worker < |tasks'| && Snug(after[i], tasks'[after[i].worker], more) {
      if i != p { assert live[i].worker != l.worker && Snug(live[i], tasks[live[i].worker], more); }
    }
  }

  lemma SlotSnug(r: Run, origin: nat -> Byte, w: nat)
    requires RunInv(r, origin) && Careful(r) && HasBusy(r, w)
    ensures var p := Slot(r.s, w);
            && r.s.live[p].worker == w && Snug(r.s.live[p], r.tasks[w], r.file.Keys)
            && r.s.live[p].cursor <= r.tasks[w].at && DistinctWorkers(r.s.live)
  {
    SlotFacts(r, origin, w);
    assert Snug(r.s.live[Slot(r.s, w)], r.tasks[w], r.file.Keys);
  }

  lemma LandedSnug(l: Live, t: Task, flush: bool, disk: set<nat>, more: set<nat>)
    requires Snug(l, t, disk) && t.item > 0 && (flush || t.at + t.item < l.cursor + COALESCE_BYTES)
    requires l.cursor <= t.at && disk <= more
    ensures Snug(Landed(l, t, flush), Busy(t.at + t.item, 0, false), more)
  {
  }

  lemma SeeSnug(r: Run, origin: nat -> Byte, w: nat, n: nat)
    requires RunInv(r, origin) && Careful(r) && Enabled(r, See(w, n))
    ensures Careful(SeeAct(r, w, n))
  {
    SlotSnug(r, origin, w);
    var p := Slot(r.s, w);
    var l, t := r.s.live[p], r.tasks[w];
    UpdateSnug(r.s.live, r.tasks, r.file.Keys, r.file.Keys, p, l, t.(item := Min(n, l.end - t.at + 1), held := false));
    assert r.s.live[p := l] == r.s.live;
  }

  lemma CommitSnug(r: Run, origin: nat -> Byte, w: nat)
    requires RunInv(r, origin) && Careful(r) && Enabled(r, Commit(w))
    ensures Careful(CommitAct(r, w))
  {
    SlotSnug(r, origin, w);
    var p := Slot(r.s, w);
    UpdateSnug(r.s.live, r.tasks, r.file.Keys, r.file.Keys, p, r.s.live[p].Reserve(r.tasks[w].at + r.tasks[w].item),
               r.tasks[w].(held := true));
  }

  lemma LandSnug(r: Run, origin: nat -> Byte, w: nat, flush: bool)
    requires RunInv(r, origin) && Careful(r) && Enabled(r, Land(w, flush)) && Prudent(r, Land(w, flush))
    ensures Careful(LandAct(r, origin, w, flush))
  {
    SlotSnug(r, origin, w);
    var p := Slot(r.s, w);
    var l, t := r.s.live[p], r.tasks[w];
    var more := LandedFile(r.file, origin, l, t, flush).Keys;
    WriteLaw(r.file, origin, l.cursor, t.at + t.item);
    LandedSnug(l, t, flush, r.file.Keys, more);
    UpdateSnug(r.s.live, r.tasks, r.file.Keys, more, p, Landed(l, t, flush), Busy(t.at + t.item, 0, false));
  }

  lemma FlushedSnug(l: Live, t: Task, disk: set<nat>, more: set<nat>)
    requires Snug(l, t, disk) && t.item == 0 && l.cursor <= t.at && disk <= more
    ensures Snug(l.AdvanceTo(t.at), t, more)
  {
  }

  lemma FlushSnug(r: Run, origin: nat -> Byte, w: nat)
    requires RunInv(r, origin) && Careful(r) && Enabled(r, Flush(w))
    ensures Careful(FlushAct(r, origin, w))
  {
    SlotSnug(r, origin, w);
    var p := Slot(r.s, w);
    var l, t := r.s.live[p], r.tasks[w];
    var more := Write(r.file, origin, l.cursor, t.at).Keys;
    WriteLaw(r.file, origin, l.cursor, t.at);
    FlushedSnug(l, t, r.file.Keys, more);
    UpdateSnug(r.s.live, r.tasks, r.file.Keys, more, p, l.AdvanceTo(t.at), t);
    assert r.tasks[w := t] == r.tasks;
  }

  lemma SnugTasks(live: seq<Live>, tasks: seq<Task>, tasks': seq<Task>, disk: set<nat>)
    requires SnugAll(live, tasks, disk) && |tasks'| == |tasks|
    requires forall j :: 0 <= j < |live| && live[j].worker < |tasks| ==> tasks'[live[j].worker] == tasks[live[j].worker]
    ensures SnugAll(live, tasks', disk)
  {
    forall j | 0 <= j < |live| ensures live[j].worker < |tasks'| && Snug(live[j], tasks'[live[j].worker], disk) {
      assert Snug(live[j], tasks[live[j].worker], disk);
    }
  }

  lemma AskSnug(r: Run, origin: nat -> Byte, w: nat, rates: Rates)
    requires RunInv(r, origin) && Careful(r) && Enabled(r, Ask(w, rates))
    ensures Careful(AskAct(r, w, rates))
  {
    IdleAbsent(r.s, r.tasks, w, r.file.Keys);
    AskTracks(r.s, w, rates);
    ClaimSnug(r.s, w, rates, r.tasks, r.file.Keys);
    AskSameRequest(r, origin, w, rates);
    var t := r.s.Claim(w, rates).0;
    var n := |r.s.live|;
    var tasks' := AskAct(r, w, rates).tasks;
    forall i | 0 <= i < |t.live| ensures t.live[i].worker < |tasks'| && Snug(t.live[i], tasks'[t.live[i].worker], r.file.Keys) {
      if i < n {
        assert t.live[..n][i] == t.live[i] && SameClaim(r.s.live[i], t.live[i]);
        assert Snug(t.live[..n][i], r.tasks[t.live[i].worker], r.file.Keys);
      }
    }
  }

  lemma RemoveSnug(live: seq<Live>, tasks: seq<Task>, disk: set<nat>, p: nat, task: Task)
    requires p < |live| && SnugAll(live, tasks, disk) && DistinctWorkers(live)
    ensures SnugAll(live[..p] + live[p + 1..], tasks[live[p].worker := task], disk)
  {
    var rest := live[..p] + live[p + 1..];
    var tasks' := tasks[live[p].worker := task];
    forall i | 0 <= i < |rest| ensures rest[i].worker < |tasks'| && Snug(rest[i], tasks'[rest[i].worker], disk) {
      var k := if i < p then i else i + 1;
      assert rest[i] == live[k] && live[k].worker != live[p].worker && Snug(live[k], tasks[live[k].worker], disk);
    }
  }

  /** The loser of a race the winner covered is finished, or cut at byte 0 with
      all its buffer can hold delivered. */
  lemma LoserSnug(l: Live, t: Task, disk: set<nat>, reach: nat)
    requires Snug(l, t, disk) && (l.cursor == 0 ==> l.end <= reach && forall x: nat :: x <= reach ==> x in disk)
    ensures Snug(l.CutShort(), t, disk)
  {
  }

  lemma LoserDelivered(r: Run, origin: nat -> Byte, w: nat)
    requires RunInv(r, origin) && RaceInv(r.s) && HasBusy(r, w) && WinCovers(r, w)
    ensures var p := Slot(r.s, w); var l, rest := r.s.live[p], r.s.Without(p); var i := RaceLoser(rest, l);
            l.cursor > l.end && i < |rest.live| && rest.live[i].cursor == 0 ==>
              rest.live[i].end <= l.end && forall x: nat :: x <= l.end ==> x in r.file
  {
    SlotFacts(r, origin, w);
    RaceFacts(r, origin, w);
  }

  /** Cutting a claim short leaves everybody snug. */
  lemma CutSnug(s: Sched, p: Live -> bool, tasks: seq<Task>, disk: set<nat>, reach: nat)
    requires SnugAll(s.live, tasks, disk)
    requires var i := FindFrom(s.live, p, 0);
             i < |s.live| && s.live[i].Primary() && s.live[i].cursor == 0 ==>
               s.live[i].end <= reach && forall x: nat :: x <= reach ==> x in disk
    ensures SnugAll(s.CutFirst(p).live, tasks, disk)
  {
    var t := s.CutFirst(p);
    forall k | 0 <= k < |t.live| ensures t.live[k].worker < |tasks| && Snug(t.live[k], tasks[t.live[k].worker], disk) {
      assert Snug(s.live[k], tasks[s.live[k].worker], disk);
      if t.live[k] != s.live[k] && s.live[k].Primary() { LoserSnug(s.live[k], tasks[s.live[k].worker], disk, reach); }
    }
  }

  /** A report with a loser, if there is one, that the winner covered. */
  lemma SettleSnug(s: Sched, gone: Live, tasks: seq<Task>, disk: set<nat>)
    requires SnugAll(s.live, tasks, disk)
    requires var i := RaceLoser(s, gone);
             gone.cursor > gone.end && i < |s.live| && s.live[i].cursor == 0 ==>
               s.live[i].end <= gone.end && forall x: nat :: x <= gone.end ==> x in disk
    ensures SnugAll(s.Settle(gone, gone.cursor).live, tasks, disk)
  {
    if gone.cursor > gone.end {
      CutSnug(s, if gone.hedgeOf.Some? then PrimaryAt(gone.hedgeOf.value) else HedgeOf(gone.start), tasks, disk, gone.end);
    }
  }

  lemma ReportSnug(r: Run, origin: nat -> Byte, w: nat, v: Verdict)
    requires RunInv(r, origin) && AbortInv(r) && Enabled(r, Report(w, v)) && Prudent(r, Report(w, v))
    ensures Careful(ReportAct(r, w, v))
  {
    SlotSnug(r, origin, w);
    ReportSameRequest(r, origin, w, v);
    LoserDelivered(r, origin, w);
    var p := Slot(r.s, w);
    var l, rest := r.s.live[p], r.s.Without(p);
    RemoveSnug(r.s.live, r.tasks, r.file.Keys, p, Reporting(v, SatSub(l.cursor, l.start), l.issued));
    SettleSnug(rest, l, ReportAct(r, w, v).tasks, r.file.Keys);
  }

  lemma SweepSnug(r: Run, origin: nat -> Byte, idle: set<nat>)
    requires RunInv(r, origin) && Careful(r)
    ensures Careful(SweepAct(r, idle))
  {
    ReclaimShape(r.s, 0, idle);
    ReclaimPrunes(r.s, 0, idle);
    ReclaimSnug(r.s, 0, idle, r.tasks, r.file.Keys);
    SnugTasks(SweepAct(r, idle).s.live, r.tasks, SweepAct(r, idle).tasks, r.file.Keys);
  }

  lemma SeekSnug(r: Run, origin: nat -> Byte, window: nat)
    requires RunInv(r, origin) && Careful(r) && Enabled(r, Refocus(window))
    ensures Careful(RefocusAct(r, window))
  {
    if r.s.strategy.Latency? {
      var hi, grace := Sat(r.s.readHead + Max(window, 1)), Max(r.s.strategy.headClaim, MIN_CLAIM);
      RefocusShape(r.s, 0, r.s.readHead, hi, grace);
      RefocusPrunes(r.s, 0, r.s.readHead, hi, grace);
      RefocusSnug(r.s, 0, r.s.readHead, hi, grace, r.tasks, r.file.Keys);
    }
    SnugTasks(RefocusAct(r, window).s.live, r.tasks, RefocusAct(r, window).tasks, r.file.Keys);
  }

  /** Tasks without a claim may change as they like. */
  lemma IdleSnug(r: Run, origin: nat -> Byte, s: Sched, tasks: seq<Task>)
    requires RunInv(r, origin) && Careful(r) && |tasks| == |r.tasks| && s.live == r.s.live
    requires forall w :: 0 <= w < |tasks| && r.tasks[w].Busy? ==> tasks[w] == r.tasks[w]
    ensures SnugAll(s.live, tasks, r.file.Keys)
  {
    forall i | 0 <= i < |r.s.live| ensures r.s.live[i].worker < |r.tasks| && r.tasks[r.s.live[i].worker].Busy? {
      assert Linked(r.s.live[i], r.tasks[r.s.live[i].worker], r.file.Keys);
    }
    SnugTasks(r.s.live, r.tasks, tasks, r.file.Keys);
  }

  lemma NoteSnug(r: Run, origin: nat -> Byte, w: nat)
    requires RunInv(r, origin) && Careful(r) && Enabled(r, Note(w)) && Prudent(r, Note(w))
    ensures Careful(NoteAct(r, w))
  {
    IdleSnug(r, origin, NoteAct(r, w).s, NoteAct(r, w).tasks);
  }

  lemma PauseSnug(r: Run, origin: nat -> Byte, a: Act)
    requires RunInv(r, origin) && Careful(r) && Enabled(r, a) && a.Pause? && Prudent(r, a)
    ensures Careful(Apply(r, origin, a))
  {
  }

  lemma QuietSnug(r: Run, origin: nat -> Byte, a: Act)
    requires RunInv(r, origin) && Careful(r) && Enabled(r, a) && Prudent(r, a)
    requires a.Quit? || a.Emit? || a.Tell? || a.Tune? || a.Attach? || a.Staff?
    ensures Careful(Apply(r, origin, a))
  {
    IdleSnug(r, origin, Apply(r, origin, a).s, Apply(r, origin, a).tasks);
  }

  /** The invariant holds and nothing an abort hands back strands a byte. */
  lemma PrudentStep(r: Run, origin: nat -> Byte, a: Act)
    requires RunInv(r, origin) && AbortInv(r) && Enabled(r, a) && Prudent(r, a)
    ensures AbortInv(Apply(r, origin, a))
  {
    RaceStep(r, origin, a);
    CarefulStep(r, origin, a);
  }

  lemma CarefulStep(r: Run, origin: nat -> Byte, a: Act)
    requires RunInv(r, origin) && AbortInv(r) && Enabled(r, a) && Prudent(r, a)
    ensures Careful(Apply(r, origin, a))
  {
    match a {
      case Ask(w, rates) => AskSnug(r, origin, w, rates);
      case See(w, n) => SeeSnug(r, origin, w, n);
      case Commit(w) => CommitSnug(r, origin, w);
      case Land(w, flush) => LandSnug(r, origin, w, flush);
      case Flush(w) => FlushSnug(r, origin, w);
      case Report(w, v) => ReportSnug(r, origin, w, v);
      case Refocus(window) => SeekSnug(r, origin, window);
      case Sweep(idle) => SweepSnug(r, origin, idle);
      case Note(w) => NoteSnug(r, origin, w);
      case Pause(_, _, _) => PauseSnug(r, origin, a);
      case _ => QuietSnug(r, origin, a);
    }
  }

  /** A claim whose worker waits for its next item has nothing missing past its end. */
  lemma RestStrandsNothing(r: Run, origin: nat -> Byte, k: nat)
    requires RunInv(r, origin) && AbortInv(r) && k < |r.s.live| && AtRest(r, r.s.live[k])
    requires r.s.live[k].cursor <= r.s.live[k].end
    ensures NothingStranded(r, r.s.live[k])
  {
    assert Snug(r.s.live[k], r.tasks[r.s.live[k].worker], r.file.Keys);
    assert Linked(r.s.live[k], r.tasks[r.s.live[k].worker], r.file.Keys);
  }

  lemma PrudentLossless(r: Run, origin: nat -> Byte, a: Act)
    requires RunInv(r, origin) && AbortInv(r) && Enabled(r, a) && Prudent(r, a)
    ensures Lossless(r, a)
  {
    match a {
      case Refocus(window) =>
        forall k | 0 <= k < |r.s.live| && Aborted(r.s, window, r.s.live[k]) ensures NothingStranded(r, r.s.live[k]) {
          RestStrandsNothing(r, origin, k);
        }
      case Sweep(idle) =>
        forall k | 0 <= k < |r.s.live| && Dead(r.s.live[k], idle) ensures NothingStranded(r, r.s.live[k]) {
          RestStrandsNothing(r, origin, k);
        }
      case _ =>
    }
  }

  ghost predicate AllPrudent(r: Run, origin: nat -> Byte, acts: seq<Act>)
    requires Possible(r, origin, acts)
    decreases |acts|
  {
    acts == [] || (Prudent(r, acts[0]) && AllPrudent(Apply(r, origin, acts[0]), origin, acts[1..]))
  }

  lemma {:induction false} PrudentRun(r: Run, origin: nat -> Byte, acts: seq<Act>)
    requires RunInv(r, origin) && AbortInv(r) && Possible(r, origin, acts) && AllPrudent(r, origin, acts)
    ensures AllLossless(r, origin, acts) && AbortInv(Exec(r, origin, acts))
    decreases |acts|
  {
    if acts != [] {
      StepSafe(r, origin, acts[0]);
      PrudentStep(r, origin, acts[0]);
      PrudentLossless(r, origin, acts[0]);
      PrudentRun(Apply(r, origin, acts[0]), origin, acts[1..]);
    }
  }

  /** However often readers seek, claims are stolen and hedged, stalled requests
      are re-cut, the pool is retuned, paused and rebuilt: as long as requests are
      aborted between items, the buffer is flushed at a block, and no hedge wins
      that stops short of its primary's end, no byte is ever lost. */
  lemma SeeksLoseNothing(r: Run, origin: nat -> Byte, strategy: Strategy, staged: seq<Span>, acts: seq<Act>)
    requires Opening(r, origin, strategy, staged) && Roomy(strategy)
    requires Possible(r, origin, acts) && AllPrudent(r, origin, acts)
    ensures Covered(Exec(r, origin, acts)) && RunInv(Exec(r, origin, acts), origin)
  {
    OpeningSafe(r, origin, strategy, staged);
    FreshRaces(r.s);
    PrudentRun(r, origin, acts);
    RunSafe(r, origin, acts);
    RunConserves(r, origin, acts);
  }
}
