/** Safety over every run: no interleaving of acts breaks the link between
    claims, tasks and disk, puts a wrong byte in the file, or lets a reader emit
    anything but the origin's bytes in order. */
module RunSafety {
  import opened Spans
  import opened Sched
  import opened SchedLaws
  import opened Conservation
  import opened RunModel

  /** The same claim, with at most its end or its sweep mark changed. */
  ghost predicate SameClaim(a: Live, b: Live) {
    b == a.(end := b.end, lastCursor := b.lastCursor)
  }

  ghost predicate Among(s: seq<Live>, l: Live) {
    exists i :: 0 <= i < |s| && SameClaim(s[i], l)
  }

  /** Every claim of `t` is a claim of `s`. */
  ghost predicate Descends(s: seq<Live>, t: seq<Live>) {
    forall j :: 0 <= j < |t| ==> Among(s, t[j])
  }

  lemma SlotLaw(s: Sched, w: nat)
    requires Inv(s) && Present(s.live, w)
    ensures Slot(s, w) < |s.live| && s.live[Slot(s, w)].worker == w
    ensures forall i :: 0 <= i < |s.live| && s.live[i].worker == w ==> i == Slot(s, w)
  {
    var i :| 0 <= i < |s.live| && s.live[i].worker == w;
    FindWorker(s.live, i, 0);
  }

  /** Links survive when claims only descend and no task gains a claim. */
  lemma LinksDescend(s: Sched, t: Sched, tasks: seq<Task>, tasks': seq<Task>, disk: set<nat>, disk': set<nat>)
    requires Links(s, tasks, disk) && Descends(s.live, t.live) && disk <= disk' && |tasks'| == |tasks|
    requires forall j :: 0 <= j < |t.live| && t.live[j].worker < |tasks| ==> tasks'[t.live[j].worker] == tasks[t.live[j].worker]
    requires forall w :: 0 <= w < |tasks| && tasks'[w].Busy? ==> Present(t.live, w)
    ensures Links(t, tasks', disk')
  {
    forall j | 0 <= j < |t.live|
      ensures t.live[j].worker < |tasks'| && Linked(t.live[j], tasks'[t.live[j].worker], disk')
    {
      assert Among(s.live, t.live[j]);
      var i :| 0 <= i < |s.live| && SameClaim(s.live[i], t.live[j]);
      assert Linked(s.live[i], tasks[s.live[i].worker], disk);
    }
  }

  /** One claim and its task change together. */
  lemma LinksUpdate(s: Sched, tasks: seq<Task>, w: nat, l: Live, task: Task, disk: set<nat>, disk': set<nat>)
    requires Inv(s) && Links(s, tasks, disk) && disk <= disk' && w < |tasks| && Slot(s, w) < |s.live|
    requires l.worker == w && GoodClaim(s, l) && Linked(l, task, disk')
    ensures var t := s.(live := s.live[Slot(s, w) := l]); Inv(t) && Links(t, tasks[w := task], disk')
  {
    var p := Slot(s, w);
    assert Present(s.live, w) by { assert s.live[p].worker == w; }
    SlotLaw(s, w);
    var t := s.(live := s.live[p := l]);
    forall i | 0 <= i < |t.live|
      ensures GoodClaim(t, t.live[i])
      ensures t.live[i].worker < |tasks| && Linked(t.live[i], tasks[w := task][t.live[i].worker], disk')
    {
      if i != p {
        assert GoodClaim(s, s.live[i]) && Linked(s.live[i], tasks[s.live[i].worker], disk);
      }
    }
    forall v | 0 <= v < |tasks| && tasks[w := task][v].Busy? ensures Present(t.live, v) {
      if v == w {
        assert t.live[p].worker == w;
      } else {
        var i :| 0 <= i < |s.live| && s.live[i].worker == v;
        assert t.live[i].worker == v;
      }
    }
  }

  lemma SettingsKeep(s: Sched, t: Sched)
    requires Inv(s) && t.WellFormed() && t.live == s.live && t.unclaimed == s.unclaimed
    requires t.volumes == s.volumes && t.reqStart == s.reqStart && t.reqEnd == s.reqEnd && t.splitCap == s.splitCap
    requires s.reqStart <= t.readHead && (s.reqStart <= s.reqEnd + 1 ==> t.readHead <= s.reqEnd + 1)
    ensures Inv(t)
  {
    forall k | 0 <= k < |t.live| ensures GoodClaim(t, t.live[k]) { assert GoodClaim(s, s.live[k]); }
  }

  // ---- asking ----

  lemma IdleAbsent(s: Sched, tasks: seq<Task>, w: nat, disk: set<nat>)
    requires Links(s, tasks, disk) && w < |tasks| && !tasks[w].Busy?
    ensures Absent(s, w)
  {
  }

  /** `t` has every claim of `s` in place, and one more. */
  ghost predicate Tracks(s: Sched, t: Sched, w: nat, l: Live) {
    && |t.live| == |s.live| + 1 && t.live[|s.live|] == l && Fresh(s, w, l)
    && forall i :: 0 <= i < |s.live| ==> SameClaim(s.live[i], t.live[i])
  }

  lemma StoleTracks(s: Sched, t: Sched, w: nat, l: Live, pos: nat)
    requires IsSteal(s, t, w, l, pos)
    ensures Tracks(s, t, w, l)
  {
    var n := |s.live|;
    assert IsCut(s, t.(live := t.live[..n]), pos);
    forall i | 0 <= i < n ensures SameClaim(s.live[i], t.live[i]) { assert t.live[i] == t.live[..n][i]; }
  }

  lemma HedgedTracks(s: Sched, via: Sched, t: Sched, w: nat, l: Live, pos: nat)
    requires IsHedge(via, t, w, l, pos) && (via == s || exists p :: IsFutileCut(s, via, p))
    ensures Tracks(s, t, w, l)
  {
    if via != s { var p :| IsFutileCut(s, via, p); }
    forall i | 0 <= i < |s.live| ensures SameClaim(s.live[i], t.live[i]) { assert t.live[i] == via.live[i]; }
  }

  /** `claim` leaves every earlier claim in place and appends the new one. */
  lemma AskTracks(s: Sched, w: nat, rates: Rates)
    requires Inv(s) && Absent(s, w)
    ensures var (t, l) := s.Claim(w, rates); var n := |s.live|;
            && Inv(t) && |t.live| == n + B(l.Some?)
            && (forall i :: 0 <= i < n ==> SameClaim(s.live[i], t.live[i]))
            && (l.Some? ==> t.live[n] == l.value && Fresh(s, w, l.value))
  {
    var m := ClaimLaw(s, w, rates);
    var (t, l) := s.Claim(w, rates);
    if m.Hedged? {
      HedgedTracks(s, m.via, t, w, l.value, m.pos);
    } else if m.Stole? {
      StoleTracks(s, t, w, l.value, m.pos);
    }
  }

  lemma LinksAppend(s: Sched, t: Sched, tasks: seq<Task>, w: nat, task: Task, disk: set<nat>)
    requires Links(s, tasks, disk) && w < |tasks| && !tasks[w].Busy? && |s.live| <= |t.live| <= |s.live| + 1
    requires forall i :: 0 <= i < |s.live| ==> SameClaim(s.live[i], t.live[i])
    requires task.Busy? <==> |t.live| == |s.live| + 1
    requires task.Busy? ==> t.live[|s.live|].worker == w && Linked(t.live[|s.live|], task, disk)
    ensures Links(t, tasks[w := task], disk)
  {
    var tasks' := tasks[w := task];
    forall i | 0 <= i < |t.live| ensures t.live[i].worker < |tasks'| && Linked(t.live[i], tasks'[t.live[i].worker], disk) {
      if i < |s.live| { assert Linked(s.live[i], tasks[s.live[i].worker], disk); }
    }
    forall v | 0 <= v < |tasks'| && tasks'[v].Busy? ensures Present(t.live, v) {
      if v == w {
        assert t.live[|s.live|].worker == w;
      } else {
        var i :| 0 <= i < |s.live| && s.live[i].worker == v;
        assert t.live[i].worker == v;
      }
    }
  }

  lemma AskLinks(r: Run, origin: nat -> Byte, w: nat, rates: Rates)
    requires RunInv(r, origin) && Enabled(r, Ask(w, rates))
    ensures RunInv(AskAct(r, w, rates), origin)
  {
    IdleAbsent(r.s, r.tasks, w, r.file.Keys);
    AskTracks(r.s, w, rates);
    var (t, l) := r.s.Claim(w, rates);
    LinksAppend(r.s, t, r.tasks, w, if l.Some? then Busy(l.value.start, 0, false) else Exited, r.file.Keys);
  }

  // ---- streaming ----

  lemma WriteLaw(file: map<nat, Byte>, origin: nat -> Byte, a: nat, b: nat)
    requires Genuine(file, origin)
    ensures Genuine(Write(file, origin, a, b), origin)
    ensures forall x: nat :: x in Write(file, origin, a, b) <==> x in file || a <= x < b
  {
  }

  lemma MarksMove(s: Sched, l: Live, cursor: nat, reserved: nat)
    requires GoodClaim(s, l) && l.start <= cursor <= reserved <= l.start + l.issued
    ensures GoodClaim(s, l.(cursor := cursor, reserved := reserved))
  {
  }

  /** A working task moves on together with its claim and the file. */
  lemma StreamStep(r: Run, origin: nat -> Byte, w: nat, l: Live, task: Task, file: map<nat, Byte>)
    requires RunInv(r, origin) && HasBusy(r, w)
    requires l.worker == w && GoodClaim(r.s, l) && Linked(l, task, file.Keys)
    requires Genuine(file, origin) && r.file.Keys <= file.Keys
    ensures RunInv(r.(s := WithLive(r, w, l), file := file, tasks := r.tasks[w := task]), origin)
  {
    LinksUpdate(r.s, r.tasks, w, l, task, r.file.Keys, file.Keys);
  }

  lemma SlotFacts(r: Run, origin: nat -> Byte, w: nat)
    requires RunInv(r, origin) && HasBusy(r, w)
    ensures var l := r.s.live[Slot(r.s, w)]; l.worker == w && GoodClaim(r.s, l) && Linked(l, r.tasks[w], r.file.Keys)
  {
    assert r.s.live[Slot(r.s, w)].worker == w;
  }

  lemma SeeLinks(r: Run, origin: nat -> Byte, w: nat, n: nat)
    requires RunInv(r, origin) && Enabled(r, See(w, n))
    ensures RunInv(SeeAct(r, w, n), origin)
  {
    SlotFacts(r, origin, w);
    var p := Slot(r.s, w);
    var l, t := r.s.live[p], r.tasks[w];
    var t' := t.(item := Min(n, l.end - t.at + 1), held := false);
    StreamStep(r, origin, w, l, t', r.file);
    assert r.s.live[p := l] == r.s.live;
  }

  lemma CommitMoves(s: Sched, l: Live, t: Task, disk: set<nat>)
    requires GoodClaim(s, l) && Linked(l, t, disk) && t.item > 0 && !t.held
    ensures l.Reserve(t.at + t.item) == l.(reserved := t.at + t.item)
    ensures GoodClaim(s, l.Reserve(t.at + t.item)) && Linked(l.Reserve(t.at + t.item), t.(held := true), disk)
  {
  }

  lemma CommitLinks(r: Run, origin: nat -> Byte, w: nat)
    requires RunInv(r, origin) && Enabled(r, Commit(w))
    ensures RunInv(CommitAct(r, w), origin)
  {
    SlotFacts(r, origin, w);
    var l, t := r.s.live[Slot(r.s, w)], r.tasks[w];
    CommitMoves(r.s, l, t, r.file.Keys);
    StreamStep(r, origin, w, l.Reserve(t.at + t.item), t.(held := true), r.file);
    assert CommitAct(r, w) == r.(s := WithLive(r, w, l.Reserve(t.at + t.item)), file := r.file, tasks := r.tasks[w := t.(held := true)]);
  }

  lemma LandMoves(s: Sched, l: Live, t: Task, flush: bool, file: map<nat, Byte>, origin: nat -> Byte)
    requires GoodClaim(s, l) && Linked(l, t, file.Keys) && t.held && Genuine(file, origin)
    ensures Landed(l, t, flush) == l.(cursor := if flush then t.at + t.item else l.cursor)
    ensures GoodClaim(s, Landed(l, t, flush))
    ensures Genuine(LandedFile(file, origin, l, t, flush), origin)
    ensures file.Keys <= LandedFile(file, origin, l, t, flush).Keys
    ensures Linked(Landed(l, t, flush), Busy(t.at + t.item, 0, false), LandedFile(file, origin, l, t, flush).Keys)
  {
    WriteLaw(file, origin, l.cursor, t.at + t.item);
  }

  lemma LandLinks(r: Run, origin: nat -> Byte, w: nat, flush: bool)
    requires RunInv(r, origin) && Enabled(r, Land(w, flush))
    ensures RunInv(LandAct(r, origin, w, flush), origin)
  {
    SlotFacts(r, origin, w);
    var l, t := r.s.live[Slot(r.s, w)], r.tasks[w];
    LandMoves(r.s, l, t, flush, r.file, origin);
    StreamStep(r, origin, w, Landed(l, t, flush), Busy(t.at + t.item, 0, false), LandedFile(r.file, origin, l, t, flush));
    assert LandAct(r, origin, w, flush)
        == r.(s := WithLive(r, w, Landed(l, t, flush)), file := LandedFile(r.file, origin, l, t, flush),
              tasks := r.tasks[w := Busy(t.at + t.item, 0, false)]);
  }

  lemma FlushLinks(r: Run, origin: nat -> Byte, w: nat)
    requires RunInv(r, origin) && Enabled(r, Flush(w))
    ensures RunInv(FlushAct(r, origin, w), origin)
  {
    SlotFacts(r, origin, w);
    var l, t := r.s.live[Slot(r.s, w)], r.tasks[w];
    WriteLaw(r.file, origin, l.cursor, t.at);
    MarksMove(r.s, l, t.at, l.reserved);
    assert l.AdvanceTo(t.at) == l.(cursor := t.at);
    StreamStep(r, origin, w, l.(cursor := t.at), t, Write(r.file, origin, l.cursor, t.at));
    assert r.tasks[w := t] == r.tasks;
  }

  // ---- reporting ----

  lemma SettleTracks(rest: Sched, gone: Live, reached: nat)
    ensures var t := rest.Settle(gone, reached);
            |t.live| == |rest.live| && forall k :: 0 <= k < |rest.live| ==> SameClaim(rest.live[k], t.live[k])
  {
  }

  lemma WithoutTracks(s: Sched, p: nat)
    requires p < |s.live|
    ensures Descends(s.live, s.Without(p).live)
    ensures forall w :: w != s.live[p].worker && Present(s.live, w) ==> Present(s.Without(p).live, w)
  {
    var rest := s.Without(p);
    forall j | 0 <= j < |rest.live| ensures Among(s.live, rest.live[j]) {
      var i := if j < p then j else j + 1;
      assert SameClaim(s.live[i], rest.live[j]);
    }
    forall w | w != s.live[p].worker && Present(s.live, w) ensures Present(rest.live, w) {
      var i :| 0 <= i < |s.live| && s.live[i].worker == w;
      var k := if i < p then i else i - 1;
      assert rest.live[k].worker == w;
    }
  }

  lemma FinishTracks(s: Sched, p: nat)
    requires Inv(s) && p < |s.live|
    ensures var t := s.Finish(s.live[p].worker, s.live[p].cursor);
            && Descends(s.live, t.live)
            && (forall w :: w != s.live[p].worker && Present(s.live, w) ==> Present(t.live, w))
  {
    FindWorker(s.live, p, 0);
    var rest := s.Without(p);
    var t := s.Finish(s.live[p].worker, s.live[p].cursor);
    WithoutTracks(s, p);
    SettleTracks(rest, s.live[p], s.live[p].cursor);
    forall j | 0 <= j < |t.live| ensures Among(rest.live, t.live[j]) { assert SameClaim(rest.live[j], t.live[j]); }
    DescendsTrans(s.live, rest.live, t.live);
    forall w | Present(rest.live, w) ensures Present(t.live, w) {
      var k :| 0 <= k < |rest.live| && rest.live[k].worker == w;
      assert t.live[k].worker == w;
    }
  }

  lemma ReportLinks(r: Run, origin: nat -> Byte, w: nat, v: Verdict)
    requires RunInv(r, origin) && Enabled(r, Report(w, v))
    ensures RunInv(ReportAct(r, w, v), origin)
  {
    SlotFacts(r, origin, w);
    var p := Slot(r.s, w);
    var l := r.s.live[p];
    FinishByte(r.s, p, r.file.Keys, 0);
    FinishTracks(r.s, p);
    var t := r.s.Finish(w, l.cursor);
    LinksDescend(r.s, t, r.tasks, r.tasks[w := Reporting(v, SatSub(l.cursor, l.start), l.issued)], r.file.Keys, r.file.Keys);
  }

  // ---- aborts ----

  /** What an abort pass does to the claims: some workers lose theirs, the rest keep the same one. */
  ghost predicate Prunes(s: seq<Live>, t: seq<Live>, gone: seq<nat>) {
    && Descends(s, t)
    && (forall j :: 0 <= j < |t| ==> t[j].worker !in gone)
    && (forall i :: 0 <= i < |s| ==> s[i].worker in gone || Present(t, s[i].worker))
  }

  ghost predicate DistinctWorkers(s: seq<Live>) {
    forall i, j :: 0 <= i < j < |s| ==> s[i].worker != s[j].worker
  }

  lemma DescendsTrans(a: seq<Live>, b: seq<Live>, c: seq<Live>)
    requires Descends(a, b) && Descends(b, c)
    ensures Descends(a, c)
  {
    forall j | 0 <= j < |c| ensures Among(a, c[j]) {
      assert Among(b, c[j]);
      var k :| 0 <= k < |b| && SameClaim(b[k], c[j]);
      assert Among(a, b[k]);
      var i :| 0 <= i < |a| && SameClaim(a[i], b[k]);
      assert SameClaim(a[i], c[j]);
    }
  }

  lemma DropNobody(s: seq<Live>, i: nat, d: seq<Live>, l: Live)
    requires i < |s| && DistinctWorkers(s) && d == s[..i] + s[i + 1..] && Among(d, l)
    ensures l.worker != s[i].worker
  {
    var k :| 0 <= k < |d| && SameClaim(d[k], l);
    assert d[k] == s[if k < i then k else k + 1];
  }

  /** Removing the claim at `i` and then pruning the rest prunes the whole. */
  lemma PruneDrop(s: seq<Live>, i: nat, d: seq<Live>, t: seq<Live>, gone: seq<nat>)
    requires i < |s| && DistinctWorkers(s) && d == s[..i] + s[i + 1..] && Prunes(d, t, gone)
    ensures DistinctWorkers(d) && Prunes(s, t, [s[i].worker] + gone)
  {
    forall j | 0 <= j < |d| ensures Among(s, d[j]) {
      var k := if j < i then j else j + 1;
      assert SameClaim(s[k], d[j]);
    }
    DescendsTrans(s, d, t);
    forall j | 0 <= j < |t| ensures t[j].worker !in [s[i].worker] + gone { DropNobody(s, i, d, t[j]); }
    forall k | 0 <= k < |s| ensures s[k].worker in [s[i].worker] + gone || Present(t, s[k].worker) {
      if k != i { assert d[if k < i then k else k - 1] == s[k]; }
    }
  }

  lemma PruneSame(s: seq<Live>, d: seq<Live>, t: seq<Live>, gone: seq<nat>)
    requires DistinctWorkers(s) && |d| == |s| && (forall k :: 0 <= k < |s| ==> SameClaim(s[k], d[k])) && Prunes(d, t, gone)
    ensures Prunes(s, t, gone)
  {
    forall j | 0 <= j < |d| ensures Among(s, d[j]) { assert SameClaim(s[j], d[j]); }
    DescendsTrans(s, d, t);
    forall k | 0 <= k < |s| ensures s[k].worker in gone || Present(t, s[k].worker) { assert d[k].worker == s[k].worker; }
  }

  lemma PruneNothing(s: seq<Live>)
    ensures Prunes(s, s, [])
  {
    forall j | 0 <= j < |s| ensures Among(s, s[j]) && Present(s, s[j].worker) {
      assert SameClaim(s[j], s[j]);
    }
  }

  lemma {:induction false} RefocusPrunes(s: Sched, i: nat, head: nat, hi: nat, grace: nat)
    requires s.WellFormed() && i <= |s.live| && DistinctWorkers(s.live)
    ensures var (t, gone) := s.RefocusFrom(i, head, hi, grace); Prunes(s.live, t.live, gone)
    decreases |s.live| - i
  {
    if i == |s.live| {
      PruneNothing(s.live);
    } else {
      var l := s.live[i];
      if l.cursor > l.end {
        RefocusPrunes(s, i + 1, head, hi, grace);
      } else if LetGo(l, head, hi, grace) {
        var d := s.Drop(i);
        assert DistinctWorkers(d.live);
        RefocusPrunes(d, i, head, hi, grace);
        PruneDrop(s.live, i, d.live, d.RefocusFrom(i, head, hi, grace).0.live, d.RefocusFrom(i, head, hi, grace).1);
      } else {
        var d := s.Shorten(i);
        RefocusPrunes(d, i + 1, head, hi, grace);
        PruneSame(s.live, d.live, d.RefocusFrom(i + 1, head, hi, grace).0.live, d.RefocusFrom(i + 1, head, hi, grace).1);
      }
    }
  }

  lemma {:induction false} ReclaimPrunes(s: Sched, i: nat, idle: set<nat>)
    requires i <= |s.live| && DistinctWorkers(s.live)
    ensures var (t, gone) := s.ReclaimFrom(i, idle); Prunes(s.live, t.live, gone)
    decreases |s.live| - i
  {
    if i == |s.live| {
      PruneNothing(s.live);
    } else {
      var l := s.live[i];
      if l.cursor > l.lastCursor || l.cursor > l.end {
        var d := s.Touch(i);
        ReclaimPrunes(d, i + 1, idle);
        PruneSame(s.live, d.live, d.ReclaimFrom(i + 1, idle).0.live, d.ReclaimFrom(i + 1, idle).1);
      } else if l.worker !in idle {
        ReclaimPrunes(s, i + 1, idle);
      } else {
        var d := s.Drop(i);
        assert DistinctWorkers(d.live);
        ReclaimPrunes(d, i, idle);
        PruneDrop(s.live, i, d.live, d.ReclaimFrom(i, idle).0.live, d.ReclaimFrom(i, idle).1);
      }
    }
  }

  lemma PruneLinks(s: Sched, t: Sched, tasks: seq<Task>, gone: seq<nat>, disk: set<nat>)
    requires Links(s, tasks, disk) && Prunes(s.live, t.live, gone)
    ensures Links(t, Restart(tasks, gone), disk)
  {
    forall w | 0 <= w < |tasks| && Restart(tasks, gone)[w].Busy? ensures Present(t.live, w) {
      var i :| 0 <= i < |s.live| && s.live[i].worker == w;
    }
    LinksDescend(s, t, tasks, Restart(tasks, gone), disk, disk);
  }

  lemma RefocusLinks(r: Run, origin: nat -> Byte, window: nat)
    requires RunInv(r, origin) && Enabled(r, Refocus(window))
    ensures RunInv(RefocusAct(r, window), origin)
  {
    var (t, gone) := r.s.Refocus(window);
    if r.s.strategy.Latency? {
      var hi, grace := Sat(r.s.readHead + Max(window, 1)), Max(r.s.strategy.headClaim, MIN_CLAIM);
      RefocusShape(r.s, 0, r.s.readHead, hi, grace);
      RefocusPrunes(r.s, 0, r.s.readHead, hi, grace);
    } else {
      PruneNothing(r.s.live);
    }
    PruneLinks(r.s, t, r.tasks, gone, r.file.Keys);
  }

  lemma SweepLinks(r: Run, origin: nat -> Byte, idle: set<nat>)
    requires RunInv(r, origin)
    ensures RunInv(SweepAct(r, idle), origin)
  {
    ReclaimShape(r.s, 0, idle);
    ReclaimPrunes(r.s, 0, idle);
    var (t, gone) := r.s.ReclaimStalled(idle);
    PruneLinks(r.s, t, r.tasks, gone, r.file.Keys);
  }

  // ---- everything else ----

  lemma EmitMore(d: Reader, file: map<nat, Byte>, origin: nat -> Byte, n: nat)
    requires Genuine(file, origin) && Faithful(d, origin) && d.cursor + n <= d.to + 1 && n > 0
    requires forall x: nat :: d.cursor <= x < d.cursor + n ==> x in file
    ensures Faithful(d.(cursor := d.cursor + n, out := d.out + Slice(file, d.cursor, n)), origin)
  {
    var more := Slice(file, d.cursor, n);
    forall k | 0 <= k < |d.out + more| ensures (d.out + more)[k] == origin(d.from + k) {
      if k >= |d.out| { assert (d.out + more)[k] == more[k - |d.out|]; }
    }
  }

  lemma ReaderMoves(r: Run, origin: nat -> Byte, i: nat, d: Reader)
    requires RunInv(r, origin) && i < |r.readers| && Faithful(d, origin)
    ensures RunInv(r.(readers := r.readers[i := d]), origin)
  {
  }

  lemma EmitFaithful(r: Run, origin: nat -> Byte, i: nat)
    requires RunInv(r, origin) && Enabled(r, Emit(i))
    ensures RunInv(EmitAct(r, i), origin)
  {
    var d, n := r.readers[i], Available(r, i);
    EmitMore(d, r.file, origin, n);
    var moved := d.(cursor := d.cursor + n, out := d.out + Slice(r.file, d.cursor, n));
    ReaderMoves(r, origin, i, moved);
    assert EmitAct(r, i) == r.(readers := r.readers[i := moved]);
  }

  lemma PauseLinks(r: Run, origin: nat -> Byte, strategy: Strategy, wall: Option<nat>, staged: seq<Span>)
    requires RunInv(r, origin) && Enabled(r, Pause(strategy, wall, staged))
    ensures RunInv(PauseAct(r, strategy, wall, staged), origin)
  {
    var blank := New(r.s.reqStart, r.s.reqEnd, strategy, r.s.volumes, r.s.maxThreads, r.s.maxPerVolume, r.s.splitCap, staged);
    NewLaw(blank, strategy, r.s.volumes, r.s.maxThreads, r.s.maxPerVolume, r.s.splitCap, staged);
    SettingsKeep(blank, blank.WithClaimWall(wall));
  }

  /** Acts that touch no claim and no working task. */
  lemma QuietLinks(s: Sched, t: Sched, tasks: seq<Task>, tasks': seq<Task>, disk: set<nat>)
    requires Links(s, tasks, disk) && t.live == s.live && |tasks'| == |tasks|
    requires forall w :: 0 <= w < |tasks| && (tasks[w].Busy? || tasks'[w].Busy?) ==> tasks'[w] == tasks[w]
    ensures Links(t, tasks', disk)
  {
    forall i | 0 <= i < |t.live| ensures t.live[i].worker < |tasks'| && Linked(t.live[i], tasks'[t.live[i].worker], disk) {
      assert Linked(s.live[i], tasks[s.live[i].worker], disk);
    }
  }

  lemma NoteLinks(r: Run, origin: nat -> Byte, w: nat)
    requires RunInv(r, origin) && Enabled(r, Note(w))
    ensures RunInv(NoteAct(r, w), origin)
  {
    var r' := NoteAct(r, w);
    SettingsKeep(r.s, r'.s);
    QuietLinks(r.s, r'.s, r.tasks, r'.tasks, r.file.Keys);
  }

  lemma TuneLinks(r: Run, origin: nat -> Byte, t: Sched)
    requires RunInv(r, origin) && t.WellFormed() && t.live == r.s.live && t.unclaimed == r.s.unclaimed
    requires t.volumes == r.s.volumes && t.reqStart == r.s.reqStart && t.reqEnd == r.s.reqEnd && t.splitCap == r.s.splitCap
    requires t.reqStart <= t.readHead && (t.reqStart <= t.reqEnd + 1 ==> t.readHead <= t.reqEnd + 1)
    ensures RunInv(r.(s := t), origin)
  {
    SettingsKeep(r.s, t);
    QuietLinks(r.s, t, r.tasks, r.tasks, r.file.Keys);
  }

  lemma QuitLinks(r: Run, origin: nat -> Byte, tasks: seq<Task>)
    requires RunInv(r, origin) && |tasks| == |r.tasks|
    requires forall w :: 0 <= w < |tasks| && (r.tasks[w].Busy? || tasks[w].Busy?) ==> tasks[w] == r.tasks[w]
    ensures RunInv(r.(tasks := tasks), origin)
  {
    QuietLinks(r.s, r.s, r.tasks, tasks, r.file.Keys);
  }

  lemma RequestSafe(r: Run, origin: nat -> Byte, a: Act)
    requires RunInv(r, origin) && Enabled(r, a)
    requires a.Ask? || a.See? || a.Commit? || a.Land? || a.Flush? || a.Report?
    ensures RunInv(Apply(r, origin, a), origin)
  {
    match a {
      case Ask(w, rates) => AskLinks(r, origin, w, rates);
      case See(w, n) => SeeLinks(r, origin, w, n);
      case Commit(w) => CommitLinks(r, origin, w);
      case Land(w, flush) => LandLinks(r, origin, w, flush);
      case Flush(w) => FlushLinks(r, origin, w);
      case Report(w, v) => ReportLinks(r, origin, w, v);
    }
  }

  lemma OtherSafe(r: Run, origin: nat -> Byte, a: Act)
    requires RunInv(r, origin) && Enabled(r, a)
    requires !(a.Ask? || a.See? || a.Commit? || a.Land? || a.Flush? || a.Report?)
    ensures RunInv(Apply(r, origin, a), origin)
  {
    match a {
      case Emit(i) => EmitFaithful(r, origin, i);
      case Refocus(window) => RefocusLinks(r, origin, window);
      case Sweep(idle) => SweepLinks(r, origin, idle);
      case Pause(strategy, wall, staged) => PauseLinks(r, origin, strategy, wall, staged);
      case Note(w) => NoteLinks(r, origin, w);
      case Tell(head, ahead) => TuneLinks(r, origin, r.s.SetReadHead(head).SetReaderBuffer(ahead));
      case Tune(strategy, limit) => TuneLinks(r, origin, r.s.SetStrategy(strategy).SetWorkLimit(limit));
      case Attach(from, to) =>
      case Quit(w) => QuitLinks(r, origin, r.tasks[w := Exited]);
      case Staff => QuitLinks(r, origin, StaffAct(r).tasks);
    }
  }

  /** Every single act keeps the invariant. */
  lemma StepSafe(r: Run, origin: nat -> Byte, a: Act)
    requires RunInv(r, origin) && Enabled(r, a)
    ensures RunInv(Apply(r, origin, a), origin)
  {
    if a.Ask? || a.See? || a.Commit? || a.Land? || a.Flush? || a.Report? {
      RequestSafe(r, origin, a);
    } else {
      OtherSafe(r, origin, a);
    }
  }

  /** In every reachable state of every run, the file holds only the origin's
      bytes and each reader has emitted exactly the origin's bytes from where it
      started up to its cursor: no gap, no repeat, no reordering. */
  lemma {:induction false} RunSafe(r: Run, origin: nat -> Byte, acts: seq<Act>)
    requires RunInv(r, origin) && Possible(r, origin, acts)
    ensures RunInv(Exec(r, origin, acts), origin)
    decreases |acts|
  {
    if acts != [] {
      StepSafe(r, origin, acts[0]);
      RunSafe(Apply(r, origin, acts[0]), origin, acts[1..]);
    }
  }

  /** A staged stream about to start: nothing handed out, every worker idle. */
  ghost predicate Opening(r: Run, origin: nat -> Byte, strategy: Strategy, staged: seq<Span>) {
    && r.s == New(r.s.reqStart, r.s.reqEnd, strategy, r.s.volumes, r.s.maxThreads, r.s.maxPerVolume, r.s.splitCap, staged)
    && Layout(r.s) && r.s.reqEnd < U64_MAX && Genuine(r.file, origin)
    && (forall x: nat :: Has(staged, x) ==> x in r.file)
    && (forall w :: 0 <= w < |r.tasks| ==> r.tasks[w].Idle?) && r.readers == [] && !r.fatal
  }

  lemma OpeningSafe(r: Run, origin: nat -> Byte, strategy: Strategy, staged: seq<Span>)
    requires Opening(r, origin, strategy, staged)
    ensures RunInv(r, origin) && Cover(r.s, r.file.Keys)
    ensures (forall x: nat :: x in r.file && r.s.reqStart <= x <= r.s.reqEnd ==> Has(staged, x)) ==>
            forall x: nat :: r.s.reqStart <= x <= r.s.reqEnd ==> Holders(r.s, r.file.Keys, x) == 1
  {
    NewLaw(r.s, strategy, r.s.volumes, r.s.maxThreads, r.s.maxPerVolume, r.s.splitCap, staged);
  }
}
