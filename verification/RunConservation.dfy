/** Conservation over every run: which acts can lose a byte and exactly when, why
    a staged stream cannot stall with bytes missing, and why no byte is written
    twice. */
module RunConservation {
  import opened Spans
  import opened Sched
  import opened SchedLaws
  import opened Conservation
  import opened RunModel
  import opened RunSafety
  import opened RunRaces

  ghost function Held(r: Run, x: nat): nat { Holders(r.s, r.file.Keys, x) }

  ghost predicate Covered(r: Run) { Cover(r.s, r.file.Keys) }

  // ---- one byte, one act ----

  lemma WorkerClaimUpdate(r: Run, origin: nat -> Byte, w: nat, l: Live, disk: set<nat>, x: nat)
    requires RunInv(r, origin) && HasBusy(r, w)
    ensures Holders(WithLive(r, w, l), disk, x) + B(r.s.live[Slot(r.s, w)].Owns(x)) == Holders(r.s, disk, x) + B(l.Owns(x))
  {
    OwnersUpdate(r.s.live, Slot(r.s, w), l, x);
  }

  /** Announcing a write adds a holder only past the end it was clamped to. */
  lemma CommitByte(r: Run, origin: nat -> Byte, w: nat, x: nat)
    requires RunInv(r, origin) && Enabled(r, Commit(w))
    ensures var l, t := r.s.live[Slot(r.s, w)], r.tasks[w];
            Held(CommitAct(r, w), x) == Held(r, x) + B(l.Primary() && l.Limit() <= x < t.at + t.item)
  {
    SlotFacts(r, origin, w);
    var l, t := r.s.live[Slot(r.s, w)], r.tasks[w];
    WorkerClaimUpdate(r, origin, w, l.Reserve(t.at + t.item), r.file.Keys, x);
  }

  lemma LandByte(r: Run, origin: nat -> Byte, w: nat, flush: bool, x: nat)
    requires RunInv(r, origin) && Enabled(r, Land(w, flush))
    ensures Held(r, x) >= 1 ==> Held(LandAct(r, origin, w, flush), x) >= 1
    ensures r.s.live[Slot(r.s, w)].Primary() ==> Held(LandAct(r, origin, w, flush), x) <= Held(r, x)
  {
    SlotFacts(r, origin, w);
    var l, t := r.s.live[Slot(r.s, w)], r.tasks[w];
    var file' := LandedFile(r.file, origin, l, t, flush);
    WriteLaw(r.file, origin, l.cursor, t.at + t.item);
    WorkerClaimUpdate(r, origin, w, Landed(l, t, flush), file'.Keys, x);
    assert Holders(r.s, file'.Keys, x) == Held(r, x) + B(x !in r.file && x in file');
  }

  lemma FlushByte(r: Run, origin: nat -> Byte, w: nat, x: nat)
    requires RunInv(r, origin) && Enabled(r, Flush(w))
    ensures Held(r, x) >= 1 ==> Held(FlushAct(r, origin, w), x) >= 1
    ensures r.s.live[Slot(r.s, w)].Primary() ==> Held(FlushAct(r, origin, w), x) <= Held(r, x)
  {
    SlotFacts(r, origin, w);
    var l, t := r.s.live[Slot(r.s, w)], r.tasks[w];
    var file' := Write(r.file, origin, l.cursor, t.at);
    WriteLaw(r.file, origin, l.cursor, t.at);
    WorkerClaimUpdate(r, origin, w, l.AdvanceTo(t.at), file'.Keys, x);
    assert Holders(r.s, file'.Keys, x) == Held(r, x) + B(x !in r.file && x in file');
  }

  // ---- which acts keep every byte ----

  /** What a worker that reports in would make the claim it raced abandon is on disk. */
  ghost predicate CleanWin(r: Run, w: nat)
    requires HasBusy(r, w)
  {
    var p := Slot(r.s, w);
    var l, rest := r.s.live[p], r.s.Without(p);
    var i := RaceLoser(rest, l);
    l.cursor > l.end && i < |rest.live| ==> forall x: nat :: Abandoned(rest.live[i], x) ==> x in r.file
  }

  /** A hedge that wins reaches the end of the primary it cuts short, unless that
      primary has announced all it owes. */
  ghost predicate WinReaches(r: Run, w: nat)
    requires HasBusy(r, w)
  {
    var p := Slot(r.s, w);
    var l, rest := r.s.live[p], r.s.Without(p);
    var i := RaceLoser(rest, l);
    l.cursor > l.end && i < |rest.live| ==> l.end >= rest.live[i].end || rest.live[i].reserved > rest.live[i].end
  }

  /** Nothing the claim had committed past a cut end is still missing. */
  ghost predicate NothingStranded(r: Run, l: Live) { forall x: nat :: Stranded(l, x) ==> x in r.file }

  /** What a caller can check before the act: how far a winning hedge reaches, and
      what an aborted request had announced past its end. */
  ghost predicate Lossless(r: Run, a: Act)
    requires Enabled(r, a)
  {
    match a
    case Report(w, _) => WinReaches(r, w)
    case Refocus(window) =>
      forall k :: 0 <= k < |r.s.live| && Aborted(r.s, window, r.s.live[k]) ==> NothingStranded(r, r.s.live[k])
    case Sweep(idle) => forall k :: 0 <= k < |r.s.live| && Dead(r.s.live[k], idle) ==> NothingStranded(r, r.s.live[k])
    case _ => true
  }

  /** The claim a finished worker raced, behind which its hedge started. */
  lemma RaceFacts(r: Run, origin: nat -> Byte, w: nat)
    requires RunInv(r, origin) && RaceInv(r.s) && HasBusy(r, w)
    ensures var p := Slot(r.s, w); var l, rest := r.s.live[p], r.s.Without(p); var i := RaceLoser(rest, l);
            i < |rest.live| ==> l.start <= rest.live[i].cursor && GoodClaim(r.s, rest.live[i])
  {
    SlotFacts(r, origin, w);
    var p := Slot(r.s, w);
    var l, rest := r.s.live[p], r.s.Without(p);
    var i := RaceLoser(rest, l);
    if i < |rest.live| {
      assert HedgeBehind(r.s, l) && Hedges(l, rest.live[i]);
      assert rest.live[i] == r.s.live[if i < p then i else i + 1];
    }
  }

  /** Reaching that far is enough: the hedge has delivered all the rest. */
  lemma ReachingWins(r: Run, origin: nat -> Byte, w: nat)
    requires RunInv(r, origin) && RaceInv(r.s) && HasBusy(r, w) && WinReaches(r, w)
    ensures CleanWin(r, w)
  {
    SlotFacts(r, origin, w);
    RaceFacts(r, origin, w);
  }

  lemma ReportByte(r: Run, origin: nat -> Byte, w: nat, v: Verdict, x: nat)
    requires RunInv(r, origin) && Enabled(r, Report(w, v))
    ensures Held(ReportAct(r, w, v), x) <= Held(r, x)
    ensures CleanWin(r, w) && Held(r, x) >= 1 ==> Held(ReportAct(r, w, v), x) >= 1
  {
    SlotFacts(r, origin, w);
    FinishByte(r.s, Slot(r.s, w), r.file.Keys, x);
  }

  lemma RefocusActByte(r: Run, origin: nat -> Byte, window: nat, x: nat)
    requires RunInv(r, origin) && Enabled(r, Refocus(window))
    ensures Held(RefocusAct(r, window), x) <= Held(r, x)
    ensures Lossless(r, Refocus(window)) && Held(r, x) >= 1 ==> Held(RefocusAct(r, window), x) >= 1
  {
    SeekByte(r.s, window, r.file.Keys, x);
    if Lossless(r, Refocus(window)) && Held(r, x) >= 1 { OwnersAt(r.s.live, x); }
  }

  lemma SweepActByte(r: Run, origin: nat -> Byte, idle: set<nat>, x: nat)
    requires RunInv(r, origin)
    ensures Held(SweepAct(r, idle), x) <= Held(r, x)
    ensures Lossless(r, Sweep(idle)) && Held(r, x) >= 1 ==> Held(SweepAct(r, idle), x) >= 1
  {
    ReclaimByte(r.s, 0, idle, r.file.Keys, x);
    if Lossless(r, Sweep(idle)) && Held(r, x) >= 1 {
      if x !in r.file { HeldSpared(r.s, r.file.Keys, Silent(idle), x); }
    }
  }

  /** A rebuild makes every byte that is not on disk wait again, whatever was lost. */
  lemma PauseHeals(r: Run, origin: nat -> Byte, strategy: Strategy, wall: Option<nat>, staged: seq<Span>)
    requires RunInv(r, origin) && Enabled(r, Pause(strategy, wall, staged))
    ensures Covered(PauseAct(r, strategy, wall, staged))
    ensures forall x: nat :: r.s.reqStart <= x <= r.s.reqEnd && x !in r.file ==>
              Has(PauseAct(r, strategy, wall, staged).s.unclaimed, x)
  {
    var blank := New(r.s.reqStart, r.s.reqEnd, strategy, r.s.volumes, r.s.maxThreads, r.s.maxPerVolume, r.s.splitCap, staged);
    NewLaw(blank, strategy, r.s.volumes, r.s.maxThreads, r.s.maxPerVolume, r.s.splitCap, staged);
  }

  lemma AskByte(r: Run, origin: nat -> Byte, w: nat, rates: Rates, x: nat)
    requires RunInv(r, origin) && Enabled(r, Ask(w, rates))
    ensures Held(AskAct(r, w, rates), x) == Held(r, x)
  {
    IdleAbsent(r.s, r.tasks, w, r.file.Keys);
    ClaimConserves(r.s, w, rates, r.file.Keys, x);
  }

  lemma SeeByte(r: Run, w: nat, n: nat, x: nat)
    requires Enabled(r, See(w, n))
    ensures Held(SeeAct(r, w, n), x) == Held(r, x)
  {
  }

  lemma NoteByte(r: Run, w: nat, x: nat)
    requires Enabled(r, Note(w))
    ensures Held(NoteAct(r, w), x) == Held(r, x)
  {
  }

  /** A lossless act keeps a byte that is held. */
  lemma StepKeeps(r: Run, origin: nat -> Byte, a: Act, x: nat)
    requires RunInv(r, origin) && RaceInv(r.s) && Enabled(r, a) && Lossless(r, a) && Held(r, x) >= 1
    requires r.s.reqStart <= x <= r.s.reqEnd
    ensures Held(Apply(r, origin, a), x) >= 1
  {
    match a {
      case Ask(w, rates) => AskByte(r, origin, w, rates, x);
      case See(w, n) => SeeByte(r, w, n, x);
      case Commit(w) => CommitByte(r, origin, w, x);
      case Land(w, flush) => LandByte(r, origin, w, flush, x);
      case Flush(w) => FlushByte(r, origin, w, x);
      case Report(w, v) =>
        ReachingWins(r, origin, w);
        ReportByte(r, origin, w, v, x);
      case Note(w) => NoteByte(r, w, x);
      case Refocus(window) => RefocusActByte(r, origin, window, x);
      case Sweep(idle) => SweepActByte(r, origin, idle, x);
      case Pause(strategy, wall, staged) => PauseHeals(r, origin, strategy, wall, staged);
      case Quit(_) =>
      case Emit(_) =>
      case Tell(_, _) =>
      case Tune(_, _) =>
      case Attach(_, _) =>
      case Staff =>
    }
  }

  /** The act leaves the request alone, takes nothing off the disk and no slot away. */
  ghost predicate SameRequest(r: Run, z: Run) {
    && z.s.reqStart == r.s.reqStart && z.s.reqEnd == r.s.reqEnd && r.file.Keys <= z.file.Keys && |z.tasks| == |r.tasks|
  }

  lemma AskSameRequest(r: Run, origin: nat -> Byte, w: nat, rates: Rates)
    requires RunInv(r, origin) && Enabled(r, Ask(w, rates))
    ensures SameRequest(r, AskAct(r, w, rates)) && SameJob(r.s, AskAct(r, w, rates).s)
  {
    IdleAbsent(r.s, r.tasks, w, r.file.Keys);
    var m := ClaimLaw(r.s, w, rates);
    if m.Hedged? && m.via != r.s { var p :| IsFutileCut(r.s, m.via, p); }
  }

  lemma ReportSameRequest(r: Run, origin: nat -> Byte, w: nat, v: Verdict)
    requires RunInv(r, origin) && Enabled(r, Report(w, v))
    ensures SameRequest(r, ReportAct(r, w, v)) && SameJob(r.s, ReportAct(r, w, v).s)
  {
    SlotFacts(r, origin, w);
    FinishByte(r.s, Slot(r.s, w), {}, 0);
  }

  lemma AbortSameRequest(r: Run, origin: nat -> Byte, a: Act)
    requires RunInv(r, origin) && Enabled(r, a) && (a.Refocus? || a.Sweep?)
    ensures SameRequest(r, Apply(r, origin, a))
  {
    if a.Sweep? {
      ReclaimShape(r.s, 0, a.idle);
    } else if r.s.strategy.Latency? {
      RefocusShape(r.s, 0, r.s.readHead, Sat(r.s.readHead + Max(a.window, 1)), Max(r.s.strategy.headClaim, MIN_CLAIM));
    }
  }

  lemma StreamSameRequest(r: Run, origin: nat -> Byte, a: Act)
    requires Enabled(r, a) && (a.See? || a.Commit? || a.Land? || a.Flush?)
    ensures SameRequest(r, Apply(r, origin, a))
  {
  }

  lemma QuietSameRequest(r: Run, origin: nat -> Byte, a: Act)
    requires Enabled(r, a)
    requires a.Quit? || a.Note? || a.Emit? || a.Tell? || a.Tune? || a.Attach? || a.Staff? || a.Pause?
    ensures SameRequest(r, Apply(r, origin, a))
  {
  }

  lemma StepSameRequest(r: Run, origin: nat -> Byte, a: Act)
    requires RunInv(r, origin) && Enabled(r, a)
    ensures SameRequest(r, Apply(r, origin, a))
  {
    match a {
      case Ask(w, rates) => AskSameRequest(r, origin, w, rates);
      case Report(w, v) => ReportSameRequest(r, origin, w, v);
      case Refocus(_) => AbortSameRequest(r, origin, a);
      case Sweep(_) => AbortSameRequest(r, origin, a);
      case See(_, _) => StreamSameRequest(r, origin, a);
      case Commit(_) => StreamSameRequest(r, origin, a);
      case Land(_, _) => StreamSameRequest(r, origin, a);
      case Flush(_) => StreamSameRequest(r, origin, a);
      case _ => QuietSameRequest(r, origin, a);
    }
  }

  ghost predicate AllLossless(r: Run, origin: nat -> Byte, acts: seq<Act>)
    requires Possible(r, origin, acts)
    decreases |acts|
  {
    acts == [] || (Lossless(r, acts[0]) && AllLossless(Apply(r, origin, acts[0]), origin, acts[1..]))
  }

  /** After any run of lossless acts every requested byte is still on disk,
      waiting, or some live primary claim's to write. */
  lemma {:induction false} RunConserves(r: Run, origin: nat -> Byte, acts: seq<Act>)
    requires RunInv(r, origin) && RaceInv(r.s) && Possible(r, origin, acts) && AllLossless(r, origin, acts) && Covered(r)
    ensures Covered(Exec(r, origin, acts)) && RaceInv(Exec(r, origin, acts).s)
    decreases |acts|
  {
    if acts != [] {
      var r' := Apply(r, origin, acts[0]);
      StepSafe(r, origin, acts[0]);
      RaceStep(r, origin, acts[0]);
      StepSameRequest(r, origin, acts[0]);
      forall x: nat | r'.s.reqStart <= x <= r'.s.reqEnd ensures Holders(r'.s, r'.file.Keys, x) >= 1 {
        assert Held(r, x) >= 1;
        StepKeeps(r, origin, acts[0], x);
      }
      RunConserves(r', origin, acts[1..]);
    }
  }

  // ---- a hedge that wins ----

  /** The winner stopped short of `x`, and the loser has not announced it. */
  predicate Exposed(l: Live, loser: Live, x: nat) { l.end < x <= loser.end && loser.reserved <= x }

  /** Somebody besides claim `i` has committed to `x`. */
  ghost predicate Shared(live: seq<Live>, i: nat, x: nat) {
    exists k :: 0 <= k < |live| && k != i && live[k].Owns(x)
  }

  lemma OthersHold(live: seq<Live>, i: nat, l: Live, x: nat)
    requires i < |live| && !l.Owns(x)
    ensures Owners(live[i := l], x) >= 1 <==> Shared(live, i, x)
  {
    var after := live[i := l];
    OwnersAt(after, x);
    if k :| 0 <= k < |after| && after[k].Owns(x) { assert live[k].Owns(x); }
    if k :| 0 <= k < |live| && k != i && live[k].Owns(x) { assert after[k].Owns(x); }
  }

  lemma CutShortList(s: Sched, p: nat)
    requires Inv(s) && p < |s.live| && s.live[p].cursor > s.live[p].end
    ensures var l, rest := s.live[p], s.Without(p); var i := RaceLoser(rest, l); var t := s.Finish(l.worker, l.cursor);
            i < |rest.live| ==> t.live == rest.live[i := rest.live[i].CutShort()] && t.unclaimed == s.unclaimed
  {
    FindWorker(s.live, p, 0);
  }

  /** The state a worker reports a won race in. */
  ghost predicate Wins(r: Run, w: nat)
    requires HasBusy(r, w)
  {
    var p := Slot(r.s, w);
    r.s.live[p].cursor > r.s.live[p].end && RaceLoser(r.s.Without(p), r.s.live[p]) < |r.s.Without(p).live|
  }

  /** The primary a winner cuts short, by its place among the other claims. */
  ghost function Loser(r: Run, w: nat): (i: nat)
    requires HasBusy(r, w) && Wins(r, w)
    ensures i < |r.s.Without(Slot(r.s, w)).live|
  {
    RaceLoser(r.s.Without(Slot(r.s, w)), r.s.live[Slot(r.s, w)])
  }

  lemma ExposedWaits(s: Sched, p: nat, i: nat, x: nat)
    requires RaceInv(s) && p < |s.live| && i < |s.Without(p).live|
    requires var l := s.Without(p).live[i]; l.Primary() && l.cursor <= x <= l.end
    ensures !Has(s.unclaimed, x)
  {
    var k := if i < p then i else i + 1;
    assert s.Without(p).live[i] == s.live[k];
    OneDebt(s.live, k, x);
    assert Owed(s, x) <= 1;
  }

  /** One byte of the loser's that the winner did not deliver. */
  lemma ExposedByte(r: Run, origin: nat -> Byte, w: nat, v: Verdict, x: nat)
    requires RunInv(r, origin) && RaceInv(r.s) && Enabled(r, Report(w, v)) && Wins(r, w)
    requires var p := Slot(r.s, w); Exposed(r.s.live[p], r.s.Without(p).live[Loser(r, w)], x)
    ensures Held(ReportAct(r, w, v), x) >= 1 <==> x in r.file || Shared(r.s.Without(Slot(r.s, w)).live, Loser(r, w), x)
  {
    var p, i := Slot(r.s, w), Loser(r, w);
    var rest := r.s.Without(p);
    SlotFacts(r, origin, w);
    CutShortList(r.s, p);
    OthersHold(rest.live, i, rest.live[i].CutShort(), x);
    RaceFacts(r, origin, w);
    ExposedWaits(r.s, p, i, x);
  }

  /** Any other byte keeps its holder. */
  lemma CoveredByte(r: Run, origin: nat -> Byte, w: nat, v: Verdict, x: nat)
    requires RunInv(r, origin) && RaceInv(r.s) && Enabled(r, Report(w, v)) && Held(r, x) >= 1 && Wins(r, w)
    requires var p := Slot(r.s, w); !Exposed(r.s.live[p], r.s.Without(p).live[Loser(r, w)], x)
    ensures Held(ReportAct(r, w, v), x) >= 1
  {
    SlotFacts(r, origin, w);
    RaceFacts(r, origin, w);
    FinishByte(r.s, Slot(r.s, w), r.file.Keys, x);
  }

  /** When a hedge wins, nothing is lost exactly when each byte past its end that
      the primary owes and has not announced is on disk or committed to by
      somebody else. */
  lemma HedgeWinExact(r: Run, origin: nat -> Byte, w: nat, v: Verdict)
    requires RunInv(r, origin) && RaceInv(r.s) && Enabled(r, Report(w, v)) && Covered(r) && Wins(r, w)
    ensures var p := Slot(r.s, w); var l, rest := r.s.live[p], r.s.Without(p).live;
            Covered(ReportAct(r, w, v)) <==>
            forall x: nat :: Exposed(l, rest[Loser(r, w)], x) ==> x in r.file || Shared(rest, Loser(r, w), x)
  {
    var p, i := Slot(r.s, w), Loser(r, w);
    var l, rest := r.s.live[p], r.s.Without(p).live;
    var z := ReportAct(r, w, v);
    RaceFacts(r, origin, w);
    ReportSameRequest(r, origin, w, v);
    forall x: nat | r.s.reqStart <= x <= r.s.reqEnd
      ensures Held(z, x) >= 1 <==> (Exposed(l, rest[i], x) ==> x in r.file || Shared(rest, i, x))
    {
      assert Held(r, x) >= 1;
      if Exposed(l, rest[i], x) { ExposedByte(r, origin, w, v, x); } else { CoveredByte(r, origin, w, v, x); }
    }
    if Covered(z) {
      forall x: nat | Exposed(l, rest[i], x) ensures x in r.file || Shared(rest, i, x) { assert Held(z, x) >= 1; }
    }
  }

  /** So when the primary's last byte is missing and nobody else's, nothing is lost
      exactly when the hedge reached it, or the primary has announced it. */
  lemma TruncationExact(r: Run, origin: nat -> Byte, w: nat, v: Verdict)
    requires RunInv(r, origin) && RaceInv(r.s) && Enabled(r, Report(w, v)) && Covered(r) && Wins(r, w)
    requires var rest := r.s.Without(Slot(r.s, w)).live; var last := rest[Loser(r, w)].end;
             last !in r.file && !Shared(rest, Loser(r, w), last)
    ensures Covered(ReportAct(r, w, v)) <==> WinReaches(r, w)
  {
    HedgeWinExact(r, origin, w, v);
    var p := Slot(r.s, w);
    var l, loser := r.s.live[p], r.s.Without(p).live[Loser(r, w)];
    assert !WinReaches(r, w) ==> Exposed(l, loser, loser.end);
  }

  // ---- no false stall ----

  /** What a staged stream's workers and reader do (no aborts, no rebuild). */
  predicate Streams(a: Act) {
    !(a.Tune? || a.Refocus? || a.Sweep? || a.Staff? || a.Pause?)
  }

  ghost predicate AllExited(r: Run) {
    forall w :: 0 <= w < |r.tasks| ==> r.tasks[w].Exited?
  }

  /** Workers only stop for good once nothing waits, or on a fatal error. */
  ghost predicate StreamInv(r: Run) {
    && |r.tasks| > 0 && r.s.workLimit.None?
    && (AllExited(r) && !r.fatal ==> r.s.unclaimed == [])
  }

  lemma AskStreams(r: Run, origin: nat -> Byte, w: nat, rates: Rates)
    requires RunInv(r, origin) && Enabled(r, Ask(w, rates)) && StreamInv(r)
    ensures StreamInv(AskAct(r, w, rates))
  {
    AskSameRequest(r, origin, w, rates);
    IdleAbsent(r.s, r.tasks, w, r.file.Keys);
    var (t, l) := r.s.Claim(w, rates);
    if l.None? {
      ClaimComplete(r.s, w, rates);
    } else {
      assert !AskAct(r, w, rates).tasks[w].Exited?;
    }
  }

  lemma WorkStreams(r: Run, origin: nat -> Byte, a: Act)
    requires Enabled(r, a) && StreamInv(r) && (a.See? || a.Commit? || a.Land? || a.Flush?)
    ensures StreamInv(Apply(r, origin, a))
  {
    assert !Apply(r, origin, a).tasks[a.w].Exited?;
  }

  lemma ReportStreams(r: Run, origin: nat -> Byte, w: nat, v: Verdict)
    requires RunInv(r, origin) && Enabled(r, Report(w, v)) && StreamInv(r)
    ensures StreamInv(ReportAct(r, w, v))
  {
    ReportSameRequest(r, origin, w, v);
    assert !ReportAct(r, w, v).tasks[w].Exited?;
  }

  lemma NoteStreams(r: Run, w: nat)
    requires Enabled(r, Note(w)) && StreamInv(r)
    ensures StreamInv(NoteAct(r, w))
  {
    var r' := NoteAct(r, w);
    if !r'.fatal { assert !r'.tasks[w].Exited?; }
  }

  lemma StreamStays(r: Run, origin: nat -> Byte, a: Act)
    requires RunInv(r, origin) && Enabled(r, a) && StreamInv(r) && Streams(a)
    ensures StreamInv(Apply(r, origin, a))
  {
    match a {
      case Ask(w, rates) => AskStreams(r, origin, w, rates);
      case See(_, _) => WorkStreams(r, origin, a);
      case Commit(_) => WorkStreams(r, origin, a);
      case Land(_, _) => WorkStreams(r, origin, a);
      case Flush(_) => WorkStreams(r, origin, a);
      case Report(w, v) => ReportStreams(r, origin, w, v);
      case Note(w) => NoteStreams(r, w);
      case Quit(_) =>
      case Emit(_) =>
      case Tell(_, _) =>
      case Attach(_, _) =>
    }
  }

  lemma {:induction false} StreamRun(r: Run, origin: nat -> Byte, acts: seq<Act>)
    requires RunInv(r, origin) && StreamInv(r) && Possible(r, origin, acts)
    requires forall i :: 0 <= i < |acts| ==> Streams(acts[i])
    ensures StreamInv(Exec(r, origin, acts))
    ensures var z := Exec(r, origin, acts); z.s.reqStart == r.s.reqStart && z.s.reqEnd == r.s.reqEnd
    decreases |acts|
  {
    if acts != [] {
      StepSafe(r, origin, acts[0]);
      StepSameRequest(r, origin, acts[0]);
      StreamStays(r, origin, acts[0]);
      StreamRun(Apply(r, origin, acts[0]), origin, acts[1..]);
    }
  }

  /** A reader inside the request with bytes still to emit. */
  predicate Unfinished(r: Run, d: Reader) {
    r.s.reqStart <= d.cursor <= d.to && d.to <= r.s.reqEnd
  }

  /** As long as no hedge wins that stops short of what its primary still owes, a
      transfer whose workers have all gone without a fatal error is complete, and
      a reader inside the request always has bytes to emit: the stalled branch
      cannot be taken. */
  lemma NoFalseStall(r: Run, origin: nat -> Byte, strategy: Strategy, staged: seq<Span>, acts: seq<Act>)
    requires Opening(r, origin, strategy, staged) && |r.tasks| > 0 && Possible(r, origin, acts)
    requires (forall i :: 0 <= i < |acts| ==> Streams(acts[i])) && AllLossless(r, origin, acts)
    requires AllExited(Exec(r, origin, acts)) && !Exec(r, origin, acts).fatal
    ensures var z := Exec(r, origin, acts);
            && (forall x: nat :: r.s.reqStart <= x <= r.s.reqEnd ==> x in z.file && z.file[x] == origin(x))
            && (forall i :: 0 <= i < |z.readers| && Unfinished(z, z.readers[i]) ==> Enabled(z, Emit(i)))
  {
    OpeningSafe(r, origin, strategy, staged);
    assert !AllExited(r) by { assert r.tasks[0].Idle?; }
    StreamRun(r, origin, acts);
    RunSafe(r, origin, acts);
    FreshRaces(r.s);
    RunConserves(r, origin, acts);
    var z := Exec(r, origin, acts);
    forall x: nat | r.s.reqStart <= x <= r.s.reqEnd ensures x in z.file {
      assert Holders(z.s, z.file.Keys, x) >= 1;
      OwnersAt(z.s.live, x);
    }
  }

  // ---- playback never hedges, so it needs no side condition ----

  ghost predicate Playback(s: Sched) {
    s.strategy.Latency? && forall i :: 0 <= i < |s.live| ==> s.live[i].Primary()
  }

  lemma DescendPrimary(s: seq<Live>, t: seq<Live>)
    requires Descends(s, t) && forall i :: 0 <= i < |s| ==> s[i].Primary()
    ensures forall i :: 0 <= i < |t| ==> t[i].Primary()
  {
    forall j | 0 <= j < |t| ensures t[j].Primary() {
      assert Among(s, t[j]);
      var i :| 0 <= i < |s| && SameClaim(s[i], t[j]);
    }
  }

  lemma AskPlayback(r: Run, origin: nat -> Byte, w: nat, rates: Rates)
    requires RunInv(r, origin) && Enabled(r, Ask(w, rates)) && Playback(r.s)
    ensures Playback(AskAct(r, w, rates).s)
  {
    IdleAbsent(r.s, r.tasks, w, r.file.Keys);
    AskTracks(r.s, w, rates);
    var m := ClaimLaw(r.s, w, rates);
    var t := r.s.Claim(w, rates).0;
    forall i | 0 <= i < |t.live| ensures t.live[i].Primary() {
      assert i < |r.s.live| ==> SameClaim(r.s.live[i], t.live[i]);
    }
  }

  lemma ReportPlayback(r: Run, origin: nat -> Byte, w: nat, v: Verdict)
    requires RunInv(r, origin) && Enabled(r, Report(w, v)) && Playback(r.s)
    ensures Playback(ReportAct(r, w, v).s) && Lossless(r, Report(w, v))
  {
    ReportSameRequest(r, origin, w, v);
    FinishTracks(r.s, Slot(r.s, w));
    DescendPrimary(r.s.live, ReportAct(r, w, v).s.live);
  }

  lemma WorkPlayback(r: Run, origin: nat -> Byte, a: Act)
    requires RunInv(r, origin) && Enabled(r, a) && Playback(r.s) && (a.See? || a.Commit? || a.Land? || a.Flush?)
    ensures Playback(Apply(r, origin, a).s)
  {
    SlotFacts(r, origin, a.w);
  }

  lemma PlaybackStays(r: Run, origin: nat -> Byte, a: Act)
    requires RunInv(r, origin) && Enabled(r, a) && Playback(r.s) && Streams(a)
    ensures Playback(Apply(r, origin, a).s) && Lossless(r, a)
  {
    match a {
      case Ask(w, rates) => AskPlayback(r, origin, w, rates);
      case Report(w, v) => ReportPlayback(r, origin, w, v);
      case See(_, _) => WorkPlayback(r, origin, a);
      case Commit(_) => WorkPlayback(r, origin, a);
      case Land(_, _) => WorkPlayback(r, origin, a);
      case Flush(_) => WorkPlayback(r, origin, a);
      case Note(_) =>
      case Quit(_) =>
      case Emit(_) =>
      case Tell(_, _) =>
      case Attach(_, _) =>
    }
  }

  lemma {:induction false} PlaybackRun(r: Run, origin: nat -> Byte, acts: seq<Act>)
    requires RunInv(r, origin) && Playback(r.s) && Possible(r, origin, acts)
    requires forall i :: 0 <= i < |acts| ==> Streams(acts[i])
    ensures AllLossless(r, origin, acts)
    decreases |acts|
  {
    if acts != [] {
      StepSafe(r, origin, acts[0]);
      PlaybackStays(r, origin, acts[0]);
      PlaybackRun(Apply(r, origin, acts[0]), origin, acts[1..]);
    }
  }

  /** A latency-mode staged stream delivers everything: in any interleaving in
      which all workers end without a fatal error, every requested byte is on
      disk, and what the reader has emitted is the origin's bytes in order. */
  lemma PlaybackComplete(r: Run, origin: nat -> Byte, strategy: Strategy, staged: seq<Span>, acts: seq<Act>)
    requires Opening(r, origin, strategy, staged) && strategy.Latency? && |r.tasks| > 0 && Possible(r, origin, acts)
    requires forall i :: 0 <= i < |acts| ==> Streams(acts[i])
    ensures var z := Exec(r, origin, acts);
            && Covered(z)
            && (forall i :: 0 <= i < |z.readers| ==> Faithful(z.readers[i], origin))
            && (AllExited(z) && !z.fatal ==>
                  && (forall x: nat :: r.s.reqStart <= x <= r.s.reqEnd ==> x in z.file && z.file[x] == origin(x))
                  && (forall i :: 0 <= i < |z.readers| && Unfinished(z, z.readers[i]) ==> Enabled(z, Emit(i))))
  {
    OpeningSafe(r, origin, strategy, staged);
    PlaybackRun(r, origin, acts);
    RunSafe(r, origin, acts);
    FreshRaces(r.s);
    RunConserves(r, origin, acts);
    var z := Exec(r, origin, acts);
    if AllExited(z) && !z.fatal {
      NoFalseStall(r, origin, strategy, staged, acts);
    }
  }
}
