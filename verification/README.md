# Claim-based staged transfer: a verified model

The repository streams and caches large files. A scheduler hands out byte
ranges, many workers fetch them and write them out of order into a sparse file,
and ordered readers drain the contiguous prefix. This project models that
protocol in Dafny and proves what it promises, or exactly when it keeps the
promise: nothing requested is lost, no byte has two writers at once, every
reader gets exactly the origin's bytes in order, and a transfer whose workers
have all left without an error is complete.

The parts, each in its own file:

* **Scheduler.** `Spans` (the waiting list), `Sched` (every operation as a
  function on the scheduler's value), `SchedulerClass` (the object whose methods
  change it in place, proved equal to those functions), `SchedLaws`,
  `Conservation`, `Policy`, `EvenSplit`, `TierLaws`, `SeekLaws` (what the
  operations guarantee).
* **Runs.** `RunModel` is the transfer as a state machine: any interleaving of
  worker acts (claim, read the end, announce a write, land it, flush, report),
  reader acts and coordinator acts. `RunSafety`, `RunRaces`, `RunConservation`,
  `RunExclusive`, `RunAborts`, `RunHedging` prove properties of every run;
  `LossyRuns` and `LongerReclaims` each put together a run that loses bytes, out
  of the steps in `RunSteps`. `FailureLaws` is the failure budget, of a transfer
  and of a job.
* **Staging file.** `Intervals`, `Cache` (bitmap, per-block interval lists,
  `CacheEntry`), `Coalescer`.
* **Serving a chunk through the cache.** `Plan` (chunk plans, volume slices),
  `CachedFetch` (the retry, volume and block-run loops), `Transparency`,
  `CacheHits`.
* **In-memory stream.** `MemStream`, `Spawner`, `SpawnLaws`, `MemSafety`,
  `MemRuns`, `MemStall`, `MemWedges`.
* **Coordinator.** `JobModel`, `JobLaws`, `JobSafety`, `JobAims`, `Job` (the
  object), `StaleClaims`.
* **Smaller cores.** `Limiter`, `Keystream`.

The origin is a function from offset to byte (or the concatenation of the
volumes' bytes); a request delivers any prefix of what was asked and may then
fail. What a clock or a rate sample decides (straggler, slowest claim, idle
workers) is a parameter of the step, so the proofs hold for every choice.
`Sched.Rates`, the `idle` set and the wall remembered from an earlier request
are such parameters. Byte counts are unbounded naturals; where the code
saturates at 64 bits the model does too (`Spans.Sat`, `Spans.SatSub`).

A byte's *holders* (`Conservation.Holders`) are the disk, the waiting list, and
the live primary claims that answer for it, committed bytes past a cut end
included; hedges hold nothing. Its *owners* (`Conservation.Outstanding`) are the
same without the disk. *Covered* means every requested byte has a holder,
*undoubled* that none has two owners.

## What does not hold

* **A winning hedge can lose bytes**, on two paths. `hedge` may cut the duplicate
  to what is left of the budget, yet its completion cuts the whole primary short:
  `LossyRuns.TruncatedHedgeStalls` is a run in which nothing fails and a reader is
  left stalled. And a claim hedged in full may go back unused, its worker throttled
  at the first byte, and be taken again, longer, from the same start: the old hedge
  then cuts the longer claim. `LongerReclaims.LongerReclaimStalls` is a run, from
  its opening, in which no hedge is cut down, budget is left over, and a reader is
  stalled all the same. The test that catches both can be made when the report comes
  in: does the hedge reach the primary's end (`RunConservation.WinReaches`)? With it
  no run loses a byte (`NoFalseStall`); `HedgeWinExact` and `TruncationExact` say
  exactly when a win without it does.
* **Aborts can strand committed bytes.** A request aborted between announcing
  and landing a write past an end that was cut under it loses those bytes until
  a rebuild, unless they are on disk or somebody else's by then
  (`Conservation.RefocusLossless`, `ReclaimLossless`: exactly then).
* **Announcing is not atomic with reading the end.** The comment in the code
  says claims never overlap; `RunExclusive.CommitExact` says exactly when: the
  end read still stands when the write is announced. Otherwise the overlap is
  at most the item in hand, and over a whole run a byte is written at most once
  more for each such announcement (`NoDoubleWrite`).
* **A job that broke and is started again without a pause keeps its aborted
  claims.** Right after the abort every byte is on disk or waiting if and only if no
  aborted claim owes a missing byte (`JobSafety.AbortExact`, `BreakExact`). For what
  follows that is not enough: the next report of a restarted worker settles its stale
  claim instead of its own, and two runs show bytes stranded by it
  (`StaleClaims.RestartStrands`; `SettledClaimStrands`, where the stale claim owed
  nothing). Not every left-over claim does harm; `ReportReturns` says of each such
  report exactly when it still returns what it should. A pause puts everything right
  (`JobSafety.PauseRestores`).
* **A successful fetch with an empty body can wedge the in-memory stream**
  (`MemStall.EmptyFetchStalls`): with one slot, its release is only taken into
  account while the serializer waits for the next item. One item per successful
  fetch is enough to rule it out (`MemRuns.StreamEnds`), and so is a plan whose
  chunks beyond the first window are all warmed up: `MemWedges.WedgeExact` says a
  stream can wedge if and only if some chunk beyond it is not.
* **A short body that ends cleanly is taken for the rest of its span**
  (`Transparency.ShortBodyTruncates`; `SubSpanExact`, `FetchLaw` and `DirectLaw`
  say exactly when a fetch that reports success is complete).
* **The limiter's window is half open.** "Any 1-second window" holds of
  half-open seconds; one that includes both ends can see what its last instant
  admits on top (`Limiter.ClosedWindow`), up to twice the rate
  (`ClosedWindowDoubles`).
* **A reopened entry can over-count** its cached bytes: exactly when a block is
  missing and either the short last block is complete or the bitmap found on disk
  has a bit past it (`Cache.ReopenedCount`).
* The documentation of `note_claim_outcome` speaks of a claim that "delivered
  nothing"; the code, and the model, test for less than `MIN_FRAGMENT`.

## Model

| member | source | states |
|---|---|---|
| Spans.SubtractLaw | src/schedule.rs:1353-1373 | taking a range out of the waiting list removes exactly its bytes and leaves the list sorted, disjoint and non-adjacent |
| Spans.InsertLaw | src/schedule.rs:1374-1393 | giving a range back adds exactly its bytes and merges neighbours, so the list stays minimal |
| Sched.Choose | src/schedule.rs:1170-1196 | a victim is found exactly when some claim is eligible, whatever the rates single out |
| Sched.LargestFrom | src/schedule.rs:1186-1196 | the fallback victim owes at least as much as every other eligible claim |
| Sched.Sched.ClaimLen | src/schedule.rs:1315-1327 | never zero, never above the split cap, never above the learned limit |
| SchedulerClass.LiveClaim.Reserve | src/schedule.rs:296-300 | the reserved mark only grows |
| SchedulerClass.LiveClaim.AdvanceTo | src/schedule.rs:301-306 | the cursor moves and takes the reserved mark along |
| SchedulerClass.Scheduler.constructor | src/schedule.rs:429-475 | the new object is the specified fresh scheduler |
| SchedulerClass.Scheduler.RemoveUnclaimed | src/schedule.rs:1353-1373 | the loop over gaps computes `Subtract` |
| SchedulerClass.Scheduler.InsertUnclaimed | src/schedule.rs:1374-1393 | push, sort and in-place merge compute `Insert` |
| SchedulerClass.Scheduler.PickGap | src/schedule.rs:1058-1083 | the scan finds the nearest, or first largest, admissible gap |
| SchedulerClass.Scheduler.Take | src/schedule.rs:1032-1056 | a claim cut from the chosen gap is registered and its bytes stop waiting |
| SchedulerClass.Scheduler.Steal | src/schedule.rs:1126-1164 | the victim's end is moved in place and the tail registered after its reserved mark |
| SchedulerClass.Scheduler.Hedge | src/schedule.rs:1214-1256 | the duplicate is charged to the budget and cut to it |
| SchedulerClass.Scheduler.Claim | src/schedule.rs:910-966 | one call does to the object exactly what the three tiers specify, and the claim returned is the new last live claim |
| SchedulerClass.Scheduler.Finish | src/schedule.rs:971-996 | settles the worker's first claim, adds no claim |
| SchedulerClass.Scheduler.RefocusOnReader | src/schedule.rs:660-711 | the in-place loop does `Refocus` to the object, which `SeekLaws.RefocusExact` pins, and names the aborted workers in order |
| SchedulerClass.Scheduler.ReclaimStalled | src/schedule.rs:726-751 | the in-place loop drops exactly the dead claims, by `SeekLaws.ReclaimExact` |
| SchedulerClass.Scheduler.NoteClaimOutcome | src/schedule.rs:781-825 | learns limit and wall and says whether the failure counts, both pinned by `Policy.OutcomeExact`, `StrikesHalve`, `SuccessesDouble` and `OneBadRound` |
| SchedLaws.NewLaw | src/schedule.rs:429-475 | a fresh scheduler has exactly the unstaged requested bytes waiting, the limits it was given, and has learned nothing |
| SchedLaws.ClaimLaw | src/schedule.rs:910-966 | `claim` keeps the invariant (every claim non-empty, in one volume, within the cap, one per worker), is one of the tiers, and leaves T1 only when nothing waits in the region it may work in |
| SchedLaws.ClaimComplete | src/schedule.rs:910-966 | `None` without a work limit means nothing waits; with one, nothing waits between floor and horizon |
| SchedLaws.ClipDropsNothing | src/schedule.rs:1155-1163 | a claim lies in one volume, so the volume clips in steal and fetch drop nothing |
| SchedLaws.StealAtLaw | src/schedule.rs:1126-1164 | the two claims after a steal are disjoint and together the old one, or the cut was futile |
| SchedLaws.HedgeLaw | src/schedule.rs:1214-1256 | a hedge covers a piece of one un-hedged primary from its cursor, at least 1 MiB, paid from the budget |
| TierLaws.PickGapExact | src/schedule.rs:1058-1083 | near the reader the gap picked is the first of the region, if its volume has room where that matters; elsewhere the largest admissible one and the first of that size; none exactly when there is none |
| TierLaws.TakeExact | src/schedule.rs:1032-1056 | the claim starts where that gap meets the region and ends with the gap, the region, the volume or the size of a claim, whichever comes first |
| TierLaws.ClaimRespectsCap | src/schedule.rs:910-950 | a claim taken for no reader lies in a volume at its cap only if every gap within reach starts in one; near the reader the cap gives way |
| TierLaws.ClaimWithinLimit | src/schedule.rs:582-602 | with a work limit no claim is taken behind the reader or beyond the limit |
| TierLaws.ClaimLenExact | src/schedule.rs:1272-1327 | a download's claim is the smallest share, worth a request, with which the free workers cover all that waits; playback's at most the buffer per thread or a head claim; what was learned and the cap come on top |
| TierLaws.TakeKeepsWork | src/schedule.rs:493-535 | taking turns waiting bytes into owed ones, one for one, so the end of the work is where it was |
| TierLaws.HedgeKeepsWork | src/schedule.rs:493-535 | a duplicate is not counted as work |
| TierLaws.ChooseExact | src/schedule.rs:1170-1196 | the straggler if it is eligible, else the last of the eligible claims with the most left |
| TierLaws.StealExact | src/schedule.rs:1126-1164 | a victim is found if and only if another worker's primary owes more than two pieces; it keeps the first half of what it owes, the thief gets the rest but for what was announced |
| TierLaws.HedgeExact | src/schedule.rs:1214-1256 | a hedge is issued if and only if a mebibyte of budget is left and some un-raced primary of another worker owes as much; its length is what that one owes or what the budget holds, and is charged |
| TierLaws.HedgesLast | src/schedule.rs:950-966 | a hedge is only issued by a download near its end, with nothing waiting within reach |
| TierLaws.HedgesWhenIdle | src/schedule.rs:950-966 | and is issued then whenever nothing can be robbed and the budget and the claims allow it |
| TierLaws.FinishExact | src/schedule.rs:971-1010 | a report past the end stops the first rival of the race and changes nothing else; a report short of it changes no other claim and makes exactly the rest of a primary wait |
| Conservation.ClaimConserves | src/schedule.rs:910-966 | take, steal and hedge leave the number of holders of every byte unchanged |
| Conservation.RefocusLossless | src/schedule.rs:660-711 | from any state a seek gives no byte a new owner, and keeps every requested byte if and only if each byte an aborted request had committed past a cut end is on disk or somebody else's |
| Conservation.ReclaimLossless | src/schedule.rs:726-751 | the same of re-cutting dead claims |
| Conservation.FinishByte | src/schedule.rs:971-1010 | a report conserves every byte, except those a winning hedge makes its primary abandon |
| SeekLaws.RefocusExact | src/schedule.rs:660-711 | a seek names, in order, exactly the workers of unfinished claims beyond the window, behind the reader or too far behind it; the others stay in order, finished ones and hedges untouched, primaries cut to what playback would hand out anew |
| SeekLaws.SurvivesSeek | src/schedule.rs:660-711 | an unfinished claim survives if and only if `cursor < head + max(window, 1)`, `end >= head` and `cursor + max(headClaim, 1 MiB) >= head`, saturating; otherwise its worker is named |
| SeekLaws.ReclaimExact | src/schedule.rs:726-751 | a sweep names, in order, exactly the workers of unfinished claims that have not moved and are silent; the others stay in order with their progress noted |
| SeekLaws.SurvivesSweep | src/schedule.rs:726-751 | a claim survives if and only if it is finished, has moved, or its worker was heard from |
| Policy.NearestFirst | src/schedule.rs:910-950 | in playback the next claim starts exactly at the first waiting byte of the window, whatever the per-volume cap |
| Policy.SeekGuarantee | src/schedule.rs:660-711 | after a seek no surviving primary owes more than a head claim, and a head byte not on disk or in flight starts the next claim or is close ahead of a live cursor |
| Policy.PlaybackPacking | src/schedule.rs:614-650 | the k-th claim of a playback round is exactly the k-th piece behind the read head |
| Policy.SizingLaw | src/schedule.rs:781-825 | over any outcomes the limit stays between 1 MiB and the wall and the wall never rises |
| Policy.OutcomeExact | src/schedule.rs:781-825 | after any outcomes, the next counts exactly when it is a failure that delivered 8 MiB or was issued within the limit in force; such bytes leave sizing alone, successes never count |
| Policy.ChargesExact | src/schedule.rs:781-825 | over any outcomes the number charged is exactly the number of those |
| Policy.StrikesHalve | src/schedule.rs:803-815 | n early failures within the limit halve it n times, down to 1 MiB, and make that the wall |
| Policy.SuccessesDouble | src/schedule.rs:791-798 | n successes double the limit n times, up to the wall, and charge nothing |
| Policy.OneBadRound | src/schedule.rs:781-825 | a round of equal claims that all fail early charges nothing, and shrinks sizing once, to half of what failed and at most 8 MiB |
| Policy.WallSeedsSizing | src/schedule.rs:476-484 | a remembered wall bounds the next request's claims |
| Policy.SeedRecovers | src/schedule.rs:476-484 | seeded with a wall, sizing starts at 8 MiB or the wall and successes bring it back to the wall, never past it |
| FailureLaws.RunBudget | src/engine.rs:2418-2500 | over every run the failures counted are exactly those that count, the run is fatal if and only if they reach the budget, and then no worker asks again |
| FailureLaws.BreakdownsEndRun | src/engine.rs:2475-2492 | a budget of requests that failed after 8 MiB ends every run |
| FailureLaws.FailuresBreakJob | src/download.rs:503-540 | failures that count and use up two per thread, or eight, break the job: nothing wanted, no slot staffed |
| FailureLaws.BrokenByFailures | src/download.rs:503-540 | and in every run a job is broken only by that many |
| EvenSplit.EvenSplitLaw | src/schedule.rs:1272-1277 | the first `maxThreads` download claims tile the request in order and differ by at most a byte |
| EvenSplit.EvenPartsExist | src/schedule.rs:1032-1055 | every request of a mebibyte per thread is covered by that law |
| RunSafety.StepSafe | src/engine.rs:1687-1864 | every act keeps claims, tasks, disk and readers in step |
| RunSafety.RunSafe | src/engine.rs:2501-2617 | in every run the file holds only the origin's bytes and readers have emitted exactly the origin's bytes in order |
| RunSafety.OpeningSafe | src/engine.rs:1594-1664 | a staged stream opens with every requested byte held, exactly once when all of the disk was found |
| RunRaces.ClaimRaces | src/schedule.rs:910-966 | claiming hands out only bytes that wait or are owed, no start twice, and hedges start behind the primary they race |
| RunRaces.FinishRaces | src/schedule.rs:971-1010 | a report keeps that, and makes no byte owed that was not |
| RunRaces.RaceStep | src/engine.rs:1687-1864 | every act of every run keeps at most one debtor per byte, distinct primary starts, and each hedge behind its primary's cursor; none but a rebuild makes a byte owed again |
| RunConservation.StepKeeps | src/engine.rs:1796-1829 | a lossless act keeps a holder for every held byte |
| RunConservation.RunConserves | src/schedule.rs:971-1056 | after any run in which winning hedges reach far enough and aborts strand nothing, every requested byte is written, waiting, or owed by a live primary |
| RunConservation.PauseHeals | src/download.rs:250-264 | a rebuild makes every unwritten byte wait again, whatever was lost before |
| RunConservation.ReachingWins | src/schedule.rs:1002-1010 | in every reachable state a hedge that reaches its primary's end has delivered all that the cut abandons |
| RunConservation.HedgeWinExact | src/schedule.rs:981-1009 | a winning hedge's cut loses nothing if and only if each unannounced byte past its end is on disk or committed to by another primary |
| RunConservation.TruncationExact | src/schedule.rs:981-1009 | when the primary's last byte is missing and nobody else's, that is if and only if the hedge reached it or the primary had announced it |
| RunConservation.NoFalseStall | src/engine.rs:2418-2617 | in every run in which no hedge wins short of its primary's end: when all workers have left without a fatal error every byte is on disk and no reader can be stalled |
| RunConservation.PlaybackComplete | src/engine.rs:1594-1664 | for latency mode the same without any condition on hedges, in every interleaving |
| RunExclusive.CommitExact | src/engine.rs:1796-1829 | in every reachable state announcing a write gives no byte a further owner if and only if the end read still stands; otherwise the overlap is within the item in hand |
| RunExclusive.RunUndoubled | src/schedule.rs:1143-1163 | with read-end and reserve as one step no byte ever has two owners, over every run, hedges, seeks, sweeps and rebuilds included |
| RunExclusive.ActByte | src/engine.rs:1796-1829 | in every act a primary pays for each byte it writes; only a rebuild that missed the byte or an announcement past the standing end gives it another owner |
| RunExclusive.WritesPaid | src/engine.rs:1807-1829 | over every run a byte's writes by primaries and owners at the end are at most its owners at the start, the rebuilds that missed it and the announcements past a standing end |
| RunExclusive.NeverAgain | src/engine.rs:1807-1829 | a byte nobody owns is never owned or written by a primary again before a rebuild or an announcement past a standing end |
| RunExclusive.NoDoubleWrite | src/engine.rs:1807-1829 | over every transfer a byte found on disk is written by no primary, any other at most once, plus once for each rebuild that missed it and each announcement past a standing end; with read-end and reserve as one step there is none of the latter and no byte has two owners |
| RunExclusive.OneWriter | src/engine.rs:1796-1829 | what a primary has announced waits for nobody and is no other primary's |
| RunAborts.RestStrandsNothing | src/schedule.rs:693-707 | a claim waiting for its next item has nothing missing past its end |
| RunAborts.SeeksLoseNothing | src/schedule.rs:660-751 | with aborts between items and winning hedges that cover their primaries, no run of seeks, steals, hedges, sweeps, pauses and rebuilds loses a byte |
| RunHedging.HedgesWithinBudget | src/schedule.rs:1214-1256 | budget left plus bytes duplicated is constant, and live hedges have distinct targets |
| RunHedging.TransferHedges | src/schedule.rs:458-459 | over a whole transfer hedges duplicate at most 1/200 of the request and at most 32 MiB |
| RunHedging.PlaybackDuplicatesNothing | src/schedule.rs:950-966 | latency mode issues no hedge |
| LossyRuns.TruncatedHedgeStalls | src/schedule.rs:1246-1249 | a concrete run: a budget-cut hedge wins, a byte is nobody's, all workers leave, the reader stalls |
| LongerReclaims.LongerReclaimStalls | src/schedule.rs:971-1010 | a concrete run from its opening: an untruncated hedge cuts a claim taken again, longer, from the same start; nothing fails, budget is left over, bytes are nobody's and the reader stalls |
| Intervals.MergeInterval | src/cache.rs:1087-1124 | the in-place merge yields the minimal list of exactly the old bytes and the new |
| Intervals.CoversLaw | src/cache.rs:1125-1127 | the single-span test is true exactly when the whole block is in the list |
| Intervals.MergedUnique | src/cache.rs:1087-1124 | the list is determined by its bytes |
| Intervals.CoveredToLaw | src/cache.rs:312-368 | the interval lookup finds the end of the run at an offset |
| Cache.BitIffWritten | src/cache.rs:285-295 | a block's bit is set exactly when all its bytes, short last block included, are written |
| Cache.RecordUnique | src/cache.rs:512-584 | bit and interval list are determined by the written bytes, whatever order they came in |
| Cache.CacheEntry.constructor | src/cache.rs:408-432 | a fresh entry records nothing |
| Cache.CacheEntry.Reopen | src/cache.rs:433-475 | an entry found on disk holds exactly its complete blocks, with the count the code starts from |
| Cache.ReopenKeeps | src/cache.rs:433-475 | reopening keeps a byte if and only if its whole block had been written |
| Cache.CacheEntry.WriteRange | src/cache.rs:512-584 | the data goes to the file, exactly the part of the range inside the file to the written set, and `bytes_cached` follows the total of complete blocks |
| Cache.RecordBlock | src/cache.rs:530-575 | one block's share of a write is merged and ticked off when complete |
| Cache.Record | src/cache.rs:530-575 | the sweep over blocks records exactly the range |
| Cache.CacheEntry.ContiguousFrom | src/cache.rs:312-368 | exactly the longest written run from the offset, capped |
| Cache.CacheEntry.StagedRanges | src/cache.rs:487-506 | sorted non-adjacent runs of exactly the bytes reachable from the start or a block boundary through written bytes |
| Cache.CompleteBlocksStaged | src/cache.rs:487-506 | every byte of a complete block is found |
| Cache.ReopenedCount | src/cache.rs:452-456 | the count after reopening never undercounts, and is exact if and only if every block is complete, or no bit is set past the last block and that one is full-sized or incomplete |
| Coalescer.WriteCoalescer.Write | src/cache.rs:142-171 | one buffered write does what `WriteStep` specifies |
| Coalescer.WriteCoalescer.Flush | src/cache.rs:172-181 | empties the buffer into the file |
| Coalescer.CoalescingIsTransparent | src/cache.rs:125-181 | any writes with any flags, then a flush, equal the direct writes in order |
| Coalescer.WriteAccepts | src/cache.rs:142-171 | disk and buffer hold exactly the accepted bytes of the file |
| Coalescer.StreamIsDurable | src/engine.rs:1818-1829 | at every point `cursor - buffered()` is on disk |
| Plan.CutEvery | src/engine.rs:2976-3013 | pieces tile the range, all of the split size but a last one |
| Plan.PlanChunks | src/engine.rs:2976-3013 | the plan tiles the range, never crosses a volume, and each piece has the split size unless the range or a volume ends with it |
| Plan.HeadZone | src/engine.rs:3020-3065 | the head pieces have the small size, unless a piece of the plan ends with them; the tiling is kept and the rest is the plan's |
| Plan.PlanWithHead | src/engine.rs:3020-3065 | the whole stream plan: tiling, volumes, split and small head |
| Plan.SliceByVolumes | src/engine.rs:2937-2969 | the loop computes the slices |
| Plan.SlicesLaw | src/engine.rs:2937-2969 | slices tile the span exactly, each inside one volume |
| CachedFetch.TargetLaw | src/engine.rs:641-676 | the local range asked of a volume serves exactly the merged range |
| CachedFetch.ResolveClips | src/engine.rs:641-676 | whatever range is asked for, the request is for exactly its part in the volume that holds the locator, and none is made if there is none |
| CachedFetch.WriteClean | src/engine.rs:2007-2186 | only the origin's bytes are buffered or written |
| CachedFetch.AttemptLoop | src/engine.rs:1998-2060 | the retry loop resumes mid-span as specified |
| CachedFetch.RunLoop | src/engine.rs:1900-1962 | the loop over hit and miss runs computes `Runs` |
| CachedFetch.CourseExact | src/engine.rs:1998-2060 | attempts that report success have brought everything if and only if the body they ended on brought all that was still asked for |
| Transparency.SubSpanExact | src/engine.rs:1998-2186 | a sub-span reported as fetched was fetched whole if and only if that is so of its answers |
| Transparency.ReceivedExact | src/engine.rs:1879-1962 | what a genuine trace sends is the chunk's share of the bytes it spans, in order, exactly when each sub-span it settled had all the chunk wants of it; otherwise less |
| Transparency.ReplayClean | src/engine.rs:1963-1991 | a genuine trace stores only the origin's bytes, whatever was answered |
| Transparency.FetchLaw | src/engine.rs:1879-1991 | for all answers: a cached chunk that succeeds is exactly the origin's bytes if and only if each settled sub-span's answers delivered what the chunk wants of it, is a prefix of them on failure without a gap, and the cache stays truthful |
| Transparency.DirectLaw | src/engine.rs:1998-2186 | a direct fetch inside one volume that succeeds is exact if and only if its last body was not short |
| Transparency.SameAsDirect | src/engine.rs:1879-2186 | next to an exact direct fetch, a cached one is byte for byte the same if and only if none of its sub-spans had a gap in the chunk |
| Transparency.ShortBodyTruncates | src/engine.rs:2100-2186 | a clean end after part of the body truncates the chunk |
| CacheHits.HitsAreLocal | src/engine.rs:1899-1912 | a chunk whose blocks, a short last one included, are all on disk is served exactly, whatever the origin answers, and nothing is asked of the origin |
| CacheHits.OnlyMissesAsked | src/engine.rs:1935-1962 | every byte that comes from the origin is kept and lies in a block that was not whole |
| CacheHits.SecondTimeLocal | src/engine.rs:1879-2186 | after a fetch that succeeds with full bodies every block of the chunk is on disk, and the chunk is served again without the origin |
| Spawner.Pool.PickNext | src/engine.rs:1342-1401 | the lowest unspawned chunk of the window whose volume has room, if there is one; else the lowest unspawned chunk; none exactly when all are spawned |
| Spawner.Pool.StartChunk | src/engine.rs:1342-1401 | one fetcher is started and counted, or the chunk only marked |
| Spawner.Pool.TrySpawnMore | src/engine.rs:1342-1401 | the spawn loop computes `Refill`, which `SpawnLaws.RefillOrderly` pins |
| Spawner.Pool.WarmUpVolumes | src/engine.rs:1414-1460 | the warm-up loop computes `WarmUp` over the volumes nothing was spawned in |
| SpawnLaws.RefillOrderly | src/engine.rs:1342-1401 | a refill starts the best chunk again and again until the pool is full or the window of twice the threads is exhausted |
| SpawnLaws.CapYields | src/engine.rs:1342-1401 | the best chunk lies in a volume at its cap only if no unspawned chunk of the window lies in one with room |
| SpawnLaws.StreamFair | src/engine.rs:1342-1574 | over every run every fetcher after the opening starts in such a refill, with counters that tell the truth |
| SpawnLaws.OpeningFair | src/engine.rs:1402-1460 | the opening is such a refill, then exactly the first chunks of the first volumes that have none, within the budget |
| Spawner.Pool.DrainAll | src/engine.rs:1484-1574 | all releases that have come in leave the books |
| MemSafety.StepInv | src/engine.rs:1484-1574 | every step of fetcher, serializer or client keeps counters, window and output order, whatever the fetches deliver |
| MemSafety.StepProgress | src/engine.rs:1484-1574 | as long as successes push something, the chunk waited for is always fetched or about to be |
| MemSafety.StepComplete | src/engine.rs:1484-1574 | as long as successes push their whole chunk, what lies behind was pushed whole |
| MemRuns.OpenedInv | src/engine.rs:1402-1482 | the initial fill and warm-up establish it, with at most the allowed warm-ups |
| MemRuns.NeverStuck | src/engine.rs:1484-1574 | with one item per successful fetch an unfinished stream always has a step other than a failure |
| MemRuns.StepWorks | src/engine.rs:1484-1574 | every step uses up some of a finite measure |
| MemRuns.StreamLaw | src/engine.rs:1342-1574 | whatever the fetches deliver: output is what each chunk pushed, in plan order; runs are finite; in-flight counters exact and bounded; nothing but warm-ups beyond the lookahead |
| MemRuns.StreamEnds | src/engine.rs:1484-1574 | with one item per successful fetch a run ends only after every chunk, or by a failed fetch or the client leaving |
| MemRuns.StreamCompletes | src/engine.rs:1484-1574 | with whole successes the output is at any time a prefix of the range, and all of it in the end unless a fetch failed or the client left |
| MemStall.EmptyFetchStalls | src/engine.rs:1484-1574 | a run with an empty successful fetch after which nobody can move |
| MemWedges.StuckExact | src/engine.rs:1484-1574 | in every reachable state nobody can move if and only if the chunk waited for has no fetcher, nobody holds a slot or a channel, and no release is due |
| MemWedges.WedgeExact | src/engine.rs:1342-1574 | a stream as opened can wedge if and only if some chunk beyond the first window of twice the threads was not warmed up |
| JobLaws.KeptClaim | src/download.rs:491-492 | a turn at the scheduler keeps plan, busy set and disk in step, and `None` without a limit means nothing waits |
| JobLaws.KeptLand | src/engine.rs:1807-1829 | a landed item moves bytes from the claim to the disk |
| JobLaws.KeptFinish | src/download.rs:503-503 | a report keeps every byte held unless it is a hedge's that stops short of what its primary still owes |
| JobLaws.AllOnDisk | src/download.rs:541-553 | nobody busy and nothing waiting means everything is on disk |
| JobSafety.StartOk | src/download.rs:197-209 | a start either finds the file whole or runs a fully staffed, unbounded fill |
| JobSafety.PauseOk | src/download.rs:226-247 | a pause makes exactly the bytes not found on disk wait, frees every slot, and restaffs only for readers |
| JobSafety.StreamOk | src/download.rs:329-346 | a seek re-aims, replaces the aborted workers and leaves every slot staffed |
| JobSafety.ExitOk | src/download.rs:541-553 | the last worker out of a wanted fill leaves nothing undone |
| JobSafety.ReportOk | src/download.rs:503-540 | reporting, learning and breaking keep the coordinator's invariant |
| JobSafety.StepOk | src/download.rs:197-653 | every coordinator step keeps it |
| JobSafety.CoordinatorLaw | src/download.rs:197-653 | over every sequence of steps `Done` (here `Complete`) implies the whole file on disk, a wanted fill is running, unbounded and within its failure budget, and a sound one always has a worker and loses nothing |
| JobSafety.PauseRestores | src/download.rs:226-264 | from any state a pause restores the full invariant for every run after it |
| JobSafety.AbortExact | src/download.rs:426-434 | after an abort every byte is on disk or waiting if and only if no aborted claim owes a missing byte; the coordinator's invariant survives only an abort that leaves no claim |
| JobSafety.BreakExact | src/download.rs:523-540 | the same of the failure that breaks the job |
| JobAims.TurnExact | src/download.rs:554-615 | a reader's turn moves it over exactly the bytes written at its cursor, a mebibyte at most, and aims the pool at where it stops; with none there it fills the pool |
| JobAims.ReadersBoundWork | src/download.rs:348-366 | for readers alone nothing is taken behind the lowest of them or 256 MiB ahead of it |
| JobAims.WantedReachesAll | src/download.rs:348-366 | a wanted fill, or a pool without readers, gives up only when nothing waits |
| JobAims.AloneDownloads | src/download.rs:348-366 | without readers it takes from the largest gap, as a download does |
| JobAims.RebuiltWithinWall | src/download.rs:250-264 | a plan built anew hands out no claim beyond what an earlier request was seen to swallow |
| JobAims.RebuildAims | src/download.rs:250-264 | a rebuild makes exactly what was not found on disk wait, and plays if and only if there are readers |
| JobAims.LeaveAims | src/download.rs:616-631 | when a reader leaves the pool turns to the lowest of the others; with none left a wanted file is downloaded by a full pool |
| JobAims.StateChanges | src/download.rs:197-553 | exactly which steps change the state of a job, and to what |
| JobAims.WriteThroughLaw | src/download.rs:453-469 | in every run what is written through at once is exactly what lies less than 32 MiB ahead of every reader |
| JobAims.SlotsKept | src/download.rs:371-434 | no slot changes hands while its worker holds a claim |
| JobAims.StreamFrees | src/download.rs:329-346 | a new reader frees exactly the workers whose requests are useless near the lowest reader and staffs their slots anew |
| JobAims.SweepFrees | src/download.rs:307-323 | a sweep frees exactly the stalled workers, and none of a pool nobody wants |
| JobAims.AbortSupersedes | src/download.rs:426-434 | whoever worked before an abort is superseded by it |
| JobAims.WindsDown | src/download.rs:412-425 | in every run, once the last reader of an unwanted job has left no slot is staffed again and whoever asks leaves without a claim |
| Job.CacheJob.constructor | src/download.rs:135-172 | opens on exactly what a walk over the disk found; done when all is there |
| Job.CacheJob.Retune | src/download.rs:348-366 | points the plan at the lowest reader, bounded unless the file is wanted |
| Job.CacheJob.EnsureWorkers | src/download.rs:371-388 | staffs every empty slot when there is demand |
| Job.CacheJob.Respawn | src/download.rs:394-411 | replaces the tasks of exactly the listed slots |
| Job.CacheJob.AbortWorkers | src/download.rs:426-434 | empties every slot and leaves the plan alone |
| Job.CacheJob.RebuildScheduler | src/download.rs:250-264 | the plan becomes the one built from the disk |
| Job.CacheJob.StartCache | src/download.rs:197-209 | the object does the model's step |
| Job.CacheJob.PauseCache | src/download.rs:226-247 | the same |
| Job.CacheJob.Stop | src/download.rs:265-268 | the same |
| Job.CacheJob.SweepStalled | src/download.rs:307-323 | the same |
| Job.CacheJob.Stream | src/download.rs:329-346 | the same |
| Job.CacheJob.ReaderTurn | src/download.rs:554-615 | the reader advances by exactly the written run, or re-aims and staffs the pool |
| Job.CacheJob.ReaderLeaves | src/download.rs:616-631 | the last reader out widens a wanted fill or lets the pool run dry |
| Job.CacheJob.WorkerTurn | src/download.rs:470-492 | leave when superseded or nothing can be claimed, else hold the claim |
| Job.CacheJob.WorkerExit | src/download.rs:541-553 | frees the slot and marks the job done when the file is whole |
| Job.CacheJob.Land | src/engine.rs:1807-1829 | the item is written in place and the claim advanced |
| Job.CacheJob.WorkerDone | src/download.rs:503-540 | settles, learns, and breaks the job at the failure budget |
| StaleClaims.ReportSettlesTheStale | src/schedule.rs:971-996 | with two claims under one worker id a report past the first claim's end drops every byte that claim answered for |
| StaleClaims.ReportReturns | src/schedule.rs:971-996 | with two claims under one worker id a report gives back the undelivered rest if and only if the first claim is a primary that reaches as far |
| StaleClaims.SettledClaimStrands | src/download.rs:529-536 | a stale claim that owes nothing still strands the restarted worker's bytes |
| StaleClaims.RestartStrands | src/download.rs:529-536 | a concrete restart after an abort without rebuild that leaves bytes with no holder |
| Limiter.TurnInv | src/ratelimit.rs:162-206 | one turn of any acquirer keeps the sum equal to the queue and every second within the rate |
| Limiter.WindowLaw | src/ratelimit.rs:162-206 | in every run no half-open second admits more than the rate, and `window_bytes` is the sum of the queue |
| Limiter.ClosedWindow | src/ratelimit.rs:162-206 | in every run a closed second admits at most the rate and what its last instant admitted |
| Limiter.ClosedWindowDoubles | src/ratelimit.rs:162-206 | a closed second can see twice the rate |
| Limiter.PatienceAdmits | src/ratelimit.rs:170-190 | once the queue is stale the next turn admits |
| Limiter.Sliding.Expire | src/ratelimit.rs:174-181 | the loop drops exactly the stale prefix |
| Limiter.GrantExact | src/ratelimit.rs:166-205 | a turn is granted, and logged, exactly `min(want, rate)` if and only if the bytes logged in the last second leave room for it, and else nothing |
| Limiter.GrantsWithin | src/ratelimit.rs:162-206 | over every sequence of turns what is granted in any half-open second is at most the rate |
| Limiter.Sliding.Pass | src/ratelimit.rs:162-206 | exactly what is granted is logged, and it is granted if and only if the last second leaves room; a refused acquirer sleeps until the oldest admission leaves the window, within 5 and 200 ms |
| Keystream.MaskedTwice | src/plugins/chacha20.rs:858-885 | masking at the same offset twice is the identity |
| Keystream.MaskedSlice | src/plugins/chacha20.rs:858-885 | a slice is masked as if on its own at its absolute offset |
| Keystream.ParallelWorkerCount | src/plugins/chacha20.rs:839-848 | between one and eight, at most the cores, every worker with its minimum share, and no fewer than that allows |
| Keystream.CutSlices | src/plugins/chacha20.rs:799-823 | at most that many slices, in order, covering the buffer, cut at keystream blocks into equal shares but for the last |
| Keystream.ApplyKeystreamParallel | src/plugins/chacha20.rs:769-837 | whatever the worker count and the order they run in, the buffer ends up masked at its absolute offsets |
| Keystream.Transform | src/plugins/chacha20.rs:850-876 | in place, the buffer is masked at its merged offset |
| Keystream.PlanVolumeSizes | src/plugins/chacha20.rs:641-677 | sizes sum to the total, every one but the last is within the mode's bounds, the last is what is left |
| Keystream.WriteVolume | src/plugins/chacha20.rs:531-565 | one volume holds exactly its stretch of the masked input, however it was buffered |
| Keystream.Forward | src/plugins/chacha20.rs:517-575 | the volumes end to end are the masked input, each of its planned size |
| Keystream.PieceByPiece | src/plugins/chacha20.rs:850-876 | opening pieces one by one equals opening them at once |
| Keystream.RoundTrip | src/plugins/chacha20.rs:517-575 | any stretch of the sealed stream, cut anywhere, opens to the plain bytes |
| Keystream.SealThenOpen | src/plugins/chacha20.rs:517-575 | plan, encrypt, split, read anywhere, decrypt: what went in comes out |

## Left out

- The clock and rate measurements: which claim is slow, idle or slowest is a parameter of each step; so are overload backoff and its jitter.
- `ClaimWall` expiry: the remembered wall is a parameter.
- HTTP, TLS, sockets, retries' delays, mirror choice, ETags, health counters, real files, preallocation and persistence: the origin is a function or the volumes' bytes, the file a map.
- Local write failures: every write that is announced lands or its worker is aborted.
- Abort races: an aborted worker stops at once.
- One live claim per worker id is an assumption of the run model; `JobSafety.CoordinatorLaw` proves that the coordinator keeps it until it aborts without a rebuild, and `StaleClaims` shows what happens then.
- Job.CacheJob.Land: the coordinator's model writes an item in one step; the separate acts of reading the end, announcing and landing, and the write buffer, are in the run model.
- JobSafety.CoordinatorLaw: what is said of the plan stops at an abort without a rebuild or at a race that abandons bytes (`sound`), because both lose bytes in the code too.
- Sums of byte counts inside the scheduler are assumed not to exceed 64 bits (`reqEnd < U64_MAX`), except where the code saturates explicitly.
- Transparency.FetchLaw: other writers are not interleaved with one chunk's fetch, the cache is a value with a trace of events, and answers longer than asked, whole-file responses to range requests and the outgoing transform are not modelled.
- The token-bucket limiter, and changing the rate while a window is open.
- Keystream.ApplyKeystreamParallel: a buffer lies within the keystream or wholly past it, as below.
- Keystream.Transform: the same.
- Keystream.WriteVolume: requires the input to lie within the keystream, as below.
- Keystream.Forward: requires the input to lie within the keystream; what the cipher crate does when one buffer crosses its end is not part of this model. The keystream itself is an arbitrary byte sequence (section 2.4 of RFC 8439 defines the real one).
- Secrets, key parsing, progress events, file names and volume-name templates.
- DNS overrides, host maps, HTTP routes, configuration, the web interface and saved settings: they would only add easy members.
