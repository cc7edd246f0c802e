# Verified models of the homelab repository

This project models the parts of the homelab repository whose correctness is hardest to see, and
proves what they promise. The models are ordinary Dafny: functions and lemmas where the source
computes, classes and loops proved against those functions where the source updates in place.

| files | what they model |
|---|---|
| RoutineTable, JobSafety, JobCalls, RoutineJobs | the routine-jobs table: leasing, completion, holds, freshness rationing, and the direct writes of other components |
| DrainerIntents, DrainerFleet | the two-worker drainer fleet under stale reads, crashes and replays |
| RecoveryState, RoutineRecovery, RoutineFence, RecoveryLedger | the three recovery routes over held and finished jobs, interleaved with every job call, the modelled direct writes, and any other write that spares held rows and receipts |
| Chunker, Dedup | content-defined chunking of root images and dedup accounting in four scopes |
| PreviewPaths, PreviewSite, PreviewLimits, PreviewPublisher, PreviewChain | the fixture-preview publisher and concurrent publishers racing on its state branch |
| Locks | opportunistic locks with a time to live |
| Pairwise | the position-debiased judge, its cache and the win tally |
| Utf8, Render, Collector | the session collector: byte-capped rendering and the upload retry state |
| Text, Sums | shared text conventions and sums over maps |

Conventions:

- A database transaction is one atomic step on a map from keys to rows. Concurrency is the
  interleaving of such steps, given as an explicit sequence of states; a theorem over runs holds
  for every such sequence.
- Clocks, random numbers, fresh ids, network replies and the effect of code outside the model are
  parameters, and every theorem quantifies over them.
- SHA-256 is modelled by the value it digests, or by an arbitrary digest function whose
  collision-freeness is stated where it is used.
- Where a promise turns out not to hold of the code, the code is kept as it is. The project then
  gives an input that breaks the promise and the exact condition under which it holds: a deferral
  erases the evidence that rations freshness jobs; a completion can schedule the reserved status;
  an empty kind filter, or a claim by name with another kind's filter, is granted a job and refused
  it on replay; the publisher does not check the per-file limit that its loader enforces; the lock
  listing's prefix is a LIKE pattern; colliding digests name the wrong winner; a transcript found
  twice overshoots the retry limit, in a row and in all; metadata of control characters overshoots the document limit.
- Where code and prose differ, the code is followed. The publisher's path pattern leaves a dot
  unescaped, and the model admits what the pattern admits. The last repair in the renderer cannot
  apply, and the model keeps it and proves that.

## Model

| member | source | states |
|---|---|---|
| `JobSafety.HeldUntouched` | projects/monolith/agent/routine_jobs.py:156-230 | a row held for an unknown outcome is left bit for bit by every claim, completion, deregistration, trigger, deferral and registration |
| `JobSafety.QuietExactly` | projects/monolith/agent/routine_jobs.py:475-517 | held rows stay unscheduled and unlocked under every operation, except exactly the completions that write the reserved status themselves with an interval or a deferral |
| `JobSafety.StampsKept` | projects/monolith/agent/routine_jobs.py:218-230 | every operation keeps the rule that a locked row carries its lock time and its time to live |
| `JobSafety.DisplacesOnlyExpired` | projects/monolith/agent/routine_jobs.py:156-319 | a claim changes one row, and takes it from another holder only if that lease is not a deterministic drainer lease and has run out |
| `JobSafety.DisplacedOwnerIsInert` | projects/monolith/agent/routine_jobs.py:409-517 | over every run, a holder that lost a row changes nothing with its owner-scoped calls on it until it claims again |
| `JobSafety.DrainerLeaseIsDurable` | projects/monolith/agent/routine_jobs.py:189-305 | over every run, direct writes of other components included, a deterministic drainer lease is kept until its own holder or a call naming no owner gives the row up, the sweep finds that its workflow lost the reservation, or the row is retired; time never ends it |
| `JobSafety.RecoveringRunsAreUnambiguous` | projects/monolith/agent/routine_jobs.py:232-253 | over every run in which claims recover their holder first, no holder owns two rows and no claim is refused as ambiguous |
| `JobSafety.ReplayedClaim` | projects/monolith/agent/routine_jobs.py:232-253 | a granted recovering claim can be repeated at any later time: nothing changes, and the same row is handed back exactly when the filters admit it |
| `JobSafety.UnnamedClaimsReplay` | projects/monolith/agent/routine_jobs.py:165-253 | the filters of an unnamed claim admit the row it picked if and only if the kind filter is not the empty list |
| `JobSafety.NamedClaimsReplay` | projects/monolith/agent/routine_jobs.py:155-164 | a granted recovering claim by name hands the row back on repetition if and only if the row of that name passes the kind filters, which the grant ignored; otherwise it is refused |
| `JobSafety.TurnDecides` | projects/monolith/agent/routine_jobs.py:172-210 | between a freshness job and an ordinary one, a preferring claim picks the freshness job exactly when no freshness work ran within the cooldown |
| `JobSafety.FirstInFirstOut` | projects/monolith/agent/routine_jobs.py:172-210 | within a class the oldest due row is claimed first, ties by name in byte order |
| `JobSafety.FreshnessIsRationed` | projects/monolith/agent/routine_jobs.py:172-210 | over every orderly run, a preferring claim takes a freshness job ahead of a due ordinary job only if every earlier freshness claim is more than the cooldown ago |
| `JobSafety.EvidenceExactly` | projects/monolith/agent/routine_jobs.py:172-210 | for every operation and direct write, evidence of recent freshness work is left after it if and only if some row still carries it, read off the table before and the arguments |
| `JobSafety.DeferKeepsEvidenceExactly` | projects/monolith/agent/routine_jobs.py:610-637 | the deferral's case of the above: the evidence is kept if and only if the deferral does not apply, or another row or the row's own last run still carries it |
| `JobSafety.DeferDefeatsRationing` | projects/monolith/agent/routine_jobs.py:610-637 | a concrete table on which a deferral erases that evidence and freshness work is claimed twice within the cooldown |
| `JobSafety.CompletionCanScheduleHeld` | projects/monolith/agent/routine_jobs.py:475-488 | a concrete completion that leaves a held row scheduled |
| `JobSafety.EmptyKindsAreNotReplayed` | projects/monolith/agent/routine_jobs.py:165-253 | a concrete claim with an empty kind list that is granted a job and refused it when repeated |
| `JobSafety.MismatchedNameIsNotReplayed` | projects/monolith/agent/routine_jobs.py:155-252 | a concrete claim by name with the filter of another kind that is granted the job and refused it when repeated |
| `JobCalls.HoldMarksAreExact` | projects/monolith/agent/routine_jobs.py:361-404 | the mark in a summary names exactly the session it was written for |
| `JobCalls.HoldsRepeatExactly` | projects/monolith/agent/routine_jobs.py:330-406 | a guarded hold of a held job changes nothing and succeeds exactly for the session it is held for |
| `JobCalls.RegisterThenDeregister` | projects/monolith/agent/routine_jobs.py:520-589 | registering takes exactly the free, unreserved names, and deregistering gives the table back |
| `JobCalls.PayloadsAreInert` | projects/monolith/agent/routine_jobs.py:640-656 | replacing a payload changes nothing about what is due, owned or held |
| `JobCalls.WaitsUntilTaken` | projects/monolith/agent/routine_jobs.py:428-656 | over every run, direct writes included, a job that a completion, deferral, registration, trigger or stop leaves free waits until exactly the time that call has set: until some operation moves it, it is neither lost nor taken by an unnamed claim before that time |
| `JobCalls.WaitingIsDueExactly` | projects/monolith/agent/routine_jobs.py:172-210 | a job that waits is due for a claim exactly from its time on, if the claim's filters admit it |
| `RoutineJobs.RoutineJobs.FirstDue` | projects/monolith/agent/routine_jobs.py:165-217 | the loop over due rows finds the unique first row of the claim order |
| `RoutineJobs.RoutineJobs.ClaimJob` | projects/monolith/agent/routine_jobs.py:117-319 | the imperative claim equals the specification the safety lemmas are about, outcome and whole table |
| `RoutineJobs.RoutineJobs.CompleteJob` | projects/monolith/agent/routine_jobs.py:428-517 | succeeds exactly on a row that is neither held nor stopped and whose owner is the expected one; touches no other row, no held row and no intent; leaves the row unlocked, stamped and, if it remains and is not held, due exactly from the deferral, or else the interval, on |
| `RoutineJobs.RoutineJobs.HoldJob` | projects/monolith/agent/routine_jobs.py:330-406 | success means the job is held for this session; it fails only on a missing job or when both guards are given; touches no other row and no intent |
| `RoutineJobs.RoutineJobs.DeregisterJob` | projects/monolith/agent/routine_jobs.py:557-589 | success means an open row with the expected owner is gone; touches no other row, no held row and no intent |
| `RoutineJobs.RoutineJobs.TriggerJob` | projects/monolith/agent/routine_jobs.py:592-607 | succeeds exactly on an open row, which from then on is due exactly while no lease that is still good holds it; touches no other row, no held row and no intent |
| `RoutineJobs.RoutineJobs.DeferJob` | projects/monolith/agent/routine_jobs.py:610-637 | succeeds exactly on a row that is neither held nor stopped with the expected owner, which is then free and due exactly from the end of the deferral; touches no other row, no held row and no intent |
| `RoutineJobs.RoutineJobs.UpdateJobPayload` | projects/monolith/agent/routine_jobs.py:640-656 | succeeds exactly on a job with the expected owner; what is due for every claim at every time is as before |
| `RoutineJobs.RoutineJobs.RegisterJob` | projects/monolith/agent/routine_jobs.py:520-554 | succeeds exactly on a free name that is not reserved, and refuses a taken one; the new job is free, not held and due exactly from its first run on; all other rows are as before |
| `RoutineJobs.RoutineJobs.StopUnattemptedJob` | projects/monolith/agent/routine_jobs.py:794-813 | succeeds exactly on a job, which is then unlocked, never due for any claim, closed to completion and deferral and open to a trigger; touches no other row and no intent |
| `RoutineJobs.RoutineJobs.DrainerWorkerIntents` | projects/monolith/agent/routine_jobs.py:664-696 | reads the intents if and only if every metadata row is a valid intent |
| `RoutineJobs.RoutineJobs.ScanSlots` | projects/monolith/agent/routine_jobs.py:757-773 | one pass counts the occupied slots and collects the free ones and the ids to hand out again |
| `RoutineJobs.RoutineJobs.ReserveDrainerWorkers` | projects/monolith/agent/routine_jobs.py:699-791 | compare, check, scan and write as one step equal to the specified reservation; a failure leaves the rows alone |
| `DrainerIntents.WrittenIntentIsValid` | projects/monolith/agent/routine_jobs.py:682-697 | what a reservation writes is accepted by the reader and reads back as the same slot, generation and id |
| `DrainerIntents.SupersededExactly` | projects/monolith/agent/routine_jobs.py:736-755 | an observed id is retired if and only if it is exactly the id of an earlier generation of a current slot; padded, signed, foreign or future look-alikes are not |
| `DrainerIntents.IdentityInjective` | projects/monolith/agent/routine_jobs.py:776-779 | one workflow id stands for one slot and generation |
| `DrainerFleet.ReserveAdvances` | projects/monolith/agent/routine_jobs.py:699-791 | a reservation succeeds if and only if the intents are those observed and the inventory is consistent; it then advances exactly the refilled free slots, and changes nothing otherwise |
| `DrainerFleet.AtMostTwoWorkers` | projects/monolith/factory/orchestration/queues.py:29-104 | under every interleaving of stale reads, reservations, crashes, replays, enqueues and workflow progress, at most two workflows are in an unfinished job loop, or never more than were at the start |
| `DrainerFleet.GenerationsNeverFall` | projects/monolith/agent/routine_jobs.py:774-790 | over every run a slot's generation never falls and its intent never disappears |
| `DrainerFleet.NeverReissued` | projects/monolith/agent/routine_jobs.py:774-790 | over every run an id that a slot has moved past is never its intent again |
| `DrainerFleet.PastGenerationsAreDone` | projects/monolith/agent/routine_jobs.py:752-755 | in every reachable state each earlier generation of each slot is terminal or has left its loop |
| `DrainerFleet.RefillIsComplete` | projects/monolith/agent/routine_jobs.py:757-775 | a reservation fills the observed fleet up to exactly two and never past what is already occupied |
| `DrainerFleet.HandsOutExactly` | projects/monolith/agent/routine_jobs.py:760-791 | the ids handed out are exactly the new ones and the current ones whose workflow is absent, so an id lost in a crash is handed out again unchanged |
| `DrainerFleet.JobsLeaveIntents` | projects/monolith/agent/routine_jobs.py:659-661 | no job operation and no direct write changes, creates or removes an intent |
| `RoutineFence.HoldIsFenced` | projects/monolith/agent/routine_reconciliation.py:343-370 | over every interleaving of job calls, direct writes, refills, the three routes and any other write that spares held rows and receipts, a held job leaves that status only by the stop call or in a step that commits a receipt for it |
| `RoutineFence.DirectIsSparing` | projects/monolith/factory/orchestration/drainer.py:1404-1412 | the direct writes of the drainer, the audit, the document fixer, the fact review and the refill control keep the kind, status, schedule and lock of every held row and hold nothing new |
| `RoutineFence.HeldRowsStayQuiet` | projects/monolith/agent/routine_jobs.py:376-406 | over every run in which no completion schedules the reserved status, every held row is unscheduled and unlocked |
| `RoutineFence.OneDecisionPerAttempt` | projects/monolith/agent/routine_reconciliation.py:386-392 | over every interleaving of the three routes the receipts stay unique per session and turn |
| `RoutineFence.DecidedOnlyOnce` | projects/monolith/agent/routine_reconciliation_models.py:11-16 | no two steps of a run decide the same attempt |
| `RoutineFence.RearmIsRecorded` | projects/monolith/agent/routine_reconciliation.py:450-492 | a route that schedules a job records a rearm of that very job in the same transaction |
| `RoutineFence.RearmedAtMostOnce` | projects/monolith/agent/routine_reconciliation.py:386-492 | over every run an attempt is rearmed at most once: two steps in which routes schedule jobs carry rearm receipts of different attempts |
| `RoutineFence.KeysAreIdempotent` | projects/monolith/agent/routine_reconciliation.py:286-293 | once a key has a receipt every later use of it, on any route, changes nothing: the same request gets the stored result, any other is refused |
| `RoutineFence.RoutesAreDisjoint` | projects/monolith/agent/routine_reconciliation.py:936-981 | no job is eligible for two of the three routes at once, whatever the sessions and the evidence |
| `RoutineFence.HistoryIsProtected` | projects/monolith/agent/routine_reconciliation.py:461-477 | a committed held-job decision left turns, payload, raw input, provenance and review batch as it read them |
| `RoutineFence.ReviewHistoryIsProtected` | projects/monolith/agent/routine_reconciliation.py:653-864 | a committed recomputation left the session, its turns and the payload as it read them |
| `RoutineFence.RawHistoryIsProtected` | projects/monolith/agent/routine_reconciliation.py:1021-1189 | a committed saved extraction left the session, its turns, the payload and the reservations as it read them |
| `RoutineFence.RouteCommits` | projects/monolith/agent/routine_reconciliation.py:386-492 | each route either changes nothing or writes one row and one fresh receipt together, and the row is held no longer |
| `RoutineFence.RoutesLeaveIntents` | projects/monolith/agent/routine_reconciliation.py:286-600 | no route touches a worker intent, so the fleet bound covers them |
| `RecoveryLedger.Ledger.ReconcileHeldJob` | projects/monolith/agent/routine_reconciliation.py:286-600 | the held-job route in place; a refusal changes none of the three tables; an answer under a known key is the stored one and changes nothing; an answer under a new key changed exactly one job row, held no longer, and added exactly one receipt, for an attempt that had none |
| `RecoveryLedger.Ledger.RecoverReviewJob` | projects/monolith/agent/routine_reconciliation.py:653-864 | the same for the recomputation route |
| `RecoveryLedger.Ledger.RecoverCompletedRaw` | projects/monolith/agent/routine_reconciliation.py:1021-1189 | the same for the saved-extraction route |
| `Chunker.FirstCutExactly` | projects/embervm/rootfs/measure_chunks.py:84-105 | a cut is at the first boundary past the minimum, or at the maximum when there is none, said without a scan |
| `Chunker.FindCut` | projects/embervm/rootfs/measure_chunks.py:84-105 | the two masked scans with a running fingerprint find that cut |
| `Chunker.ChunksPartition` | projects/embervm/rootfs/measure_chunks.py:108-152 | the chunks concatenate to the image, all but the last between minimum and maximum, the last non-empty and at most the maximum |
| `Chunker.IterChunkRecords` | projects/embervm/rootfs/measure_chunks.py:108-152 | for every way the reads are split, the streamed records are those of the one-shot chunks of all bytes read; fails exactly on invalid parameters or read size |
| `Chunker.LowBitsAreLocal` | projects/embervm/rootfs/measure_chunks.py:84-105 | the low j bits of the 64-bit rolling fingerprint depend on the last j bytes only |
| `Chunker.BoundaryTestIsLocal` | projects/embervm/rootfs/measure_chunks.py:59-105 | the boundary test with k mask bits looks at no more than the last min(k, 64) scanned bytes |
| `Chunker.SharedSuffixResyncs` | projects/embervm/rootfs/measure_chunks.py:108-152 | images that share a suffix, with a boundary where it starts in both, have the same chunks from there on |
| `Dedup.Measure` | projects/embervm/rootfs/measure_chunks.py:215-298 | the report's totals and attributions balance: every scope's stored bytes, saved bytes and counts are those of the chunk occurrences, and the i-th image result holds the i-th image's own figures and what it adds to each scope after the images before it; fails exactly on invalid parameters or read size |
| `Dedup.MeasureImage` | projects/embervm/rootfs/measure_chunks.py:229-276 | one image's own figures and what it adds to each scope |
| `Dedup.ScopesAreOrdered` | projects/embervm/rootfs/measure_chunks.py:196-298 | global stored bytes are at most account, at most principal, at most logical |
| `Dedup.LogicalIsImageBytes` | projects/embervm/rootfs/measure_chunks.py:215-298 | logical bytes are exactly the bytes of the images |
| `Dedup.StoredIgnoresOrder` | projects/embervm/rootfs/measure_chunks.py:215-298 | with a collision-free digest every scope's dictionary is the same for every order of the images |
| `Dedup.AggregatesIgnoreOrder` | projects/embervm/rootfs/measure_chunks.py:215-298 | every aggregate of the report is the same for every order of the images |
| `Dedup.ReportIsOrdered` | projects/embervm/rootfs/measure_chunks.py:196-298 | the reported scopes order and no scope saves a negative number of bytes |
| `Dedup.AttributionFollowsOrder` | projects/embervm/rootfs/measure_chunks.py:215-298 | per-image attribution does depend on order: of two images with the same content the first is charged for all of it and the second for nothing |
| `PreviewPaths.DirectoriesAreDisjoint` | bazel/tools/previews/publish.py:387-390 | no path lies below the directories of two pull requests |
| `PreviewPaths.BuildFileIsKnown` | bazel/tools/previews/publish.py:605-614 | the name a validated build file is stored under is one the loader knows, and carries its number and commit |
| `PreviewSite.WrittenIsTidy` | bazel/tools/previews/publish.py:729-796 | every run writes an owned state, only known files, no orphans and an index page for each listed preview |
| `PreviewSite.WrittenLoadsExactly` | bazel/tools/previews/publish.py:617-669 | what a run writes is read back as written if and only if the document of the next state, known before the run writes, fits the loader's per-file limit, which the writer does not check; the listing always fits |
| `PreviewSite.OrdinaryWritesLoad` | bazel/tools/previews/publish.py:436-454 | it fits whenever the entries read, the candidate's run id and the time of the run have at most 900 digits for each entry, and the entries written are of this kind again |
| `PreviewLimits.CrowdBlocks` | bazel/tools/previews/publish.py:433-450 | for every page of up to sixteen kilobytes, a concrete state of builds with this page that loads and a run over it, no run id longer than 4300 digits, which succeeds and writes a state that does not load |
| `PreviewSite.KeptExactly` | bazel/tools/previews/publish.py:381-433 | after a run exactly the open, unexpired previews are listed, unchanged, and the chosen candidate |
| `PreviewSite.OthersAreUntouched` | bazel/tools/previews/publish.py:381-433 | publishing or expiring some pull requests leaves every other one's files identical and nothing of the expired ones |
| `PreviewSite.DirectoryExactly` | bazel/tools/previews/publish.py:404-433 | the candidate's directory holds exactly its build and its forwarding page |
| `PreviewSite.SameCommitIsImmutable` | bazel/tools/previews/publish.py:411-421 | publishing a listed commit again changes none of its files |
| `PreviewSite.UndisturbedDeploys` | bazel/tools/previews/publish.py:812-841 | if no pull request changed, the deployment guard passes exactly while the branch is at the expected commit and no published preview has expired |
| `PreviewPublisher.LoadState` | bazel/tools/previews/publish.py:617-669 | the file-by-file loader accepts exactly the trees the specification accepts |
| `PreviewPublisher.Aggregate.Reconcile` | bazel/tools/previews/publish.py:381-392 | the nested deletion loops remove exactly the gone previews and their directories, and fail exactly when a pull request is not trusted |
| `PreviewPublisher.Aggregate.AddPreview` | bazel/tools/previews/publish.py:404-433 | replaces one directory, or refuses exactly an invalid identity, a changed build of a listed commit or a bad name |
| `PreviewPublisher.Aggregate.FinishSite` | bazel/tools/previews/publish.py:436-454 | writes the three generated files and accepts exactly an aggregate within the site limits |
| `PreviewPublisher.Aggregate.Run` | bazel/tools/previews/publish.py:782-795 | the whole run equals the specified one |
| `PreviewChain.MovesExactly` | bazel/tools/previews/publish.py:704-716 | a fast-forward update succeeds if and only if nobody moved the branch since the publisher read it |
| `PreviewChain.NoLostUpdate` | bazel/tools/previews/publish.py:678-716 | over every interleaving of publishers, every head the branch ever had is an ancestor of every later head |
| `PreviewChain.EachHeadExtendsTheLast` | bazel/tools/previews/publish.py:678-796 | every new head was computed by one run from exactly the tree it replaced |
| `PreviewChain.OnlyTheHeadDeploys` | bazel/tools/previews/publish.py:812-841 | over every interleaving a deployment passes only for the commit that is the current head, with no listed preview expired |
| `PreviewChain.DeploymentsNeverGoBack` | bazel/tools/previews/publish.py:812-841 | no superseded state is deployed: what is deployed later descends from everything deployed before |
| `PreviewChain.EveryHeadLoads` | bazel/tools/previews/publish.py:617-669 | in every run the branch head can be loaded by the next publisher, given that each run that commits adds an ordinary run id and time |
| `Locks.LockTable.Acquire` | projects/monolith/agent/locks.py:28-50 | takes a free or lapsed key and refuses a live one |
| `Locks.LockTable.Extend` | projects/monolith/agent/locks.py:53-67 | moves the expiry of the row with this id, if any |
| `Locks.LockTable.Release` | projects/monolith/agent/locks.py:70-76 | deletes the row with this id, if any |
| `Locks.LockTable.ListActive` | projects/monolith/agent/locks.py:79-95 | exactly the live matching rows, each once, soonest to lapse first |
| `Locks.TenuresNeverOverlap` | projects/monolith/agent/locks.py:28-76 | over every history, at no time may two holders of one key both rely on it |
| `Locks.DeadIdsStayDead` | projects/monolith/agent/locks.py:53-76 | once an id is stolen or released it extends and releases nothing, ever after |
| `Locks.PromisesAreKept` | projects/monolith/agent/locks.py:28-67 | a holder keeps its lock for as long as it was last promised, unless it releases it |
| `Locks.FilterIsPrefixExactly` | projects/monolith/agent/locks.py:79-90 | the key filter is a prefix test for every key if and only if the prefix has no percent sign, underscore or backslash |
| `Locks.UnderscoreIsAWildcard` | projects/monolith/agent/locks.py:86-86 | a concrete key that a prefix with an underscore lists although it does not start with it |
| `Pairwise.StoredIsSymmetric` | projects/model-bench/bench/pairwise.py:157-187 | neither the coin nor the order of the two candidates changes the stored verdict |
| `Pairwise.VerdictExactly` | projects/model-bench/bench/pairwise.py:182-187 | whatever the judge says, the verdict read back is the deserved one, if and only if the digests differ, the judge is shown the same text twice, or both diffs are one model's |
| `Pairwise.CollisionNamesTheFirst` | projects/model-bench/bench/pairwise.py:183-186 | a concrete pair with one digest whose second diff deserves to win and whose first is named |
| `Pairwise.PositionBiasOnlyTies` | projects/model-bench/bench/pairwise.py:170-186 | a judge that always names the same position only produces ties |
| `Pairwise.SameKeySameVerdict` | projects/model-bench/bench/pairwise.py:137-142 | pairs that share a cache key have the same verdict |
| `Pairwise.PickJudge` | projects/model-bench/bench/pairwise.py:77-96 | never a model of the pair; the preferred judge when it is independent; none exactly when neither judge is |
| `Pairwise.NoSelfJudging` | projects/model-bench/bench/pairwise.py:215-235 | in every list of verdicts the judge is neither model and the winner is one of them or nobody |
| `Pairwise.TasksExactly` | projects/model-bench/bench/pairwise.py:208-215 | tasks are judged in order, each once, exactly those with a non-blank diff |
| `Pairwise.EveryPairMeets` | projects/model-bench/bench/pairwise.py:216-216 | every two candidates of a task are paired |
| `Pairwise.VerdictCache.JudgePair` | projects/model-bench/bench/pairwise.py:157-187 | the verdict is the deserved one for either coin and a warm, cold or absent cache, and the cache stays faithful |
| `Pairwise.VerdictCache.JudgeAll` | projects/model-bench/bench/pairwise.py:190-236 | every verdict is the deserved one of two candidates of its task by the judge chosen for them, whatever the cap; while no task exceeds the cap, verdicts and skip count are a function of the candidates alone: neither cache nor random numbers matter |
| `Pairwise.Tally` | projects/model-bench/bench/pairwise.py:248-260 | each model's wins are the prior and its own points, each pair's games its meetings, and all wins sum to the prior mass and one per verdict |
| `Utf8.DecodeOfCut` | tools/session_collector/render.py:49-49 | decoding the first bytes of an encoded text, ignoring errors, gives its whole characters that fit |
| `Utf8.RoundTrip` | tools/session_collector/render.py:44-49 | decoding an encoded text gives it back |
| `Render.CapKeepsLongest` | tools/session_collector/render.py:43-50 | a text over the limit is cut to the longest run of whole characters that leaves room for the mark; any other is untouched |
| `Render.CapBoundExactly` | tools/session_collector/render.py:43-50 | the capped text is within the limit if and only if the text was or the limit is at least 17 bytes |
| `Render.RenderTurn` | tools/session_collector/render.py:130-147 | a result is withheld exactly when the last tool call before it is sensitive and unanswered; the cut flag tells exactly whether a block was cut |
| `Render.FlagIsWritten` | tools/session_collector/render.py:174-175 | a document marked truncated contains its flag, so the final repair never applies |
| `Render.Assemble` | tools/session_collector/render.py:149-176 | flag returned equals flag in the header and is set exactly when a fragment or the document was too large; unmarked documents are complete; a marked one shows all turns, or the first three and last five, or these capped; the limit holds whenever header, separators and 64 bytes per remaining turn fit |
| `Render.LimitExactly` | tools/session_collector/render.py:149-176 | the document of every session of n turns is within the limit, whatever the turns say, if and only if header, separators and 64 bytes per remaining turn fit; for every redactor that puts nothing in the place of nothing |
| `Render.MarkedIsShorter` | tools/session_collector/render.py:76-98 | the header marked truncated is one byte shorter than the clear one, so the condition above is on every header |
| `Render.SoberSessionFits` | tools/session_collector/render.py:101-176 | every session whose metadata has no control characters that JSON spells out, and whose provider, version and counts have at most ten thousand characters each, is rendered within the limit: the caps on its texts leave the turns room |
| `Render.ControlCharactersOvershoot` | tools/session_collector/render.py:53-127 | nine metadata texts of control characters give a document over the limit, whatever the turns |
| `Render.RenderSession` | tools/session_collector/render.py:101-176 | the same for a whole session, and within the limit for sober metadata |
| `Collector.StateFile.CheckEligible` | tools/session_collector/state.py:56-77 | eligibility and the in-place reset of the failure count on growth |
| `Collector.StateFile.Forget` | tools/session_collector/state.py:80-89 | forgets one transcript and nothing else |
| `Collector.StateFile.Collect` | tools/session_collector/collector.py:270-395 | one run, candidate by candidate, equals the specified run on disk state and record; each try has an outcome and a size of its own |
| `Collector.RunIsPathStep` | tools/session_collector/collector.py:270-401 | whatever else a run does, it leaves a transcript, notes its growth, or, if it was eligible, records a sequence of outcomes for it, at most one for each try meant and none below the size it was picked at, and leaves the entry that this sequence adds up to |
| `Collector.TriesExactly` | tools/session_collector/collector.py:212-276 | a run means to try a transcript as often as it finds it if it is eligible, and not at all otherwise |
| `Collector.RetriesBoundedExactly` | tools/session_collector/collector.py:270-401 | after any number of safe runs on a transcript that never shrinks, the next run keeps the failures in a row at one size within three, for every outcome and growth of each of its tries, if and only if it may upload nothing, does not pick the transcript, or failures standing and tries meant are three at most |
| `Collector.UploadsOnceExactly` | tools/session_collector/collector.py:270-401 | a run uploads a transcript at most once, for every outcome of each of its tries, if and only if it means to try it at most once or may attempt at most one upload |
| `Collector.RetriesAreBounded` | tools/session_collector/collector.py:355-401 | over every sequence of runs that each find the transcript, which never shrinks, at most once, at most three failures are recorded at one size and uploads strictly grow |
| `Collector.TotalBoundedExactly` | tools/session_collector/collector.py:212-401 | all failures at one size of a transcript that never shrinks stay within three over every sequence of runs that find it at most k times, if and only if k is at most one |
| `Collector.FoundTwiceNeverStops` | tools/session_collector/collector.py:356-401 | for every m, m safe runs that find a transcript twice, upload it and then fail it, and so record m failures at one size |
| `Collector.ParkedUntilGrowth` | tools/session_collector/state.py:70-77 | a transcript with three failures, uploaded or skipped is a candidate again only after it has grown |
| `Collector.FoundTwiceFailsAgain` | tools/session_collector/collector.py:212-215 | a concrete run that is not safe: a transcript with two failures, found twice through a link, fails a fourth time in a row |

## Left out

- SQL text, dialect differences, sessions and row locking: each database call is one atomic step.
- `list_jobs` and the other read-only listings of jobs, which change nothing that a theorem here is about.
- The preview modes of the recovery routes, `recovered_review_original_outcome`, the evidence
  document kept beside a receipt, creation times, and the finalising hook of a transaction.
- Direct writes to the jobs table: those of the drainer's sweep, the audit, the document fixer, the
  fact review and the refill control are modelled. Any other is assumed to spare held rows and
  receipts, and is covered by the fence theorems only.
- The calls of the recovery routes into the factory and knowledge code: an arbitrary effect on the
  other records, which is known to leave jobs and receipts alone. Follow-up jobs that applying an
  extraction may register inside the route's own transaction are not part of this model.
- Workflow statuses outside the known terminal ones, PENDING and ENQUEUED do not occur in the
  fleet model, and workflow rows are never deleted.
- Bound-checking of times and sizes to machine integers: the source is Python, whose integers are
  unbounded; the rolling fingerprint's 64-bit reduction is modelled.
- The gear table's constants: the chunker is proved for every gear table.
- Reading and validating a build archive and its HTML: its guarantees are the precondition
  `ValidAssets`. The HTTP client, the provenance checks of a workflow run and the pull-request
  comment are not modelled.
- Git objects: a tree is its map from paths to contents, hashes are not modelled, and a directory
  that collides with a file, which the host would refuse, is not excluded.
- The state document of the preview branch is a value of the shape the publisher writes, with its
  exact size in bytes; parsing of arbitrary JSON is not modelled.
- Parsing a judge's reply: a reply is one of A, B or TIE.
- Pairwise.VerdictCache.JudgeAll: does not say which pairs are judged once the pair cap of a task
  binds, because the sample then depends on how many coins were drawn, and so on the cache.
- Pairwise.Tally: the iteration and the bootstrap that follow the tally are numerical methods and
  are not modelled; the tally is over exact reals.
- Render.RenderSession: redaction and the matching of sensitive commands are arbitrary functions,
  and the number of redactions is given.
- Render.Assemble: its own limit clause goes one way; that the condition is exact over the turns
  is Render.LimitExactly.
- Collector.RetriesBoundedExactly: assumes that the size of a transcript is stable during one try. A
  state file that cannot be read is taken as empty (tools/session_collector/state.py:30-35), which
  starts all counts again; the model has no such step. Dry runs and the usage backfill are not
  modelled.
- PreviewChain.OnlyTheHeadDeploys: the guard and the deployment are one step; what happens to the
  branch between the guard's answer and the hosting of the files is not modelled.
- Locks.TenuresNeverOverlap: operations take effect one at a time under a clock that never runs
  back; Postgres transactions that start before and commit after each other are not modelled.
