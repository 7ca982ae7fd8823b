# Comment-Project, modelled in Dafny

The project models the parts of the comment platform in which several processes change shared state, and proves what
holds of all their runs.

* **The asynchronous counters.** A like or a comment changes a fact row in MySQL, adds a delta to a Redis hash, and
  travels through a claimed batch to `post_counter`. `CounterRedis` and `CounterDb` are the two stores, as values and as
  classes whose methods are the Lua scripts and SQL statements. `CounterPipeline` interleaves them as single steps with
  crashes, late inserts and rollbacks. `CounterLedger` proves exactly-once and conservation, `ClampFold` what the
  `GREATEST(x + d, 0)` clamp computes, `CounterOrder` when it never clips, `CounterReconcile` when overwriting the counter is
  safe, `CounterTiming` when a delta is claimed, `CounterWakeup` when a change can be stranded, `CounterAmbiguity` what
  commits that report errors do. `CounterTask` has comment-task's loops and shows that they are runs; `CounterRecovery` and
  `CounterRepair` prove what the scan and the apply loop repair. `CounterService` has the request side. `LikeRequests` adds
  the lock, the status cache and the retries of a like, and joins them with the pipeline end to end; `LikeRepository` has the
  calls themselves. `Comments` has comment rows and their transactions, and `CommentCount` joins these with the pipeline.
* **MySQL to Elasticsearch.** `EsVersions` is the version arithmetic, `EsSync` the two concurrent writers with the
  `external_gte` check, `EsTask` their loops.
* **The rate limiter.** `RateLimit` has the script and its refinement of ideal buckets. Tokens are real numbers.
* **Refresh tokens and ids.** `Sessions` and `Snowflake`.

`Tally` adds up maps, `Wrappers` has values that may be missing. `dafny verify dfyconfig.toml` checks everything.

Time, network failures and database errors are parameters or nondeterministic steps; hashes and secrets are opaque values.
Post, student, comment and batch ids are integers that are only compared.

## Where the code is weaker than its comments

* The reconcile guard sees only the sum of the processing deltas. A like that is applied but not cleared cancels an unlike
  that is claimed but not inserted, and the overwrite is then wrong until the next one (`GuardAloneIsNotSafe`;
  `ReconcileSafeIff` is the exact condition). The guard's reads, the count and the overwrite are also separate statements:
  `LateOverwriteIff` is the exact condition for all runs in between, `LateOverwriteIsSafe` one that can be looked up,
  `OverwriteRace` an instance that fails.
* A like and an unlike that meet in Redis leave a claimed batch with delta zero (`OppositesLeaveZero`). No run gets rid of it
  (`MalformedStays`), and a recovery scan stops where its sample lists it (`ScanMeans`). Whatever else
  goes on, a batch that lost its insert is recovered exactly if some sample lists it before every batch malformed by then
  (`RecoveredIff`). A sample is the whole set while that
  is no larger than 100, so a batch behind a malformed one may wait for ever.
* `markCounterBatchFailed` has no status guard. With one apply goroutine, and errors that mean a rollback, it does no harm
  (`MarkKeepsApplied`); with commits that report an error, `AddedTwiceIff` says exactly when a delta is added twice.
* The 30 s back-off lets a later batch overtake an earlier one, and the clamp can then clip (`BackoffReorders`).
* The outbox row and the wake-up do not always save a change that arrives during the clean-up of a clean post
  (`StrandedIff` for exactly when, `EarlyWakeStrands` for both ways).
* A like that cannot be enqueued still answers success, on purpose, and then the counter stays behind
  (`FineLeavesBehindIff`).
* Comment deltas have no lock, and a direct upsert may overtake pending ones; `CommentCountIsExactIff` says when the count is
  exact all the same.
* A delete that read a comment before a racing reject takes it out of the count a second time
  (`RacingDeleteCountsTwice`, and `DeleteIsExactOnSnapshotsIff` for exactly when).
* The counter and the two hashes behind a displayed count are read one after the other (`ThreeReadsIff` and
  `SplitReadIff` for what that does).
* The id generator does not look for a clock that steps back. `NextIdIsLargerIff` says when the next id is larger,
  `SomeIdRepeatsIff` when ids repeat, and `ReturningClockRepeatsAnId` is an instance.

The version encoding assumes that a binlog file is far shorter than 10^12, as es_sync.go:42 says; `ComparableIff` is exactly
what it needs.

## Model

The main results come first, then the lemmas that carry or instantiate them or say what one operation promises, then the operations themselves.

| member | source | states |
|---|---|---|
| `CounterLedger.ExactlyOnce` | comment-task/internal/task/post_like_counter.go:604-715 | in every run the applied batches are distinct, were not applied before, and are exactly those that became success |
| `CounterLedger.Conservation` | comment-task/internal/task/post_like_counter.go:555-689 | over every run counter + pending + unapplied + in flight - facts moves only by clips, dropped deltas and reconciliations, each accounted for |
| `CounterLedger.CounterIsFold` | comment-task/internal/task/post_like_counter.go:654-689 | between reconciliations the counter is the closed form of its updates in the order they were applied |
| `CounterLedger.SnapshotExcess` | comment-service/internal/data/post_counter_delta.go:28-50 | counter + pending + processing_sum exceeds the conserved sum by exactly the batches applied but not cleared |
| `CounterOrder.OrderedCounterIsExact` | comment-task/internal/task/post_like_counter.go:604-689 | from a settled state the counter is the active rows minus pending, unapplied and in-flight deltas, also across reconciliations of cleared posts with nothing in flight |
| `CounterOrder.OrderedRunNeverClips` | comment-task/internal/task/post_like_counter.go:604-689 | no ordered run clips, whatever was on its way at its start |
| `LikeRequests.LikeCountIsExact` | comment-service/internal/data/student.go:109-230 | end to end: from a settled state, over every interleaving of requests, flushes, retries, crashes and safe reconciliations with locks held and batches in order, post_counter is the number of likers minus what is on its way |
| `CommentCount.CommentCountIsExactIff` | comment-service/internal/data/post_comment_counter.go:45-67 | end to end for comments, with enqueues in any order and direct upserts: the counter is the visible comments minus what is on its way plus what was clipped, and exact if and only if no update would have taken it below zero |
| `CounterReconcile.LateOverwriteIff` | comment-task/internal/task/post_like_counter.go:773-839 | the guard's two Redis reads, the count and the overwrite as separate statements with any runs in between: the drift afterwards, and that it is zero if and only if flips before the count balance what is uncleared, applied and lost |
| `CounterReconcile.LateOverwriteIsSafe` | comment-task/internal/task/post_like_counter.go:773-839 | from a guarded and cleared state they are safe if no row of the post flips before the count and its counter is not updated before the overwrite |
| `CounterReconcile.ReconcileSafeIff` | comment-task/internal/task/post_like_counter.go:773-839 | under the guard an overwrite leaves drift zero if and only if what is in flight equals what is applied but uncleared |
| `CounterReconcile.ReconcileSafe` | comment-task/internal/task/post_like_counter.go:773-839 | with every success batch cleared and nothing in flight it is exact, keeps drift zero, is idempotent and leaves other posts alone |
| `CounterReconcile.GuardAloneIsNotSafe` | comment-task/internal/task/post_like_counter.go:784-788 | in that state the guard holds, nothing is in flight, and the overwrite leaves a drift of minus one until the next one |
| `CounterRepair.RecoveredIff` | comment-task/internal/task/post_like_counter.go:517-602 | over any number of sweeps, whatever fails in them, with any requests, claims, inserts and crashes in between, a claimed batch without a row gets one if and only if its claimer inserts it after all or some sample lists it before every batch malformed in the state of that sweep |
| `CounterRepair.SweepRepairsIff` | comment-task/internal/task/post_like_counter.go:517-652 | for every sample and every selection that does not miss the batch, a sweep in which nothing fails applies and clears it if and only if it is well formed and it was inserted before or no malformed batch precedes it in the sample |
| `CounterRepair.ScanMeans` | comment-task/internal/task/post_like_counter.go:517-602 | for every sample the scan does to each id before the first malformed one what recovering it alone does, touches nothing else, and fails exactly if some id is malformed |
| `CounterTask.FlushMeans` | comment-task/internal/task/post_like_counter.go:367-484 | a flush in which nothing fails: once the last change is 5 s or the first 60 s old, a pending delta becomes a pending batch in both stores and leaves the hash; before, only the schedule is set, to the earlier time |
| `CounterRecovery.BooksHold` | comment-task/internal/task/post_like_counter.go:90-153 | in every run from empty stores processing_sum adds up processing_batch, processing_batches lists its fields, and every unfinished row has its field with the same post and delta |
| `CounterRecovery.MalformedStays` | comment-task/internal/task/post_like_counter.go:887-901 | a zero-delta batch stays claimed and unapplied in every run |
| `CounterRecovery.OppositesLeaveZero` | comment-task/internal/task/post_like_counter.go:90-128 | from every state with nothing pending a change and its opposite that meet in Redis end in an outstanding batch with delta zero |
| `CounterAmbiguity.AddedTwiceIff` | comment-task/internal/task/post_like_counter.go:654-715 | with commits that report errors, in every run a batch is added twice if and only if a failure update hits it while it is applied and a later turn applies it again; each unheard commit leads to such an update, or its mark is given up or still due |
| `CounterWakeup.StrandedIff` | comment-task/internal/task/post_like_counter.go:293-320 | over every interleaving of changes, outbox rows, wake-ups, rescans, claims and any number of clean-ups: a change is stranded if and only if it is not claimed, an SREM and no change came after it, every message is over, and no ZADD ran after the last ZREM |
| `CounterTiming.ClaimTakesIff` | comment-task/internal/task/post_like_counter.go:401-457 | after every history a claim takes the delta if and only if the post changed since its last claim and 5 s or 60 s have passed |
| `CounterTiming.ClaimIsNeverEarly` | comment-task/internal/task/post_like_counter.go:90-128 | no claim takes a delta before 5 s after the last change or 60 s after dirty_since, however stale its schedule entry |
| `CounterTiming.ClaimableAfterMaxDelay` | comment-task/internal/task/post_like_counter.go:924-931 | a post that is touched and tried again and again without being claimed can be claimed 60 s after its first unclaimed change |
| `CounterTiming.AtomicSchedulingStrandsNothing` | comment-task/internal/task/post_like_counter.go:269-320 | with scheduling calls atomic the dirty set is the set of posts with a pending delta after every history |
| `CounterService.DisplayIsExact` | comment-service/internal/data/post_like_counter.go:104-120 | in an ordered run a reader sees the active rows minus what is in flight plus what is applied but not cleared, never below zero |
| `CounterService.ThreeReadsIff` | comment-service/internal/data/post_counter_delta.go:28-50 | over any runs between the read of the counter and of the two hashes the shown sum is off, against the last state and against the first, by exactly what moved in between, and exact if and only if that is zero |
| `ClampFold.FoldIsBestOf` | comment-task/internal/task/post_like_counter.go:676-682 | any order of clamped updates from x >= 0 gives max(x + sum, largest suffix sum) |
| `ClampFold.FoldIsExactIff` | comment-task/internal/task/post_like_counter.go:676-682 | the clamp changes nothing if and only if no prefix of the updates goes below zero |
| `LikeRequests.LikesAgree` | comment-service/internal/data/student.go:109-230 | over any interleaving with stale caches, lost locks and retries, recorded + dropped + in-flight deltas equal the change of active rows |
| `LikeRequests.OneDeltaPerFlip` | comment-service/internal/data/student.go:237-274 | a call flips its row at most once over all its attempts, and lets go of one delta exactly when it did |
| `LikeRepository.CallAnswers` | comment-service/internal/data/student.go:109-274 | which answer a like or unlike gets, each if and only if, from the replies of the lock, the cache entry and the five attempts |
| `LikeRepository.CallLeaves` | comment-service/internal/data/student.go:109-274 | what a call that goes on and commits leaves in rows, cache and queue; NotLiked exactly for an unlike that changed no row, so a second like is fine and changes nothing |
| `Comments.CommentsAgree` | comment-service/internal/data/operator.go:95-190 | over every sequence of create, delete, approve, reject, reply and withdraw the emitted deltas sum to the change of the fact count |
| `Comments.RunIsLater` | comment-service/internal/data/operator.go:95-190 | an audit decision is final, a deleted row is frozen, a reply is given and withdrawn once, and visibility ends exactly by deletion or rejection |
| `Comments.DeleteIsExactOnSnapshotsIff` | comment-service/internal/data/student.go:380-425 | a delete that read an older snapshot emits the right delta if and only if no reject hid the comment meanwhile |
| `EsSync.Converges` | comment-task/internal/task/comment.go:143-166 | whatever the order, duplicates, crashes and interleaving, with or without reads before writes, a drained document is that of the highest version |
| `EsSync.NoSilentLoss` | comment-task/internal/task/comment.go:63-92 | after any run every row of a committed message is dominated by the stored document, in es_sync_retry or in es_sync_dlq, and every committed poison message is in es_sync_dlq |
| `EsSync.TombstoneHolds` | comment-task/internal/task/comment.go:143-166 | a tombstone once taken in is never overwritten by an older event |
| `EsSync.AtMostThreeFailures` | comment-task/internal/task/es_sync.go:531-573 | a retry row gets at most three recorded failures, with 3 - retry_count as the measure |
| `EsSync.DrainedRunsAgree` | comment-task/internal/task/es_sync.go:246-266 | any two drained runs of one log, each with a read before every write, some or none, end with the same document: removing the skip changes no final document |
| `EsSync.SkippedWriteIsVoid` | comment-task/internal/task/es_sync.go:251-257 | a write that the read before it skips would change no document after any run of the other writer either |
| `EsTask.ConsumeLosesNothing` | comment-task/internal/task/comment.go:63-92 | so the consumer loop loses nothing it committed |
| `EsTask.RetriedMeans` | comment-task/internal/task/es_sync.go:531-573 | a retried row is deleted on success, counted up on its first two failures, dead-lettered with the third, and left when its outcome cannot be recorded |
| `EsTask.ConsumeStopsIff` | comment-task/internal/task/comment.go:63-92 | the consumer takes and commits every message in turn until the log ends, a message stops it or a commit fails |
| `EsVersions.ComparableIff` | comment-task/internal/task/es_sync.go:371-408 | for all accepted binlog versions the two comparisons agree if and only if they are of one file or the positions differ by less than the file numbers times 10^12 |
| `EsVersions.GuardIsExact` | comment-task/internal/task/es_sync.go:392-408 | the overflow guard accepts if and only if seq * 10^12 + pos fits in an int64 |
| `EsVersions.NumberedFilesOrder` | comment-task/internal/task/es_sync.go:371-408 | of two files of one base with equally many digits the newer version has the later name, within one file the larger position, and the external versions follow below 10^12 |
| `EsVersions.DecimalValueOrders` | comment-task/internal/task/es_sync.go:383-390 | of two numbers with equally many digits the larger is the later in string order, and different strings have different values |
| `RateLimit.LazyRefinesIdeal` | comment-student/internal/ratelimit/limiter.go:21-66 | lazy refill, silent denials and expiry decide every sequence of calls as buckets refilled every millisecond for ever do |
| `RateLimit.EveryWindowBound` | comment-student/internal/ratelimit/limiter.go:21-66 | so in every window of every run of calls from an empty store, whatever was called before |
| `RateLimit.RetryAfterIsLeast` | comment-student/internal/ratelimit/limiter.go:47-53 | the wait is the least number of ms after which an otherwise unused bucket admits a request, if and only if it can hold a token |
| `Sessions.FamiliesAreChains` | comment-service/internal/data/auth.go:104-137 | the tokens of one login form a chain linked by replaced_by in which all but the last are revoked, all of one user and role |
| `Sessions.EveryTokenDescends` | comment-service/internal/data/auth.go:92-137 | every token stands in exactly one place of one chain |
| `Sessions.AtMostOneSuccessor` | comment-service/internal/biz/auth.go:139-167 | a token gets at most one successor, and none once revoked, although refresh checks before the locked transaction |
| `Sessions.LogoutIsFinal` | comment-service/internal/data/auth.go:139-150 | a logout with a token's own secret and role revokes it for every later run, in which no refresh of it passes or rotates, and any other logout leaves it |
| `Snowflake.IdsIncrease` | comment-service/pkg/snowflake/snowflake.go:47-77 | with a clock that does not step back any later call gets a larger nonnegative id, also across wrapped sequences |
| `Snowflake.SomeIdRepeatsIff` | comment-service/pkg/snowflake/snowflake.go:44-77 | over any number of calls of a new node, whatever its clock does, some id repeats if and only if two calls open the same millisecond |
| `Snowflake.NextIdIsLargerIff` | comment-service/pkg/snowflake/snowflake.go:51-66 | the next id is larger if and only if the clock has not stepped back behind the last one |
| `ClampFold.FoldIsTotalPlusClips` | comment-task/internal/task/post_like_counter.go:676-682 | the result is never negative, never below the true sum, and exceeds it by exactly what was clipped |
| `CounterPipeline.RunInv` | comment-task/internal/task/post_like_counter.go:424-715 | so does every run, however its steps interleave |
| `CounterRecovery.RecoveredRowsMatch` | comment-task/internal/task/post_like_counter.go:555-602 | the branch of recovery that reports a row differing from Redis is unreachable |
| `CounterLedger.MarkKeepsApplied` | comment-task/internal/task/post_like_counter.go:604-652 | with one apply goroutine the unguarded failure update never hits an applied batch |
| `CounterReconcile.OverwriteRace` | comment-task/internal/task/post_like_counter.go:807-839 | an instance: a like recorded between the guard and the count is counted twice |
| `CounterRecovery.AmbiguousCommitAppliesTwice` | comment-task/internal/task/post_like_counter.go:654-709 | an instance: a commit that reports an error is applied a second time after the back-off |
| `CounterRecovery.BackoffReorders` | comment-task/internal/task/post_like_counter.go:633-637 | a rolled-back batch is overtaken by the next one, which clips by exactly what it takes the counter below zero |
| `CounterTiming.RunPendingIsDirty` | comment-task/internal/task/post_like_counter.go:293-320 | in every interleaving of single commands a post has a dirty_at time exactly while it has a pending delta, and is in the dirty set only then |
| `CounterTiming.RunTracks` | comment-task/internal/task/post_like_counter.go:293-320 | with scheduling calls atomic, dirty_at and dirty_since are the last and first change since the last claim |
| `CounterTask.FlushIsRun` | comment-task/internal/task/post_like_counter.go:367-484 | a flush is a run of the step system |
| `CounterTask.RecoveryIsRun` | comment-task/internal/task/post_like_counter.go:517-602 | a recovery scan is a run of the step system |
| `CounterTask.ApplyLoopIsRun` | comment-task/internal/task/post_like_counter.go:604-652 | the apply loop over a selection is a run that leaves the worker idle |
| `CounterService.RecordIsStep` | comment-service/internal/data/post_comment_counter.go:45-67 | recording a change in flight is the enqueue, the direct upsert or the loss step of the pipeline |
| `LikeRequests.LockedFlipIsAlone` | comment-service/internal/data/student.go:109-230 | then no other delta of the same student and post is in flight when a row flips |
| `LikeRequests.LiftRefines` | comment-service/internal/data/student.go:122-162 | every request step is a run of the pipeline with the same effect on the facts |
| `LikeRequests.ActAdvances` | comment-service/internal/data/student.go:109-230 | a locked and recorded request step is an ordered pipeline step |
| `LikeRepository.WriteAnswerMeans` | comment-service/internal/data/student.go:237-274 | busy if and only if all five attempts conflict and all pauses are sat out; success if and only if an attempt commits after conflicts alone |
| `LikeRepository.CallMeans` | comment-service/internal/data/student.go:109-230 | the number of likers moves by one exactly if the call commits a statement that changes its row, the delta is recorded exactly if the enqueue works too, only the caller's own like can change, an error before the commit changes nothing, and without a stale cache hit a done call leaves the student as asked |
| `LikeRepository.CallIsRun` | comment-service/internal/data/student.go:109-230 | an undisturbed call is a run of the request machine, whatever its lock, cache, database and queue answer |
| `Comments.DeltaIsPipelineFlip` | comment-service/internal/data/post_comment_counter.go:45-67 | a comment's delta is the flip of that comment in the counter pipeline |
| `Comments.RejectIsExactOnSnapshots` | comment-service/internal/data/operator.go:131-190 | a reject that read an older snapshot still emits the right delta |
| `Comments.RacingDeleteCountsTwice` | comment-service/internal/data/tutor.go:318-361 | a reject inside that window makes the two deltas -2 for one comment |
| `EsVersions.SeqOfNumberedFile` | comment-task/internal/task/es_sync.go:383-390 | the sequence number of base.digits is the decimal value of the digits |
| `EsVersions.EncodingOrders` | comment-task/internal/task/es_sync.go:392-408 | below 10^12 the encoding preserves and reflects the order of (file number, position) |
| `EsVersions.BinlogsAreComparable` | comment-task/internal/task/es_sync.go:371-408 | for binlog versions of one server below 10^12 the two comparisons agree |
| `EsVersions.OffsetsAreComparable` | comment-task/internal/task/es_sync.go:358-398 | so they do for the offsets of one Kafka partition |
| `EsSync.BinlogIsGood` | comment-task/internal/task/es_sync.go:358-408 | a log of such binlog versions satisfies everything the sync theorems assume |
| `EsTask.ConsumeIsRun` | comment-task/internal/task/comment.go:63-92 | the consumer loop is a run of the step system, whichever of its calls fail |
| `EsTask.RetriesAreRun` | comment-task/internal/task/es_sync.go:513-573 | the retry loop over a selection is a run |
| `RateLimit.LevelAdvances` | comment-student/internal/ratelimit/limiter.go:29-44 | an unused bucket refills the same way whether or not its key expires |
| `RateLimit.CallLevels` | comment-student/internal/ratelimit/limiter.go:46-64 | a denied call changes no bucket and an admitted one takes one token from every listed bucket and no other |
| `RateLimit.CallValid` | comment-student/internal/ratelimit/limiter.go:56-64 | stored tokens stay between zero and the capacity |
| `RateLimit.KeysAreInjective` | comment-student/internal/ratelimit/limiter.go:214-274 | buckets share a key only if dimension, id and path agree after sanitizing |
| `Sessions.RefreshIsRun` | comment-service/internal/biz/auth.go:139-167 | an undisturbed refresh is a check and a rotation of the state machine |
| `Sessions.SplitUndoesJoin` | comment-service/internal/biz/auth.go:269-275 | a token splits into id and secret if and only if it is the two nonempty dotless parts joined by a dot |
| `Snowflake.PackedBits` | comment-service/pkg/snowflake/snowflake.go:70-77 | on 64-bit words the three fields do not overlap and are read back by shifts and masks |
| `Snowflake.PackDecodes` | comment-service/pkg/snowflake/snowflake.go:70-77 | an id in range is a nonnegative int64 and decodes to time, worker and sequence |
| `Snowflake.PackOrders` | comment-service/pkg/snowflake/snowflake.go:70-77 | ids of a worker order as (time, sequence) does, both ways |
| `Snowflake.ReturningClockRepeatsAnId` | comment-service/pkg/snowflake/snowflake.go:63-66 | an instance: a clock that leaves a millisecond and comes back makes the generator issue an id twice |
| `CounterRepair.SweepIsRun` | comment-task/internal/task/post_like_counter.go:517-652 | a scan and an apply loop are a run of the step system |
| `CounterWakeup.EarlyWakeStrands` | comment-service/internal/data/post_counter_dirty_outbox.go:27-36 | both ways of stranding happen: the outbox insert fails, or the wake-up is over before the last ZREM |
| `CounterWakeup.LateWakeRescues` | comment-task/internal/task/post_like_counter.go:191-210 | a wake-up that is handled after the clean-up puts the post back on the schedule |
| `CounterService.SplitReadIff` | comment-service/internal/data/post_counter_delta.go:28-50 | over any run between the two reads of one display the sum is off by what was claimed minus what was recorded, or against the earlier state what was cleared, and exact if and only if these agree |
| `LikeRepository.FineLeavesBehindIff` | comment-service/internal/data/student.go:305-318 | a call that answers success leaves the recorded deltas further behind the likers if and only if it changed its row and the enqueue failed |
| `CommentCount.FallbackOvertakes` | comment-service/internal/data/post_comment_counter.go:45-67 | a direct upsert leaves the counter too high by exactly what it clips |
| `Snowflake.NewNodeIsFresh` | comment-service/pkg/snowflake/snowflake.go:38-51 | a new node meets the premise of the uniqueness result once its times are past the epoch |
| `CounterTask.FlushFallsBack` | comment-task/internal/task/post_like_counter.go:367-484 | after a failed insert the claimed batch stays in Redis alone and the post is tried again in 3 s; a zero delta is claimed and not inserted |
| `CounterTask.RecoverMeans` | comment-task/internal/task/post_like_counter.go:555-602 | an id without a batch leaves the set, a batch without a row is inserted, one with an applied row is cleared, one under way is left alone |
| `CounterTask.TurnMeans` | comment-task/internal/task/post_like_counter.go:604-715 | a due batch is applied and cleared, a rollback is marked for another try in 30 s, a batch that is not due is left alone |
| `CounterTask.AppliedCountMeans` | comment-task/internal/task/post_like_counter.go:604-652 | the number the apply loop reports is the number of batches that became success |
| `CounterRepair.LoopMeans` | comment-task/internal/task/post_like_counter.go:604-652 | the apply loop does to each batch of its selection what that batch's own turn alone does |
| `CounterRedis.EnqueueMeans` | comment-service/internal/data/post_like_counter.go:38-46 | what the enqueue script does key by key; the first change of a cycle keeps its time |
| `CounterRedis.ClaimMeans` | comment-task/internal/task/post_like_counter.go:90-128 | what the claim script does key by key in its three cases |
| `CounterRedis.ClaimRepliesIff` | comment-task/internal/task/post_like_counter.go:90-128 | not ready if and only if the last change is less than 5 s and the first less than 60 s old; claimed if and only if ready with a pending delta |
| `CounterRedis.ClearMeans` | comment-task/internal/task/post_like_counter.go:130-153 | what the clear script does key by key; a sum of zero is deleted |
| `CounterTiming.PlanMeans` | comment-task/internal/task/post_like_counter.go:293-320 | a dirty post is scheduled for the earlier of its two times, a clean one is forgotten |
| `CounterReconcile.GuardMeans` | comment-task/internal/task/post_like_counter.go:773-805 | the guard passes if and only if nothing is pending, the processing deltas cancel and all rows are success |
| `LikeRepository.CachedCallLeaves` | comment-service/internal/data/student.go:126-129 | with a matching cache entry nothing is written and the entry answers |
| `Comments.StepMeans` | comment-service/internal/data/operator.go:95-190 | what each transaction does to its row, and that it leaves the others |
| `EsVersions.DecimalValueBounds` | comment-task/internal/task/es_sync.go:383-390 | the value of n digits is from 0 to below 10^n, so that with the order it is the decimal number |
| `EsVersions.LeadingZeroIsVoid` | comment-task/internal/task/es_sync.go:383-390 | a leading zero changes nothing |
| `EsVersions.AboveIff` | comment-task/internal/task/es_sync.go:380-380 | the fallback comparison is the order of strings by the first place where they differ |
| `EsVersions.KafkaVersionMeans` | comment-task/internal/task/es_sync.go:392-398 | a Kafka offset has its successor as external version, except the largest |
| `EsVersions.BinlogVersionMeans` | comment-task/internal/task/es_sync.go:399-407 | a binlog version is its file number times 10^12 plus its position |
| `EsSync.KeyOfMeans` | comment-task/internal/task/comment.go:121-140 | posts and comments with a positive id are indexed under it, nothing else is |
| `EsSync.IndexedMeans` | comment-task/internal/task/comment.go:143-166 | a versioned write replaces exactly what is not newer, with a tombstone for a deleted row |
| `EsSync.SkipsMeans` | comment-task/internal/task/es_sync.go:251-257 | the read skips exactly what a stored version with file and position makes not newer |
| `EsTask.FailsIff` | comment-task/internal/task/es_sync.go:246-266 | a row fails if and only if it has no document id, its GET fails, or an INDEX it needs reports an error |
| `EsTask.TriedMeans` | comment-task/internal/task/es_sync.go:246-266 | it is written if and only if it needs to be and the INDEX comes through |
| `EsTask.ThreeFailuresDeadLetter` | comment-task/internal/task/es_sync.go:531-573 | three recorded failures take a new row to es_sync_dlq |
| `EsTask.StopsIff` | comment-task/internal/task/es_sync.go:89-105 | a message stops the consumer if and only if some row fails and cannot be saved |
| `EsTask.HandledToTheEnd` | comment-task/internal/task/es_sync.go:89-105 | otherwise every row is dealt with in turn |
| `EsTask.HandledGoesWell` | comment-task/internal/task/es_sync.go:89-105 | when nothing fails nothing is parked or dead-lettered |
| `EsTask.SavedMeans` | comment-task/internal/task/es_sync.go:415-451 | a failed row becomes a new retry row with no attempts, or without a document id a dead letter |
| `EsTask.ConsumeReachesTheEnd` | comment-task/internal/task/comment.go:63-92 | it gets to the end of the log whenever failures can be saved and commits get through |
| `RateLimit.AdmittedMeans` | comment-student/internal/ratelimit/limiter.go:29-54 | admission means enough tokens in every bucket; a denial names the first short bucket, its level and its wait |
| `RateLimit.LevelMeans` | comment-student/internal/ratelimit/limiter.go:29-44 | a bucket that is not in Redis is full, one that is has gained its rate since its last refill up to its capacity |
| `RateLimit.CallWrites` | comment-student/internal/ratelimit/limiter.go:56-64 | a denied call writes nothing, an admitted one the charged level, the time and a new expiry in every listed bucket |
| `RateLimit.TtlMeans` | comment-student/internal/ratelimit/limiter.go:56-64 | the expiry is 2000 * capacity / rate ms, rounded up |
| `RateLimit.SanitizeMeans` | comment-student/internal/ratelimit/limiter.go:267-274 | blanks around a text are dropped, those and colons inside become underscores, and nothing becomes unknown |
| `RateLimit.CleanKeysDiffer` | comment-student/internal/ratelimit/limiter.go:214-274 | ids and paths without blanks and colons keep their buckets apart |
| `Sessions.CheckIff` | comment-service/internal/biz/auth.go:139-155 | a check lets exactly the holder of an unrevoked, unexpired token of the role in |
| `Snowflake.AdvanceMeans` | comment-service/pkg/snowflake/snowflake.go:51-68 | a new millisecond starts at sequence 0, the same one takes the next sequence, and only when all 4096 are used the call waits for the first later reading |
| `Snowflake.IdMeans` | comment-service/pkg/snowflake/snowflake.go:72-75 | an id is the milliseconds since the epoch, the worker and the sequence, 22 and 12 bits up |
| `Comments.CreateMeans` | comment-service/internal/data/student.go:337-364 | a new comment of an existing post is visible, waits for its audit and has no reply |
| `CounterService.DisplayedMeans` | comment-service/internal/data/post_like_counter.go:104-120 | the count shown is exact as long as it fits in an int32, and never below zero |
| `CounterService.ToInt32Means` | comment-service/internal/data/post_like_counter.go:119-119 | beyond that it wraps around |
| `CounterRedis.Store.EnqueueDelta` | comment-service/internal/data/post_like_counter.go:38-46 | the enqueue script: delta, dirty, dirty_at and dirty_since after it, and whether the post was clean |
| `CounterRedis.Store.ClaimDelta` | comment-task/internal/task/post_like_counter.go:90-128 | the claim script: its three replies and all eight keys after it |
| `CounterRedis.Store.ClearBatch` | comment-task/internal/task/post_like_counter.go:130-153 | the clear script: the batch leaves all three processing keys, and a sum of zero is deleted |
| `CounterDb.Tables.InsertBatch` | comment-task/internal/task/post_like_counter.go:472-484 | a zero delta is not inserted and a duplicate batch_id changes nothing |
| `CounterDb.Tables.ApplyBatch` | comment-task/internal/task/post_like_counter.go:654-689 | the transaction claims a due row, upserts the counter and marks success, or rolls all of it back |
| `CounterDb.Tables.MarkBatchFailed` | comment-task/internal/task/post_like_counter.go:691-715 | the failure update sets the status whatever it was, with a 30 s back-off |
| `CounterDb.Tables.OverwriteCounter` | comment-task/internal/task/post_like_counter.go:807-839 | the overwrite leaves the counter of the post at the count and touches no other |
| `CounterTask.JobWorker.FlushPost` | comment-task/internal/task/post_like_counter.go:367-484 | both stores after a flush with its two clock readings and whichever call fails, and whether it inserted |
| `CounterTask.JobWorker.RecoverBatches` | comment-task/internal/task/post_like_counter.go:517-602 | both stores after a recovery scan, and that it stops at the first failing call or the first batch that does not parse |
| `CounterTask.JobWorker.ApplyDue` | comment-task/internal/task/post_like_counter.go:604-652 | both stores after the apply loop and the number applied, whichever statements fail |
| `CounterTask.JobWorker.ReconcilePost` | comment-task/internal/task/post_like_counter.go:773-839 | the guard, the counter after it, and whether it changed, without interference; a failing query changes nothing |
| `CounterService.Data.RecordCommentDelta` | comment-service/internal/data/post_comment_counter.go:20-67 | an enqueue error falls back to a clamped upsert of post_counter |
| `CounterService.Data.ApplyPending` | comment-service/internal/data/post_like_counter.go:104-120 | the count shown is the sum clamped at zero and converted to int32; a zero delta leaves likes alone and is written for comments |
| `LikeRepository.Repository.LockPostLike` | comment-service/internal/data/student.go:1457-1495 | the first SETNX answer that is not `taken`, or a cancelled context, decides; none before the deadline means busy |
| `LikeRepository.Repository.RunPostLikeWriteWithRetry` | comment-service/internal/data/student.go:237-274 | the outcome of up to five attempts, the row after it, and whether it changed |
| `LikeRepository.Repository.LikePost` | comment-service/internal/data/student.go:109-164 | rows, cache, recorded delta and reply of a like |
| `LikeRepository.Repository.UnlikePost` | comment-service/internal/data/student.go:173-230 | rows, cache, recorded delta and reply of an unlike |
| `Comments.Repository.CreateComment` | comment-service/internal/data/student.go:337-364 | row, success and recorded delta of a new comment |
| `Comments.Repository.DeleteComment` | comment-service/internal/data/student.go:380-437 | row and recorded delta of a deletion, also of a missing or deleted comment |
| `Comments.Repository.ApproveComment` | comment-service/internal/data/operator.go:95-120 | only a waiting comment is approved, and nothing is recorded |
| `Comments.Repository.RejectComment` | comment-service/internal/data/operator.go:131-190 | only a waiting comment is rejected and hidden, and -1 is recorded if it was visible |
| `Comments.Repository.CreateReply` | comment-service/internal/data/tutor.go:538-558 | a live comment is replied to at most once |
| `Comments.Repository.DeleteReply` | comment-service/internal/data/tutor.go:562-586 | a reply that is found is withdrawn by its tutor only, and it is an error if no row carries it |
| `EsTask.JobWorker.ProcessCanalRow` | comment-task/internal/task/es_sync.go:246-266 | document and error of one row, whichever calls fail |
| `EsTask.JobWorker.SaveRetry` | comment-task/internal/task/es_sync.go:415-451 | a failed row is parked with its event, or dead-lettered if it has no document id |
| `EsTask.JobWorker.HandleMessage` | comment-task/internal/task/es_sync.go:89-105 | all tables after the loop over the rows of a message, and whether it stops |
| `EsTask.JobWorker.Consume` | comment-task/internal/task/comment.go:63-92 | tables and offset after the fetch, handle, commit loop |
| `EsTask.JobWorker.ProcessRetryRow` | comment-task/internal/task/es_sync.go:531-573 | tables after one retry: deleted, counted up, dead-lettered, or left when the bookkeeping fails |
| `EsTask.JobWorker.ProcessRetries` | comment-task/internal/task/es_sync.go:513-529 | tables after the retry loop, which ends with the first row whose outcome cannot be recorded |
| `RateLimit.Redis.MultiBucket` | comment-student/internal/ratelimit/limiter.go:21-66 | decision and store after the script |
| `RateLimit.Redis.FillBuckets` | comment-student/internal/ratelimit/limiter.go:29-54 | the first loop fills both arrays, or stops at the first short bucket with its wait |
| `RateLimit.Redis.ChargeBuckets` | comment-student/internal/ratelimit/limiter.go:56-64 | the second loop writes every bucket with its new tokens and expiry |
| `RateLimit.Limiter.Allow` | comment-student/internal/ratelimit/limiter.go:156-196 | disabled or empty passes, an invalid rule or an unreachable Redis is an error that changes nothing, otherwise the script decides and a wait is at least one second |
| `Sessions.Store.CreateRefreshToken` | comment-service/internal/data/auth.go:92-102 | a new row, or an error if the id exists |
| `Sessions.Store.RotateRefreshToken` | comment-service/internal/data/auth.go:104-137 | the locked transaction inserts the successor and revokes the old row, or changes nothing |
| `Sessions.Store.RevokeRefreshToken` | comment-service/internal/data/auth.go:139-150 | the row with that id, hash and role is revoked, or nothing changes; a second revocation succeeds if the driver counts matched rows |
| `Sessions.AuthUsecase.Refresh` | comment-service/internal/biz/auth.go:139-167 | bad role, malformed, refused, failed or issued; a token is issued if and only if lookup, check and rotation all pass, and the table after it |
| `Sessions.AuthUsecase.Logout` | comment-service/internal/biz/auth.go:169-185 | an error, refused or revoked, and the table after it |
| `Snowflake.Node.Generate` | comment-service/pkg/snowflake/snowflake.go:47-77 | the call terminates, also when the sequence wraps, if the clock gets on, and leaves time, sequence and id as specified |
| `LikeRepository.Repository.RecordDelta` | comment-service/internal/data/student.go:305-318 | a failed enqueue is swallowed |
| `CounterService.Data.EnqueueLikeDelta` | comment-service/internal/data/post_like_counter.go:52-81 | a zero delta is dropped, an enqueue error is returned and records nothing, and a newly dirty post is reported |
| `CounterTask.JobWorker.SchedulePost` | comment-task/internal/task/post_like_counter.go:293-320 | Redis after scheduling one post without interference |

## Left out

- The 64-bit range of Redis counters and the INT columns of `post_counter`; sums are unbounded. Only the conversion to int32 in the display is written out.
- The text forms: `post:delta` in Redis, retry payloads, Canal messages, keys other than the limiter's. A batch value that does not parse at all is not modelled, one with post <= 0 or delta 0 is.
- Several apply workers per kind, and commits that report an error, outside `CounterAmbiguity`: exactly-once is false there.
- Redis timeouts after which the script ran all the same: an enqueue error means nothing was recorded.
- CounterReconcile.ReconcileSafe: guard, count and overwrite are one step; `LateOverwriteIff` separates them.
- CounterReconcile.LateOverwriteIsSafe: the reads of the guard are one step; `LateOverwriteIff` separates those of Redis.
- CounterReconcile.OverwriteRace: one instance of `LateOverwriteIff`.
- CounterOrder.OrderedCounterIsExact: assumes that batches apply in claim order, that every enqueue succeeds and that only cleared posts with nothing in flight reconcile; `Conservation` and `CounterIsFold` hold without these.
- CounterWakeup.StrandedIff: the statuses and retries of an outbox row are one row that is handled once or again; it starts at a clean post.
- The ready-list scan and the stats cache invalidation.
- CounterRepair.RecoveredIff: other steps run between sweeps, not inside one.
- CounterRedis.Store.ClearBatch: the branch for a stored value without a colon, which no script writes.
- CounterDb.Tables.MarkBatchFailed: retry_count and last_error, which nothing reads.
- CounterTask.JobWorker.ReconcilePost: the log row and the cache deletion.
- CounterService.Data.EnqueueLikeDelta: a missing Redis client, which records nothing and reports nothing; the outbox insert is the caller's `newly`.
- CounterService.Data.RecordCommentDelta: a missing Redis client, and the cache deletion after the fallback.
- LikeRepository.Repository.LockPostLike: the release function; it is the Unlock step of `LikeRequests`.
- EsTask.JobWorker.ProcessRetryRow: a payload that cannot be decoded, which goes to the dead letters at once.
- The post, comment and list caches, Bloom filters and reads of rows.
- Liveness: convergence is stated for a document whose work is done, and recovery for given samples.
- Kafka-offset versions mixed with binlog versions for one document, and versions that get no external number: the two comparisons disagree there.
- String comparison of binlog file names is by character; Unicode plays no part.
- EsSync.NoSilentLoss: assumes the database is configured; without one the poison branch commits a message that is saved nowhere.
- Numbers in retry payloads: they are decoded without exact number support, so large numeric ids could change; column values are taken as strings.
- Next retry times of `es_sync_retry`, and the wall-clock fields of documents.
- RateLimit.Limiter.Allow: replies that cannot be parsed, and a timeout after the script ran.
- RateLimit.EveryWindowBound: the expiry clock of Redis is the caller's clock, tokens are exact reals, and rules do not change.
- The HTTP filter, the choice of buckets for a request, and trimming of whitespace other than blank, tab, newline and return.
- Sessions.AuthUsecase.Refresh: access tokens and the trimming of the raw token and the role; digests are a parameter.
- Sessions.AuthUsecase.Logout: the trimming of the raw token and the role.
- Snowflake.Node.Generate: the mutex is what makes a call one step.
- Registration, passwords, posts, queries, pagination, configuration and the load-test tools.
