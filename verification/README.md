# taskmq: a verified model of the queue engine

taskmq is a distributed task queue on Redis Streams. This project models one queue's Redis keys and
everything that moves tasks between them, and proves what the at-least-once claim, the unique locks, the
retry limits, the rate limiter and the maintenance loops rest on.

The Redis keys of one queue are a value (`Broker.State`): an ordered stream of entries, the group's
last-delivered ID, the pending list with delivery counts, the delayed ZSET, the dead-letter ZSET and its
payload index, and the unique locks. Each Lua script is one function on that value, and the script as
written (its branches, rank arithmetic and loops) is a method of `Broker.RedisQueue` proved equal to it. A
run (`Protocol.Run`) is any sequence of steps: admissions, deliveries, reclaims, settlements by any worker
that ever held the message (first, repeated or stale), lock releases, renewals and expiries, promotions,
the two halves of an age purge at any moments, removals of consumers and trims. The worker is `Pipeline`: the middleware chain as a function over an open environment,
the code (`ConsumeContext`, `MessageProcessor`) proved to compute it.

| file | contents |
|---|---|
| Bytes.dfy, ZSet.dfy | octets and big-endian words; Redis sorted sets |
| Codec.dfy | the binary task format |
| Broker.dfy | the queue's keys and the Lua scripts |
| Protocol.dfy | all interleavings on one queue; at-least-once |
| DeadLetterIndex.dfy | dead letters and their index over runs in which age purges interleave |
| UniqueLocks.dfy | lock ownership and mutual exclusion over runs |
| Pipeline.dfy, RetryBudget.dfy | one processing of one message; backoff, and how often a handler can start |
| RateLimiter.dfy | GCRA over exact reals |
| Scheduler.dfy | draining, sleeping and the wakeup rule of the delayed scheduler |
| Janitor.dfy | reclaim and delivery-count tags, safe trim, age purge |
| DeadLetters.dfy, BulkEnqueue.dfy, QueueOrder.dfy | dead-letter management, bulk enqueue, queue ordering |

## Where the code falls short of its promise

The model follows the code. Each of these is proved, with the exact condition where there is one.

- **A backlog is never run.** The consumer group is created at `$`, so entries appended before that are never
  delivered, and the safe trim deletes them unread (`Protocol.RunnableExactlyAfterGroupStart`,
  `Protocol.BacklogIsTrimmedUnread`).
- **A failed rate-limit defer counts as a failed execution.** docs/TERMINAL_OUTCOMES.md says a settlement error
  leaves the message in the PEL; the error of the inner middleware reaches the retry middleware, which raises
  `Retry` and retries or dead-letters the task (`Pipeline.FailedDeferChargesAnAttempt`). It is the only case
  (`Pipeline.FailedSettlementLeavesPendingIff`).
- **Reclaimed messages can lose their delivery count.** The count query is a second round trip, capped at as
  many entries as were claimed. Another message of the same consumer still being worked on inside that range
  pushes the last claimed one out, and a claimed one whose slow worker settles it in between is not there any
  more; either is then tagged 1 (`Janitor.TagsTrueAtQueryIff` for exactly when, `Janitor.BusyNeighbourMistags`,
  `Janitor.SettledBetweenMistags`; `Janitor.TagsTrueIff` when nothing happens in between). A message that keeps
  coming back behind a busy one starts its handler without bound (`RetryBudget.StartsExceedAnyLimit`).
- **A stale completion can free a live lock.** A worker that lost its message to a reclaim deletes the lock of a
  task that is waiting for its retry (`UniqueLocks.StaleCompleteSafeIff`, `UniqueLocks.StaleCompletionLetsSecondIn`);
  a stale dead-letter move, retry or defer has its own condition (`UniqueLocks.StaleBurySafeIff`,
  `UniqueLocks.StaleRequeueSafeIff`).
- **The safe trim reads twice.** With an empty PEL, messages delivered between the two reads can be trimmed while
  they run (`Janitor.TwoReadsSafeIff`, `Janitor.TwoReadTrimLosesTasks`).
- **So does the removal of idle consumers.** A message delivered between the look and the removal is neither
  undelivered nor pending afterwards (`Janitor.DelConsumerSafeIff`, `Janitor.DeliveryBeforeRemovalIsLost`).
- **The age purge is not a transaction.** A task dead-lettered again between the ZREM and the HDEL of its ID is
  left without an index entry (`DeadLetterIndex.PurgeKeepsIndexIff`, `DeadLetters.PurgeRaceSticks`), and one
  dead-lettered again between the read and the ZREM is removed although it is younger than the cutoff, which
  is the only way a purge removes anything it did not read (`DeadLetterIndex.PurgeRemovesWhatItRead`).
- **Retry-all may not end.** A dead letter without an index entry, one with an empty task ID or one left by such
  a purge, is never removed by the loop (`DeadLetters.RetryAllEndsIff`, `DeadLetters.OnlyTheEmptyIdSticks`), and
  a payload filed under another ID is enqueued again in every turn (`DeadLetters.MisfiledPayloadRepeats`).
- **Retrying one dead letter races with its next failure** (`DeadLetters.RetryIsSafeIff`,
  `DeadLetters.RetryRaceLosesTask`).
- **Backoff wraps.** A product of base and power of two beyond 63 bits wraps. A negative delay
  (`RetryBudget.BackoffInRangeIff` for exactly when) makes the retry due at once, unless it reaches back past
  the epoch (`RetryBudget.RunTimeBeforeEpochIff` for exactly when; with the default base and a one-hour cap the
  37th failure does and the 39th does not, `RetryBudget.WrappedBackoffStrandsTask`).
- **Run times before the epoch strand the task.** No clock makes it due (`RetryBudget.RetryIsStrandedIff`), no
  promote call ever moves it, and the scheduler polls every millisecond from then on
  (`Broker.NegativeScoreNeverPromoted`, `Scheduler.NegativeHeadPollsForever`, `Scheduler.ShortestSleepIff`).
- **The binary format truncates silently.** Strings over 65535 octets wrap their length header; the round trip
  holds exactly for tasks within the widths (`Codec.RoundTripExactlyWhenFits`). Two or three stray octets after
  the core are read as a group key (`Codec.StrayOctetsReadAsGroupKey`).
- **A refreshed subscription does not look again.** An announcement lost with the old one leaves its task waiting
  for the timer (`Scheduler.LostMessageOversleeps`); `Scheduler.TurnKeepsAnnouncedIff` says exactly which losses
  do harm.

## Assumptions

- One consumer group per stream; `task.Queue` is the queue the message was read from; handlers do not change the task.
- A broker call that fails was not applied. StreamMaxLen is off.
- From Retry 63 on Go leaves the conversion of the power of two to a duration to the implementation; the model
  takes the low 64 bits of the exact product there too.
- Between a reclaim's claim and its count query, messages of the claiming consumer only leave the claimed range:
  nothing else claims in its name, and new deliveries have higher IDs.
- A trim may stop anywhere at or below its threshold, as approximate trimming of whole nodes does.
- Stream IDs are ranks in the order Redis generated them. Key expiry is a step of its own for unique locks and a
  clock comparison for the limiter. Clocks, random draws, jitter, generated IDs, cron specs, handler outcomes and
  the success of each round trip are parameters or free choices.
- The protocol works with any codec that keeps a re-encoded task's identity; the binary codec is proved to be one
  (`Protocol.BinaryIsLawful`).
- Reals are exact where the scripts use doubles.

## Model

| member | source | states |
|---|---|---|
| Codec.Marshal | internal/taskmq/codec/codec.go:39-111 | the size computed up front is exactly what the writes fill, and the buffer is the concatenation of the fifteen fields |
| Codec.WireLayout | internal/taskmq/codec/codec.go:39-111 | the encoding is, field by field in this order, length and string or number, in these widths |
| Codec.WordLayout | internal/taskmq/codec/codec.go:66-108 | lengths and 32-bit numbers are big-endian, in two's complement |
| Codec.LongWordLayout | internal/taskmq/codec/codec.go:90-108 | and so are 64-bit numbers |
| Codec.Unmarshal | internal/taskmq/codec/codec.go:114-243 | the offset parser reads exactly what the field grammar says, error for error, on every octet string |
| Codec.RoundTripExactlyWhenFits | internal/taskmq/codec/codec.go:39-243 | decoding an encoding gives the task back (minus Result) if and only if every field is within its width |
| Codec.DecodeIsCanonical | internal/taskmq/codec/codec.go:114-243 | data with all fields present is the encoding of the task it decodes to, followed by what was not consumed |
| Codec.EncodeInjective | internal/taskmq/codec/codec.go:39-111 | two tasks within the widths with the same encoding, whatever follows it, are the same task |
| Codec.TruncatedCoreRejected | internal/taskmq/codec/codec.go:114-210 | every prefix of an encoding that ends before CreatedAt is complete is rejected |
| Codec.OlderLayoutDecodes | internal/taskmq/codec/codec.go:211-242 | a payload that ends after CreatedAt decodes and leaves scope, group key and deadline as they were |
| Codec.StrayOctetsReadAsGroupKey | internal/taskmq/codec/codec.go:211-242 | exactly when two or three stray octets after the core are accepted, and that they then are the group key |
| Broker.RedisQueue.HandleFailure | internal/taskmq/broker/broker.go:53-118 | the dead-letter and retry branches of the script, with the eviction loop, change the keys exactly as specified and return the number evicted |
| Broker.RedisQueue.EvictExcess | internal/taskmq/broker/broker.go:84-93 | the rank arithmetic removes the lowest-ranked excess from the ZSET and the same IDs from the index |
| Broker.RedisQueue.Defer | internal/taskmq/broker/broker.go:120-146 | the defer script is the retry branch of the failure script |
| Broker.RedisQueue.MoveToDLQ | internal/taskmq/broker/broker.go:205-241 | dead-letters the encoded task, acknowledging its message, and returns how many the cap evicts: those in excess of it once the task is counted in; or does nothing when the call is not applied |
| Broker.RedisQueue.ScheduleRetry | internal/taskmq/broker/broker.go:250-272 | requeues the encoded task with drop-farthest, acknowledging its message, or does nothing |
| Broker.RedisQueue.DeferRateLimitedTask | internal/taskmq/broker/broker.go:276-299 | same for a rate-limited task |
| Broker.RedisQueue.CompleteTask | internal/taskmq/broker/broker.go:324-351 | acknowledges and removes the message and frees the lock only if the task owns it |
| Broker.RedisQueue.ReleaseUniqueLock | internal/taskmq/broker/broker.go:302-310 | the task's own lock goes, and no other |
| Broker.RedisQueue.RenewUniqueLock | internal/taskmq/broker/broker.go:313-321 | renews exactly when the task owns the lock of its key, which then runs until now plus the TTL, and says so |
| Broker.CompleteAcks | internal/taskmq/broker/broker.go:156-172 | completing takes the message and nothing else out of the pending list and the stream, and only the task's own lock |
| Broker.BuryAcks | internal/taskmq/broker/broker.go:53-100 | so does a dead-letter move, which leaves the delayed set alone |
| Broker.RequeueAcks | internal/taskmq/broker/broker.go:53-146 | a retry or defer acknowledges too and leaves locks and dead letters alone |
| Protocol.SettlementAcks | internal/taskmq/broker/broker.go:53-172 | all of it for every settlement a worker can apply, with its cap and run time |
| Broker.BuryKeepsIndex | internal/taskmq/broker/broker.go:76-100 | a dead-letter move keeps the ZSET and the index key sets equal for non-empty IDs |
| Broker.BuryIndexesPayload | internal/taskmq/broker/broker.go:79-93 | it indexes the payload it was given if the task stays; of the other payloads exactly the evicted ones go |
| Broker.BuryKeepsCap | internal/taskmq/broker/broker.go:84-93 | the dead letters with the new task stay in full up to the cap and are cut to exactly the cap beyond it, every evicted one ranking before every survivor |
| Broker.RequeueKeepsCap | internal/taskmq/broker/broker.go:102-116 | even from an over-full set the cap holds afterwards, the requeued task is present with its new score, only the farthest members were dropped and no more than the cap asks for |
| Broker.AdmissionKeepsLimit | internal/taskmq/lifecycle/scripts/enqueue_unique_with_limit.lua:1-30 | admission to the stream is all or nothing, keeps the hard limit, and is refused exactly by the limit or a foreign lock |
| Broker.DelayKeepsCap | internal/taskmq/lifecycle/scripts/enqueue_delayed_with_limit.lua:1-25 | admission to the delayed set keeps its cap and drops members only when told to |
| Broker.RedisQueue.PromoteScript | internal/taskmq/runner/delayed_scheduler.go:67-104 | the two-pass script with its early stop equals moving the first min(batch, due, room) due members in order |
| Broker.PromoteMovesEarliestDue | internal/taskmq/runner/delayed_scheduler.go:67-104 | exactly the moved members leave the delayed set, each is the next entry of the stream in turn, none that was due earlier stays, the hard limit holds |
| Broker.NegativeScoreNeverPromoted | internal/taskmq/runner/delayed_scheduler.go:76-118 | no promote call moves a member with a negative score |
| Protocol.BinaryIsLawful | internal/taskmq/codec/codec.go:39-243 | re-encoding a decoded task with new progress keeps its ID, unique key and scope |
| Protocol.SettleKeepsInv | internal/taskmq/broker/broker.go:53-172 | every settlement by any worker that ever held the message, repeated or stale, keeps every admitted task accounted for |
| Protocol.PromoteKeepsInv | internal/taskmq/runner/delayed_scheduler.go:67-104 | so does every promotion |
| Protocol.TrimKeepsInv | internal/taskmq/runner/retention_janitor.go:155-170 | so does a trim, however late, to a threshold taken from one snapshot |
| Protocol.NextKeepsInv | internal/taskmq/broker/broker.go:53-180 | every step keeps the whole invariant |
| Protocol.RunKeepsInv | internal/taskmq/broker/broker.go:53-180 | so does every run |
| Protocol.AtLeastOnce | README.md:38 | after any interleaving every admitted task is runnable, delayed, dead-lettered, completed, or dropped by a configured limit |
| Protocol.NothingLostWithoutCaps | README.md:38 | without caps and age limits nothing is dropped |
| Protocol.RunnableExactlyAfterGroupStart | internal/taskmq/worker/worker.go:93 | in every reachable state exactly the decodable entries appended after the group was created are undelivered or reclaimable |
| Protocol.BacklogIsTrimmedUnread | internal/taskmq/worker/worker.go:93 | whatever a queue holds when its group is created, a trim may delete all of it below the group's start, and no worker ever held it |
| Protocol.BelowThresholdIsDead | internal/taskmq/runner/retention_janitor.go:172-200 | nothing below a single-snapshot threshold is both decodable and live |
| UniqueLocks.ForeignStepKeepsLock | internal/taskmq/broker/broker.go:148-180 | no enqueue, settlement, release or renewal for one task changes a lock held by another |
| UniqueLocks.ForeignRunKeepsLock | internal/taskmq/broker/broker.go:148-180 | over any run in which the owner does not act and the lock does not expire, the lock is unchanged |
| UniqueLocks.NextKeepsLockInv | internal/taskmq/client/enqueue.go:54-66 | each orderly step keeps one live copy per unique task and its lock with it |
| UniqueLocks.AtMostOneLivePerKey | internal/taskmq/client/enqueue.go:54-66 | in every orderly run each live until-succeeded task holds the lock of its key, so two live ones with one key are the same |
| UniqueLocks.StaleCompleteSafeIff | internal/taskmq/broker/broker.go:156-172 | a late completion keeps exclusion if and only if no other copy of the task is queued or waiting |
| UniqueLocks.StaleBurySafeIff | internal/taskmq/broker/broker.go:76-100 | the same for a late dead-letter move |
| UniqueLocks.StaleRequeueSafeIff | internal/taskmq/broker/broker.go:101-146 | a late retry or defer keeps exclusion if and only if the copy it puts back is the only one and the task still holds its lock |
| UniqueLocks.StaleRunBreaksExclusion | internal/taskmq/broker/broker.go:156-172 | a six-step run in which a stale completion lets a second task with the key in |
| UniqueLocks.StaleCompletionLetsSecondIn | internal/taskmq/broker/broker.go:156-172 | the same run with real encodings |
| Pipeline.ConsumeContext.Next | internal/taskmq/worker/consume_context.go:52-61 | walking the chain by index computes the recursive meaning of the remaining stages |
| Pipeline.ConsumeContext.RetryAndDLQMiddleware | internal/taskmq/worker/middleware.go:98-146 | the retry middleware around the rest of the chain |
| Pipeline.ConsumeContext.UniqueLockWatchdogMiddleware | internal/taskmq/worker/middleware.go:150-246 | the scope rules of early release around the rest of the chain, without the renewal ticker |
| Pipeline.ConsumeContext.RateLimitMiddleware | internal/taskmq/worker/middleware.go:40-93 | defer and abort, or the rest of the chain |
| Pipeline.MessageProcessor.ProcessMessage | internal/taskmq/worker/process.go:37-72 | unusable payloads are left alone, corrupt ones acknowledged and deleted once, all others end with the settlements of the chain |
| Pipeline.MessageProcessor.ExecuteAndSettle | internal/taskmq/worker/process.go:184-244 | completes exactly when the chain returned nil without aborting |
| Pipeline.ChainSettlesAtMostOnce | internal/taskmq/worker/middleware.go:98-146 | for any stack of stages a new settlement is single and announced by a handled error or an abort |
| Pipeline.ProcessSettlesAtMostOnce | internal/taskmq/worker/process.go:37-72 | one processing applies at most one of complete, retry, defer, dead-letter, for any chain, outcome and broker failures |
| Pipeline.ProcessFollowsMatrix | docs/TERMINAL_OUTCOMES.md:47-64 | the built chain settles exactly as the flat outcome table says and starts the handler exactly when nothing stands in the way |
| Pipeline.FailureIsSettled | internal/taskmq/worker/middleware.go:110-144 | a failed execution is charged one attempt and marked with its error: a missing handler or skip error is dead-lettered now, any other exactly when the policy refuses the charged task, and the rest run again after that task's backoff |
| Pipeline.EarlyReleaseIff | internal/taskmq/worker/middleware.go:150-246 | the lock is released early at most once, and exactly when the scope is until-start, or until-success and the rest of the chain fails |
| Pipeline.ProcessIsOneProtocolStep | internal/taskmq/worker/process.go:37-72 | what a worker applies is at most one settlement step of the protocol for the message it holds |
| Pipeline.CompletionMeansSuccess | internal/taskmq/worker/process.go:221-243 | a processing completes a task only after a nil handler result, or a cancellation seen first |
| Pipeline.FailedDeferChargesAnAttempt | internal/taskmq/worker/middleware.go:98-146 | a failed defer raises Retry, with the broker's error as LastError, and is retried after the backoff or dead-lettered although the handler never started |
| Pipeline.FailedSettlementLeavesPendingIff | docs/TERMINAL_OUTCOMES.md:24 | after a failed first settlement the message stays unsettled, except exactly when it was a defer and the charge for it goes through |
| RetryBudget.BackoffInRangeIff | internal/taskmq/policy/retry.go:44-55 | the delay lies between zero and the cap if and only if the product's low 64 bits have a clear sign bit; otherwise it is negative |
| RetryBudget.BackoffIsCappedIff | internal/taskmq/policy/retry.go:44-55 | the delay is the capped product if and only if the product fits, or wraps to a value the cap cuts off |
| RetryBudget.FittingIsNotNecessary | internal/taskmq/policy/retry.go:44-55 | with the default base and a one-hour cap the 37th delay is wrong and the 38th right again |
| RetryBudget.BackoffIsMonotone | internal/taskmq/policy/retry.go:44-55 | while the next product fits, delays do not shrink |
| RetryBudget.WrappedBackoffStrandsTask | internal/taskmq/policy/retry.go:44-55 | with the default base and a one-hour cap the 37th failure, at a clock in 2025, gives a run time before the epoch; the 39th gives a negative delay that is due at once |
| RetryBudget.RunTimeBeforeEpochIff | internal/taskmq/policy/retry.go:44-55 | exactly which bases and retries give, at a given clock, a run time before the epoch |
| RetryBudget.RetryIsStrandedIff | internal/taskmq/policy/retry.go:44-55 | and exactly those retries are never due at any clock and stay in the delayed set through every promote call |
| RetryBudget.FailingTaskSpendsItsBudget | internal/taskmq/policy/retry.go:36-42 | without crashes an always-failing task that is dead-lettered started its handler exactly max(1, MaxRetry - Retry) times, and until then Retry rises by one each time |
| RetryBudget.FailingTaskIsBuriedIff | internal/taskmq/worker/middleware.go:110-144 | it is dead-lettered if and only if the attempts the limiter let through use that budget up |
| RetryBudget.CrashesAreBounded | internal/taskmq/worker/process.go:103-154 | with true delivery counts one stream entry starts its handler at most MaxRetry + 1 times |
| RetryBudget.CrashBoundIsTight | internal/taskmq/worker/process.go:103-154 | that bound is reached |
| RetryBudget.FallbackTagsAreUnbounded | internal/taskmq/runner/pel_janitor.go:217-226 | with the fallback count nothing bounds the starts |
| RetryBudget.BusyNeighbourIsUnbounded | internal/taskmq/runner/pel_janitor.go:182-226 | over any sequence of ticks in which a crashing message is the last one claimed behind a busy one, every redelivery starts its handler |
| RetryBudget.StartsExceedAnyLimit | internal/taskmq/runner/pel_janitor.go:146-226 | for any MaxRetry and any n there are n such ticks, with the true count rising by one each time |
| RateLimiter.GCRALimiter.Check | internal/taskmq/ratelimit/limiter.go:22-92 | the wait the stored TAT implies, without consuming |
| RateLimiter.GCRALimiter.TryConsume | internal/taskmq/ratelimit/limiter.go:44-124 | the same decision and wait as Check, and the new TAT and expiry |
| RateLimiter.RateBound | internal/taskmq/ratelimit/limiter.go:44-66 | over any nondecreasing trace and initial TAT, acceptances in a window of length W number at most max + floor(W * max / duration) |
| RateLimiter.BurstThenSteadyAccepted | internal/taskmq/ratelimit/limiter.go:44-66 | a burst of max and then one request per interval are all accepted |
| RateLimiter.RateBoundIsTight | internal/taskmq/ratelimit/limiter.go:44-66 | on that trace the accepted count equals the bound, for every length |
| RateLimiter.WaitIsLeast | internal/taskmq/ratelimit/limiter.go:22-42 | waiting ms milliseconds makes a retry succeed if and only if ms is at least the returned wait |
| RateLimiter.ExpiryIsInvisible | internal/taskmq/ratelimit/limiter.go:44-66 | the limiter whose key expires decides and waits exactly like one whose key never does |
| RateLimiter.LifetimeIsLeast | internal/taskmq/ratelimit/limiter.go:60-65 | the key lives the least whole number of seconds that outlives its TAT |
| Scheduler.BatchesCompose | internal/taskmq/runner/delayed_scheduler.go:115-149 | a full batch followed by another is one batch of both sizes |
| Scheduler.Reschedule | internal/taskmq/runner/cron_manager.go:233-272 | a cron job's next run is added after making room; other tasks and unparsable specs change nothing |
| Scheduler.RescheduledAddsNothingDue | internal/taskmq/runner/cron_manager.go:233-272 | rescheduling makes nothing due and, without a cap, removes nothing |
| Scheduler.RescheduledWaits | internal/taskmq/runner/cron_manager.go:233-272 | without a cap the next run of a rescheduled job is waiting and no other waiting run is lost |
| Scheduler.PromoteReadyTasks | internal/taskmq/runner/delayed_scheduler.go:115-149 | the loop ends with nothing due or a full stream; the stream grew by what it moved, all of it due; without a cap no member is lost and every moved cron job has its next run waiting; without cron jobs it equals one promotion of everything due |
| Scheduler.SleepNeverOvershoots | internal/taskmq/runner/delayed_scheduler.go:162-180 | after a successful look the sleep is between 1 ms and 10 s, ends by the time any member falls due, and short of 10 s ends just when one does |
| Scheduler.ShortestSleepIff | internal/taskmq/runner/delayed_scheduler.go:151-180 | after a drain, under any hard limit, the scheduler polls again in 1 ms exactly when a member falls due then, has a negative score, or the limit held back part of what was due |
| Scheduler.NegativeHeadPollsForever | internal/taskmq/runner/delayed_scheduler.go:151-180 | a negative score keeps it polling every millisecond for good |
| Scheduler.NoMissedWakeup | internal/taskmq/runner/delayed_scheduler.go:182-265 | in every run whose losses are harmless, a quiet sleeping scheduler wakes in time for every delayed task |
| Scheduler.ReliableIsHarmless | internal/taskmq/runner/delayed_scheduler.go:182-265 | a run without failed publishes, refreshed subscriptions and failed looks is harmless from any start |
| Scheduler.TurnKeepsAnnouncedIff | internal/taskmq/runner/delayed_scheduler.go:151-265 | exactly which ticks keep every announcement: all but a refreshed subscription, a failed publish or a failed look on which some waiting member depends |
| Scheduler.WakesOnlyForEarlier | internal/taskmq/runner/delayed_scheduler.go:240-263 | a message wakes the scheduler exactly when its run time is before the end of the sleep |
| Scheduler.SleepIsBounded | internal/taskmq/runner/delayed_scheduler.go:151-265 | in every run a sleep ends within 10 s of being armed, or within the poll interval if that is longer |
| Scheduler.LostMessageOversleeps | internal/taskmq/runner/delayed_scheduler.go:226-238 | a lost announcement leaves a task waiting for the timer |
| Janitor.ClaimsTheIdle | internal/taskmq/runner/pel_janitor.go:159-180 | a claim takes exactly the idle messages of the stretch it scanned |
| Janitor.LapReclaimsStalled | internal/taskmq/runner/pel_janitor.go:146-180 | a message stalled throughout a lap of the cursor is claimed in it, whatever happens to others |
| Janitor.StalledIsReclaimed | internal/taskmq/runner/pel_janitor.go:146-180 | laps end: a message idle throughout id + 1 ticks of a janitor that starts at 0 is claimed in one of them |
| Janitor.TagDeliveries | internal/taskmq/runner/pel_janitor.go:182-226 | the map built from one capped query tags each claimed message as specified, 1 when missing or when the query fails |
| Janitor.TagsTrueAtQueryIff | internal/taskmq/runner/pel_janitor.go:159-226 | whatever PEL the query finds, all tags are the true delivery counts if and only if it holds every claimed message and nothing else of this consumer in their range |
| Janitor.TagsTrueIff | internal/taskmq/runner/pel_janitor.go:182-226 | when nothing happens between claim and query, that is exactly when no message of the same consumer inside the claimed range is still being worked on |
| Janitor.BusyNeighbourMistags | internal/taskmq/runner/pel_janitor.go:182-226 | a busy message between two claimed ones, delivered any number of times: the first is tagged truly, the last 1 |
| Janitor.BusySettledInTimeTagsTruly | internal/taskmq/runner/pel_janitor.go:182-226 | the same with the busy message settled before the query: all tags are true |
| Janitor.SettledBetweenMistags | internal/taskmq/runner/pel_janitor.go:182-226 | nothing busy, and a claimed message settled before the query is tagged 1 whatever its count |
| Janitor.PelJanitor.Tick | internal/taskmq/runner/pel_janitor.go:146-226 | a tick moves the cursor, takes over what it claimed and tags it by what a later query finds, truly under exactly that condition |
| Janitor.OneReadIsSafe | internal/taskmq/runner/retention_janitor.go:172-182 | a threshold from the pending list is safe at once and after any further steps |
| Janitor.ThresholdIsHighest | internal/taskmq/runner/retention_janitor.go:172-200 | both reads taken at once, the threshold is the highest ID up to the last-delivered one with nothing pending below it, and missing only when nothing was ever delivered |
| Janitor.TwoReadsSafeIff | internal/taskmq/runner/retention_janitor.go:172-200 | a threshold from a second read is safe if and only if the pending list, read again, holds nothing below it that is still to be run; only messages delivered in between can be such |
| Janitor.TwoReadsStaySafe | internal/taskmq/runner/retention_janitor.go:155-200 | and then it stays safe over all further runs |
| Janitor.TwoReadTrimLosesTasks | internal/taskmq/runner/retention_janitor.go:155-200 | n deliveries between the reads: a trim past k of them leaves those k tasks nowhere while their workers run them |
| Janitor.DelConsumerSafeIff | internal/taskmq/runner/retention_janitor.go:284-308 | removing a consumer keeps the invariant if and only if nothing it had pending is still to be run |
| Janitor.DeliveryBeforeRemovalIsLost | internal/taskmq/runner/retention_janitor.go:284-308 | a message delivered between the look and the removal can no longer be run |
| Janitor.PurgeDLQByAge | internal/taskmq/runner/retention_janitor.go:202-235 | undisturbed, removes exactly the dead letters up to the cutoff from ZSET and index, or the oldest few before an error, and counts them |
| Janitor.PurgeIsProtocolRun | internal/taskmq/runner/retention_janitor.go:202-235 | undisturbed, its commands as steps of the protocol remove exactly the dead letters up to the cutoff, record them as dropped and keep the index in step |
| DeadLetterIndex.RunAgrees | internal/taskmq/runner/retention_janitor.go:202-235 | over any run with any number of interleaved age purges, ZSET and index agree on every non-empty ID no purge touched |
| DeadLetterIndex.RunKeepsIndex | internal/taskmq/broker/broker.go:76-100 | without age purges they agree in every reachable state |
| DeadLetterIndex.PurgeKeepsIndexIff | internal/taskmq/runner/retention_janitor.go:202-235 | whatever runs between the ZREM and the HDEL of an ID, the index agrees afterwards if and only if the task is not a dead letter when the HDEL comes |
| DeadLetterIndex.PurgeRemovesWhatItRead | internal/taskmq/runner/retention_janitor.go:202-235 | what the ZREM of an ID finds is the dead letter that was read, unless the task was dead-lettered again in between |
| DeadLetters.DeleteDeadLetter | internal/taskmq/client/dlq.go:61-69 | removes an indexed ID from ZSET and index, and nothing otherwise |
| DeadLetters.DeleteKeepsIndex | internal/taskmq/client/dlq.go:61-69 | deleting keeps ZSET and index in step and takes out just the ID asked for |
| DeadLetters.CanBeEmptiedIff | internal/taskmq/client/dlq.go:61-69 | deletes can empty the dead letters if and only if each has an index entry |
| DeadLetters.RetryRound | internal/taskmq/client/dlq.go:105-147 | one turn of the loop over any state, item by item, with its count |
| DeadLetters.PartRevives | internal/taskmq/client/dlq.go:105-147 | while enqueues are accepted, the stream grows by exactly the decodable payloads of the batch, in order, with Retry 0, no LastError and otherwise unchanged |
| DeadLetters.RevivedReadsBack | internal/taskmq/client/dlq.go:134-140 | in the binary format each of them decodes to that task |
| DeadLetters.RetryAllEndsIff | internal/taskmq/client/dlq.go:99-150 | with payloads keyed by ID, the loop ends without error if and only if every dead letter has an index entry and every enqueue along the way is accepted |
| DeadLetters.OnlyTheEmptyIdSticks | internal/taskmq/client/dlq.go:99-150 | when every enqueue is accepted, in every reachable state whose index agrees (every run without an age purge) that is exactly when no dead letter has the empty ID |
| DeadLetters.PlainIsAccepted | internal/taskmq/client/dlq.go:99-150 | without a hard limit and unique keys every enqueue is accepted |
| DeadLetters.PurgeRaceSticks | internal/taskmq/runner/retention_janitor.go:202-235 | a dead-letter move between the ZREM and the HDEL of its ID leaves a dead letter with a non-empty ID that retry-all never removes |
| DeadLetters.MisfiledPayloadRepeats | internal/taskmq/client/dlq.go:99-150 | a payload filed under another ID is enqueued again in every turn |
| DeadLetters.RetryAllDeadLetters | internal/taskmq/client/dlq.go:99-150 | with an index entry for each, keyed by ID, it ends; on success the set is empty and the stream grew by every decodable dead letter once, in rank order, re-encoded with Retry 0, no LastError and otherwise unchanged; after an error this holds for a prefix; the count is right |
| DeadLetters.RetryDeadLetter | internal/taskmq/client/dlq.go:72-96 | undisturbed, the task is back in the stream with Retry 0 and no LastError and no longer a dead letter, or nothing changed |
| DeadLetters.RetryIsSafeIff | internal/taskmq/client/dlq.go:72-96 | whatever runs between its enqueue and its delete, no task is lost if and only if the delete finds nothing, or the task is queued, waiting, completed or dropped by a limit |
| DeadLetters.RetryIsSafeUnlessBuriedAgain | internal/taskmq/client/dlq.go:72-96 | in particular when it was not dead-lettered again in between |
| DeadLetters.RetryRaceLosesTask | internal/taskmq/client/dlq.go:72-96 | a run in which it was, and is lost |
| DeadLetters.BinaryRetryRace | internal/taskmq/client/dlq.go:72-96 | the same run with real encodings |
| BulkEnqueue.Prepare | internal/taskmq/client/enqueue.go:252-276 | records exactly the positions whose payload check or encoding fails and keeps the rest |
| BulkEnqueue.SendChunk | internal/taskmq/client/enqueue.go:282-346 | records every reply of a chunk under its own position, as a failure exactly when it is an error, also under fail-fast; the error returned is the first |
| BulkEnqueue.EnqueueBulk | internal/taskmq/client/enqueue.go:193-233 | for any queue order and replies every position dealt with ends once: with the nil-task error, its own preparation error or its own reply, listed as failed exactly when that is an error and else among the successes under its ID; the error is nil iff none failed, and under fail-fast that of the first failure |
| BulkEnqueue.EachExactlyOnce | internal/taskmq/client/enqueue.go:193-233 | the two result lists have no duplicates, are disjoint and cover the input |
| QueueOrder.ShuffleQueues | internal/taskmq/worker/worker.go:276-322 | for all draws a permutation of the names, the one the draws select; both fallback branches are unreachable |
| QueueOrder.RoundIsFair | internal/taskmq/worker/worker.go:280-318 | in each round exactly weight-many draws select a given queue, and every draw selects exactly one |
| QueueOrder.ShuffleIsFair | internal/taskmq/worker/worker.go:276-322 | exactly product-of-the-weights many draw sequences lead to each order |
| QueueOrder.DrawsDeterminePicks | internal/taskmq/worker/worker.go:276-322 | the draws determine the order |
| QueueOrder.SortQueues | internal/taskmq/worker/worker.go:324-337 | the names of some permutation of the queues in descending weight |

## Left out

- Protocol.AtLeastOnce: does not cover StreamMaxLen trimming, administrative purges, cancellation of delayed tasks, or the replacement of a cron job, which removes the delayed run of the old one (internal/taskmq/client/scripts/register_cron.lua:32-34): all remove tasks by design. Of consumer removals and two-read trim thresholds its runs take the safe ones; the others can lose tasks, and Janitor.DelConsumerSafeIff and Janitor.TwoReadsSafeIff say exactly which. A task an age purge removes counts as dropped by a limit even when it was dead-lettered again after the purge's read and is younger than the cutoff (DeadLetterIndex.PurgeRemovesWhatItRead).
- UniqueLocks.AtMostOneLivePerKey: does not cover cron runs and dead-letter retries of a live ID, which bypass the lock or pass it by carrying the same ID; the admission scripts accept a unique enqueue whose ID already holds the lock.
- Pipeline.ConsumeContext.UniqueLockWatchdogMiddleware: does not model the renewal ticker; renewals are protocol steps at any time.
- Janitor.ClaimsTheIdle: does not model entries deleted from the stream while pending, which a claim drops instead of returning; the protocol's reclaim step does.
- Scheduler.PromoteReadyTasks: a failing reschedule call, which the source ignores, counts as a spec without a next run; does not model a clock that moves during the loop, nor other writers; with them the loop may go on as long as tasks keep falling due.
- Scheduler.SleepNeverOvershoots: does not model scores beyond the exact integers of a double.
- DeadLetters.RetryAllDeadLetters: does not model a failing delete, after which a task is enqueued but stays a dead letter.
- BulkEnqueue.EnqueueBulk: does not model the queues' contents; each command's reply is free.
- QueueOrder.SortQueues: models the library sort by the insertion sort it uses on short slices; on long ones equal weights may come out in another order.
- RateLimiter.RateBound: does not model the rounding of doubles or the text form of the TAT.
- RetryBudget.BackoffInRangeIff: does not model the conversion of powers of two beyond int64, which Go leaves to the implementation; the exact product's low 64 bits are taken.
- RetryBudget.BackoffIsCappedIff: does not model jitter, which draws a delay below the one stated, nor that conversion.
- Janitor.PurgeDLQByAge: models rounds that nothing disturbs; what interleaving steps do is stated of the protocol's purge steps in DeadLetterIndex.
- The admission scripts for delayed tasks and the forced promotion are functions on the queue's value, not methods; they have one branch each.
- The JSON codec, field inspection, cron spec parsing and InspectField: they rest on libraries.
- Meta, events and metrics writes, logging, heartbeats, HTTP, gRPC and the CLI: not part of settlement.
- Goroutines, contexts, timeouts and the pause and cancel hubs: free steps, or part of the handler's outcome.
- Cancelled-delayed purge: it pages by rank while deleting and promises no completeness.
- Reuse of consume contexts from their pool: a fresh context is modelled.
- Several consumer groups on one stream.
