# Wildframe: verified models of the concurrency and ledger core

Wildframe is a set of services over PostgreSQL, Kafka, Redis and Elasticsearch. This project models
the parts of it whose correctness depends on interleavings, crashes and sums, and proves what they
promise. It is written for Dafny 4.11; `dafny verify dfyconfig.toml` checks all of it.

| file | part | main results |
|---|---|---|
| `WebhookInbox.dfy` | Stripe webhook inbox | `Arbitration`, `EligibleIsWonExactly`, `HandlersHoldDistinctClaims`, `ProcessedForever` |
| `Refunds.dfy` | refund reconciliation | `Conservation`, `RefundBounds`, `NoOverlapNoLeak`, `OverlapCanLeak`, `WhatIsLeftIsProcessed` |
| `Subscriptions.dfy` | subscription sync | `OrderIsIrrelevantExactly`, `DistinctTimesConverge` |
| `Milestones.dfy` | milestone tranches | `Conservation`, `KilledForever`, `StoredSplitAddsUpExactly` |
| `EventEnvelope.dfy` | event envelope | `ValidExactlyWhenSafe`, `ReadsBackExactly`, `NestedDeadLettersSurvive` |
| `EventConsumer.dfy` | event consumer | `KafkaEventSubscriber.Run`, `KafkaEventSubscriber.ProcessMessage`, `KeysAreSharedExactly` |
| `MediaPipeline.dfy` | `advance` of a pipeline job | `MediaPipelineService.Run`, `MediaPipelineService.CommittedStates` |
| `PipelineConcurrency.dfy` | concurrent `advance` calls | `CountersAreExact`, `Track`, `OneWorkerPerJob`, `GlobalIsSumOfContents` |
| `UploadSessions.dfy` | chunked uploads | `CommittedSessionsAreConsistent`, `CompleteIsVerified`, `EndsAreFinal` |
| `SearchReindex.dfy` | search index lifecycle | `SearchService.Run`, `SearchService.ReindexCatalog` |
| `RateLimiter.dfy` | gateway rate limiter | `SlidingWindow`, `AdmissionBound`, `BoundIsReached` |
| `CreatorPayouts.dfy` | creator payouts | `Conservation`, `OneRowEach`, `EveryRowIsFair` |
| `Prelude.dfy` | option and result types | |

## How the models are built

Where the source changes fields or rows, the model is a class whose methods follow the source's
branches and loops, with a contract that ties the new state to the old one. Where the point is
what happens when operations interleave, a step machine runs beside the class: a total function
`Next` performs one atomic step of one worker (one SQL statement, one Redis command, or what lies
between two awaits), `Run` performs any sequence of steps, and every theorem about `Run` is about
every interleaving, because the sequence is arbitrary and a step that does not apply changes
nothing. `Uninterrupted…` lemmas tie the two together: a transaction that nobody disturbs does
what the class does. Crashes and cancellations are steps, or, in the consumer, the pipeline and the
search service, a script of answers that may end at any await.

PostgreSQL is taken at READ COMMITTED: uncommitted writes are private, an UPDATE or
`SELECT … FOR UPDATE` holds the row until commit or rollback, an INSERT meets the unique
constraint. Redis commands are atomic and Elasticsearch applies one alias update atomically. Clock
readings, storage answers, Stripe answers and handler results are parameters.

## What the code does differently from its documentation

- Refunds: `create` may find the row of a call that committed in between and return it after its own
  `apply_to_invoice`, without undoing that update. The refunded amount then exceeds the recorded
  refunds; `Refunds.OverlapCanLeak` is such a run and `Refunds.RefundBounds` says it is the only way.
- Milestones: the commitment and the four amounts are rounded to cents one by one. For whole cents they
  add up exactly when the last digit is not 1, 5 or 9 (`Milestones.WholeCentsAddUpExactly`); the request
  also accepts fractions of a cent (services/billing-service/app/api/billing_routes.py:216), and
  `Milestones.StoredSplitAddsUpExactly` gives the exact condition for those. A commitment of 1.5 cents is
  stored as 2 and split into 1. Conservation over runs holds of the stored amounts.
- Pipeline: the documentation of `advance` says a job stops when a circuit breaker is open; the check
  runs outside the inner `try`, so the exception leaves the job RUNNING and commits the stages it has.
  A skipped stage is recorded and announced like one that succeeded. The topic `content.packaged` is both
  the success topic of the HLS stage and that of the joint event, so it can appear twice in an outbox.
- Uploads: the documentation of `compute_chunk_plan` speaks of clamping the number of chunks; the code refuses the plan.
- Consumer: event ids and business keys share one name space in the deduplication store. An id that begins
  with `idem:`, or a topic with a colon, can make two different events share a key, and the second is then
  skipped as a duplicate (`EventConsumer.StrangersCanShareAKey`); no others do (`EventConsumer.KeysAreSharedExactly`).
- Creators: the service computes an idempotency key from timestamps as given; the ledger ignores it and
  builds its own from the UTC-normalised period.
- Rate limiter: a window of any position holds at most 2·limit − 1 counted admissions, one less than two full lifetimes.

## Model

| member | source | states |
|---|---|---|
| WebhookInbox.WebhookEventRepository.Claim | services/billing-service/app/repositories.py:113-176 | a claim wins exactly an absent row, a FAILED one with fewer attempts than the maximum, or a PROCESSING one whose lease has run out, and then takes the next attempt number |
| WebhookInbox.WebhookEventRepository.Complete | services/billing-service/app/repositories.py:178-189 | only a PROCESSING row becomes PROCESSED |
| WebhookInbox.WebhookEventRepository.Fail | services/billing-service/app/repositories.py:191-202 | only a PROCESSING row becomes FAILED, with the error clipped to 500 characters |
| WebhookInbox.AttemptsFixClaimTime | services/billing-service/app/repositories.py:133-176 | `attempts` counts the claims of the history and fixes `claimed_at`, so the guarded UPDATE cannot be fooled by a row that changed and changed back |
| WebhookInbox.RunKeepsInv | services/billing-service/app/repositories.py:113-202 | the invariant behind the results, for every interleaving; the history of claims and ends is only added to |
| WebhookInbox.Arbitration | services/billing-service/app/repositories.py:113-202 | in every interleaving of any number of workers, claims are numbered 1, 2, 3, …, two claims without a failure between them are at least a lease apart, a reclaim after a failure stays within the maximum, and nothing follows completion |
| WebhookInbox.ConsecutiveClaims | services/billing-service/app/repositories.py:133-176 | what the guard proves about two consecutive claims: a failure between them or a full lease |
| WebhookInbox.HandlersHoldDistinctClaims | services/billing-service/app/api/webhook_routes.py:547-579 | no two workers handle the event under the same claim number |
| WebhookInbox.RowFollowsLog | services/billing-service/app/repositories.py:113-202 | the committed row is what the history of claims and ends says |
| WebhookInbox.ProcessedForever | services/billing-service/app/repositories.py:133-202 | PROCESSED is absorbing after any run, under any further run |
| WebhookInbox.UninterruptedClaim | services/billing-service/app/repositories.py:113-176 | insert, reread, guarded UPDATE and commit without interference are the repository's `claim` |
| WebhookInbox.EligibleIsWonExactly | services/billing-service/app/repositories.py:113-176 | from any reachable state with the row unlocked, an idle worker's claim takes the next number exactly when the row is absent, FAILED with attempts left, or PROCESSING with its lease run out |
| WebhookInbox.RetriesReachTheBound | services/billing-service/app/repositories.py:149-160 | an event that always fails is claimed up to the maximum, and no more however often it is tried |
| WebhookInbox.DeadWorkersLockNothing | services/billing-service/app/repositories.py:113-202 | a worker that dies leaves the row as it was and unlocked |
| WebhookInbox.UninterruptedFinish | services/billing-service/app/repositories.py:178-202 | complete or fail with its commit, without interference, are the repository's |
| Refunds.RefundDesk.Lookup | services/billing-service/app/repositories.py:522-525 | finds the row of a refund id exactly when there is one |
| Refunds.RefundDesk.ApplyToInvoice | services/billing-service/app/repositories.py:564-583 | moves the invoice by the amount exactly when the total stays between zero and the invoice amount, that amount included |
| Refunds.RefundDesk.Create | services/billing-service/app/repositories.py:527-562 | inserts once per refund id, else returns the recorded row |
| Refunds.RefundDesk.ProcessRefund | services/billing-service/app/services.py:381-577 | one call alone: PROCESSED exactly when Stripe agrees, invoice and currency match and the amount fits, and only then the invoice moves, by the amount |
| Refunds.Conservation | services/billing-service/app/services.py:381-577 | in every interleaving, with deadlock retries and rollbacks, the refunded amount is the PROCESSED refunds plus the leaked updates, lies within the invoice, and refund ids are unique |
| Refunds.RefundBounds | services/billing-service/app/services.py:381-577 | with positive amounts, PROCESSED refunds ≤ refunded amount ≤ invoice amount, the first an equality exactly when no call leaked |
| Refunds.NoOverlapNoLeak | services/billing-service/app/repositories.py:527-562 | when calls for one refund id never overlap, PROCESSED refunds and refunded amount are equal, replays included |
| Refunds.ReplayChangesNothing | services/billing-service/app/services.py:381-577 | a call for a recorded refund changes nothing |
| Refunds.UninterruptedCall | services/billing-service/app/services.py:381-577 | an undisturbed transaction reconciles as `ProcessRefund` does |
| Refunds.WhatIsLeftIsProcessed | services/billing-service/app/repositories.py:564-583 | the boundary, from any reachable state: an undisturbed refund of up to what is left is PROCESSED, of exactly what is left refunds the invoice in full, and of more is REJECTED and moves nothing |
| Refunds.OverlapCanLeak | services/billing-service/app/repositories.py:540-562 | two overlapping deliveries of one refund of 10 move the invoice by 20 |
| Refunds.DeadlockKeepsInv | services/billing-service/app/repositories.py:50-89 | rolling back and retrying the UPDATE after a deadlock forgets all that the transaction wrote, and loses and duplicates nothing |
| Subscriptions.Subscription.SyncFromStripe | services/billing-service/app/services.py:338-379 | one event: an older or unrecognised one changes nothing; `active` activates, `canceled`, `unpaid` and `incomplete_expired` cancel, both set the time, and only a change to cancelled resets tier and price |
| Subscriptions.Subscription.Subscribe | services/billing-service/app/services.py:202-237 | subscribing to the same tier changes nothing, to another activates it at that tier's price |
| Subscriptions.Subscription.Cancel | services/billing-service/app/services.py:239-257 | cancelling is idempotent and falls back to the free tier |
| Subscriptions.GreatestTimestampWins | services/billing-service/app/services.py:338-379 | after any deliveries, the event with the greatest time decides status and activity |
| Subscriptions.LatestEventDecides | services/billing-service/app/services.py:338-379 | the same in Stripe's own statuses: whether the latest recognised event says `active` decides, and a cancelled subscription is free |
| Subscriptions.DistinctTimesConverge | services/billing-service/app/services.py:338-379 | with distinct times, any order with any duplication ends in the same status, activity and time |
| Subscriptions.OrderIsIrrelevantExactly | services/billing-service/app/services.py:338-379 | the end is the same for every order and duplication exactly when the latest recognised events agree |
| Subscriptions.DisagreementDiverges | services/billing-service/app/services.py:338-379 | when they disagree, some redelivery order ends differently |
| Milestones.Milestone.constructor | services/billing-service/app/repositories.py:415-436 | a new milestone has four locked tranches of 10, 20, 30 and 40 percent of the commitment as given, each rounded to cents on its own |
| Milestones.CreatedInTenths | services/billing-service/app/repositories.py:426-435 | the tranches are one, two, three and four tenths of the commitment, in this order |
| Milestones.StoredIsNearest | services/billing-service/app/models/__init__.py:446-465 | what a column stores is the nearest number of cents, and a tie goes away from zero |
| Milestones.Milestone.Accrue | services/billing-service/app/repositories.py:463-497 | one payout per key; a second accrual returns the first |
| Milestones.Milestone.ReleaseTranche | services/billing-service/app/services.py:643-685 | a release fails with the first of: not authorized, killed, no such tranche, reverted tranche, and then changes nothing; else it releases that tranche and pays it unless its key is paid |
| Milestones.Milestone.Kill | services/billing-service/app/services.py:687-718 | a kill reverts exactly the locked tranches |
| Milestones.Conservation | services/billing-service/app/services.py:624-718 | over any serial run, locked, released and reverted money add up to the original tranches, payouts are the released money, and a killed milestone locks nothing |
| Milestones.KilledForever | services/billing-service/app/services.py:643-718 | after a kill no release or kill changes anything |
| Milestones.PayoutsNeverChange | services/billing-service/app/repositories.py:463-497 | a paid tranche keeps its one payout over every later run |
| Milestones.ExactSplitAddsUp | services/billing-service/app/repositories.py:404-436 | the unrounded amounts add up to the commitment |
| Milestones.StoredSplitAddsUpExactly | services/billing-service/app/models/__init__.py:446-465 | the amounts as the columns store them add up to the stored commitment exactly when the commitment's last digit of cents, with any fraction of a cent, lies in the ranges of `SplitFits` |
| Milestones.WholeCentsAddUpExactly | services/billing-service/app/models/__init__.py:446-465 | a commitment of whole cents: they add up exactly when its last digit is not 1, 5 or 9 |
| Milestones.FractionsCanLoseACent | services/billing-service/app/repositories.py:415-436 | 1.5 cents are stored as 2 and split into 1 |
| EventEnvelope.ValidExactlyWhenSafe | packages/sdk/wildframe_events/event.py:92-132 | a payload passes exactly when no value at any depth is non-finite, unsupported, or under a secret or non-text key |
| EventEnvelope.SecretExactly | packages/sdk/wildframe_events/event.py:69-119 | a key is secret exactly when it is one of the listed names, in any case and after any number of underscores |
| EventEnvelope.AcceptedExactly | packages/sdk/wildframe_events/event.py:237-312 | which dictionaries are accepted, entry by entry |
| EventEnvelope.NewerVersionExactly | packages/sdk/wildframe_events/event.py:268-278 | a version that is too new is told apart from a malformed envelope |
| EventEnvelope.AbsentEntriesGetDefaults | packages/sdk/wildframe_events/event.py:268-312 | what absent entries are read as |
| EventEnvelope.FalsyIdsAreReplaced | packages/sdk/wildframe_events/event.py:302-306 | which ids are replaced by a new one |
| EventEnvelope.AcceptedIsWellFormed | packages/sdk/wildframe_events/event.py:237-312 | what an accepted envelope satisfies |
| EventEnvelope.ReadsBackExactly | packages/sdk/wildframe_events/event.py:211-312 | reading back what was written returns the event exactly when the event is well formed |
| EventEnvelope.RoundTrip | packages/sdk/wildframe_events/event.py:211-312 | every accepted envelope survives writing and reading, with another clock and id source |
| EventEnvelope.UnknownEntriesAreIgnored | packages/sdk/wildframe_events/event.py:237-312 | an entry with an unknown name makes no difference wherever it stands |
| EventEnvelope.DeadLetterValidExactly | packages/sdk/wildframe_events/subscriber.py:572-590 | a dead letter's payload passes validation exactly when the original's unchecked identifiers do |
| EventEnvelope.TrimmedDeadLetterIsValid | packages/sdk/wildframe_events/subscriber.py:592-606 | without `original_event` it always passes |
| EventEnvelope.NestedDeadLettersSurvive | packages/sdk/wildframe_events/subscriber.py:572-590 | dead-lettering to any depth keeps the envelope valid and readable as itself |
| EventEnvelope.DeadLetterKeepsOriginal | packages/sdk/wildframe_events/subscriber.py:572-590 | the wrapped original reads back as the event |
| EventEnvelope.DeadLetterTells | packages/sdk/wildframe_events/subscriber.py:572-590 | topic, key, producer and every entry of a dead letter |
| EventConsumer.KafkaEventSubscriber.CallHandler | packages/sdk/wildframe_events/subscriber.py:87-110 | one attempt; an ImportError under a correlation id calls the handler again; the trace gains exactly this attempt, with its answer |
| EventConsumer.KafkaEventSubscriber.Backoff | packages/sdk/wildframe_events/subscriber.py:472-519 | every backoff is at most a minute |
| EventConsumer.KafkaEventSubscriber.PausesDoubleUpToAMinute | packages/sdk/wildframe_events/subscriber.py:502-506 | the first pause is the base, every later one twice the one before, and none exceeds a minute |
| EventConsumer.KafkaEventSubscriber.RunHandler | packages/sdk/wildframe_events/subscriber.py:472-519 | one handler ends within its own budget: the trace gains its failed attempts and then a success, or a last failure with its dead letter, permanent exactly when that failure was; the pauses are the backoffs in order |
| EventConsumer.KafkaEventSubscriber.OneAttempt | packages/sdk/wildframe_events/subscriber.py:482-518 | one attempt settles the handler, by success, permanent failure or spent budget, or is followed by a pause and leaves one more failed attempt |
| EventConsumer.KafkaEventSubscriber.Dispatch | packages/sdk/wildframe_events/subscriber.py:472-519 | every handler of the topic runs, one after the other, each with its own budget and an outcome that its own attempts in the trace justify |
| EventConsumer.KafkaEventSubscriber.PublishDlq | packages/sdk/wildframe_events/subscriber.py:592-627 | publishing a dead letter never raises, and only an oversized one is sent again |
| EventConsumer.KafkaEventSubscriber.QuarantineRaw | packages/sdk/wildframe_events/subscriber.py:545-570 | an unreadable message is quarantined, under its own partition and offset |
| EventConsumer.KafkaEventSubscriber.CheckStore | packages/sdk/wildframe_events/subscriber.py:402-466 | a known key ends the check and is marked, and otherwise none of the event's keys is |
| EventConsumer.KeysAreSharedExactly | packages/sdk/wildframe_events/subscriber.py:402-409 | two events of topics without a colon share a deduplication key exactly when they agree on the topic and on the id or the business key, or the id of one spells out the business key of the other |
| EventConsumer.AlikeByIdOrBusinessKey | packages/sdk/wildframe_events/subscriber.py:402-409 | the last case needs an id that begins with `idem:` |
| EventConsumer.StrangersCanShareAKey | packages/sdk/wildframe_events/subscriber.py:402-409 | such an id, or a topic with a colon, does make two different events share a key |
| EventConsumer.KafkaEventSubscriber.MarkStore | packages/sdk/wildframe_events/subscriber.py:453-466 | the keys of a fully dispatched event are marked, all of them on a normal end, and every mark rests on that dispatch |
| EventConsumer.KafkaEventSubscriber.DispatchAndMark | packages/sdk/wildframe_events/subscriber.py:440-466 | an unmarked event is fully dispatched and only then marked; a process that dies in between leaves no mark without a dispatch behind it |
| EventConsumer.KafkaEventSubscriber.ProcessMessage | packages/sdk/wildframe_events/subscriber.py:411-470 | however a message ends, everything committed is dealt with; with a readable key, an object payload and stores and broker that answer, it reaches its commit whatever the handlers raise |
| EventConsumer.KafkaEventSubscriber.OneMessage | packages/sdk/wildframe_events/subscriber.py:411-470 | the same from fetch to end, with the end on record and no more attempts than answers |
| EventConsumer.KafkaEventSubscriber.PollOne | packages/sdk/wildframe_events/subscriber.py:363-400 | a message ends with the positions equal to the committed offsets: one further after a success, back where the last commit left them after a failure |
| EventConsumer.KafkaEventSubscriber.Run | packages/sdk/wildframe_events/subscriber.py:363-470 | over every run, each offset below the committed one was, while it was processed, quarantined itself, or found under an unlapsed mark of a fully dispatched event of the same topic and the same id or business key, or fully dispatched, with the attempts of every handler in the trace as evidence; offsets never go back; handlers run only within their event's dispatch and their budget; and with a store a key is dispatched at most once more than its dispatches were interrupted and its marks lapsed |
| EventConsumer.NothingLapsed | packages/sdk/wildframe_events/subscriber.py:453-459 | marks lapse only when a lookup finds one expired |
| EventConsumer.WorkedKeepsAccounts | packages/sdk/wildframe_events/subscriber.py:472-519 | handlers neither begin nor end a dispatch, of any key |
| MediaPipeline.MediaPipelineService.FailJob | services/media-pipeline/app/services.py:832-856 | the failed status and its dead-letter event are committed together or not at all |
| MediaPipeline.MediaPipelineService.Attempt | services/media-pipeline/app/services.py:751-806 | one attempt with its pause: what it adds to the retry time, and why the loop goes on or ends |
| MediaPipeline.MediaPipelineService.Attempts | services/media-pipeline/app/services.py:745-806 | the attempt loop: its tries, its exact accounting and its bounded pauses |
| MediaPipeline.MediaPipelineService.RunStageWithRetries | services/media-pipeline/app/services.py:729-830 | at most `max_attempts` runs, normal returns below the retry-time cap, pauses below both backoff bounds, and only an exhausted critical stage fails the job |
| MediaPipeline.DelaysDoubling | services/media-pipeline/app/services.py:798-806 | n pauses sum to at most base·2ⁿ − base |
| MediaPipeline.DelaysCapped | services/media-pipeline/app/services.py:798-806 | n pauses sum to at most n times the backoff cap |
| MediaPipeline.PausesDoubleUpToTheCap | services/media-pipeline/app/services.py:798-806 | the first pause is the base, every later one twice the one before, and none exceeds the cap |
| MediaPipeline.DelaysBelowTheCap | services/media-pipeline/app/services.py:798-806 | below the cap, the bound on n pauses is attained |
| MediaPipeline.MediaPipelineService.PerformStage | services/media-pipeline/app/services.py:600-689 | one turn of the stage loop: the stage is recorded with its event once it earned it, and its retry time is accounted for, or the call ends, with the row still sound, because the breaker is open, the stage was cancelled, or its runs doom the job; with a closed breaker and a success it is recorded |
| MediaPipeline.MediaPipelineService.WalkStages | services/media-pipeline/app/services.py:600-689 | the loop runs only stages that are not recorded, records a prefix of the order, and stops early only at the first unrecorded stage and for the reason it gives; when nothing stands in the way it reaches the end |
| MediaPipeline.MediaPipelineService.RunStages | services/media-pipeline/app/services.py:600-717 | the walk and the completion: COMPLETED below the retry-time cap, or stopped at the first unrecorded stage because of it |
| MediaPipeline.MediaPipelineService.Complete | services/media-pipeline/app/services.py:691-717 | completion is committed with its final events, the joint packaging event among them if both stages are recorded, or not at all |
| MediaPipeline.MediaPipelineService.RecordStage | services/media-pipeline/app/services.py:664-689 | recording the next stage, with its reset counters and its success event, keeps the prefix and event invariant, one stage further |
| MediaPipeline.MediaPipelineService.Proceed | services/media-pipeline/app/services.py:560-727 | what a call does once it has the lease: fail a job with spent retry time, give up at full counters, or walk the stages until the job is COMPLETED or its first unrecorded stage gives a reason to stop; answers that are all successes complete the job; and always give the lease back |
| MediaPipeline.MediaPipelineService.Advance | services/media-pipeline/app/services.py:537-727 | one call, dying anywhere: the committed state stays sound, progress is never lost, recorded stages do not run again, exactly which calls are turned away, what the others achieve or what stopped them, and what the row is after each way of ending |
| MediaPipeline.MediaPipelineService.Run | services/media-pipeline/app/services.py:537-727 | the same over any number of calls; and whatever happened before, one call by a new worker that nothing disturbs ends the job unless a lease is still fresh |
| MediaPipeline.MediaPipelineService.CommittedStates | services/media-pipeline/app/services.py:600-727 | in every committed state the recorded stages are a prefix, COMPLETED means all of them, every recorded critical stage really succeeded, and the outbox holds exactly the events the row calls for, the joint `content.packaged` of both packaging stages right before `content.published` |
| MediaPipeline.OutboxMatchesJob | services/media-pipeline/app/repositories.py:79-86 | one success event per recorded stage that has one, one `content.published` iff COMPLETED, one joint `content.packaged` before it iff both packaging stages are recorded too, one `content.pipeline.failed` iff FAILED |
| MediaPipeline.StageEarned | services/media-pipeline/app/services.py:664-675 | what entitles a stage to its record |
| PipelineConcurrency.ActiveJobs.WithinLimits | services/media-pipeline/app/services.py:296-314 | the check passes exactly when no positive limit of the job's counters is reached |
| PipelineConcurrency.ActiveJobs.Increment | services/media-pipeline/app/services.py:348-352 | exactly the job's counters go up by one |
| PipelineConcurrency.ActiveJobs.Decrement | services/media-pipeline/app/services.py:354-362 | exactly the job's counters go down by one, but not below zero |
| PipelineConcurrency.Follow | services/media-pipeline/app/services.py:589-727 | every action of the machine, in any process, leaves the counter object of a process with the counters that the machine gives it, and its check passes exactly when the machine admits |
| PipelineConcurrency.Track | services/media-pipeline/app/services.py:296-362 | through any run the counter object of a process counts exactly its tasks inside the guarded region |
| PipelineConcurrency.CountersAreExact | services/media-pipeline/app/services.py:589-727 | in every interleaving each counter is the number of tasks inside the guarded region, and no positive limit is exceeded |
| PipelineConcurrency.ClampIsIdle | services/media-pipeline/app/services.py:354-362 | whoever leaves the region finds its counters at one or more |
| PipelineConcurrency.GlobalIsSumOfContents | services/media-pipeline/app/services.py:348-362 | the global counter is the sum of the per-content counters |
| PipelineConcurrency.OneWorkerPerJob | services/media-pipeline/app/repositories.py:33-40 | no two tasks of any processes hold the same job at once |
| PipelineConcurrency.FinishedIsLeftAlone | services/media-pipeline/app/services.py:316-333 | nobody runs a stage of a job whose end is committed |
| PipelineConcurrency.FinishedStays | services/media-pipeline/app/services.py:543-550 | a committed end is final |
| UploadSessions.ComputeChunkPlan | services/uploads-service/app/services.py:110-131 | a plan exists exactly for a positive chunk size and a size within both limits, and then all chunks but the last are full and the last is not empty |
| UploadSessions.ExpectedSizeInRange | services/uploads-service/app/services.py:307-312 | every expected chunk size is between one and the chunk size |
| UploadSessions.ExpectedSizesAddUp | services/uploads-service/app/services.py:307-312 | the expected sizes add up to the object |
| UploadSessions.UploadService.CreateSession | services/uploads-service/app/services.py:137-184 | an acceptable plan is stored, any other stores nothing |
| UploadSessions.UploadService.RegisterChunk | services/uploads-service/app/services.py:227-305 | a chunk is registered exactly when the session is open and in time, the index is in range and new, and storage has the size that its place calls for; else with the first error in the source's order |
| UploadSessions.UploadService.CompleteSession | services/uploads-service/app/services.py:318-413 | a session that is not complete yet becomes so exactly when it is neither aborted nor expired, holds exactly the chunks 0..total−1, storage assembled it, and a declared checksum equals the digest storage found; that digest is stored and announced in one event; completing again changes nothing |
| UploadSessions.UploadService.Abort | services/uploads-service/app/services.py:419-474 | an abort writes one event, and again only cleans up |
| UploadSessions.UploadService.ReapExpired | services/uploads-service/app/services.py:508-535 | exactly the unlocked stale sessions are aborted and the unlocked leftovers cleaned, and the count says how many |
| UploadSessions.ReapedExactly | services/uploads-service/app/services.py:508-535 | what the reaper makes of one session |
| UploadSessions.CommittedSessionsAreConsistent | services/uploads-service/app/services.py:227-535 | in every interleaving of transactions, with rollbacks anywhere, one `content.uploaded` iff COMPLETE, one `content.uploaded.aborted` iff ABORTED, and a complete session has exactly the chunks 0..total−1 summing to its size |
| UploadSessions.EndsAreFinal | services/uploads-service/app/services.py:246-451 | COMPLETE and ABORTED are absorbing: status, chunks, checksum and outbox never change again |
| UploadSessions.CompleteIsVerified | services/uploads-service/app/services.py:361-404 | in every interleaving, a complete session stores and announces the digest that storage answered to the call that completed it, in time, and a checksum declared at creation is that digest |
| UploadSessions.EverythingWasAskedFor | services/uploads-service/app/services.py:227-535 | in every interleaving, every chunk was registered in time with the size storage had, and every abort was requested or came after expiry |
| UploadSessions.UninterruptedTransaction | services/uploads-service/app/repositories.py:42-49 | lock, operate, commit without interference is the operation |
| SearchReindex.SearchService.AliasTarget | services/search-service/app/services.py:263-273 | the one index behind the alias, or none |
| SearchReindex.SearchService.EnsureIndex | services/search-service/app/services.py:229-261 | the live index, or the first one created or adopted; a legacy index stops it |
| SearchReindex.SearchService.NextVersion | services/search-service/app/services.py:275-293 | one more than the live version, or than the greatest version in sight when the listing works |
| SearchReindex.SearchService.CollectBulkFailures | services/search-service/app/services.py:506-515 | exactly the rejected ids |
| SearchReindex.SearchService.BulkIndex | services/search-service/app/services.py:479-504 | a normal return means every item has its document, with unique ids the right one, and nothing else is in a new index; rejections in the first pass alone do not prevent it |
| SearchReindex.SearchService.RetryFailed | services/search-service/app/services.py:491-504 | the retry pass sends the failed items again, and returns normally only when nothing is rejected |
| SearchReindex.SearchService.BuildIndex | services/search-service/app/services.py:436-458 | the new index is filled out of sight of the live one; if that fails, or the catalog is empty, it is deleted again |
| SearchReindex.SearchService.SwitchOver | services/search-service/app/services.py:460-474 | the switch moves the alias in one step, and an ambiguous answer keeps both indices |
| SearchReindex.SearchService.ReindexCatalog | services/search-service/app/services.py:422-477 | however it ends, the alias names one existing index, and an index that it did not name before is the untouched first one or holds the catalog, all of it and nothing else; a normal return switches exactly for a non-empty catalog; when every call works it returns and the replaced index is gone |
| SearchReindex.JustifiedOn | services/search-service/app/services.py:422-477 | what justifies the live index carries over consecutive operations |
| SearchReindex.SearchService.DeleteIndex | services/search-service/app/services.py:542-556 | only versioned indices other than the live one are deleted |
| SearchReindex.SearchService.Run | services/search-service/app/services.py:229-556 | over every run, from any live cluster: once set the alias names exactly one existing index, whose version never decreases, and the live index is as it was, or is the untouched first one, or holds exactly a catalog that one of the reindexing calls was given |
| RateLimiter.Limiter.CheckKey | services/api-gateway/app/middleware.py:267-278 | one request alone: admitted exactly when its count is within the limit, or on an error unless the service is `auth` |
| RateLimiter.LifetimeBound | services/api-gateway/app/middleware.py:267-278 | each lifetime of the key admits at most the limit |
| RateLimiter.SlidingWindow | services/api-gateway/app/middleware.py:267-278 | every half-open interval as long as the window holds at most 2·limit − 1 counted admissions, in every interleaving and with lost commands |
| RateLimiter.BoundIsReached | services/api-gateway/app/middleware.py:267-278 | that bound is attained, for every limit of at least one and every window of more than one second |
| RateLimiter.AdmissionBound | services/api-gateway/app/middleware.py:267-278 | all admissions: `auth` keeps the bound whatever fails, other services exceed it by at most the lost commands |
| RateLimiter.ErrorsAreLetThrough | services/api-gateway/app/middleware.py:267-278 | a lost command lets its request through at once, unless the service is `auth` |
| RateLimiter.WindowMeetsTwoLives | services/api-gateway/app/middleware.py:267-278 | a window meets at most two lifetimes of the key |
| CreatorPayouts.PayoutIsFair | services/creators-service/app/services.py:143-168 | the share is the better of floor and earnings, the 55 percent assertion cannot fail, and the pool covers at most the top-up |
| CreatorPayouts.FloorCountsWholeCents | services/creators-service/app/services.py:148-155 | the floor counts the whole cents of the amount per minute for every minute watched |
| CreatorPayouts.PoolPaysItsRate | services/creators-service/app/services.py:157-158 | the pool pays its rate of the top-up without the fraction, at any rate |
| CreatorPayouts.CreatorService.ComputePayout | services/creators-service/app/services.py:143-168 | the amounts of one period are fair: the share is the better of floor and earnings, the net is the share less the fee, the 55 percent assertion cannot fail, and the pool pays its rate of the top-up, rounded down |
| CreatorPayouts.CreatorService.AccruePayout | services/creators-service/app/services.py:105-186 | one accrual for an active creator, over the UTC instants of its period, of the fair amounts of the call |
| CreatorPayouts.CreatorService.InsertOnce | services/creators-service/app/repositories.py:270-345 | an acceptable period of an active creator is appended and credited once, and answered with the recorded row from then on; any other is refused and changes nothing |
| CreatorPayouts.CreatorService.RecordContribution | services/creators-service/app/repositories.py:134-148 | a contribution moves only the contributed balance |
| CreatorPayouts.ReplayChangesNothing | services/creators-service/app/repositories.py:319-340 | accruing a period again changes nothing and returns the first row |
| CreatorPayouts.Conservation | services/creators-service/app/repositories.py:150-160 | in every interleaving of accruals and contributions, a creator's accrued balance is the sum of its ledger's pool top-ups |
| CreatorPayouts.OneRowEach | services/creators-service/app/repositories.py:270-345 | one row per creator and UTC period, none that should have been refused |
| CreatorPayouts.EveryRowIsFair | services/creators-service/app/services.py:105-186 | in every interleaving, every ledger row is the fair payout of some call for its creator, period and view minutes |
| CreatorPayouts.NoRowForTheSuspended | services/creators-service/app/repositories.py:294-306 | in every interleaving, a row enters the ledger only while its creator is active |
| CreatorPayouts.LedgerOnlyGrows | services/creators-service/app/repositories.py:270-345 | rows are never changed or removed |
| CreatorPayouts.UninterruptedAccrual | services/creators-service/app/repositories.py:270-345 | an undisturbed accrual is the serial one |

## Left out

- WebhookInbox.WebhookEventRepository.Complete: is not fenced by claim number, as in the source: a stale worker can finish a newer claim, and stale reclaims are not bounded by the maximum.
- WebhookInbox.HandlersHoldDistinctClaims: the handlers' own work is not modelled, only their claims and ends.
- Refunds.RefundDesk.ProcessRefund: the chain of lookups for the invoice is one resolved target, and currencies are compared after normalisation.
- Refunds.Conservation: `apply_to_invoice` sets REFUNDED from any state; the invoice's own transition table is not modelled.
- Subscriptions.OrderIsIrrelevantExactly: says nothing of the tier, price and cancellation time, which do depend on the order.
- Milestones.ExactSplitAddsUp: amounts are real numbers; the 28 digits of Python's Decimal context are not modelled.
- Milestones.Conservation: releases and kills are serial; concurrently the source has no lock between them. No other payout uses a tranche's key.
- EventEnvelope.ValidExactlyWhenSafe: lower-casing of keys is ASCII only, and Python's recursion limit is not modelled.
- EventEnvelope.ReadsBackExactly: JSON text is not modelled, and the timestamp parser is a parameter.
- EventConsumer.KafkaEventSubscriber.CheckStore: the time to live of marks appears as marks that may lapse at any lookup; a store that loses its marks is one whose marks lapse.
- EventConsumer.KafkaEventSubscriber.Run: a message with an undecodable key, or a non-object payload with a store, is retried forever as in the source; the events of one consumer are sequential; the size of a dead letter is an answer of its publisher.
- MediaPipeline.MediaPipelineService.Advance: cancellation is an answer of a stage or of a pause, not of a database flush, where the final commit could persist a stage without its event; a job always has a context; the job's start time, stage log, disk quota and temporary directories are not modelled.
- MediaPipeline.MediaPipelineService.RunStageWithRetries: times are real numbers and clock readings are the answers' durations.
- PipelineConcurrency.OneWorkerPerJob: rests on the row lock; the lease can only refuse a worker in addition, and stale-lease recovery is not modelled.
- PipelineConcurrency.CountersAreExact: a stage keeps the job's content and creator, and limits do not change during a run.
- UploadSessions.UploadService.CreateSession: file names, media types, storage-specific part sizes and presigned addresses are not modelled.
- UploadSessions.UploadService.CompleteSession: storage assembles and hashes the object; its answer is a digest or a failure.
- SearchReindex.SearchService.BulkIndex: an item and its document are one value, so the conversion of fields is not modelled.
- SearchReindex.SearchService.Run: operations are serial, the cluster starts with no alias or one that names one existing index, and live updates during a reindex are not modelled.
- SearchReindex.SearchService.NextVersion: index names are numbers, so names with leading zeros are not told apart.
- RateLimiter.Limiter.CheckKey: keys and limits are those of one dimension; the conjunction of dimensions, the "concurrency" counters and the gateway's global budget are not modelled. A lost command is applied at once or never.
- CreatorPayouts.PayoutIsFair: the pool rate multiplies exactly, without floating-point rounding.
- CreatorPayouts.Conservation: the 32-bit range of the columns is not modelled; an overflow is a rollback.
- Draining of the outboxes, stale-job recovery, purchases, invoices, search queries, notifications, moderation, recommendations, compliance data and all HTTP wiring are not modelled: they would add easier members, or work of libraries.
