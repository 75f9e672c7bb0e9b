# Verified models of the concurrency programs

The repository is a collection of independent Go programs about concurrency. This project models the ones whose
behaviour is a protocol, a state machine or a bounded data structure, and proves what they promise.

A concurrent program is modelled twice where its code is more than one lock region:

- as a state machine, one step for each lock region, channel operation, atomic operation, database call or end of a
  transaction. `Apply` is the effect of one step (a step that cannot happen changes nothing), `Exec` runs a list of steps
  from the start, and a theorem about `Exec` for every list of steps is a theorem about every interleaving;
- as a class or as methods with the loops of the source, whose contracts say that the code takes the steps of the state
  machine, or that its fields hold what a function of the inputs and the old fields says.

Beside the invariants, lemmas named `…Iff` and `…LeadsTo` say for the decisions of each machine exactly when they are taken, in
terms of what is observed rather than of the step functions.

Where a property that one would expect does not hold, the model keeps the code as it is, a lemma names an input, and
another says exactly when the property holds (`PlanExactIff`, `AtomicIff`, `GuaranteeIff`, `StaysInRangeIff`,
`StockNeverNegativeIff`, `SharedBucketIff`, `ResetWindowIsRegular`, `EntersAllIff`, `IdsAreUniqueIff`, `FlushIsSafeIff`,
`AdmitsIff`, `CanTripIff`, `CoversIff`).

| module | what it models |
|---|---|
| `GoInt` | int64 and int32 arithmetic that wraps, conversions, and loops over `range n + 1` |
| `Products` | products as a function, for bounds on sums |
| `ChunkPlan`, `Upsert`, `Migration`, `MigrationManager` | the resumable bulk migration: the plan in int64 arithmetic, the statements and their batches, the status table with workers, crashes and reruns, and the code of one run |
| `TwoPhaseCommit`, `TransactionCoordinator` | two-phase commit over three database transactions with row locks; the code of one coordinator |
| `PubSub`, `PubSubProgress`, `Subscription` | publish/subscribe with acknowledgements, retries, duplicates and ordering; that nothing gets stuck; the goroutine bodies of a subscriber |
| `TimeSeries` | the time-series store of the monitoring dashboard |
| `Pipeline` | the multi-stage pipeline with bounded channels |
| `RateLimiter` | two fixed windows for each client, with eviction |
| `WorkerPool` | the two pools whose blocking `submit` is protected from `close` by a read/write lock |
| `CircuitBreaker` | the breaker with generations |
| `SlidingWindow`, `AdvancedBreaker`, `FallbackManager` | the ring of results, the breaker with one probe, the fallback modes and slots |
| `StreamWindows` | sliding-window aggregation of a stream |
| `Reservations`, `Orders` | optimistic locking, and the order system with its history |
| `PriorityQueue` | the priority heap |
| `Statistics`, `GcPause` | the online mean and variance, and the longest new collector pause |

Time is an integer that does not decrease along a run unless a lemma says otherwise, floating-point numbers are reals, and
whatever a database, a handler, a request or a channel's reader may do is a choice of the step or a parameter of the
method (`faults`, `outcomes`, `accepts`, `done`). Identifiers that the source keeps as strings are numbers or small datatypes.
Where a message or a comment in the source and its code differ, the model follows the code: on a full channel
`assignEventToWindows` logs that it drops the window and keeps it, and a second `Stop` of a pool returns without waiting.

## Model

| member | source | states |
|---|---|---|
| ChunkPlan.PlanExactIff | 05_database_parallel_access_pattern/ans_03/bulk_migration.go:241-282 | The plan loop ends with chunks that cover [minID, maxID] exactly, in order and without gaps, if and only if its int64 additions do not overflow or, for a negative size, the first one wraps beyond maxID. |
| ChunkPlan.OverflowExample | 05_database_parallel_access_pattern/ans_03/bulk_migration.go:241-282 | A table whose last id is the largest int64 gets no exact plan. |
| ChunkPlan.CoverIsPartition | 05_database_parallel_access_pattern/ans_03/bulk_migration.go:241-282 | In such a plan every id of the range lies in exactly one chunk and no other id lies in any. |
| ChunkPlan.CreateChunkPlan | 05_database_parallel_access_pattern/ans_03/bulk_migration.go:241-282 | For any table and any configured size, zero and negative ones too: a loop that ends returns an exact cover if and only if the inputs fit, and for these it ends; no chunks for an empty table, and a division by zero for a zero size. |
| ChunkPlan.ChunkSizeIs | 05_database_parallel_access_pattern/ans_03/bulk_migration.go:255-264 | The size is the configured one, or a thousandth of the rows if there are at least 1001 times as many. |
| Upsert.BuildUpsert | 05_database_parallel_access_pattern/ans_03/bulk_migration.go:485-515 | Row r, column c of the statement has placeholder r * columns + c + 1, whose argument is that record's value, and every column but id is updated on conflict. |
| Upsert.StatementUpsertsRecords | 05_database_parallel_access_pattern/ans_03/bulk_migration.go:485-515 | Executing such a statement, with PostgreSQL's limit on parameters and its rule against touching a row twice, is upserting every record once. |
| Upsert.RefusedIf | 05_database_parallel_access_pattern/ans_03/bulk_migration.go:463-480 | The server refuses a statement exactly for too many parameters, a row without a key or two rows with one key. |
| Upsert.NextBatch | 05_database_parallel_access_pattern/ans_03/bulk_migration.go:463-480 | Batches are consecutive parts of the records, full but for the last, and none needs more than 65535 parameters. |
| Upsert.MigrateChunkData | 05_database_parallel_access_pattern/ans_03/bulk_migration.go:453-482 | Either all records are upserted, or an error is returned and the target is as it was. |
| Upsert.PutAllHolds | 05_database_parallel_access_pattern/ans_03/bulk_migration.go:453-482 | After upserting records with distinct ids, the target holds each of them. |
| Migration.CompletedIsCopied | 05_database_parallel_access_pattern/ans_03/bulk_migration.go:215-228 | In every interleaving of workers, lost status writes, crashes and reruns, a chunk marked COMPLETED has all its source rows in the target, and its row carries that chunk's range. |
| Migration.NilMeansAgreement | 05_database_parallel_access_pattern/ans_03/bulk_migration.go:293-345 | Once a run has returned nil, the target agrees with the source on every id, for ever. |
| Migration.OtherRowsUntouched | 05_database_parallel_access_pattern/ans_03/bulk_migration.go:347-401 | Target rows whose ids the source does not have are never changed. |
| Migration.RerunCompletes | 05_database_parallel_access_pattern/ans_03/bulk_migration.go:156-213 | From every reachable state a run without failing calls returns nil, leaves every chunk of the plan COMPLETED, and works only on chunks that were not. |
| Migration.WorkLeadsTo | 05_database_parallel_access_pattern/ans_03/bulk_migration.go:347-401 | A database call of a worker happens where its code is, writes no status but its chunk's, and only the migration of the rows changes the target. |
| Migration.MigrateLeadsTo | 05_database_parallel_access_pattern/ans_03/bulk_migration.go:347-401 | When the rows of a chunk are migrated, all source rows of its id range are in the target. |
| Migration.RunLeadsTo | 05_database_parallel_access_pattern/ans_03/bulk_migration.go:293-345 | A run saves its plan without rewriting a row, goes on with the chunks that are not COMPLETED, and ends when all workers have returned, with nil if and only if all returned nil. |
| MigrationManager.MigrationManager.SaveChunkPlan | 05_database_parallel_access_pattern/ans_03/bulk_migration.go:215-228 | Inserts the missing status rows as PENDING up to the first failing call, and never rewrites an existing row. |
| MigrationManager.MigrationManager.PendingChunks | 05_database_parallel_access_pattern/ans_03/bulk_migration.go:687-724 | Exactly the chunks that are not COMPLETED are worked on. |
| MigrationManager.MigrationManager.GetChunkData | 05_database_parallel_access_pattern/ans_03/bulk_migration.go:404-450 | Exactly the source rows of the id range are read, each once. |
| MigrationManager.MigrationManager.ProcessChunk | 05_database_parallel_access_pattern/ans_03/bulk_migration.go:347-401 | The worker's code takes only steps of the state machine, and returns nil only after its rows are written; it leaves COMPLETED or FAILED, or what the last write that reached the database left, and no other chunk's status changes. |
| TwoPhaseCommit.NeverNegative | 05_database_parallel_access_pattern/ans_02/distributed_transaction.go:313-456 | With any number of coordinators, no stock or balance is ever negative, and each is the initial value less what the durable orders took. |
| TwoPhaseCommit.OutcomeIsDurable | 05_database_parallel_access_pattern/ans_02/distributed_transaction.go:157-252 | A prepare failure leaves nothing durable, success leaves all three effects, and a commit failure those committed before it, with or without the one whose commit reported the error. |
| TwoPhaseCommit.DecisionIsFinal | 05_database_parallel_access_pattern/ans_02/distributed_transaction.go:157-252 | Once a coordinator has decided, neither its outcome nor its durable effects change in any later step. |
| TwoPhaseCommit.AtomicIff | 05_database_parallel_access_pattern/ans_02/distributed_transaction.go:157-228 | A finished coordinator is all-or-nothing if and only if in its run no commit failed in the middle: not carried out after another had succeeded, or carried out although it reported an error while another was still to come. |
| TwoPhaseCommit.AtomicityIsLost | 05_database_parallel_access_pattern/ans_02/distributed_transaction.go:185-228 | A run in which the order is durable and the stock and the payment are not. |
| TwoPhaseCommit.FailureMayBeComplete | 05_database_parallel_access_pattern/ans_02/distributed_transaction.go:185-228 | A run in which a failure is reported although all three effects are durable. |
| TwoPhaseCommit.NoDeadlock | 05_database_parallel_access_pattern/ans_02/distributed_transaction.go:313-456 | While some coordinator is unfinished, some coordinator can take a step. |
| TwoPhaseCommit.PrepareMovesOnIff | 05_database_parallel_access_pattern/ans_02/distributed_transaction.go:313-345 | A Prepare waits while another transaction holds its row; otherwise it moves on if and only if the row exists and the effect of the commit leaves it non-negative. |
| TwoPhaseCommit.FailuresLeadTo | 05_database_parallel_access_pattern/ans_02/distributed_transaction.go:157-184 | A Prepare that meets an error fails the order, and a transaction that the database ends holds nothing any more. |
| TwoPhaseCommit.CommitLeadsTo | 05_database_parallel_access_pattern/ans_02/distributed_transaction.go:185-228 | A commit makes exactly the participant's effect durable, and the order succeeds with the last one; a commit that is refused fails the order and changes no data. |
| TwoPhaseCommit.StepsRunOut | 05_database_parallel_access_pattern/ans_02/distributed_transaction.go:157-252 | Every effective step but a new start lowers a bound. |
| TwoPhaseCommit.AllFinish | 05_database_parallel_access_pattern/ans_02/distributed_transaction.go:157-252 | So every run can be continued, within that bound, until all coordinators have finished. |
| TransactionCoordinator.TransactionCoordinator.Execute | 05_database_parallel_access_pattern/ans_02/distributed_transaction.go:157-228 | It succeeds if and only if no call fails and all three effects leave stock and balance non-negative; its outcome and the database follow from the participant that failed first, and it ends half done if and only if all could commit and the first failing commit leaves some of the effects and not all. |
| TransactionCoordinator.TransactionCoordinator.RollbackAll | 05_database_parallel_access_pattern/ans_02/distributed_transaction.go:230-252 | Every transaction that is still open is rolled back, in any order. |
| PubSub.LeavesPendingOnlyWhenHandled | 07_error_handling_and_monitoring/ans_03/pubsub_synctest.go:296-326 | With the delivery guarantee and a maxRetries for which the loop runs, a message in a subscriber's queue leaves pendingMessages only after its handler has succeeded. |
| PubSub.ConfirmedStaysConfirmed | 07_error_handling_and_monitoring/ans_03/pubsub_synctest.go:402-413 | A message whose ACK was consumed never becomes pending again. |
| PubSub.PendingAtRest | 07_error_handling_and_monitoring/ans_03/pubsub_synctest.go:296-413 | At rest the pending messages are exactly those that failed or were abandoned and those whose ACK was dropped. |
| PubSub.AckDroppedIff | 07_error_handling_and_monitoring/ans_03/pubsub_synctest.go:392-399 | A success leads to an ACK at the end of the channel if and only if the channel is not full; otherwise the ACK is dropped. |
| PubSub.RefusedIff | 07_error_handling_and_monitoring/ans_03/pubsub_synctest.go:308-325 | A message that is sent to a subscriber is queued if and only if its queue is not full. |
| PubSub.CheckRefusesNothing | 07_error_handling_and_monitoring/ans_03/pubsub_synctest.go:296-307 | The check for duplicates before a delivery refuses nothing. |
| PubSub.AcceptedIff | 07_error_handling_and_monitoring/ans_03/pubsub_synctest.go:249-261 | A numbered message is accepted by its topic if and only if the topic's channel is not full. |
| PubSub.NothingDroppedEarly | 07_error_handling_and_monitoring/ans_03/pubsub_synctest.go:363-399 | No ACK is dropped while at most as many handlers have succeeded as its channel holds, and no message is refused while fewer were accepted than the queue holds. |
| PubSub.AbandonedIff | 07_error_handling_and_monitoring/ans_03/pubsub_synctest.go:374-382 | A message is given up only between two attempts. |
| PubSub.MeetsEveryMessage | 07_error_handling_and_monitoring/ans_03/pubsub_synctest.go:263-294 | A subscriber meets exactly the messages that its topic distributes after it subscribed, none before and none left out. |
| PubSubProgress.ComesToRest | 07_error_handling_and_monitoring/ans_03/pubsub_synctest.go:351-413 | A subscriber can always come to rest, with all accepted messages handled if its handlers succeed. |
| PubSubProgress.DistributorFinishes | 07_error_handling_and_monitoring/ans_03/pubsub_synctest.go:263-294 | A distributor can always finish with its message, and then every subscriber of the topic has met it. |
| PubSub.StartedOnce | 07_error_handling_and_monitoring/ans_03/pubsub_synctest.go:363-372 | No message is started twice, apart from its own retries. |
| PubSub.HandlerSeesOrder | 07_error_handling_and_monitoring/ans_03/pubsub_synctest.go:249-294 | With ordering, the messages that a handler sees have increasing sequence numbers and are a subsequence of what the topic accepted, whatever publishers and full queues do. |
| PubSub.DeduplicateOk | 07_error_handling_and_monitoring/ans_03/pubsub_synctest.go:363-372 | The check for duplicates in handleMessage never finds one. |
| PubSub.NoAttemptLosesMessages | 07_error_handling_and_monitoring/ans_03/pubsub_synctest.go:374-399 | With a negative maxRetries, or the largest int, there is a run in which a message is acknowledged and its handler was never called. |
| PubSub.GuaranteeIff | 07_error_handling_and_monitoring/ans_03/pubsub_synctest.go:374-399 | So the guarantee holds in every run if and only if 0 <= maxRetries < math.MaxInt64. |
| Subscription.SubscriberGoroutines.DeliverToSubscriber | 07_error_handling_and_monitoring/ans_03/pubsub_synctest.go:296-326 | The code of a delivery takes exactly the steps of the state machine. |
| Subscription.SubscriberGoroutines.HandleMessage | 07_error_handling_and_monitoring/ans_03/pubsub_synctest.go:363-399 | The retry loop, too. |
| Subscription.SucceedsIff | 07_error_handling_and_monitoring/ans_03/pubsub_synctest.go:374-390 | The handling succeeds if and only if one of the maxRetries + 1 calls of the handler does. |
| TimeSeries.TimeSeriesStore.Store | 07_error_handling_and_monitoring/03_monitoring_dashboard/monitoring.go:83-130 | After any calls with a clock that does not go back, every series is the newest maxDataPoints of all points ever stored for it, less the expired ones. |
| TimeSeries.ExpireKeeps | 07_error_handling_and_monitoring/03_monitoring_dashboard/monitoring.go:217-229 | Truncating in earlier calls and expiring lose nothing that one truncation of everything would have kept. |
| TimeSeries.AddKeeps | 07_error_handling_and_monitoring/03_monitoring_dashboard/monitoring.go:108-123 | Nor does appending, sorting and truncating again. |
| TimeSeries.DistinctTimesAreExact | 07_error_handling_and_monitoring/03_monitoring_dashboard/monitoring.go:83-130 | With distinct time stamps the points themselves are those points, in order. |
| TimeSeries.LatestIsKept | 07_error_handling_and_monitoring/03_monitoring_dashboard/monitoring.go:118-123 | The latest point is kept until it expires. |
| TimeSeries.TimeSeriesStore.Query | 07_error_handling_and_monitoring/03_monitoring_dashboard/monitoring.go:133-170 | One result for each series that matches, with exactly its points in the range, in order; their time stamps are those that the same filter gives on the newest points. |
| TimeSeries.MatchesIff | 07_error_handling_and_monitoring/03_monitoring_dashboard/monitoring.go:133-170 | A series matches if and only if it has the name, every queried tag, a missing one counting as empty, and a point in the range. |
| TimeSeries.TimeSeriesStore.SeriesIsNamed | 07_error_handling_and_monitoring/03_monitoring_dashboard/monitoring.go:95-107 | A series has the name and the tags of the first metric stored under its key. |
| TimeSeries.TimeSeriesStore.MatchTags | 07_error_handling_and_monitoring/03_monitoring_dashboard/monitoring.go:203-214 | Every queried tag has the queried value, a missing tag counting as empty. |
| TimeSeries.TimeSeriesStore.Group | 07_error_handling_and_monitoring/03_monitoring_dashboard/monitoring.go:87-92 | The metrics of a batch are grouped by series in their order. |
| Pipeline.Reachable | 03_fan-out_fan-in_and_context_control/ans_01/multi_stage_pipeline.go:213-240 | In every reachable state, cancelled or not, delivered outputs, recorded losses and the images of all queued and in-progress items make up the composed filter-map of the accepted inputs. |
| Pipeline.QuiescentOutputs | 03_fan-out_fan-in_and_context_control/ans_01/multi_stage_pipeline.go:213-342 | An uncancelled run at rest has delivered exactly the outputs of the stages applied one after the other. |
| Pipeline.OutputsAreSequential | 03_fan-out_fan-in_and_context_control/ans_01/multi_stage_pipeline.go:213-342 | Even a cancelled run delivers only such outputs, none twice. |
| Pipeline.NoDeadlock | 03_fan-out_fan-in_and_context_control/ans_01/multi_stage_pipeline.go:213-240 | With any buffer sizes, even zero, and at least one processor for each stage, the pipeline can take a step while anything is under way. |
| Pipeline.WorkBoundsSteps | 03_fan-out_fan-in_and_context_control/ans_01/multi_stage_pipeline.go:213-240 | However it is scheduled, it takes no more steps between two submissions than a bound computed from its state. |
| Pipeline.ComesToRest | 03_fan-out_fan-in_and_context_control/ans_01/multi_stage_pipeline.go:213-342 | So it comes to rest with the sequential outputs. |
| Pipeline.YieldIsSequential | 03_fan-out_fan-in_and_context_control/ans_01/multi_stage_pipeline.go:243-294 | The images counted item by item are the sequential composition; a nil result and an error are dropped. |
| Pipeline.ChannelsAlwaysFit | 03_fan-out_fan-in_and_context_control/ans_01/multi_stage_pipeline.go:213-240 | No channel ever holds more than its capacity. |
| Pipeline.SendLeadsTo | 03_fan-out_fan-in_and_context_control/ans_01/multi_stage_pipeline.go:226-236 | A result goes to the end of the next channel if and only if there is room, or to one who waits there if and only if the channel is empty. |
| Pipeline.ReceiveLeadsTo | 03_fan-out_fan-in_and_context_control/ans_01/multi_stage_pipeline.go:219-224 | A processor takes the oldest item of its channel, and the collector that of the last one. |
| Pipeline.StopLeadsTo | 03_fan-out_fan-in_and_context_control/ans_01/multi_stage_pipeline.go:220-237 | A processor ends if and only if the context is cancelled and it waits; a result it holds is given up. |
| Pipeline.CancelledIff | 03_fan-out_fan-in_and_context_control/ans_01/multi_stage_pipeline.go:399-410 | The context is cancelled if and only if Shutdown has cancelled it. |
| Pipeline.AllCanStop | 03_fan-out_fan-in_and_context_control/ans_01/multi_stage_pipeline.go:399-430 | After the cancellation every processor can end. |
| Pipeline.MultiStagePipeline.ProcessData | 03_fan-out_fan-in_and_context_control/ans_01/multi_stage_pipeline.go:243-294 | One call of a stage is a step of the state machine, and between calls every item is counted as a success or an error. |
| Pipeline.MultiStagePipeline.SubmitData | 03_fan-out_fan-in_and_context_control/ans_01/multi_stage_pipeline.go:297-316 | An item is accepted if and only if the pipeline runs, is not cancelled, and a processor waits for the item or the first channel has room. |
| RateLimiter.APIRateLimiter.AtMostTwiceTheLimit | 04_concurrent_programming_for_web_processing/03_api_rate_limiter/api_rate_limiter.go:565-634 | Any half-open interval as long as the shortest window holds at most twice the limit of any rule's allowed requests, for both kinds of window, across evictions; so a rule with the shortest window keeps to it in its own. |
| RateLimiter.SharedBucketIff | 04_concurrent_programming_for_web_processing/03_api_rate_limiter/api_rate_limiter.go:565-634 | Where rules share a bucket and the burst limit is wide, a rule keeps to twice its limit in its window in every run if and only if no rule has a shorter window. |
| RateLimiter.AtMostTwice | 04_concurrent_programming_for_web_processing/03_api_rate_limiter/api_rate_limiter.go:565-634 | The same for one kind of window and the history of one client. |
| RateLimiter.TwiceIsReached | 04_concurrent_programming_for_web_processing/03_api_rate_limiter/api_rate_limiter.go:565-634 | The factor two is reached. |
| RateLimiter.ResultsAreHonest | 04_concurrent_programming_for_web_processing/03_api_rate_limiter/api_rate_limiter.go:565-634 | A refused client that comes back at resetTime is not refused for the same reason, and an allowed one is allowed again while it has requests left. |
| RateLimiter.RemainingIsExact | 04_concurrent_programming_for_web_processing/03_api_rate_limiter/api_rate_limiter.go:615-634 | After an allowed request, k more before the windows end are all allowed if and only if k is at most remaining and burstAvailable. |
| RateLimiter.WindowsAreHonest | 04_concurrent_programming_for_web_processing/03_api_rate_limiter/api_rate_limiter.go:565-634 | The window that a result names is the rule's, is open, and is over exactly at windowEnd; retryAfter is the time until then. |
| RateLimiter.CountsAreHonest | 04_concurrent_programming_for_web_processing/03_api_rate_limiter/api_rate_limiter.go:580-634 | A request is refused if and only if an open window has used up its limit, and the numbers of a result are the requests allowed in the open windows. |
| RateLimiter.CheckOk | 04_concurrent_programming_for_web_processing/03_api_rate_limiter/api_rate_limiter.go:565-634 | A check keeps the windows of the bucket in agreement with the history. |
| RateLimiter.NewBucketOk | 04_concurrent_programming_for_web_processing/03_api_rate_limiter/api_rate_limiter.go:529-562 | A new bucket after an eviction starts windows that old requests cannot share. |
| RateLimiter.APIRateLimiter.CheckRateLimit | 04_concurrent_programming_for_web_processing/03_api_rate_limiter/api_rate_limiter.go:432-474 | A request is recorded if and only if it is allowed, and no other client's history changes. |
| RateLimiter.APIRateLimiter.CleanupBuckets | 04_concurrent_programming_for_web_processing/03_api_rate_limiter/api_rate_limiter.go:754-778 | Exactly the buckets without an allowed request for longer than the TTL are deleted. |
| WorkerPool.NeverPanics | 08_performance_optimization_and_production_operations/01_performance_optimizer/performance_optimizer.go:70-126 | In no run is a task sent on a closed channel or a channel closed twice. |
| WorkerPool.PanicsIff | 08_performance_optimization_and_production_operations/01_performance_optimizer/performance_optimizer.go:89-126 | What would panic: a send on a closed channel, or closing one twice. |
| WorkerPool.SendsIff | 08_performance_optimization_and_production_operations/01_performance_optimizer/performance_optimizer.go:112-117 | submit sends its task if and only if it finds the pool running under the read lock. |
| WorkerPool.AcceptedIff | 08_performance_optimization_and_production_operations/01_performance_optimizer/performance_optimizer.go:118-123 | The task is accepted as soon as its channel has room, and only a cancelled context lets the call give up. |
| WorkerPool.LockLeadsTo | 08_performance_optimization_and_production_operations/01_performance_optimizer/performance_optimizer.go:70-97 | Stop closes the channels if and only if the pool is running; Start starts the workers if and only if it was never started. |
| WorkerPool.WaitLeadsTo | 08_performance_optimization_and_production_operations/01_performance_optimizer/performance_optimizer.go:99-101 | That Stop returns when every worker has ended. |
| WorkerPool.WorkerLeadsTo | 08_performance_optimization_and_production_operations/01_performance_optimizer/performance_optimizer.go:128-132 | A worker takes the oldest task of its channel, runs it, and ends when the channel is closed and empty. |
| WorkerPool.CancelledIff | 08_performance_optimization_and_production_operations/01_performance_optimizer/performance_optimizer.go:118-123 | The context is cancelled if and only if there is one and someone has cancelled it. |
| WorkerPool.AtMostOnce | 08_performance_optimization_and_production_operations/01_performance_optimizer/performance_optimizer.go:112-132 | A task is executed at most once, and only if submit accepted it. |
| WorkerPool.StopHasDrained | 08_performance_optimization_and_production_operations/01_performance_optimizer/performance_optimizer.go:89-102 | When the call of Stop that closed the channels has returned, every accepted task has been executed exactly once. |
| WorkerPool.NoDeadlock | 08_performance_optimization_and_production_operations/01_performance_optimizer/performance_optimizer.go:70-132 | Although submit blocks with the read lock held, some step is possible while a call has not returned or a task has not been executed. |
| WorkerPool.WorkBoundsSteps | 08_performance_optimization_and_production_operations/ans_01/advanced_optimizer.go:88-97 | Without new calls the pool takes no more steps than a bound computed from its state. |
| WorkerPool.EveryCallReturns | 08_performance_optimization_and_production_operations/ans_01/advanced_optimizer.go:504-523 | Every run can be continued until all calls, Stop too, have returned. |
| WorkerPool.SecondStopDoesNotWait | 08_performance_optimization_and_production_operations/ans_01/advanced_optimizer.go:504-511 | In either pool, with any workers and channels, a second Stop can return while an accepted task is still to be executed. |
| WorkerPool.Pool.StopPool | 08_performance_optimization_and_production_operations/ans_01/advanced_optimizer.go:504-519 | Only the first Stop of a running pool closes the channels, each once. |
| WorkerPool.Pool.DrainChannel | 08_performance_optimization_and_production_operations/ans_01/advanced_optimizer.go:255-265 | The worker of a closed channel executes all that is left in it, in order. |
| CircuitBreaker.CountsAreSummary | 07_error_handling_and_monitoring/01_circuit_breaker/circuit_breaker.go:252-315 | In every run the counts are the totals and trailing runs of the results of the current generation, and Requests is their number and that of the generation's requests under way. |
| CircuitBreaker.HalfOpenIsBounded | 07_error_handling_and_monitoring/01_circuit_breaker/circuit_breaker.go:252-267 | HALF_OPEN has admitted at most maxRequests, all of them still under way. |
| CircuitBreaker.GenerationGrows | 07_error_handling_and_monitoring/01_circuit_breaker/circuit_breaker.go:349-366 | The generation never decreases. |
| CircuitBreaker.StaleResultsAreIgnored | 07_error_handling_and_monitoring/01_circuit_breaker/circuit_breaker.go:270-280 | A result from an older generation changes no more than looking at the state does. |
| CircuitBreaker.OpenUntilExpiry | 07_error_handling_and_monitoring/01_circuit_breaker/circuit_breaker.go:318-330 | OPEN admits nothing up to its expiry and the first request after it as a probe. |
| CircuitBreaker.ResetWindow | 07_error_handling_and_monitoring/01_circuit_breaker/circuit_breaker.go:369-375 | The length of the window after Reset is that of the state it left, and after HALF_OPEN the window never ends. |
| CircuitBreaker.ResetWindowIsRegular | 07_error_handling_and_monitoring/01_circuit_breaker/circuit_breaker.go:369-375 | It is the regular CLOSED window if and only if the state was CLOSED, or OPEN with equal periods. |
| CircuitBreaker.DefaultTripCountsWaiting | 07_error_handling_and_monitoring/01_circuit_breaker/circuit_breaker.go:135-138 | The default rule counts the requests under way as if they had succeeded. |
| CircuitBreaker.NewConfig | 07_error_handling_and_monitoring/01_circuit_breaker/circuit_breaker.go:90-119 | The defaults make every configuration usable and leave given values alone. |
| CircuitBreaker.CircuitBreaker.After | 07_error_handling_and_monitoring/01_circuit_breaker/circuit_breaker.go:270-315 | The method changes the fields as the step of the state machine does. |
| CircuitBreaker.ResultLeadsTo | 07_error_handling_and_monitoring/01_circuit_breaker/circuit_breaker.go:283-315 | A success in HALF_OPEN closes the breaker and a failure opens it for the timeout; in CLOSED it opens if and only if the result is a failure and readyToTrip holds of the results with it. |
| CircuitBreaker.LookLeadsTo | 07_error_handling_and_monitoring/01_circuit_breaker/circuit_breaker.go:318-366 | OPEN ends after its expiry with HALF_OPEN, and a generation of CLOSED with a new one of the whole interval. |
| CircuitBreaker.AdmittedIff | 07_error_handling_and_monitoring/01_circuit_breaker/circuit_breaker.go:252-267 | CLOSED admits every request, and HALF_OPEN if and only if fewer than maxRequests of its requests are under way. |
| CircuitBreaker.CircuitBreaker.Before | 07_error_handling_and_monitoring/01_circuit_breaker/circuit_breaker.go:252-267 | So does this one. |
| SlidingWindow.HoldsNext | 07_error_handling_and_monitoring/ans_01/circuit_breaker_advanced.go:295-302 | Writing a result round the array keeps it holding the last results of the plain history. |
| SlidingWindow.HoldsLast | 07_error_handling_and_monitoring/ans_01/circuit_breaker_advanced.go:348-387 | The used part of the array is, as a multiset, the last min(k, N) results. |
| SlidingWindow.RequestWindow.CalculateRate | 07_error_handling_and_monitoring/ans_01/circuit_breaker_advanced.go:348-379 | The loops compute the rate of the last N results of the plain history. |
| AdvancedBreaker.OneProbePerEpisode | 07_error_handling_and_monitoring/ans_01/circuit_breaker_advanced.go:204-233 | At most one request is admitted between entering and leaving HALF_OPEN, stale requests included. |
| AdvancedBreaker.ProbeIsOut | 07_error_handling_and_monitoring/ans_01/circuit_breaker_advanced.go:204-233 | While HALF_OPEN lasts its probe has not come back, and nothing else is admitted. |
| AdvancedBreaker.AdmittedIff | 07_error_handling_and_monitoring/ans_01/circuit_breaker_advanced.go:204-233 | A request is admitted if and only if the breaker is not OPEN, fewer than the limit are inside, and in HALF_OPEN none is. |
| AdvancedBreaker.ProbeIsAdmitted | 07_error_handling_and_monitoring/ans_01/circuit_breaker_advanced.go:204-233 | The first request after the expiry that finds nothing inside is the probe. |
| AdvancedBreaker.ExpiryAndEpisodes | 07_error_handling_and_monitoring/ans_01/circuit_breaker_advanced.go:397-420 | An expiry is set in OPEN only, and each stay in HALF_OPEN is counted when it begins. |
| AdvancedBreaker.ActiveIsBounded | 07_error_handling_and_monitoring/ans_01/circuit_breaker_advanced.go:125-150 | activeRequests is the number of admitted requests not yet released, and at most MaxConcurrentRequests. |
| AdvancedBreaker.OpenUntilExpiry | 07_error_handling_and_monitoring/ans_01/circuit_breaker_advanced.go:390-394 | OPEN admits nothing before its expiry and stays as it is. |
| AdvancedBreaker.TripsIff | 07_error_handling_and_monitoring/ans_01/circuit_breaker_advanced.go:325-345 | A result opens a closed breaker if and only if the run of failures since it was closed, or a rate over the last N plain results, reaches its threshold on as many results as the converted minimum. |
| AdvancedBreaker.ConsecutiveIsTrailing | 07_error_handling_and_monitoring/ans_01/circuit_breaker_advanced.go:271-282 | The counter of consecutive failures is the run of failures since the breaker was last closed. |
| AdvancedBreaker.OnlyResultsOpen | 07_error_handling_and_monitoring/ans_01/circuit_breaker_advanced.go:305-322 | Only a result opens the breaker, for the timeout: a failed one in HALF_OPEN, or one that trips. |
| AdvancedBreaker.OnlySuccessCloses | 07_error_handling_and_monitoring/ans_01/circuit_breaker_advanced.go:305-322 | Only Reset or a success in HALF_OPEN closes it. |
| AdvancedBreaker.CanTripIff | 07_error_handling_and_monitoring/ans_01/circuit_breaker_advanced.go:325-329 | Some run of requests opens the breaker if and only if its concurrency limit is positive and fits an int64, and its window is as large as its minimum of requests or that minimum does not fit one. |
| AdvancedBreaker.AdmitsIff | 07_error_handling_and_monitoring/ans_01/circuit_breaker_advanced.go:214-216 | Any request is admitted at all if and only if the concurrency limit is positive and fits an int64. |
| AdvancedBreaker.NoLimitRefusesAll | 07_error_handling_and_monitoring/ans_01/circuit_breaker_advanced.go:214-216 | With the largest uint64 as the limit every request of every run is refused. |
| AdvancedBreaker.LargestMinimumTripsAtOnce | 07_error_handling_and_monitoring/ans_01/circuit_breaker_advanced.go:326-329 | With the largest uint64 as the minimum the first failure can open the breaker. |
| AdvancedBreaker.SuccessCanTrip | 07_error_handling_and_monitoring/ans_01/circuit_breaker_advanced.go:397-420 | The window outlives the states, so a success after a successful probe can open the breaker again. |
| AdvancedBreaker.AdvancedCircuitBreaker.ShouldTripToOpen | 07_error_handling_and_monitoring/ans_01/circuit_breaker_advanced.go:325-345 | The decision on the array is the decision on the plain history. |
| AdvancedBreaker.AdvancedCircuitBreaker.After | 07_error_handling_and_monitoring/ans_01/circuit_breaker_advanced.go:236-267 | The method changes the fields as the step of the state machine does. |
| FallbackManager.ExecutingIsBounded | 07_error_handling_and_monitoring/ans_02/fallback_manager.go:205-217 | Reserving before comparing keeps the number of executing requests within the limit in every run. |
| FallbackManager.RefusedIff | 07_error_handling_and_monitoring/ans_02/fallback_manager.go:205-217 | A request is refused if and only if those executing and those being refused fill the limit. |
| FallbackManager.PlacesAreGivenBack | 07_error_handling_and_monitoring/ans_02/fallback_manager.go:211-215 | A request that ends or is refused gives back its place. |
| FallbackManager.CounterReturns | 07_error_handling_and_monitoring/ans_02/fallback_manager.go:211-215 | When every call has returned, the counter is zero. |
| FallbackManager.RecoveryTakesTime | 07_error_handling_and_monitoring/ans_02/fallback_manager.go:355-387 | NORMAL is reached again only through FALLBACK and the whole transition period, on two windows with a low error rate. |
| FallbackManager.FallbackManager.EvaluateMode | 07_error_handling_and_monitoring/ans_02/fallback_manager.go:355-387 | The decision on the array is the decision on the plain history. |
| FallbackManager.ChangesIff | 07_error_handling_and_monitoring/ans_02/fallback_manager.go:355-387 | An evaluation changes the mode whenever some change may follow the last one on the last results, and makes that change. |
| FallbackManager.ModeAfter | 07_error_handling_and_monitoring/ans_02/fallback_manager.go:355-387 | For each of the three modes, the rates and the time at which it is left, and the mode that follows. |
| FallbackManager.HistoryIsResults | 07_error_handling_and_monitoring/ans_02/fallback_manager.go:313-338 | The history is the results recorded since the manager was made or reset. |
| FallbackManager.FallbackManager.RecordResult | 07_error_handling_and_monitoring/ans_02/fallback_manager.go:313-338 | A result is appended to the history that the array stands for. |
| StreamWindows.EntersAllIff | 03_fan-out_fan-in_and_context_control/03_stream_aggregation/stream_aggregation.go:276-290 | An event enters exactly the aligned windows that contain it, unless it lies in the gap left when the slide does not divide the size. |
| StreamWindows.EntersSizeOverSlide | 03_fan-out_fan-in_and_context_control/03_stream_aggregation/stream_aggregation.go:276-290 | An event enters exactly size / slide windows, all different. |
| StreamWindows.IdsAreUniqueIff | 03_fan-out_fan-in_and_context_control/03_stream_aggregation/stream_aggregation.go:291 | Window identifiers differ for different windows if and only if the slide is at least a second. |
| StreamWindows.StreamAggregator.AssignEventToWindows | 03_fan-out_fan-in_and_context_control/03_stream_aggregation/stream_aggregation.go:276-343 | The loop adds the event to those windows, each once, until the context ends at one, and emits only full or old ones; what it leaves is the function of the rounds, and the accounts are right if and only if all windows were visited. |
| StreamWindows.VisitedArePlaced | 03_fan-out_fan-in_and_context_control/03_stream_aggregation/stream_aggregation.go:276-343 | Every visited window that is ready and that the channel takes is emitted with the event, and every other one is in the map. |
| StreamWindows.ReadyIff | 03_fan-out_fan-in_and_context_control/03_stream_aggregation/stream_aggregation.go:324-326 | A window is emitted when it is full or its end has come. |
| StreamWindows.EntersAllUnlessEnded | 03_fan-out_fan-in_and_context_control/03_stream_aggregation/stream_aggregation.go:326-341 | All windows are visited if and only if the context ends at none of them but the last. |
| StreamWindows.StreamAggregator.WindowsAreTheStream | 03_fan-out_fan-in_and_context_control/03_stream_aggregation/stream_aggregation.go:276-343 | While the accounts are right, the windows with one start, open and closed together, hold exactly the events of the stream between start and end, in order. |
| StreamWindows.AddSummarises | 03_fan-out_fan-in_and_context_control/03_stream_aggregation/stream_aggregation.go:311-323 | Count, sum, minimum, maximum and the tallies for users and types summarise the event list. |
| StreamWindows.CloseWindow | 03_fan-out_fan-in_and_context_control/03_stream_aggregation/stream_aggregation.go:326-341 | A window that leaves the map takes all its events into the record, emitted or discarded. |
| StreamWindows.StreamAggregator.CheckAndFlushWindows | 03_fan-out_fan-in_and_context_control/03_stream_aggregation/stream_aggregation.go:520-552 | In the order of the map, the windows that are old enough and that the channel takes are emitted until the context ends at one; the accounts are right afterwards if and only if the loop is not cut short after a window was sent. |
| StreamWindows.FlushIsSafeIff | 03_fan-out_fan-in_and_context_control/03_stream_aggregation/stream_aggregation.go:520-552 | That is so in every order of the map if and only if there are not both a due window that the channel takes and a due one at which the context ends. |
| StreamWindows.StreamAggregator.PerformCleanup | 03_fan-out_fan-in_and_context_control/03_stream_aggregation/stream_aggregation.go:655-678 | Exactly the windows that began more than two sizes ago are discarded. |
| StreamWindows.StreamAggregator.FlushRemainingWindows | 03_fan-out_fan-in_and_context_control/03_stream_aggregation/stream_aggregation.go:774-793 | All windows leave the map, each emitted or discarded. |
| Reservations.NoUpdateIsLost | 05_database_parallel_access_pattern/02_transaction_control/transaction_control.go:321-371 | In every interleaving, what is reserved is the sum of the durable calls, among them all that returned nil, and the version counts them. |
| Reservations.UpdateIff | 05_database_parallel_access_pattern/02_transaction_control/transaction_control.go:337-366 | Once the lock is free, the UPDATE goes through if and only if the row is still what was read and the new one fits the table; a refused call does not try again. |
| Reservations.TriesAgainIff | 05_database_parallel_access_pattern/02_transaction_control/transaction_control.go:94-124 | A call that fails begins again if and only if the error allows it and it has not had more than maxRetries of them. |
| Reservations.DelayIs | 05_database_parallel_access_pattern/02_transaction_control/transaction_control.go:103-108 | The backoff is exponential up to the longest delay. |
| Reservations.DurableIff | 05_database_parallel_access_pattern/02_transaction_control/transaction_control.go:89-160 | A call that has returned is durable if and only if it returned nil or the reply to its commit was lost. |
| Reservations.NeverOverReserved | 05_database_parallel_access_pattern/02_transaction_control/transaction_control.go:321-371 | No more than the stock is ever reserved, with or without the trigger. |
| Reservations.ReservedStaysInRange | 05_database_parallel_access_pattern/00_database_setup/01_database_setup.sql:131-154 | With the trigger on the table, what is reserved stays between zero and the stock in every run, whatever the amounts. |
| Reservations.StaysInRangeIff | 05_database_parallel_access_pattern/02_transaction_control/transaction_control.go:321-371 | Every run over a set of permitted amounts keeps it there if and only if the table has the trigger or no permitted amount is so negative that the updates which the version column can count undo more than is reserved. |
| Reservations.NegativeAmountEscapes | 05_database_parallel_access_pattern/02_transaction_control/transaction_control.go:337-346 | In a table without the trigger a single call with a negative amount is accepted, and takes the row below zero exactly when it is larger than what is reserved. |
| Reservations.ExecuteWithRetry | 05_database_parallel_access_pattern/02_transaction_control/transaction_control.go:89-125 | The attempts end at the first that commits or must not be tried again, or when the context ends during a wait, and the delays follow the policy; nil is returned without any attempt if and only if maxRetries is negative or the largest int. |
| Orders.HistoryAccountsForStock | 05_database_parallel_access_pattern/ans_01/inventory_system.go:124-175 | The stocks of the history chain, the version counts its rows, and modulo 2^32 the stock that is gone is their sum. |
| Orders.OneRowForEachSuccess | 05_database_parallel_access_pattern/ans_01/inventory_system.go:80-121 | However often it tries, a call adds one row of history if it returns nil and otherwise none, unless the reply to its commit was lost. |
| Orders.StockNeverNegativeIff | 05_database_parallel_access_pattern/ans_01/inventory_system.go:142-150 | For orders of permitted quantities the stock stays non-negative in every run if and only if no permitted quantity is so negative that the orders which the version can count take the stock beyond an int32. |
| Orders.HistoryIsTheSumIff | 05_database_parallel_access_pattern/ans_01/inventory_system.go:142-150 | Under the same condition, and only then, the stock that is gone is the sum of the history in every run. |
| Orders.SmallestQuantityWraps | 05_database_parallel_access_pattern/ans_01/inventory_system.go:142-150 | With 5 in stock an order of -2147483648 leaves -2147483643. |
| Orders.VersionCheckAlwaysPasses | 05_database_parallel_access_pattern/ans_01/inventory_system.go:147-158 | Under the row lock the version check never fails. |
| Orders.AttemptIs | 05_database_parallel_access_pattern/ans_01/inventory_system.go:124-175 | An attempt without interference takes the order if and only if the stock suffices and the version can be counted. |
| Orders.AttemptsAreCounted | 05_database_parallel_access_pattern/ans_01/inventory_system.go:80-121 | A call tries again after every deadlock and failed lock, and gives up for their number exactly at maxRetries. |
| Orders.OrderSystem.ProcessOrder | 05_database_parallel_access_pattern/ans_01/inventory_system.go:80-121 | The retry loop: at most maxRetries attempts, only after deadlocks and failed locks and waits that are not cancelled; the first other attempt decides, and takes the order if and only if the stock suffices; one row or no change. |
| PriorityQueue.RootIsFirst | 02_practical_application_of_the_worker_pool_pattern/ans_02/priority_worker_pool.go:98-103 | No task of the heap is to be taken before the one at the root. |
| PriorityQueue.UpStep | 02_practical_application_of_the_worker_pool_pattern/ans_02/priority_worker_pool.go:125-135 | A swap on the way up leaves one task less out of order. |
| PriorityQueue.PriorityTaskQueue.Enqueue | 02_practical_application_of_the_worker_pool_pattern/ans_02/priority_worker_pool.go:125-135 | Enqueue keeps the heap and adds exactly the task; a closed queue is not changed. |
| PriorityQueue.PriorityTaskQueue.Dequeue | 02_practical_application_of_the_worker_pool_pattern/ans_02/priority_worker_pool.go:139-158 | Dequeue removes a task that no other precedes; nothing is returned only by an empty queue. |
| PriorityQueue.PriorityTaskQueue.Drain | 02_practical_application_of_the_worker_pool_pattern/ans_02/priority_worker_pool.go:139-158 | Draining gives a sorted permutation of the contents. |
| Statistics.OnlineIsBatch | 08_performance_optimization_and_production_operations/ans_02/production_monitoring.go:595-629 | After any samples the online update holds exactly their mean and population variance. |
| Statistics.VarianceNonNegative | 08_performance_optimization_and_production_operations/ans_02/production_monitoring.go:595-629 | The number under the square root is never negative. |
| Statistics.AtMostANinthExceeds | 08_performance_optimization_and_production_operations/ans_02/production_monitoring.go:587-592 | Of the samples it was learned from, a model calls at most one in nine an anomaly. |
| Statistics.ZScoreIff | 08_performance_optimization_and_production_operations/ans_02/production_monitoring.go:587-592 | A value is an anomaly if and only if it is more than three standard deviations from the mean. |
| Statistics.StatisticalModel.UpdateStatisticalModel | 08_performance_optimization_and_production_operations/ans_02/production_monitoring.go:595-629 | The three metrics are updated together, each as a batch over its samples. |
| GcPause.Monitor.NewGCPauseMax | 08_performance_optimization_and_production_operations/ans_02/production_monitoring.go:424-433 | The result is the longest of the new pauses that the ring still holds, when fewer than 2^32 collections are new. |
| GcPause.CoversIff | 08_performance_optimization_and_production_operations/ans_02/production_monitoring.go:424-426 | It covers them if and only if fewer than 2^32 are new or their number wraps to at least the ring's size. |
| GcPause.LastMaxIs | 08_performance_optimization_and_production_operations/ans_02/production_monitoring.go:428-432 | That value is one of those pauses and no smaller than any. |

## Left out

- CreateChunkPlan: a failing query for the id range; a loop that does not end is watched for a number of rounds.
- MigrateChunkData: the column order is any fixed order, not the sorted one, and the records have the columns of the first record, as rows of one SELECT do; one to 65535 columns, because with more the source divides to a batch size of zero and panics.
- Migration: the source table and the configuration do not change between runs, because an existing plan row is never rewritten; checkpoints, pauses for resources and progress reports.
- SQL: parsing, types and the query planner; a database is a map with row locks and transactions.
- Execute: the code of one coordinator is verified while all earlier ones have finished; the interleavings are in the state machine.
- PubSub: the shutdown of the whole system; one subscriber that gives up between retries is the step `Abandon`. The texts of ids and errors. `GuaranteeIff` is about a buffer of at least one message, which the constructor sees to: zero is replaced, and a negative size panics.
- HandleMessage: a body that is not cancelled; the cancelled ones are in the state machine.
- Store: how the key string is made. Two different name and tag combinations can give one key ("a|b=c" without tags, and "a" with b=c), and then share one series under the name and tags of the first; metadata and LastUpdate. A negative maxDataPoints makes the source panic.
- Query: the order of the results, which is that of a Go map.
- Pipeline: stage functions depend on their item only, so that a timeout or a cancelled context does not change what they return; the periodic report of metrics.
- SubmitData: a cancellation between its checks and its send; the steps `Submit` and `SubmitTo` of the state machine may come after `Cancel`.
- AtMostTwiceTheLimit: a request is checked at the time it carries; a request that waits in the queue while its bucket is evicted is not covered.
- SharedBucketIff: limits below 3 and narrow burst limits, for which a shorter window of another rule can be harmless; NoShorterBounds covers them in one direction.
- RateLimiter: the choice of a rule by tier, endpoint and method; counters for reports; HTTP.
- WorkerPool: tasks end and do not submit; at least one worker for each channel.
- SubmitTask: the case of a full channel, where the source waits; the waiting is the step `Send` of the state machine.
- CircuitBreaker: TotalDuration, which is added after the result may have started a new generation; callbacks; the fallback.
- AdvancedBreaker: the averages of response times, callbacks, and the generation field, which nothing reads.
- FallbackManager: the cache, the providers and the counters for reports.
- AssignEventToWindows: requires a slide of at least a second and no negative size; the median, the standard deviation and the top types of processWindow.
- Reservations: one row, because rows do not touch each other.
- ProcessOrder: the calls of others between two attempts, and a commit that is carried out although it reports an error; they are in the state machine.
- Dequeue: the waiting on the condition variable; the method is what follows it.
- Statistics: rounding, and the square root itself.
- Durations of more than 146 years, for which Go's arithmetic on them wraps; counters of events are unbounded.
- HTTP handlers, JSON, gRPC, generated code, TLS, files, logging, demos and load tests, and the simpler exercises, whose properties are members of the same kinds.
