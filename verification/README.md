# FlowGate: verified model

FlowGate copies objects between MinIO servers when a webhook reports them. This project models the concurrent
machinery between the network calls and proves what every run of it keeps.

| module | what it models |
|---|---|
| `Lifecycle` | one transfer: the shared in-memory record, its committed row, the statement in the open transaction, and every step a worker, a retry timer or the batch writer takes on them |
| `Engine`, `EngineTheorems` | the transfer manager: N workers, an explicit mutex, a condition variable, owed signals and broadcasts, retry timers, Stop |
| `Worker` | the same code on objects updated in place, proved to take exactly the engine's steps |
| `Backoff` | the retry delay in wrapping 64-bit arithmetic |
| `Ingest`, `Handler` | webhook records from dedup to enqueue, on top of the engine and the clock; the handler's loop on objects |
| `Dedup`, `Sessions`, `AppCache` | the three maps whose entries age, against specifications over their histories |
| `Batch` | the writer goroutine that cuts a request channel into transactions |
| `Hub` | WebSocket fan-out with eviction and the clients' write pumps |
| `ClientCache`, `Keys` | the MinIO client cache and the composite string keys |
| `Stats`, `Decimal` | the statistics query and the two integer printers |

Concurrent parts are labelled step systems. An action carries every choice the program does not make itself (which
goroutine moves, what `doTransfer` returns, whether a statement or a commit succeeds, what the clock reads), so `Next`
is a function, a run is a sequence of enabled actions, and a theorem about runs holds for every interleaving. Steps are
as fine as the locks: a worker's lock, loop test, wait, exit and dequeue are separate, a signal is sent after the
unlock, a reply is separate from the commit that follows it, and a commit from the statement it commits. Where the
source updates objects, classes with the same fields and loops are proved to take those steps (`Worker`, `Handler`,
`Batch`) or to compute the functions the lemmas speak of (`Dedup`, `Sessions`, `AppCache`, `Hub`, `Decimal`).

## What holds, and what does not

- No wakeup is lost, every job is in exactly one place and is as it was ordered, the engine drains within a computable
  number of steps, and Stop returns. Jobs that wait in a retry timer when the last worker exits are never attempted
  again; their rows stay active. What a committed update stores is the whole record of that step
  (`StatementIsPersisted`).
- At most one transfer per (app, object key) is live in every run in which no active check fails beside a live job of its
  object and each insert is committed within one dedup window of its record's arrival. Step by step the condition is
  exact (`NextKeepsInvIff`): the exclusions break if and only if a check fails beside a live job, or the deduper admits a
  record while another of its object is in flight. The code ignores the check's error and does not tie the window to the
  commit, so both happen (`SecondRecordPasses`, `SlowRecordIsForgotten`) and lead to two live transfers
  (`FailedQueryDuplicates`, `LateArrivalDuplicates`).
- The deduper turns away exactly the records of an object admitted less than a window ago, as long as app ids contain no
  colon (`TurnedAwayIff`, `ColonConfusesObjects`; the source makes them UUIDs, internal/group/group_service.go:62).
- A finished transfer whose insert was committed leaves an active row behind if and only if its last update failed or
  was lost at commit (`StaleRowIff`); then every later webhook for that object is turned away while the process lives
  (`StaleRowBlocksForever`).
- A transfer that ends on a retry is persisted without a start time: `started_at` is set in a finished row iff its retry
  count is 0 (`RowOk`).
- Batching is invisible when transactions begin and commit. A nil answer does not mean persisted, although the comment on
  `exec` says it blocks until the commit (internal/storage/batch.go:39): a request is persisted if and only if its
  transaction has finished and committed (`PersistedIff`), and the reply goes out before that (`NilBeforeCommit`).
- The writer answers everybody: its steps are bounded by what it is sent, and when it can only wait, every request sent
  has been flushed and answered (`WriterDrains`); a tick flushes whatever has been collected (`TickFlushes`).
- The backoff cap is the promised one unless the 64-bit product wraps into (0, 1 h) (`CapIsIdealIff`); a setting of 0
  means one hour.
- The session table accepts a token if and only if it was in time at every login and every use of its own by that
  operation's clock reading (`TableMatchesHistory`, for readings in any order). Sweeps are invisible when readings are in
  lock order; the clock is read before the lock, and `OutOfOrderUseIsRejected` shows what an inversion does.
- An app served from the cache is the one last cached under its key, at most 30 s before (`AnswersMatchHistory`).
- Hub and pumps deliver every accepted publish to every member whose connection works (`HubDelivers`); a publish is
  dropped if and only if 256 wait (`PublishedInOrder`).
- A cached MinIO client does not follow a changed secret, region or SSL flag.
- The router's `itoa` prints `-` for the least 64-bit integer; main's prints nothing for negative numbers.

BUILD.md and the repository's README.md describe a bounded queue that answers 503 when full. The code has an unbounded
queue and `Enqueue` never fails (internal/transfer/manager.go:74-80); the model follows the code.

## Model

| member | source | states |
|---|---|---|
| EngineTheorems.NoLostWakeup | internal/transfer/manager.go:54-88 | in every state of every run: while a worker sleeps, the queue is no longer than owed signals plus workers that will look before sleeping; so no state has work queued, everybody asleep and no signal owed; and the dequeue never indexes an empty queue |
| EngineTheorems.JobsConserved | internal/transfer/manager.go:63-80 | in every run each created job is in exactly one place (queue slot, worker, handler, timer or outcome), removals follow the order of appends, attempts are at most max(0, MaxRetries)+1, with equality iff the job failed or succeeded on its last allowed try |
| EngineTheorems.RowsAlwaysConsistent | internal/transfer/worker.go:40-76 | in every run, whatever updates and commits fail, each committed row is consistent, is active while its job lives, equals the whole in-memory record (duration, instants and error text included) once it is terminal, and whenever status and retry count agree with the record |
| EngineTheorems.JobsAreAsOrdered | internal/webhook/handler.go:134-159 | every run makes exactly the jobs that were ordered, in order; in every later state each has the app, key, size and retry limit of its order, as has its committed row; it makes at most max(0, that limit)+1 attempts, exactly that many if it failed, and a committed success reports the ordered size in bytes |
| EngineTheorems.StatementIsPersisted | internal/transfer/worker.go:40-76 | for every update a worker hands over, whatever runs until its commit: the row stays as it was; the commit stores the whole record as the worker left it at that step (status, instants, error text, retry count), a lost commit or a failed statement nothing |
| EngineTheorems.InsertIsPersisted | internal/webhook/handler.go:134-150 | whatever runs until the commit of an insert, that commit stores the pending row with the ordered app, key, size and retry limit |
| EngineTheorems.Descends | internal/transfer/worker.go:58-65 | every step except a new job or a Stop lowers one natural-number measure over retries left, stage, program counters and owed signals |
| EngineTheorems.RunsAreBounded | internal/transfer/manager.go:49-80 | a run without new jobs or Stops has at most as many steps as the measure of its first state |
| EngineTheorems.StuckMeansDrained | internal/transfer/manager.go:56-80 | a state where nothing internal can move has, if never stopped, an empty queue and only ended jobs with their last statement resolved; if stopped, only exited workers, and the jobs not ended are exactly the queued ones |
| EngineTheorems.Drain | internal/transfer/manager.go:49-80 | with at least one worker and no Stop, after any history the engine left alone takes boundedly many steps, and when it can take no more every job ever created has succeeded or failed |
| EngineTheorems.NobodySleepsAfterClose | internal/transfer/manager.go:56-62 | once closed the manager stays closed and no worker falls asleep |
| EngineTheorems.LastExit | internal/transfer/manager.go:59-62 | at the step where the last worker exits the queue is empty and every job not ended waits in a retry timer or has not been enqueued yet |
| EngineTheorems.NothingRunsAfterExit | internal/transfer/worker.go:172-180 | after that, whatever still happens, nothing is dequeued or attempted, no job changes between live and ended, and a live job's committed row stays active |
| EngineTheorems.ShutdownAccount | cmd/flowgate/main.go:164-174 | for every history before the last worker exits and every history after: the queue is empty at that step, and each job not ended then was in a retry timer or not enqueued yet, is never attempted again, never ends, and keeps an active row |
| EngineTheorems.StopReturns | internal/transfer/manager.go:83-89 | after a Stop the engine left alone takes at most as many steps as the measure; in any state where the workers cannot move, whether timers and handlers still can or not, every worker has exited; once those have finished too, the jobs not ended are exactly the queued ones |
| Engine.NextKeepsInv | internal/transfer/manager.go:54-89 | every step keeps the invariant: mutual exclusion with what the holder read still true, work conservation, close order, agreement of queue, workers and stages, job and row consistency, FIFO history |
| Engine.RunKeepsInv | internal/transfer/manager.go:49-89 | every run keeps it, loses no job, reopens no ended job and changes no terminal row |
| Engine.KeepsWakeup | internal/transfer/manager.go:54-88 | work conservation is inductive for append-then-signal, wait, take, close and broadcast |
| Engine.KeepsPlaces | internal/transfer/manager.go:63-80 | a job id is queued at most once, and exactly while its stage says so; a worker holds a job iff the job's stage names that worker |
| Lifecycle.StepKeepsJobInv | internal/transfer/worker.go:40-76 | each step of process, scheduleRetry, fail, the timer and the writer keeps the job invariant, successful statement or not; terminal rows are frozen and persisted retry counts never fall |
| Lifecycle.RunKeepsRow | internal/transfer/worker.go:142-196 | over every run of one job: which of next_retry_at, completed_at, started_at, error_message and bytes_transferred are set is a function of status and retry count; retry_count is within the limit and equals it on failed rows; a terminal row is the whole record |
| Lifecycle.AttemptsBounded | internal/transfer/worker.go:58-65 | attempts never exceed the retry budget plus one, with the exact condition for equality |
| Worker.Manager.Pass | internal/transfer/manager.go:56-66 | one pass under the lock takes the engine's test step and then exactly its wait, exit or dequeue step; the element removed is the oldest |
| Worker.Manager.Enqueue | internal/transfer/manager.go:75-78 | appends at the end and takes the engine's append step, for a handler and for a retry timer |
| Worker.Manager.Close | internal/transfer/manager.go:84-86 | sets closed, keeps the queue, and takes the engine's close step |
| Worker.Manager.QueueDepth | internal/transfer/manager.go:92-97 | the depth is the number of jobs in stage Queued, and what was ever enqueued less what was ever dequeued |
| Engine.QueueCountsJobs | internal/transfer/manager.go:63-80 | the queue is as long as there are jobs in stage Queued |
| Worker.Process | internal/transfer/worker.go:26-92 | the shared record ends as the job's begin and outcome steps leave it, for any answers of the store; status, instants, duration in whole milliseconds, bytes and error text are those of the branch taken; a retry's delay fits the backoff setting and the next retry count, and next_retry_at is the end of the attempt plus that delay |
| Worker.ScheduleRetry | internal/transfer/worker.go:120-148 | the record becomes the retrying record with the next count, the cause and now plus a delay that is 5 s if the cap of the setting at that count is 5 s, and otherwise 5 s plus jitter below that cap |
| Worker.Fail | internal/transfer/worker.go:184-188 | the record becomes the failed record |
| Worker.Requeue | internal/transfer/worker.go:172-178 | the timer resets status, error and the three instants and nothing else |
| Backoff.RetryDelay | internal/transfer/worker.go:124-138 | the delay is in [5 s, 1 h) for every setting and count, equals 5 s when the cap is 5 s and otherwise ranges over exactly [5 s, cap); Int63n gets a positive argument |
| Backoff.ProductIsWrappedExact | internal/transfer/worker.go:124-125 | wrapping after each product, with Go's shift counts of 63 and more, equals wrapping the exact product once |
| Backoff.CapIsIdealIff | internal/transfer/worker.go:124-134 | for a positive setting the cap is min(1 h, max(5 s, base*2^(k-1))) iff the exact product is below 2^63 or its wrapped value is outside (0, 1 h) |
| Backoff.DelayBelowIdeal | internal/transfer/worker.go:123-138 | for a positive setting whose product fits 64 bits, the delay of the k-th retry is 5 s or below min(1 h, max(5 s, base*2^(k-1))), and every instant between is some draw's delay |
| Backoff.WrapUndercuts | internal/transfer/worker.go:124-134 | a setting for which the cap is 5 s although the formula promises 1 h |
| Backoff.LateRetriesAreOneHour | internal/transfer/worker.go:125-130 | from the 34th retry on the cap is exactly one hour for every setting |
| Backoff.ZeroBackoffIsOneHour | internal/transfer/worker.go:128-130 | a zero setting gives a one-hour cap |
| Ingest.OneLiveTransferPerKey | internal/webhook/handler.go:117-160 | in every run in which no active check fails beside a live job of its object and every record is committed within the dedup window, at most one transfer per (app, object key) is live |
| Ingest.SafeRunsAreExclusive | internal/webhook/handler.go:117-160 | the same for every run all of whose steps are safe, whatever the timing |
| Ingest.NextKeepsInvIff | internal/webhook/handler.go:110-160 | a step of a handler, the clock, a sweep or the engine keeps the exclusions between open records, unseen inserts and live jobs if and only if it is not a check that fails beside a live job nor an arrival beside a record in flight |
| Ingest.RunKeepsInvIff | internal/webhook/handler.go:110-160 | the exclusions hold throughout a run if and only if every step is safe |
| Ingest.HealthyIsSafe | internal/webhook/dedup.go:25-48 | when records are committed within the window, the deduper remembers everything in flight, sweeps included, and every arrival is safe |
| Ingest.FreeKey | internal/webhook/dedup.go:25-33 | a key outside its dedup window has no record in flight and no job whose insert is uncommitted |
| Ingest.TurnedAwayIff | internal/webhook/handler.go:117-124 | in every run with app ids free of colons, sweeps included: a record is turned away by the deduper if and only if a record of the same app and object was admitted less than a window ago; otherwise it is admitted |
| Ingest.ColonConfusesObjects | internal/webhook/handler.go:117 | for every app id with a colon there is a run in which a record is turned away although none of its object was ever admitted |
| Ingest.RefusedIff | internal/storage/store.go:472-483 | in every run a working check turns a record away if and only if some job of the same app and object has a committed row and has not ended, or that row does not show its end |
| Ingest.RecordsAreDealtWith | internal/webhook/handler.go:110-160 | in every run the handlers take at most two steps per arrival after the deduper, and when they can take no more every record admitted has been turned away, inserted or refused |
| Ingest.QueryKeepsIff | internal/storage/store.go:472-483 | the check keeps the exclusions if and only if it does not fail beside a live job of the record's object |
| Ingest.RunKeeps | internal/transfer/worker.go:40-74 | no engine step breaks an exclusion, because a live job's committed row stays active until its last attempt ends |
| Ingest.ClearedBesideLiveIff | internal/webhook/handler.go:127-131 | beside a live job of its object a record is cleared if and only if the check failed |
| Ingest.HealthyRunsExist | internal/webhook/handler.go:110-150 | runs that meet the conditions of that claim and admit a transfer exist for every positive window |
| Ingest.FailedQueryDuplicates | internal/webhook/handler.go:127-146 | from any state, an unsafe check followed by the insert leads to two live jobs |
| Ingest.LateArrivalDuplicates | internal/webhook/handler.go:120-146 | from any state, an unsafe arrival for an object without an active row leads to two live jobs in some run in which every check works |
| Ingest.UnseenJobDuplicates | internal/webhook/handler.go:127-146 | a record past the deduper beside a live job with no active row becomes a second live job though its check works |
| Ingest.SlowRecordIsForgotten | internal/webhook/dedup.go:28-31 | an unsafe arrival is reachable for every window |
| Ingest.SecondRecordPasses | internal/webhook/handler.go:120-127 | an unsafe check is reachable for every window |
| Ingest.StaleRowBlocksForever | internal/webhook/handler.go:126-131 | a finished job whose last update was lost keeps its active row in every run, and every later record of that key is turned away |
| Ingest.StaleRowIff | internal/transfer/worker.go:69-76 | in every interleaving: a job with a committed row ends in a worker, and once its last statement is resolved, whatever ran in between, its row is still active if and only if that statement failed or was not committed |
| Ingest.EndedJobIdle | internal/transfer/worker.go:58-76 | no engine step touches a job that ended, except the resolution of its last statement |
| Handler.WebhookHandler.Serve | internal/webhook/handler.go:94-186 | each record of the request takes exactly its script of ingest steps in order; every job created is for one of the records and carries the effective retry limit and backoff; the answer is 400 without records, 500 iff an insert failed, which ends the loop, and otherwise 202, with every record turned away or given a job |
| Handler.WebhookHandler.ServeAll | internal/webhook/handler.go:110-186 | the record loop with given settings: the old jobs stay and every new one is for a record of the request |
| Handler.WebhookHandler.ServeOne | internal/webhook/handler.go:111-160 | one record ends in the state its script leads to; it gets exactly one job of its own if it is no duplicate, no active transfer was found and the insert works, and otherwise the store is unchanged |
| Handler.RecordIsServed | internal/webhook/handler.go:111-160 | for every record and state that script is a run of the ingest system |
| Handler.ServedJobs | internal/webhook/handler.go:110-160 | for every sequence of records: the jobs a request adds are each for one of its records, with that record's size and the given limit |
| Handler.AllAccounted | internal/webhook/handler.go:110-186 | a request answered without an error drops no record: each was turned away or got a job |
| Handler.WebhookHandler.HasActiveTransfer | internal/storage/store.go:472-483 | true iff some committed row of that app and key has an active status |
| Handler.WebhookHandler.Admit | internal/webhook/handler.go:117-124 | the deduper object takes the ingest step of the arrival; in a state of any run with app ids free of colons it answers duplicate if and only if the same app and object was admitted less than a window ago |
| Handler.WebhookHandler.Place | internal/webhook/handler.go:134-160 | adds one job, for the record's app, key and size with the given retry limit and backoff, and puts it on the manager's queue, as the ingest system's insert and the engine's append do; the other jobs stay |
| Dedup.AnswersMatchHistory | internal/webhook/dedup.go:25-48 | over every history with a monotone clock a call is rejected iff an accepted call of its key is less than a window old; sweeps do not occur in that specification |
| Dedup.SweepsAreInvisible | internal/webhook/dedup.go:35-48 | over every history with a monotone clock, every call gets the answer it would get with all sweeps deleted |
| Dedup.AcceptsAreSpaced | internal/webhook/dedup.go:25-33 | accepts of one key are at least a window apart |
| Dedup.AcceptRate | internal/webhook/dedup.go:25-33 | an interval of length L holds at most L / window + 1 accepts of a key |
| Dedup.Deduper.IsDuplicate | internal/webhook/dedup.go:25-33 | answers and updates as the map functions say, with its two clock readings apart |
| Dedup.Deduper.Cleanup | internal/webhook/dedup.go:35-48 | the loop deletes exactly the entries at least a window old |
| Batch.BatchingIsInvisible | internal/storage/batch.go:102-123 | for every cutting into transactions that begin and commit, failing statements included, database and replies equal one-by-one execution |
| Batch.NextKeepsInv | internal/storage/batch.go:50-123 | every receive, execution, reply and commit keeps the account of sent, flushed, collected and waiting requests, of the database, of the replies and of the open transaction, and the batch sizes |
| Batch.WriterRefinesSequential | internal/storage/batch.go:50-123 | in every state of every run whose transactions succeed, the committed database is that of executing a prefix of the requests sent, the replies are those of a prefix that may be ahead of it by what the open transaction has executed, and both are those of all requests once channel and batch are empty |
| Batch.DatabaseIsDurablePart | internal/storage/batch.go:102-123 | whatever fails, the database is that of executing exactly the committed batches' requests |
| Batch.OneReplyEach | internal/storage/batch.go:102-115 | in every state of every run the replies went, one each and in order, to the first requests sent: those of finished transactions and those the flush in progress has reached |
| Batch.NilMeansRan | internal/storage/batch.go:112-122 | in every state of every run a nil-answered request is in a committed transaction, in the one still open, or in one whose commit failed |
| Batch.PersistedIff | internal/storage/batch.go:112-122 | with one reply channel per request, a request is among those that make up the committed database if and only if its transaction has finished and committed |
| Batch.NilBeforeCommit | internal/storage/batch.go:39-48 | in some run a caller has a nil answer while the database is unchanged, and the commit that follows can fail |
| Batch.NothingLost | internal/storage/batch.go:58-88 | in every state of every run flushed, collected and waiting requests together are exactly those sent, in order |
| Batch.BacklogFalls | internal/storage/batch.go:50-123 | every receive, settled loop, tick with something to flush, begin, execution, refusal, commit and return lowers one natural-number measure; a send adds six to it, a stop one, and an empty tick nothing |
| Batch.StepsAreBounded | internal/storage/batch.go:50-123 | over every run the goroutine takes no more steps than the measure of the first state plus what sends and stops added |
| Batch.WriterDrains | internal/storage/batch.go:39-88 | after any history, when the goroutine can take no step that advances it and has not returned, every request ever sent has been flushed and its caller answered, in order |
| Batch.TickFlushes | internal/storage/batch.go:68-72 | in every run, from a tick to the next wait, with callers sending all the while: the batch is emptied, exactly its requests are flushed, and exactly their callers are answered, in order |
| Batch.BatchesAreBounded | internal/storage/batch.go:60-84 | in every run every transaction has 1 to 500 requests, except the one of the stop case, which is the last |
| Batch.NothingAfterStop | internal/storage/batch.go:73-84 | after the goroutine returned only the channel grows, by what is sent |
| Batch.StopFlushesAll | internal/storage/batch.go:73-84 | when the goroutine has returned, exactly the requests sent before its stop loop found the channel empty have been flushed |
| Batch.ReceiveAdmitsSender | internal/storage/batch.go:9-13 | a receive takes the oldest of the 16384 buffered requests and lets the first blocked caller in, so order and emptiness do not depend on the capacity |
| Batch.Writer.Run | internal/storage/batch.go:50-88 | the loop takes exactly the turns of the schedule, and is in a state of a run of the step system throughout |
| Batch.Writer.Flush | internal/storage/batch.go:102-123 | one transaction of the whole batch with the given outcome, through the step system's begin, execute-and-reply and commit steps; exactly the batch's callers are answered, in order |
| Batch.Writer.ExecuteAll | internal/storage/batch.go:112-115 | the loop executes and answers each request in turn, every reply in a state of a run before the commit |
| Batch.Writer.Drain | internal/storage/batch.go:90-100 | takes ready requests in order until the channel is empty or the batch is full |
| Batch.Writer.OnReceive | internal/storage/batch.go:60-67 | with fewer than 500 requests collected and waiting, all are collected and nobody is answered; otherwise the first 500 are flushed and their callers answered |
| Batch.Writer.OnTick | internal/storage/batch.go:68-72 | everything collected is flushed and its callers answered, one reply each in order, and the batch is empty |
| Batch.Writer.OnStop | internal/storage/batch.go:73-84 | everything collected and everything in the channel is flushed and answered in order |
| Sessions.TableMatchesHistory | internal/auth/auth.go:134-156 | for every history, whatever order the clock readings are in: a token is accepted iff it was issued and not logged out since, and its last login or use was at most 24 h old at every later login of anybody, at every later use of it, and now, each by its own reading |
| Sessions.InOrderTableMatchesUses | internal/auth/auth.go:134-156 | for readings in lock order: accepted iff issued, not logged out since, and no gap between its uses from login to now exceeds 24 h |
| Sessions.AcceptedIsValid | internal/auth/auth.go:134-156 | in any order of readings an accepted token meets that condition |
| Sessions.UseEvent | internal/auth/auth.go:145-155 | sliding expiry: alive after a use iff alive at its reading and a gap of at most 24 h since |
| Sessions.DeletionsAreInvisible | internal/auth/auth.go:150-229 | over every history with readings in lock order, every answer is the one given with all sweeps and lazy deletions left out |
| Sessions.OutOfOrderUseIsRejected | internal/auth/auth.go:142-152 | with readings out of order the sweep is visible: a use in time by its own reading is rejected, because a login with a later one found the token out of time |
| Sessions.Service.CheckSession | internal/auth/auth.go:134-156 | the answer and the new table, for disabled auth, a missing or empty cookie, unknown, expired and live tokens |
| Sessions.Service.HandleLogin | internal/auth/auth.go:63-89 | sweeps and issues only with auth enabled and right credentials |
| Sessions.Service.HandleLogout | internal/auth/auth.go:103-108 | removes the cookie's token |
| Sessions.Service.Collect | internal/auth/auth.go:223-229 | the loop deletes exactly the expired tokens |
| AppCache.ServedIsRecent | internal/webhook/appcache.go:31-61 | under every interleaving an app served for a route was read from the store, enabled, by one action of the run and cached by a later one, at most 30 s before and not replaced since; the row is that route's if group names contain no colon |
| AppCache.AnswersMatchHistory | internal/webhook/appcache.go:31-61 | at every moment of every run a lookup is answered with an app if and only if that app is what was last cached under its key, at most 30 s before |
| AppCache.CachedIsServed | internal/webhook/handler.go:52-75 | in every run an enabled app that was read and then cached is what its route is answered with for 30 s, unless something else is cached under its key |
| AppCache.LookupWasRead | internal/webhook/handler.go:56-66 | what a miss reads is what the store held at some moment of the run |
| AppCache.KeySharedIff | internal/webhook/handler.go:50-52 | a route shares its cache key with one of a shorter group name iff its group name contains a colon |
| AppCache.SweepsAreInvisible | internal/webhook/appcache.go:48-61 | with all sweeps of a run deleted every lookup gets the answer it got |
| AppCache.Cache.Lookup | internal/webhook/appcache.go:31-39 | serves an entry until its expiry inclusive |
| AppCache.Cache.Set | internal/webhook/appcache.go:42-46 | from then on the key is answered with that app up to one TTL later and with nothing after, and no other key's answer changes |
| AppCache.Cache.Cleanup | internal/webhook/appcache.go:48-61 | the loop deletes exactly the expired entries |
| Hub.NoGapDelivery | internal/hub/hub.go:24-61 | in every run what a client was sent is exactly the segment of the accepted publishes from its registration to its removal, its buffer holds at most 256, and its connection was written a prefix of that |
| Hub.PublishedInOrder | internal/hub/hub.go:36-61 | in every run what the hub has processed followed by what waits is exactly the accepted publishes in order, where acceptance is defined by the actions alone; the next publish is dropped if and only if 256 wait |
| Hub.WorkIsBounded | internal/hub/hub.go:24-51 | left alone, the hub's loop and the pumps take at most as many steps as a natural-number load |
| Hub.HubDelivers | internal/hub/client.go:64-92 | when they can take no more, every member whose connection works has been written every publish accepted since it registered, and every removed client its whole segment and then a Close frame |
| Hub.CloseFrameIsLast | internal/hub/client.go:71-83 | nothing is written after the Close frame (section 5.5.1 of RFC 6455), and a client that got it got its whole segment of the accepted publishes first |
| Hub.ChannelsUsedSafely | internal/hub/hub.go:30-47 | in every run a close is the last operation ever done to a send channel, so nothing is sent on a closed channel and none is closed twice; a channel is closed iff its client was removed |
| Hub.EvictedIffFull | internal/hub/hub.go:40-48 | the fan-out evicts a client iff 256 messages wait unread |
| Hub.NextKeepsInv | internal/hub/hub.go:24-51 | every hub and pump step keeps delivery and pump invariants |
| Hub.Fanout.OnBroadcast | internal/hub/hub.go:40-48 | in any order of ranging: members with room get the message at the end, full ones are removed and closed once, nothing else changes |
| Hub.Fanout.OnRegister | internal/hub/hub.go:27-28 | adds the client |
| Hub.Fanout.OnUnregister | internal/hub/hub.go:30-34 | removes and closes a member once, leaves a client evicted before alone |
| ClientCache.SameKeySameClient | internal/storage/minio.go:42-67 | in every interleaving of load, build and load-or-store, callers with one key get the identical client |
| ClientCache.ReturnedClientFits | internal/storage/minio.go:34-67 | the client was built by some caller with that key and has that caller's endpoint, keys, region, SSL flag and TLS setting; without a bar in endpoints it has the caller's own endpoint, access key and TLS setting, and equals a fresh build iff secret, region and SSL flag agree with the builder's |
| ClientCache.RotatedSecretIsIgnored | internal/storage/minio.go:43-46 | a caller with a changed secret gets the old client |
| Keys.Split | internal/storage/minio.go:39 | two composite keys with equal text have equal parts if no left part contains the separator |
| Stats.StatsConserved | internal/storage/store.go:419-454 | in every reachable store and for every filter each of the five counts is the number of jobs whose committed row is selected and has that status, they add up to the total, and the bytes are the sizes of successful transfers |
| Stats.GroupIsSumOfApps | internal/storage/store.go:428-434 | a group's figures are the sum of its apps' figures |
| Stats.TotalIsSumOfAppsIff | internal/storage/store.go:419-454 | the overall total is the sum over all apps iff every transfer's app exists |
| Stats.TotalIsSumOfApps | internal/storage/001_initial_schema.sql:47 | after any statements, refused ones included, the foreign key keeps every transfer's app and the overall figures are the sum over all apps |
| Stats.RefusedIff | internal/storage/001_initial_schema.sql:47 | a statement is refused if and only if what it asks for would leave a transfer without its app |
| Decimal.RouterRoundTrip | internal/server/router.go:77-95 | the text is a JSON integer (section 6 of RFC 8259) that reads back as the number iff the number is not -2^63, for which it is a minus sign |
| Decimal.PrintersAgree | cmd/flowgate/main.go:178-188 | the two printers agree exactly on numbers that are not negative; main's prints nothing for the others |
| Decimal.RouterItoa | internal/server/router.go:77-95 | the loop computes the specified text |
| Decimal.MainItoa | cmd/flowgate/main.go:178-188 | the loop computes the specified text |

## Left out

- HTTP routing, middleware, request decoding, dashboard REST handlers, config loading, migrations: per-branch plumbing.
- The MinIO protocol, the streaming copy and SQLite: `doTransfer` is an arbitrary result, SQL acts on rows; the batch
  writer's database semantics is an arbitrary function of state and statement.
- AES-GCM, random tokens, UUIDs, path unescaping and the webhook token compare: tokens and ids are fresh, decryption is a
  parameter, keys arrive unescaped.
- Persisted instants are whole Unix seconds in the source; the model keeps the instants themselves.
- `etag`, the average duration and the last completion time: no property above depends on them.
- Listing and pagination: the source orders by whole-second creation time without a tie-break.
- Recovery of active rows after a restart: the source has no code for it; one process lifetime is modelled.
- Dashboard broadcasts of the worker and their 1000-deep throttle: no effect on any property above.
- Engine.State: a queued job is its id; the retry counter a job value carries in the source is kept in the job table, as
  each job is in one place.
- Handler.WebhookHandler.Serve: the method runs alone with the manager's lock free; interleaved handlers and workers that
  hold the lock are in the step system only.
- Hub.Fanout.OnBroadcast: the method runs without concurrent pumps; pumps that drain during the loop are in the step
  system only.
- Batch.Writer.Run: callers send between the turns of the goroutine; sends that arrive during its drain, stop and flush
  loops are in the step system only.
