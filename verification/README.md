# Verified model of the transactional outbox

A Dafny model of the outbox's two cooperating state machines and of what every run of them keeps.

**The leased-row table.** Rows, an id counter, a dead-letter table and a clock. A fetch leases due rows under a
token of its own; every terminal or retry write names the row and the token it was handed and lands only while that
lease is current. `LeaseTable` gives each statement as a function on a table value. `FakeClient` is the in-memory
client, a list changed in place, proved against it; `SqlClient` is the form of the SQL statements, proved to refine it.
`History`, `Database` and `DatabaseRuns` add a log of what landed, each entry with what its statement was given, and
prove over every run the lease guarantees and that every stored column is what the log says.

**The subscriber.** One fetch loop, any number of workers, a bounded queue with an unfinished count, per-worker delete
buffers, the claim lock, the wake event, the writer generation and `stop()`. A step is the code between two awaits, and
steps of different tasks interleave freely. `Subscriber` gives the steps; `SubscriberBalance`, `SubscriberShape`,
`SubscriberRuns` and `SubscriberFifo` prove what every interleaving keeps, and `SubscriberWitness` shows how a put-back
breaks claim order and a cancelled handler leaves a dispatch open; `SubscriberSteps` says what single steps lead to, in
terms of rows, outcomes and events; `SubscriberClass` is the object itself, whose methods are proved to be those steps.

**The whole outbox.** `OutboxSystem` puts any number of subscribers on one table with publishers, cancellers and other
clients. A statement and its reply are separate steps: a write may land and its reply be lost, and a statement whose
worker gave up may still run later. `SystemRuns` and `SystemEvents` prove what holds across them, `SystemWrites` what a
handler's decision does to its row.

Around these: `Message` (the outcome a handler records), `RetryPolicy` (delays, over reals), `Metrics` (events and the
in-process gauge) and `NotifyMemo` (which queues a publisher has notified, over nested transactions).

## What is assumed

- The database clock does not go back, and each fetch draws a token never drawn before.
- A retry strategy answers within its attempt limit; `Message.StrategiesStayWithin` proves it of the built-in ones.
- Configurations are the ones the constructors accept: batch sizes of at least one, a positive lease.
- A handler may do anything: any calls on the message in any order, then return, raise a configuration error, raise
  another exception, or be cancelled.

Weights recur in the proofs: a law proved for any weight on rows gives, with the indicator of one claim, a statement
about that claim, and with weight one, a count.

Where the code and its own words differ, the model follows the code. The in-memory client refuses an archive without a
dead-letter table only when the lease holds, the database client always (`SqlClient.DeletesAgreeIff`). A dispatch
cancelled inside the handler is left without a closing event, since only `Exception` is caught there; the theorems name
these dispatches. A stale writer puts its row back at the tail of the queue: the rows it put back, and no others, can
outlive the half-lease bound of the buffer (`SubscriberFifo.BufferIsYoung`, `SubscriberWitness.PutBackOutlives`). On a
session that commits every statement by itself the NOTIFY memo outlives the commits and skips notifications
(`NotifyMemo.AutocommitKeepsMeaningIff`).

`dafny verify dfyconfig.toml` checks the whole project.

## Model

| member | source | states |
|---|---|---|
| Ordering.OldestOfBranches | faststream_outbox/client.py:224-241 | cutting each of any number of scans at the limit before uniting them, then ordering and cutting again, gives the same list as ordering and cutting the union once |
| Ordering.OldestIsLeast | faststream_outbox/client.py:242 | no row left out of the limit is older, by deadline and then id, than a row taken |
| Ordering.SortedUnique | faststream_outbox/client.py:521 | a list ordered by deadline and id is determined by its elements, so the order rows come back in does not matter |
| LeaseTable.PickedAreClaimable | faststream_outbox/testing.py:285-296 | every row a fetch picks is due, in a served queue, not locked, and unleased or with an expired lease |
| LeaseTable.PickedInOrder | faststream_outbox/testing.py:285-296 | the picked rows are in deadline-and-id order, at most the limit, and no row twice |
| LeaseTable.NotStranded | faststream_outbox/testing.py:285-296 | a row past its deadline and its lease is picked by every fetch of its queue whose limit covers the claimable backlog, unless it is locked just then |
| TableLaws.InsertValid | faststream_outbox/schema.py:115-143 | an insert, skip or extend keeps ids fresh, one live row per (queue, timer) and the two lease columns set together |
| TableLaws.InsertBatchValid | faststream_outbox/client.py:359-382 | a batch insert keeps the table well formed and moves the id counter on by its length |
| TableLaws.ClaimRowsValid | faststream_outbox/client.py:243-251 | a claim keeps the table well formed |
| TableLaws.DeleteValid | faststream_outbox/client.py:567-585 | a terminal delete keeps the table well formed |
| TableLaws.RescheduleValid | faststream_outbox/client.py:649-664 | a reschedule keeps the table well formed, the two lease columns cleared together |
| TableLaws.CancelValid | faststream_outbox/client.py:666-676 | a timer cancel keeps the table well formed |
| TableLaws.BatchIsFold | faststream_outbox/testing.py:328-344 | deleting a list of (id, token) pairs in one statement leaves the rows, and reports the pairs, that deleting them one at a time would, for any order, repeats and stale copies |
| TableLaws.ExtendsKeepTheLatest | faststream_outbox/testing.py:173-187 | after any sequence of extends of an unleased timer the deadline is the latest of stored and requested, the payload is of the first request to reach it, and the retry history is reset exactly when the deadline moved |
| TableLaws.ExtendOrderFree | faststream_outbox/testing.py:173-187 | the resulting deadline does not depend on the order in which the extends commit |
| TableLaws.ExtendsLeaveLeased | faststream_outbox/testing.py:178-179 | no sequence of extends touches a leased row |
| TableLaws.ClaimTouchesLeaseOnly | faststream_outbox/client.py:243-251 | a claim sets the two lease columns and counts one delivery; every other column, and every other row, is unchanged |
| TableLaws.RescheduleWrites | faststream_outbox/testing.py:346-366 | a landed retry write is due after its delay (a negative one counting as none), carries the reported attempt and times, is unleased, and keeps what was published |
| TableLaws.StoredAsRequested | faststream_outbox/testing.py:229-251 | a stored row carries the request column by column, is due at the requested deadline, unleased and never attempted |
| TableLaws.BatchStoredAsRequested | faststream_outbox/testing.py:189-205 | a batch stores its rows in order under consecutive ids, each as requested, and leaves the others alone |
| TableLaws.SkippedIffNotClaimable | faststream_outbox/client.py:337-351 | the publisher skips its NOTIFY exactly when the row it stores is not claimable at that instant |
| TableLaws.TimerPublish | faststream_outbox/client.py:284-303 | a publish to a timer stores a row if no live one holds it; it leaves a live row alone when ignored or leased, and an extend never pulls it forward |
| TableLaws.CancelLandsIff | faststream_outbox/testing.py:368-375 | a cancel lands exactly when an unleased row holds the timer, and removes that row only |
| Rows.DeadlineResolved | faststream_outbox/_scheduling.py:17-38 | a relative activation counts from now and wins over an absolute one; without either the row is due now |
| Rows.FutureDatedIffNotDue | faststream_outbox/_scheduling.py:17-38 | the publisher skips its NOTIFY exactly when the row it stores is not yet due at the same instant |
| RowList.ListIsDetermined | faststream_outbox/testing.py:212-251 | two ascending row lists with the same rows by id are the same list: tying a method to the table fixes its whole list |
| RowList.ScanPicks | faststream_outbox/testing.py:285-296 | filtering the list, sorting it and slicing it picks exactly the rows the table specification picks |
| FakeClient.FakeOutboxClient.constructor | faststream_outbox/testing.py:110-118 | a new client is the empty table with ids from one |
| FakeClient.FakeOutboxClient.FindTimer | faststream_outbox/testing.py:155-157 | finds the one live row holding a (queue, timer), or reports there is none |
| FakeClient.FakeOutboxClient.AppendNew | faststream_outbox/testing.py:229-251 | appends a row under the next id, unleased and never attempted |
| FakeClient.FakeOutboxClient.Insert | faststream_outbox/testing.py:141-187 | the new state is the specified insert: refused when a name is too long, skipped, extended or stored; the row to dispatch is remembered only when stored |
| FakeClient.FakeOutboxClient.InsertBatch | faststream_outbox/testing.py:189-205 | all rows of the batch are appended in order, or none when the queue name is refused |
| FakeClient.FakeOutboxClient.Fetch | faststream_outbox/testing.py:271-298 | claims exactly the picked rows under the token and returns their new copies in order |
| FakeClient.FakeOutboxClient.ClaimAt | faststream_outbox/testing.py:62-72 | sets both lease columns and adds one delivery on that row only |
| FakeClient.FakeOutboxClient.FindLease | faststream_outbox/testing.py:75-85 | finds the row a lease still holds; a missing token on either side never matches |
| FakeClient.FakeOutboxClient.DeleteWithLease | faststream_outbox/testing.py:300-326 | the specified delete: removes and, with failure context, archives the row iff the lease holds; refuses an archive without a dead-letter table only then |
| FakeClient.FakeOutboxClient.DeleteBatchWithLease | faststream_outbox/testing.py:328-344 | removes every row whose pair is wanted and still held, and returns exactly those pairs |
| FakeClient.FakeOutboxClient.MarkPendingWithLease | faststream_outbox/testing.py:346-366 | releases and reschedules the row iff the lease holds, a negative delay counting as none |
| FakeClient.FakeOutboxClient.CancelTimer | faststream_outbox/testing.py:368-375 | drops the timer row iff it exists and is unleased |
| SqlClient.ReadyIsOldestClaimable | faststream_outbox/client.py:210-242 | for every table, queue list with repeats, lock set and limit, the two-branch claim query selects the first `limit` unlocked claimable rows by (deadline, id) |
| SqlClient.SortedReturn | faststream_outbox/client.py:520-521 | sorting the rows RETURNING yields in any order gives the in-memory order |
| SqlClient.QueryClaimsPicked | faststream_outbox/client.py:490-521 | whatever order RETURNING yields, the query updates exactly the rows, and hands out the list, of the table specification |
| SqlClient.UpsertIsExtend | faststream_outbox/client.py:284-296 | the greatest/case upsert with its WHERE clause is the branching extend, column by column |
| SqlClient.UpsertsKeepTheLatest | faststream_outbox/client.py:278-296 | so any sequence of upserts has the running-maximum law |
| SqlClient.CteIsDelete | faststream_outbox/client.py:254-266 | the DELETE-then-archive statement, with its own RETURNING and SELECT lists, removes and archives the row as the in-memory projection does, iff its lease is held |
| SqlClient.DeletesAgreeIff | faststream_outbox/client.py:567-585 | the database delete and the in-memory delete give the same answer and leave the same table if and only if there is no archive to write, a dead-letter table exists, or the lease still holds |
| SqlClient.LagIsExact | faststream_outbox/metrics/lag.py:22-34 | the pruned lag query is the least deadline of all claimable rows of the queue, empty iff there is none, and the deadline of the row a fetch of one would claim |
| History.WriteFollowsItsClaim | faststream_outbox/client.py:573-585 | a terminal or retry write that lands directly follows, on its row, the claim that issued its token; a removal takes that very copy |
| History.OneWritePerClaim | faststream_outbox/client.py:523-664 | at most one write ever lands for one (id, token) |
| History.LateWriterNeverLands | faststream_outbox/testing.py:75-85 | once a row was claimed again no write under an older token lands |
| History.ClaimsExclude | faststream_outbox/client.py:200-207 | two successive claims of a row have a landed reschedule between them or are more than the reclaiming lease apart |
| History.ReclaimsWaitOut | faststream_outbox/client.py:200-207 | without a reschedule between two claims of a row, successive or not, the later one waited out its own lease since the earlier |
| History.EndIsFinal | faststream_outbox/client.py:666-676 | nothing happens to a row after it was removed or cancelled |
| History.ArchiveOrigin | faststream_outbox/schema.py:160-172 | each archive row holds, column by column, what a claim handed out, and the instant, reason and exception of the delete of that claim |
| Database.ClaimEachIsUpdate | faststream_outbox/client.py:243-251 | claiming the picked rows one at a time is the single UPDATE |
| Database.FetchKeeps | faststream_outbox/client.py:490-521 | a fetch keeps the link between table, history, counters and archive |
| Database.RetireKeeps | faststream_outbox/client.py:624-664 | a reschedule that reports one more attempt than its copy keeps it |
| Database.FinishKeeps | faststream_outbox/client.py:523-585 | a terminal delete keeps it |
| Database.FinishAllKeeps | faststream_outbox/client.py:587-622 | a batched delete keeps it |
| Database.PublishKeeps | faststream_outbox/client.py:323-357 | a publish, skip or extend keeps it |
| Database.WithdrawKeeps | faststream_outbox/client.py:666-676 | a cancel keeps it |
| DatabaseRuns.StepKeeps | faststream_outbox/client.py:490-676 | every statement, in any order by anyone, keeps it |
| DatabaseRuns.LeasedRowIsItsCopy | faststream_outbox/client.py:649-664 | while a row carries the token of a claim every stored column equals the copy that claim handed out, in every run |
| DatabaseRuns.NoClaimBeforeDue | faststream_outbox/client.py:224-233 | in every run no row is claimed before the deadline its insert, the last extend that moved it or the last retry write asked for; its copy carries the last attempt written back |
| DatabaseRuns.CopyIsAsRequested | faststream_outbox/client.py:323-357 | every claimed copy carries queue, timer and creation time of its insert, and payload and headers of that insert or of the last extend that moved its deadline |
| DatabaseRuns.FirstAttemptStays | faststream_outbox/message.py:200-205 | once an attempt was written back, every later copy carries the time of the first one until an extend resets it |
| DatabaseRuns.LiveRowDeadline | faststream_outbox/client.py:649-664 | a live row stores the deadline of the last insert, moving extend or retry write |
| DatabaseRuns.WritesFollowClaims | faststream_outbox/client.py:523-664 | in every run, no two landed writes share (id, token) and each directly follows its claim |
| DatabaseRuns.ClaimsOfARunExclude | faststream_outbox/client.py:200-233 | mutual exclusion in time, in every run |
| DatabaseRuns.FetchesAreDisjoint | faststream_outbox/testing.py:281-298 | two fetches within the lease of the later one, with no reschedule of a row of the first between, hand out disjoint rows |
| DatabaseRuns.Conservation | faststream_outbox/client.py:567-585 | every inserted id is in exactly one of live, acked, failed, cancelled; with a dead-letter table it has one archive row exactly if it failed |
| DatabaseRuns.ArchiveMatchesClaim | faststream_outbox/schema.py:160-172 | column by column an archive row is what the claim whose delete landed handed out, with that instant, reason and exception, in every run |
| DatabaseRuns.CountersExact | faststream_outbox/client.py:243-248 | deliveries_count is the number of claims, attempts_count the reschedules landed since insertion or the last reset, at most one less than the attempt limit |
| DatabaseRuns.NothingStranded | faststream_outbox/schema.py:115-143 | in every run the table is well formed and an overdue, lease-expired row is picked unless locked |
| ClaimLaws.FetchHands | faststream_outbox/client.py:516-521 | a fetch adds to the claims exactly the copies it hands out, each recorded under its own token |
| ClaimLaws.LeaseIssuedOnce | faststream_outbox/client.py:516 | a (id, token) pair is issued at most once in a run |
| ClaimLaws.DeliveriesNumberClaims | faststream_outbox/client.py:247 | of the claims of a row at most D carry a deliveries_count of at most D |
| Message.FirstCallDecides | faststream_outbox/message.py:147-205 | whatever a handler and its middleware call, the first ack, nack or reject decides outcome and attempt times and records exactly one attempt |
| Message.OutcomeSettles | faststream_outbox/message.py:156-251 | after any calls and the fallback the outcome is the first deciding call, else a nack if an exception was captured, else a rejection; one attempt is recorded at that time and an earlier first attempt kept |
| Message.SettlesOnce | faststream_outbox/message.py:156-251 | and no other outcome settles those calls |
| Message.StrategyGrantsIff | faststream_outbox/message.py:165-194 | a nack is granted a retry exactly when this attempt is below the limit and its delay ends within the total budget counted from the first attempt |
| Message.CallsKeepSound | faststream_outbox/message.py:165-205 | any sequence of calls records one attempt if it decides and none if not, and no retry beyond the limit |
| Message.StrategiesStayWithin | faststream_outbox/retry.py:65-80 | every built-in strategy with an attempt limit answers a nack within that limit |
| Message.OutboxInnerMessage.AckIt | faststream_outbox/message.py:156-163 | records an attempt and the ack unless an outcome is set |
| Message.OutboxInnerMessage.Nack | faststream_outbox/message.py:165-194 | records an attempt and a retry with the granted delay, or a terminal failure when there is no strategy, it raises or refuses |
| Message.OutboxInnerMessage.Reject | faststream_outbox/message.py:196-198 | records an attempt and a terminal rejection unless an outcome is set |
| Message.OutboxInnerMessage.Record | faststream_outbox/message.py:200-205 | one more attempt; the first attempt time is set once |
| Message.OutboxInnerMessage.AllowDelivery | faststream_outbox/message.py:207-217 | refuses, and marks the row terminal, exactly when it has been delivered more often than the limit |
| Message.OutboxInnerMessage.EnsureOutcome | faststream_outbox/message.py:219-251 | afterwards an outcome is set: kept, nacked after an exception, else rejected |
| RetryPolicy.DelayInBand | faststream_outbox/retry.py:98-178 | every delay is non-negative, within the jitter band of its base, and for the exponential form at most the lesser of max_delay and the absolute cap |
| RetryPolicy.ConstantDelay | faststream_outbox/retry.py:111-116 | the constant delay is the configured one, stretched by the draw under jitter |
| RetryPolicy.LinearDelay | faststream_outbox/retry.py:135-140 | the linear delay starts at the initial one and grows by the step with each further attempt |
| RetryPolicy.ExponentialDelay | faststream_outbox/retry.py:163-178 | the exponential delay starts at the initial one and multiplies with each further attempt, up to max_delay and the absolute cap |
| RetryPolicy.JitteredDelay | faststream_outbox/retry.py:135-178 | under jitter a delay is its base stretched by the draw, then capped |
| RetryPolicy.GrantedIff | faststream_outbox/retry.py:65-80 | the computed delay is granted iff neither the attempt limit nor the total budget is reached, and then elapsed plus delay is within the budget |
| RetryPolicy.ExponentialGrowsIff | faststream_outbox/retry.py:150-178 | without jitter the delays of an accepted exponential configuration never shrink from one attempt to a later one if and only if its multiplier is at least one, caps included |
| RetryPolicy.ShrinkingMultiplier | faststream_outbox/retry.py:150-178 | for every multiplier below one some later delay is shorter than the first |
| Metrics.GaugeIsDifference | faststream_outbox/metrics/__init__.py:28-33 | the gauge over any stream is dispatches less closing events |
| Metrics.PrometheusRecorder.Record | faststream_outbox/metrics/prometheus.py:316-350 | what one event does to the gauge and to the received, acked, nacked and error counters |
| Metrics.PrometheusRecorder.RecordAll | faststream_outbox/metrics/prometheus.py:284-350 | fed a whole stream, the gauge is the number of dispatches less the number of closing events |
| SubscriberBalance.WorkerMoves | faststream_outbox/subscriber/usecase.py:637-950 | every worker step conserves what is held and what is open, for any weight on rows, and moves the unfinished count by what it lets go |
| SubscriberBalance.FetchMoves | faststream_outbox/subscriber/usecase.py:403-465 | every step of the fetch loop conserves them too |
| SubscriberBalance.FlushWeight | faststream_outbox/subscriber/usecase.py:901-908 | a flush closes each buffered dispatch exactly once, landed or lost |
| SubscriberBalance.AbandonAllWeight | faststream_outbox/subscriber/usecase.py:893-899 | a failed or cancelled flush closes each of them exactly once |
| SubscriberShape.WorkerShapeKept | faststream_outbox/subscriber/usecase.py:637-695 | every worker step keeps the buffer within its batch, plain deletes only, and its head young at the top of the loop |
| SubscriberShape.WorkerFramed | faststream_outbox/subscriber/usecase.py:648-695 | a worker step never grows the queue and sets the wake event whenever it leaves enough slots free |
| SubscriberRuns.StepKeeps | faststream_outbox/subscriber/usecase.py:290-1023 | every step of any task, in any interleaving, keeps queue capacity, wake event, stop phases, buffers and unfinished count |
| SubscriberRuns.UnfinishedIsInMemory | faststream_outbox/subscriber/usecase.py:429-451 | the unfinished count is the rows queued, in hand and buffered; the queue is within its bound and an answered fetch still fits |
| SubscriberRuns.JoinMeansEmpty | faststream_outbox/subscriber/usecase.py:309-320 | once stop() passed the claim lock and join() returned no claimed row is in memory and no fetch is running |
| SubscriberRuns.DrainedStays | faststream_outbox/subscriber/usecase.py:309-346 | and no later step, until a new start, brings one in |
| SubscriberRuns.GaugeIsOpenDispatches | faststream_outbox/subscriber/usecase.py:745-773 | in every reachable state the gauge is the number of open dispatches, and it was never negative |
| SubscriberRuns.DispatchClosedOnce | faststream_outbox/subscriber/usecase.py:700-950 | a claim received at most once is dispatched at most once, and its dispatch is closed by exactly one event with a duration unless it is still open or was cancelled inside the handler |
| SubscriberRuns.ClosedAfterDispatch | faststream_outbox/metrics/__init__.py:28-33 | at every point of the event stream no more was closed than dispatched, for any set of rows |
| SubscriberRuns.AllClosedIff | faststream_outbox/subscriber/usecase.py:749-771 | after any run that leaves no dispatch open in a worker, all dispatches are closed iff no step of the run was a cancellation taken while a handler ran |
| SubscriberWitness.CancelledInHandler | faststream_outbox/subscriber/usecase.py:749-771 | a run in which such a cancellation leaves a dispatch that nothing will close |
| SubscriberRuns.BlockedRowsOpenNothing | faststream_outbox/subscriber/usecase.py:728-739 | a row beyond its delivery limit is never dispatched and none of its events carries a duration |
| SubscriberRuns.NoLostWakeup | faststream_outbox/subscriber/usecase.py:428-471 | idle after a NOTIFY the last fetch may have missed, waiting with enough slots free, or stopping: the wake event is set |
| SubscriberRuns.BuffersAreBounded | faststream_outbox/subscriber/usecase.py:644-686 | at the top of the loop a buffer is below its batch size, its head was claimed less than half a lease before the last check, and it holds plain deletes only |
| SubscriberFifo.BufferIsYoung | faststream_outbox/subscriber/usecase.py:644-686 | at the top of the loop every buffered row that no stale writer put back was claimed less than half a lease before the last check |
| SubscriberWitness.PutBackOutlives | faststream_outbox/subscriber/usecase.py:658-686 | a run in which a row that was put back is still buffered at the top of the loop past half its lease, behind a younger head |
| SubscriberSteps.TakeDispatchesIff | faststream_outbox/subscriber/usecase.py:648-749 | the head of the queue is dispatched exactly when the writer predates no fetch error and the row is within its delivery limit |
| SubscriberSteps.TakeBlocks | faststream_outbox/subscriber/usecase.py:728-739 | a row past its limit leaves the queue undispatched, as a terminal failure by max_deliveries |
| SubscriberSteps.TakePutsBack | faststream_outbox/subscriber/usecase.py:658-663 | a stale worker puts the head behind the other rows, the unfinished count unchanged, and goes to reconnect |
| SubscriberSteps.HandlerLeadsTo | faststream_outbox/subscriber/usecase.py:749-876 | after a handler the row goes on with the outcome its calls settle, buffered exactly when it returned, batching is on and the write is a plain delete; only a row undecided while stopped is left to its lease |
| SubscriberSteps.ParksIff | faststream_outbox/subscriber/usecase.py:683-686 | the worker goes on without a flush exactly when its buffer is short and its oldest row younger than half a lease |
| SubscriberSteps.ReplyReports | faststream_outbox/subscriber/usecase.py:956-1023 | a landed write is reported by its outcome, after the archive event if it archived; a lost one as a lost lease |
| SubscriberSteps.FetchAsksForFreeSlots | faststream_outbox/subscriber/usecase.py:428-447 | the fetch loop asks for all free slots once half of them and at least one are free, after clearing the event, and waits otherwise |
| SubscriberSteps.FetchedRowsAreQueued | faststream_outbox/subscriber/usecase.py:450-451 | every row of an answered fetch enters the queue behind the others, in order, as claimed |
| SubscriberSteps.ErrorsLeaveTheLoop | faststream_outbox/subscriber/usecase.py:686-698 | a write or flush that raised takes a pooled worker out of the loop by way of one flush; without a connection of its own a failed write leaves it in the loop |
| SubscriberSteps.FlushesLeadOn | faststream_outbox/subscriber/usecase.py:878-908 | an answered flush empties the buffer and leads where the worker was going |
| SubscriberSteps.ErrorsRetireWriters | faststream_outbox/subscriber/usecase.py:611-624 | a fetch error makes every earlier writer stale, and no later one |
| SubscriberClass.OutboxSubscriber.constructor | faststream_outbox/subscriber/usecase.py:196-224 | a new subscriber is the initial state |
| SubscriberClass.OutboxSubscriber.EnqueueFetched | faststream_outbox/subscriber/usecase.py:450-465 | the put_nowait loop never overfills and is the arrival step |
| SubscriberClass.OutboxSubscriber.FetchTopSegment | faststream_outbox/subscriber/usecase.py:417-434 | leave, wait for room, or clear the event and go for the claim lock |
| SubscriberClass.OutboxSubscriber.FetchLocked | faststream_outbox/subscriber/usecase.py:435-437 | inside the lock a stop that began meanwhile ends the loop before it claims |
| SubscriberClass.OutboxSubscriber.FetchWoken | faststream_outbox/subscriber/usecase.py:467-471 | either wait ends with the event cleared |
| SubscriberClass.OutboxSubscriber.OnNotify | faststream_outbox/subscriber/usecase.py:518-530 | a NOTIFY sets the event |
| SubscriberClass.OutboxSubscriber.TakeSegment | faststream_outbox/subscriber/usecase.py:648-682 | put back by a stale writer, stopped by its limit, or dispatched; the fetch loop is woken when enough slots are free |
| SubscriberClass.OutboxSubscriber.HandledSegment | faststream_outbox/subscriber/usecase.py:775-821 | the recorded outcome leads to a buffered delete, an inline write or an abandoned row |
| SubscriberClass.OutboxSubscriber.WriteAnswer | faststream_outbox/subscriber/usecase.py:956-1023 | the answer of an inline write emits its event or the lost lease and balances the queue |
| SubscriberClass.OutboxSubscriber.WriteError | faststream_outbox/subscriber/usecase.py:823-854 | a write that raised closes its dispatch, balances the queue and, with a pooled writer, leaves the loop |
| SubscriberClass.OutboxSubscriber.FlushAnswer | faststream_outbox/subscriber/usecase.py:901-908 | one event and one task_done per buffered row, then an empty buffer; task_done never underflows |
| SubscriberClass.OutboxSubscriber.FlushError | faststream_outbox/subscriber/usecase.py:893-899 | every buffered row is abandoned and balanced before the error goes on |
| SubscriberClass.OutboxSubscriber.StopCalled | faststream_outbox/subscriber/usecase.py:309-310 | stop() halts the fetch loop and wakes it |
| SubscriberClass.OutboxSubscriber.StopPassedLock | faststream_outbox/subscriber/usecase.py:317-320 | past the claim lock, join() returns at once iff nothing is unfinished |
| SubscriberClass.OutboxSubscriber.StopDrained | faststream_outbox/subscriber/usecase.py:319-335 | join() in time leaves an empty queue and nothing unfinished |
| FlushLaws.FlushIsBatchDelete | faststream_outbox/client.py:587-622 | the statement of a flush is the one DELETE over its pairs |
| FlushLaws.BatchedFlushIsInline | faststream_outbox/subscriber/usecase.py:878-908 | one flush leaves the database, and emits per row the event, of the inline path run row by row |
| OutboxSystem.SentIsOk | faststream_outbox/subscriber/usecase.py:956-1023 | every statement a worker sends names a lease some fetch issued and, for a retry, one more attempt than that copy within the limit |
| SystemWrites.SentAfterHandler | faststream_outbox/subscriber/usecase.py:775-821 | the statement a worker sends after its handler is for its row and the outcome the calls settle |
| SystemWrites.RetryWrites | faststream_outbox/subscriber/usecase.py:997-1023 | that statement, its lease current, leaves the row due after the granted delay with the message attempt and times |
| SystemWrites.TerminalWrites | faststream_outbox/subscriber/usecase.py:956-995 | or removes the row and, for a failure with a dead-letter table, archives it column by column |
| SystemWrites.LateWritesNothing | faststream_outbox/client.py:523-664 | or, its lease gone, changes nothing |
| SystemWrites.FetchServes | faststream_outbox/client.py:490-521 | a subscriber receives only due rows of its queues, free or past its own lease, at most as many as it has free slots, otherwise as stored |
| SystemRuns.StepKeeps | faststream_outbox/subscriber/usecase.py:403-1023 | every step of the outbox keeps both projections and hands out no copy twice |
| SystemRuns.RunsProject | faststream_outbox/subscriber/usecase.py:403-1023 | every run of subscribers, publishers, late and lost statements is a run of the database and of each subscriber, so all guarantees above hold in it |
| SystemRuns.NothingLostNothingTwice | faststream_outbox/subscriber/usecase.py:856-995 | conservation across inline and buffered paths, several subscribers, late and lost statements |
| SystemRuns.ClaimDispatchedOnce | faststream_outbox/subscriber/usecase.py:648-682 | each claimed copy is received by one subscriber at most and dispatched at most once |
| SystemRuns.DispatchesClose | faststream_outbox/subscriber/usecase.py:700-950 | in every subscriber of the outbox the dispatch of a claim is closed exactly once unless open or cancelled in the handler |
| SystemRuns.StartsBounded | faststream_outbox/subscriber/usecase.py:728-749 | with max_deliveries = D the handler starts at most D times for a row over the whole run, and never more often than the row was claimed |
| SystemRuns.StartsAreClaims | faststream_outbox/subscriber/usecase.py:728-749 | without a limit, at most once per claim |
| SystemEvents.SuccessWasWritten | faststream_outbox/subscriber/usecase.py:775-908 | acked, nacked_retried or nacked_terminal is reported only for a write of that claim and kind that landed |
| SystemEvents.SuccessReportedOnce | faststream_outbox/subscriber/usecase.py:823-908 | no claim is reported a success twice, by one subscriber or two, as one kind or two |
| SystemEvents.BuffersAreDistinct | faststream_outbox/subscriber/usecase.py:871-908 | no worker ever buffers the same (id, token) twice |
| SystemEvents.FlushesAreInline | faststream_outbox/subscriber/usecase.py:878-908 | in every reachable state a flush has the database effect and the events of the inline path |
| NotifyMemo.MemoKeepsMeaning | faststream_outbox/client.py:384-419 | for every history of transactions, savepoints, releases, rollbacks, failures and publishes each commit delivers the queues that notifying for every landed due row would; sessions that commit statement by statement have their own row |
| NotifyMemo.AutocommitKeepsMeaningIff | faststream_outbox/client.py:344-390 | on a session that commits every statement under one lasting transaction object, deliveries are those of the plain rule if and only if no due row is published to a queue already noted under that object |
| NotifyMemo.AutocommitMisses | faststream_outbox/client.py:344-390 | two due rows of one queue on such a session bring one notification |
| NotifyMemo.NotifiedOncePerTransaction | faststream_outbox/client.py:384-419 | no queue is notified twice in one innermost transaction |
| NotifyMemo.StepGood | faststream_outbox/client.py:323-419 | each action keeps the memo within what is pending in its transaction |
| NotifyMemo.OutboxInserter.NotifiedQueues | faststream_outbox/client.py:384-390 | the memo entry of the innermost transaction, created on first use, or none outside one |
| NotifyMemo.OutboxInserter.Insert | faststream_outbox/client.py:323-357 | the insert notifies iff due, landed and not yet notified, re-reads the memo after the statement may have begun the transaction, and notes nothing when the statement raises |
| NotifyMemo.OutboxInserter.InsertBatch | faststream_outbox/client.py:359-382 | the batch inserts and then notifies once if due; when the insert raises nothing is noted |
| NotifyMemo.OutboxInserter.Notify | faststream_outbox/client.py:392-419 | remembers the queue before notifying, skips it when remembered, and always notifies outside a transaction |

## Left out

- PostgreSQL, SQLAlchemy, asyncpg and asyncio themselves: connections, pools, LISTEN, health probes and query timeouts. A statement runs atomically at one instant, fails, or its reply is lost.
- `now()` as the start of the caller's transaction, READ COMMITTED rechecks inside one statement, and an INSERT waiting on another's uncommitted timer row: statements are points in time.
- Which subscribers a NOTIFY payload wakes: a NOTIFY here is one for a queue the subscriber serves.
- Reconnect backoff, polling intervals and their jitter: waits may end at any time.
- Python row objects: the in-memory client hands out values, so mutating a returned `_FakeRow` or the `_dispatchable` list's rows is not captured.
- JSON validation of headers, time-zone checks and `feed()`: argument checks beside the name lengths.
- Sync dispatch of the test broker, `fetch_unprocessed`, `ping`, schema validation, migrations, autovacuum: reads and catalog checks.
- Middleware, parsing, serializers, publishers, routers, AsyncAPI: a handler is any sequence of calls on its message.
- Rows without a token in the flush paths: a claimed row always has one.
- Floating-point overflow and rounding in retry delays, and clock skew between worker and database.
- Metric labels other than the event, its row and whether it carries a duration; the OpenTelemetry adapter; published-side counters.
- The text of an exception in the archive: any rendering may accompany a failure.
- One clock reading per segment: the rows of one fetch share one `claimed_at_monotonic`.
- SubscriberClass.OutboxSubscriber: cancellation, reconnecting and the closing phases of stop() are steps of `Subscriber` only, not methods; a worker coroutine's locals are a value in a field.
