# Order, payment and notification services: a Dafny model

Three Go services (orders, payments, notifications) share Postgres, Redis and RabbitMQ. This
project models the code that coordinates them and proves what the coordination guarantees:

* **Notification pipeline.** Deliveries go from the queue through a jobs channel to workers that
  take an idempotency key (SETNX), send with retries, release the key (DEL) when they give up, and
  settle the delivery. `Notification` is the step relation of any number of workers and replicas;
  `AtMostOnce`, `TimedDelivery` and `NoLoss` prove the delivery guarantees and what exactly breaks
  them; `HypothesesNeeded` proves their conditions on the configuration exact. `NotificationWorker`
  is the worker's code, proved to be a run of the step relation. `WorkerPool` is the dispatcher with
  its bounded channel and its drain, `ConsumerRun` the code of `Run`.
* **Backoff.** `Backoff` is the retry loop in Go's wrapping 64-bit arithmetic.
* **Orders.** `Orders`, `Payments` and `OrderUseCase` are the repositories, the cache, the payment
  decision and the use cases as classes; `CacheTransparency` compares the use cases with the same
  code without a cache. `OrderProtocol` splits the use cases into their database, cache and gateway
  commands and interleaves them freely; `OrderRefinement` proves each use case to be a run of it,
  `OrderHistory`, `OrderCoherence`, `OrderSafety`, `OrderFinality` and `OrderMoney` what holds in
  every run, `OrderWitnesses` what does not.
* **Event bus.** `EventBus` is the map of subscriber slices, cut in place in their backing arrays
  (`Slices`), refining one ordered list of subscriptions with FIFO buffers; `OrderStream` covers
  whole runs and the gRPC stream, `OrderServer` any number of concurrent streams.
* **Rate limiter.** `RateLimiter` is the fixed-window limiter over counters with a time to live.

A command of a store is one step. `Faults` lists how it can fare: applied, not applied, or applied
although an error was reported. Time is a natural number: nanoseconds in `Backoff` and
`Notification`, seconds in the limiter, any unit in the order modules. Fields and datatype
arguments marked auxiliary are history that no branch of the code looks at.

`dafny verify dfyconfig.toml` verifies the project.

## Findings

Where a comment says otherwise the model follows the code.

* The comment on `invalidateCache` (order-service/internal/usecase/order_usecase.go:29-31) says no
  reader gets a stale entry after an update. A reader that read the row before the update can set it
  after the DEL (`OrderWitnesses.StaleAfterInvalidation`). What is true is `BoundedStaleness`,
  `ConditionalCoherence`, `StaleIff` and `CacheIsTransparent`.
* The comment on the backoff (notification-service/internal/retry/backoff.go:47) says the jitter is
  20% either way. It is only added, and less than a fifth.
* A policy whose delays all fit 64 bits can still sleep for a negative, hence no, time: the jitter
  is added to a delay that may be close to 2^63. `Backoff.SpacedIff` is the exact condition.
* A policy with fewer than one attempt returns nil without calling, so the worker acks a
  notification it never sent (`HypothesesNeeded.SafeStartIff`).
* The comment on the release (notification-service/internal/service/worker.go:47) says that the lock is
  let go so that a redelivery from the DLQ works later. When the retry ends because its context is done,
  the DEL is issued under the same context, which the Redis client refuses: the key stays, and a
  redelivery is skipped as a duplicate until it expires (`NotificationWorker.CancelledKeepsKey`).
* The key is set before the send, so a crash or a lost nack can lose a notification; exactly when it
  does is `NoLoss.NothingLostIff`.
* `CreateOrder` answers Failed when the payment service is unavailable even if the row could not be
  updated (`OrderUseCase.CreateOutcomes`), and writes Paid over a cancellation that was confirmed
  while the payment call was in flight (`OrderWitnesses.CancelledThenPaid`); exactly when a status is
  final is `OrderFinality.StatusFinalIff`.
* A limiter counter expires through one EXPIRE, sent by the first request of its window; when that
  is lost the counter stays in Redis for ever (`RateLimiter.ExpiryIsTheFirst`), without effect on
  later windows (`RateLimiter.AdmitsExactlyTheFirst`).

## Model

| member | source | states |
|---|---|---|
| `AtMostOnce.AtMostOneSend` | notification-service/internal/service/worker.go:32-55 | in every interleaving of any number of workers with duplicate publishes, redeliveries, ambiguous Redis errors, cancellations and crashes, no payment id has two successful sends, as long as no key expires that is still needed: held by a worker that may still send or delete, or set for a payment that was sent |
| `AtMostOnce.SpoiltSendsTwice` | notification-service/internal/service/idempotency.go:32-51 | after any expiry of such a key, two workers suffice for a second send of some payment without any further expiry |
| `AtMostOnce.AtMostOnceIff` | notification-service/internal/service/worker.go:32-55 | hence, for every run of two or more workers, no expiry was of such a key if and only if no state of the run can lead to a second send without further expiry |
| `TimedDelivery.DeliveriesOneTTLApart` | notification-service/internal/service/worker.go:32-55 | with keys that do expire: if the sends, the longest backoff and the DEL fit the TTL, two successful deliveries of one payment id acquired its key at least one TTL apart, and every DEL deletes a key its own worker had set |
| `TimedDelivery.HolderBeatsTTL` | notification-service/internal/service/idempotency.go:32-51 | under that margin a worker that holds a key is finished before the key can expire |
| `TimedDelivery.GeometricMarginFits` | notification-service/internal/retry/backoff.go:31-63 | where the backoff is in range, six fifths of its geometric sum plus the sends and the DEL is a sufficient margin |
| `TimedDelivery.DeployedSettingsFit` | docker-compose.yml:142-150 | five attempts from 2000 ms against a 24 hour key leave all but 36 s of the day for the sends |
| `NoLoss.NothingLost` | notification-service/internal/service/worker.go:32-55 | with at least one attempt and no keys left from before: in every run without a lossy step (the last worker that answers for a payment crashes, or its nack does not reach the broker, while the key is in place) each acked payment has been sent, is held by an in-flight worker, is in or on its way to the DLQ, or has a copy waiting whose key is free; acks may be lost, Redis may fail ambiguously, keys may expire, and all other crashes and lost nacks do no harm |
| `NoLoss.AlwaysAnswered` | notification-service/internal/service/worker.go:32-55 | and where no last answering worker drops its payment at all, in particular without crashes and with nacks that reach the broker, each acked payment has been sent, is held by an in-flight worker, or is in or on its way to the DLQ |
| `NoLoss.LossyLoses` | notification-service/internal/service/worker.go:34-51 | after every lossy step some continuation without any further crash, lost settlement or expiry drains all copies of the payment as duplicates and leaves it acked, with nobody to answer for it and no copy waiting |
| `NoLoss.NothingLostIff` | notification-service/internal/service/worker.go:32-55 | a run has no lossy step if and only if none of its states can, without further crashes, lost settlements and expiry, lose a payment for good |
| `NoLoss.DeliveriesConserved` | notification-service/internal/messaging/consumer.go:103-172 | in every run, crashes and lost settlements included, each published copy is in exactly one of queue, jobs, a worker, acked and DLQ |
| `NoLoss.SentOrParkedAtQuiescence` | notification-service/internal/messaging/consumer.go:135-173 | in a run without lossy steps, once the pipeline has run dry every published payment has been sent or is in the DLQ, and every malformed message is in the DLQ |
| `NoLoss.CoveredStays` | notification-service/internal/service/worker.go:43-54 | a payment that is answered for, or of which a copy waits, stays so at every step, crashes included |
| `NoLoss.AcquirerIsCovered` | notification-service/internal/service/idempotency.go:32-42 | after SETNX, however it fares, somebody answers for the payment |
| `HypothesesNeeded.SafeStartIff` | notification-service/internal/retry/backoff.go:31-33 | for every configuration and every store of leftover keys: no run without crashes and lost settlements loses a payment if and only if the policy has an attempt and no key of a payment is left |
| `HypothesesNeeded.CrashLosesNotification` | notification-service/internal/service/worker.go:34-51 | under every policy with attempts a crash right after SETNX is lossy, and can be reached |
| `HypothesesNeeded.LostNackLosesNotification` | notification-service/internal/messaging/consumer.go:162-168 | under every configuration so is a nack that does not reach the broker after a SETNX applied behind an error |
| `HypothesesNeeded.TooSlowDeletesForeignKey` | notification-service/internal/service/idempotency.go:44-51 | whenever the margin is missed under a policy that never panics, a timely run without crashes and cancellations, in which every send, sleep and DEL takes its longest, has a worker delete the key of its successor |
| `HypothesesNeeded.FitsTTLIff` | notification-service/internal/service/idempotency.go:20-51 | for every policy that never panics and any number of workers from two on: all timely runs space the deliveries of a payment by a TTL and delete no foreign key if and only if the sends, the longest backoff and the DEL fit the TTL |
| `NotificationWorker.RedisIdempotencyStore.Acquire` | notification-service/internal/service/idempotency.go:32-42 | the keys and the reply after SETNX, for each way the command can fare; acquired means absent before and present now |
| `NotificationWorker.RedisIdempotencyStore.Release` | notification-service/internal/service/idempotency.go:47-51 | the keys after DEL, whoever had set the key; under a context that is done it is not sent |
| `NotificationWorker.Worker.Process` | notification-service/internal/service/worker.go:32-55 | the keys and the result are those of the specification whose meaning HandleDecides states and HandleIsARun ties to the step relation |
| `NotificationWorker.Worker.Handle` | notification-service/internal/messaging/consumer.go:135-173 | the keys and the verdict are those of that specification for a parsed, an empty and a malformed message |
| `NotificationWorker.HandleDecides` | notification-service/internal/messaging/consumer.go:135-173 | a delivery is acked exactly when it is a duplicate, its last send succeeded, or there were no attempts; a nacked one leaves its key behind exactly when its DEL did not get through or its retry was cancelled; the process dies exactly when the jitter panics |
| `NotificationWorker.HandleKeys` | notification-service/internal/messaging/consumer.go:135-173 | a message that does not parse or has an empty id touches no key and is nacked; otherwise no other key changes, a key that is there stays, and an ambiguous SETNX leaves behind the key it applied, with a nack |
| `NotificationWorker.CancelledKeepsKey` | notification-service/internal/service/worker.go:43-51 | when the retry is cancelled the delivery goes to the DLQ with its key in place, and as long as the key lives every further copy is acked without a send |
| `NotificationWorker.RetryRuns` | notification-service/internal/retry/backoff.go:31-63 | the retry loop from any attempt on, with its release, is a run of enabled steps that ends as the loop returns |
| `NotificationWorker.HandleIsARun` | notification-service/internal/messaging/consumer.go:135-173 | handling one delivery is a run of enabled steps from Take to the verdict the code returns, with the keys it leaves, and counts as sent exactly when the last Send returned nil |
| `WorkerPool.MessagesConserved` | notification-service/internal/messaging/consumer.go:103-131 | in every run each taken message is in exactly one of pending dispatch, jobs, being handled, handled |
| `WorkerPool.PushNeverBlocks` | notification-service/internal/messaging/consumer.go:42-46 | with a broker that honours the prefetch and at least one worker, the send into jobs finds room |
| `WorkerPool.ZeroPoolBlocks` | notification-service/internal/messaging/consumer.go:103-117 | with pool size 0 the first message blocks the dispatcher for the rest of the run and nothing more is handled |
| `WorkerPool.ReturnedMeansHandled` | notification-service/internal/messaging/consumer.go:117-131 | when Run has returned every message it took has been handled, once |
| `WorkerPool.DrainProgresses` | notification-service/internal/messaging/consumer.go:119-127 | after the close every step but a broker delivery brings Run closer to returning |
| `WorkerPool.DrainNeverStuck` | notification-service/internal/messaging/consumer.go:119-127 | as long as Run has not returned after the close, such a step is enabled |
| `WorkerPool.DrainTerminates` | notification-service/internal/messaging/consumer.go:119-127 | the number of steps from the close on is bounded in every run, in whatever order they happen |
| `ConsumerRun.Consumer.Deliver` | notification-service/internal/messaging/consumer.go:42-46 | the broker adds a message exactly while fewer than the prefetch are unsettled |
| `ConsumerRun.Consumer.Work` | notification-service/internal/messaging/consumer.go:108-114 | one turn of a worker goroutine: receives the oldest job, finishes the one in hand, or ends on the closed empty channel; after the close it always brings the drain closer to its end |
| `ConsumerRun.Consumer.Dispatch` | notification-service/internal/messaging/consumer.go:123-130 | the oldest message moves to the end of jobs; the send blocks exactly when there is no worker |
| `ConsumerRun.Consumer.Drain` | notification-service/internal/messaging/consumer.go:119-122 | close and wait terminate, with any schedule of the goroutines, with everything taken handled |
| `ConsumerRun.Consumer.Meet` | notification-service/internal/messaging/consumer.go:117-131 | what each single turn does to messages, jobs, workers, taken and handled; it blocks exactly with a message and no worker |
| `ConsumerRun.Consumer.Run` | notification-service/internal/messaging/consumer.go:92-132 | turn by turn, a ready message is taken, the oldest first, and goes to the end of jobs, a delivery joins the messages within the prefetch, a goroutine finishes or receives; as long as the prefetch refuses nothing, the messages taken are read off the script alone; Run then returns with handled equal to taken and its history is a run of the step relation, unless it has no worker and meets a message, when it is blocked |
| `ConsumerRun.LineIsFifo` | notification-service/internal/messaging/consumer.go:117-131 | in that reading of a script, the messages taken followed by those still waiting are the messages delivered, in order |
| `ConsumerRun.InLine` | notification-service/internal/messaging/consumer.go:117-131 | every history of turns in which the prefetch refuses nothing takes exactly the messages the script says |
| `Backoff.Do` | notification-service/internal/retry/backoff.go:31-63 | the loop computes calls, sleeps and outcome of the recursive specification the lemmas below speak about |
| `Backoff.Outcomes` | notification-service/internal/retry/backoff.go:31-63 | between 1 and MaxAttempts calls, all but the last failed; nil exactly when the last succeeded; a final error is of attempt MaxAttempts or a cancellation; without attempts nil without a call |
| `Backoff.EndsAtFirst` | notification-service/internal/retry/backoff.go:31-63 | for every policy and run: the attempts end with the first that succeeds, is the last, has a delay below 5 (panic) or is cancelled, and the call ends as that one says; each sleep is the wrapped sum of the delay as the source computes it and the very jitter drawn |
| `Backoff.DelayIsMachineProduct` | notification-service/internal/retry/backoff.go:48 | base times the shifted one, both operations wrapping in 64 bits, is the wrapped exact product for every base and attempt |
| `Backoff.NewIsExactIff` | notification-service/internal/retry/backoff.go:21-26 | the attempts are kept, and the conversion from milliseconds is exact if and only if it does not leave 64 bits |
| `Backoff.FirstOverflowIsNegative` | notification-service/internal/retry/backoff.go:48-49 | the first doubling that leaves 64 bits wraps to a negative delay |
| `Backoff.PanicsIffOutOfRange` | notification-service/internal/retry/backoff.go:48-49 | with a callback that keeps failing Do panics if and only if not (MaxAttempts <= 1, or base >= 5 and base doubled MaxAttempts-2 times is below 2^63) |
| `Backoff.SafeInEveryEnvironmentIff` | notification-service/internal/retry/backoff.go:31-63 | the same condition is exact for: no callback, draw or cancellation makes Do panic |
| `Backoff.SpacedIff` | notification-service/internal/retry/backoff.go:48-50 | among the policies that never panic, every sleep has its documented size (doubled base plus less than a fifth) in every run if and only if delay plus jitter of the last sleep fits 64 bits |
| `Backoff.SleepsGrowGeometrically` | notification-service/internal/retry/backoff.go:47-58 | where it fits, each sleep exceeds the previous ones and m calls sleep at least base(2^(m-1)-1) and less than 6/5 of it in total |
| `Backoff.MaxSleepIsDrawn` | notification-service/internal/retry/backoff.go:48-50 | the longest sleep assumed after an attempt is one that some draw asks for |
| `Backoff.MaxBackoffGeometric` | notification-service/internal/retry/backoff.go:47-58 | the longest total backoff that any draw can ask for stays below 6/5 of the geometric sum |
| `Orders.PostgresOrderRepository.Create` | order-service/internal/repository/postgres_order.go:25-44 | the table after the INSERT, and success exactly when both unique constraints and the amount check hold and no fault occurs |
| `Orders.PostgresOrderRepository.GetByID` | order-service/internal/repository/postgres_order.go:46-72 | the row, nothing, or an error |
| `Orders.PostgresOrderRepository.GetByIdempotencyKey` | order-service/internal/repository/postgres_order.go:101-127 | the row with that key, nothing, or an error |
| `Orders.WithKey` | order-service/migrations/001_create_orders_up.sql:7 | the row with a key, which exists exactly when some row has it |
| `Orders.CanInsertIff` | order-service/migrations/001_create_orders_up.sql:1-12 | an INSERT is possible exactly when its id is new and the table still satisfies the row constraints with the new row |
| `Orders.PostgresOrderRepository.UpdateStatus` | order-service/internal/repository/postgres_order.go:74-99 | table, error and notifications after the unconditional UPDATE and the NOTIFY that follows only its success |
| `Orders.NotificationIsReadBack` | order-service/internal/repository/postgres_order.go:87-89 | a successful update notifies once; the payload parses back to the id and the row's new status, which prints as its name, if and only if the id has no colon |
| `Orders.RedisOrderCache.Get` | order-service/internal/cache/redis_order_cache.go:33-53 | the live entry; a miss, an expired entry and an error all read as a miss |
| `Orders.RedisOrderCache.Set` | order-service/internal/cache/redis_order_cache.go:55-66 | the entries after SET with its expiry |
| `Orders.RedisOrderCache.Delete` | order-service/internal/cache/redis_order_cache.go:69-77 | the entries after DEL |
| `OrderUseCase.UseCase.InvalidateCache` | order-service/internal/usecase/order_usecase.go:32-40 | the world after the invalidation, with and without a cache |
| `OrderUseCase.UseCase.CreateOrder` | order-service/internal/usecase/order_usecase.go:44-111 | reply, table, notifications and cache are those of the function that CreateOutcomes, CreateAnnounces, InsertsIff, CacheTransparency and CreateIsARun speak about |
| `OrderUseCase.UseCase.GetOrder` | order-service/internal/usecase/order_usecase.go:117-137 | the same for reads and GetOutcomes |
| `OrderUseCase.UseCase.CancelOrder` | order-service/internal/usecase/order_usecase.go:139-159 | the same for cancellation and CancelOutcomes |
| `OrderUseCase.UseCase.MarkOrderPaid` | order-service/internal/usecase/order_usecase.go:163-169 | the same for MarkPaid and MarkPaidOutcomes |
| `OrderUseCase.CreateOutcomes` | order-service/internal/usecase/order_usecase.go:44-111 | an order returned without an error is the stored row, and a new one is Paid and was authorised; PaymentDeclined means stored as Failed; PaymentServiceUnavailable says Failed even where the row could not be updated; InvalidAmount exactly for amounts that are not positive; other rows are untouched |
| `OrderUseCase.CreateAnnounces` | order-service/internal/usecase/order_usecase.go:75-110 | one notification, id:Paid for an authorised and id:Failed for any other payment, exactly when the call inserted its order without an error, the UPDATE succeeded and the NOTIFY got through, and none otherwise; the cache then holds the paid order, or forgets the failed one, or stays as it was |
| `OrderUseCase.RetryReturnsTheOrder` | order-service/internal/usecase/order_usecase.go:49-57 | a call with the key of a stored order returns that order and changes nothing; with a failing lookup it returns an error and changes nothing |
| `OrderUseCase.InsertsIff` | order-service/internal/usecase/order_usecase.go:45-75 | a row is inserted exactly when the amount is positive, the lookup of a non-empty key works, id and key are new and the INSERT is applied; an INSERT applied behind an error leaves the Pending order |
| `OrderUseCase.GetOutcomes` | order-service/internal/usecase/order_usecase.go:117-137 | a live cached order is returned as it is; on a miss the row is returned and cached, an unknown id is OrderNotFound and a failing read an error; no row changes and nothing is announced |
| `OrderUseCase.CancelOutcomes` | order-service/internal/usecase/order_usecase.go:139-159 | the Cancelled order is returned exactly when a Pending row was read and its update succeeded, which is then announced as id:Cancelled and forgotten by the cache; OrderNotFound, CancelNotAllowed and store errors exactly in their cases, without a notification |
| `OrderUseCase.MarkPaidOutcomes` | order-service/internal/usecase/order_usecase.go:163-169 | any existing row becomes Paid unless the update is lost, whatever its status; success is announced as id:Paid and forgotten by the cache, an unknown id is OrderNotFound |
| `CacheTransparency.CoherentIff` | order-service/internal/usecase/order_usecase.go:29-40 | on a coherent cache a call keeps it coherent if and only if it does not change a cached row behind a lost or skipped invalidation |
| `CacheTransparency.CallTransparent` | order-service/internal/usecase/order_usecase.go:117-159 | on a coherent cache one call replies (up to such a failing read) and writes as the code without a cache |
| `CacheTransparency.CacheIsTransparent` | order-service/internal/usecase/order_usecase.go:44-169 | for every sequence of non-overlapping calls rows equal those of the code with a nil cache, whatever misses, expiries, evictions and failed gets and sets occur; so do replies, but that the cache may answer a read with the row's content where the uncached code meets a failing database read |
| `CacheTransparency.CleanCallsAreTransparent` | order-service/internal/usecase/order_usecase.go:44-169 | the hypothesis in terms of the surroundings: no DEL without effect and no update applied behind an error |
| `CacheTransparency.StaleEntryIsRead` | order-service/internal/usecase/order_usecase.go:117-122 | where a call leaves a stale entry, the next read of it shows a status the row does not have |
| `OrderRefinement.CreateIsARun` | order-service/internal/usecase/order_usecase.go:44-111 | CreateOrder running alone, whatever its commands do and in whichever way a failing payment call fails (never sent, not served, answered too late, refused), is a run of enabled steps of the protocol that ends in the world the code leaves and logs the order it returns |
| `OrderRefinement.GetIsARun` | order-service/internal/usecase/order_usecase.go:117-137 | the same for GetOrder and the status it shows |
| `OrderRefinement.CancelIsARun` | order-service/internal/usecase/order_usecase.go:139-159 | the same for CancelOrder |
| `OrderRefinement.MarkPaidIsARun` | order-service/internal/usecase/order_usecase.go:163-169 | the same for MarkPaid |
| `OrderHistory.InvHolds` | order-service/internal/usecase/order_usecase.go:44-169 | in every run a row starts as Pending and never becomes it again, and every status in flight, cached or shown was the row's at the time it was read |
| `OrderHistory.HistoriesGrow` | order-service/internal/repository/postgres_order.go:74-85 | along every run a row stays in the table with its key and amount, and its history of statuses is only continued |
| `OrderHistory.BoundedStaleness` | order-service/internal/usecase/order_usecase.go:117-137 | in every interleaving and under any cache failure, for a positive TTL, a status GetOrder returns at t is one the row really had at some time after t - ttl - D, D bounding the gap from read to Set |
| `OrderWitnesses.StalenessAttained` | order-service/internal/usecase/order_usecase.go:117-137 | the bound is reached for every TTL and every gap, by a run in which every command succeeds |
| `OrderCoherence.CoherenceHolds` | order-service/internal/usecase/order_usecase.go:32-40 | in every run a cached version that is behind its row has one of three excuses: a writer between write and invalidation, an invalidation lost since the entry was put, or a Set that was overtaken; the last two are held only by entries that are behind |
| `OrderCoherence.DirtyMeans` | order-service/internal/usecase/order_usecase.go:77-169 | an entry becomes dirty exactly in a step that loses its invalidation and leaves it behind its row |
| `OrderCoherence.ExcusesComeFromTheRun` | order-service/internal/usecase/order_usecase.go:77-169 | both are read off the run since the present entry was put: its own Set, and the steps after it |
| `OrderCoherence.StaleIff` | order-service/internal/usecase/order_usecase.go:32-40 | without a writer between write and invalidation, a cached entry is behind its row (which has been written since, if only the same status again) if and only if its own Set had been overtaken or an invalidation lost since then left it behind |
| `OrderCoherence.ConditionalCoherence` | order-service/internal/usecase/order_usecase.go:77-159 | if no write fell between the read of the present entry and its Set, and no invalidation was lost since that Set, the cache shows another status than the row only while some writer has not invalidated yet |
| `OrderWitnesses.StaleAfterInvalidation` | order-service/internal/usecase/order_usecase.go:29-31 | the comment on invalidateCache is too strong: a run in which every command succeeds, nobody crashes or gives up, and all calls return, ends with Pending cached for an order whose row was set to Failed and invalidated before |
| `OrderSafety.IdempotencyKeys` | order-service/internal/usecase/order_usecase.go:49-77 | for one key, in every interleaving of lookups and inserts: at most one row, at most one gateway call, one id for all calls that return an order |
| `OrderFinality.StatusFinalIff` | order-service/internal/usecase/order_usecase.go:77-104 | the status of an order that has left Pending stays in every continuation without a MarkPaid of it if and only if no call in flight may still write another status; a creator waiting for the gateway may write Failed, and Paid only if an authorisation is in or may come |
| `OrderFinality.FinalStatusStays` | order-service/internal/usecase/order_usecase.go:139-159 | along every run such a status stays for as long as no MarkPaid of the order starts |
| `OrderSafety.FrozenIff` | order-service/internal/usecase/order_usecase.go:139-159 | nothing at all, not even the same status again, is written to such an order in any continuation without a MarkPaid of it if and only if no creator of it, canceller that has read Pending, or MarkPaid of it is in flight |
| `OrderSafety.SettledOrdersAreFrozen` | order-service/internal/usecase/order_usecase.go:139-159 | along every run such an order never changes for as long as no MarkPaid of it starts |
| `OrderSafety.PendingIsLeftForGood` | order-service/internal/repository/postgres_order.go:74-85 | in every run, MarkPaid included, no order returns to Pending |
| `OrderMoney.MoneyBound` | order-service/internal/usecase/order_usecase.go:77-104 | for any orders of which no MarkPaid has started so far: every Paid one has an Authorized payment of its id and amount within the limit, and the authorised total equals their paid total plus the authorised payments matched to none of them |
| `OrderMoney.PaidWithoutPaymentWasMarked` | order-service/internal/usecase/order_usecase.go:163-169 | a Paid order without such a payment has had a MarkPaid of it started |
| `OrderWitnesses.CancelledThenPaid` | order-service/internal/usecase/order_usecase.go:88-93 | a run without any failure in which the creator writes Paid over a cancellation that was already confirmed |
| `OrderWitnesses.MarkedPaidWithoutPayment` | order-service/internal/usecase/order_usecase.go:163-169 | a run without any failure in which MarkPaid makes an order Paid that has no payment |
| `Payments.PaymentUseCase.AuthorizePayment` | payment-service/internal/usecase/payment_usecase.go:26-70 | amounts above the limit are declined and recorded; rows, published events and error for each outcome; only authorised and recorded payments are published and a failing publisher changes nothing |
| `EventBus.PayloadRoundTripIff` | order-service/internal/repository/event_bus.go:64-73 | printing id:status and splitting at the first colon is a round trip if and only if the id has no colon |
| `EventBus.PgEventBus.Subscribe` | order-service/internal/repository/event_bus.go:94-103 | a new, empty, open channel at the end of the id's list; the slice map stays a faithful view of the ordered subscriptions |
| `Slices.Append` | order-service/internal/repository/event_bus.go:98 | appending writes into the spare room of the backing array or moves to a larger one; the elements are the old ones and the new one |
| `Slices.Cut` | order-service/internal/repository/event_bus.go:112 | cutting an element out shifts the following ones down within the same backing array and touches nothing behind the slice |
| `EventBus.PgEventBus.Add` | order-service/internal/repository/event_bus.go:96-99 | the new channel is last in its id's slice, the slices of all other ids read as before, and no two ids share a backing array |
| `EventBus.PgEventBus.CutAt` | order-service/internal/repository/event_bus.go:112-119 | the cut within the backing array changes this id's slice and no other, and an empty slice is dropped |
| `EventBus.PgEventBus.Remove` | order-service/internal/repository/event_bus.go:109-119 | exactly this channel is gone from exactly this id, the slices of all other ids read as before, and no two ids share a backing array |
| `EventBus.PgEventBus.Unsubscribe` | order-service/internal/repository/event_bus.go:105-123 | removes the subscription and closes the channel; panics exactly on a closed one; the bus stays well formed if and only if the channel is not listed under another id |
| `EventBus.PgEventBus.SendToAll` | order-service/internal/repository/event_bus.go:80-87 | the loop offers the event to every listed channel in order, none of them closed |
| `EventBus.PgEventBus.Dispatch` | order-service/internal/repository/event_bus.go:59-90 | a payload is cut at its first colon, and one without a colon does nothing; every channel subscribed to the id with fewer than ten unread events gains the event at the end of its buffer, one with ten unread and every channel of another id stays as it is |
| `EventBus.NotifyFillsBuffers` | order-service/internal/repository/event_bus.go:64-95 | the same of the abstract bus: fewer than ten unread events, and only then, make room for one more |
| `EventBus.CutIsWithout` | order-service/internal/repository/event_bus.go:110-115 | cutting one index out of a duplicate-free slice removes that element and only it |
| `EventBus.UnsubKeepsWellFormed` | order-service/internal/repository/event_bus.go:105-123 | exactly when an unsubscribe leaves all listed channels open and distinct |
| `EventBus.NotifyKeepsWellFormed` | order-service/internal/repository/event_bus.go:77-88 | a notification never sends on a closed channel and reaches exactly the channels subscribed to its id |
| `OrderStream.DisciplinedRunNeverPanics` | order-service/internal/repository/event_bus.go:77-121 | if every Unsubscribe matches a Subscribe of the same id, at most once each, no run ever sends on or closes a closed channel |
| `OrderStream.MismatchedUnsubscribePanics` | order-service/internal/repository/event_bus.go:105-121 | unsubscribing under another id makes the next notification send on a closed channel |
| `OrderStream.OfferedSinceSubscribe` | order-service/internal/repository/event_bus.go:54-98 | while subscribed, a channel has been offered exactly the events dispatched for its id since its Subscribe |
| `OrderStream.MissesOnlyWhenFull` | order-service/internal/repository/event_bus.go:80-95 | in every disciplined run, what a subscriber has received followed by its buffer is the sequence of the events dispatched for its id since its Subscribe, in order, without those, and only those, dispatched while it had ten unread |
| `OrderStream.StreamFidelity` | order-service/internal/repository/event_bus.go:64-98 | what a subscriber received followed by its buffer of at most 10 is the sequence of events offered since its Subscribe, in order, without the events that met a full buffer |
| `OrderStream.ClosedStreamFidelity` | order-service/internal/repository/event_bus.go:64-123 | for a channel since closed the same holds of the events dispatched between its Subscribe and its Unsubscribe: it missed exactly those dispatched while it had ten unread |
| `OrderStream.RunIsFaithful` | order-service/internal/repository/event_bus.go:80-87 | in every disciplined run, for every channel, received followed by buffer is what was offered, in order, minus what was offered to a full buffer |
| `OrderServer.ServerNeverPanics` | order-service/internal/transport/grpc/server.go:24-64 | in every interleaving of any number of stream calls with the listener, no send and no close hits a closed channel |
| `OrderServer.ServerIsDisciplined` | order-service/internal/transport/grpc/server.go:35-36 | every such interleaving is a run of the bus in which each Unsubscribe matches a Subscribe of the same id, once |
| `OrderServer.EveryClientIsServed` | order-service/internal/transport/grpc/server.go:38-63 | in every such interleaving, what a call has sent (and the event its failed send lost) followed by its buffer is the sequence of events dispatched for its id from its Subscribe to its end, without those dispatched while it had ten unread |
| `OrderStream.SubscribeToOrderUpdates` | order-service/internal/transport/grpc/server.go:24-64 | whatever other streams subscribe and leave meanwhile, the script alone determines what is sent, what is left unread and how the call ends: each ready turn takes the oldest unread event and sends it, a failed send ends the call; only events of its id are sent, and the stream leaves its channel closed and exactly the others' subscriptions |
| `OrderStream.Forward` | order-service/internal/transport/grpc/server.go:44-60 | a turn with an unread event takes exactly the oldest; with a working connection it is appended to what was sent, otherwise the call ends with Internal |
| `OrderStream.NothingDropped` | order-service/internal/transport/grpc/server.go:38-63 | for every script with at most ten events and without failures, what was sent followed by what is unread is all events of the id, in order |
| `OrderStream.ReadyDrains` | order-service/internal/transport/grpc/server.go:44-56 | a client that is ready as often as events are unread has been sent all of them |
| `OrderStream.EleventhIsDropped` | order-service/internal/repository/event_bus.go:80-95 | the tenth unread event is kept and an eleventh is not |
| `RateLimiter.Limiter.Handle` | order-service/internal/transport/http/middleware/rate_limiter.go:25-67 | store and decision are those of the functions that SharesCounterIff, DecisionIsByPeers, StoreAgrees and ExpiryIsTheFirst speak about |
| `RateLimiter.CounterKeyInjective` | order-service/internal/transport/http/middleware/rate_limiter.go:26-32 | two requests share a counter if and only if identity and window agree, whatever colons the identities hold |
| `RateLimiter.SharesCounterIff` | order-service/internal/transport/http/middleware/rate_limiter.go:26-32 | two requests share a counter if and only if they fall into the same minute and have the same non-empty X-User-Id, or both none and the same address, or one has only an address that is the other's user id |
| `RateLimiter.StoreAgrees` | order-service/internal/transport/http/middleware/rate_limiter.go:37-46 | after any run the stored counter of each identity and window is the pure count and cannot expire inside its window |
| `RateLimiter.ExpiryIsTheFirst` | order-service/internal/transport/http/middleware/rate_limiter.go:37-46 | a counter's expiry is set once, by its first request, and falls into the next window; it is missing exactly when that request's EXPIRE did not happen |
| `RateLimiter.AdmitsExactlyTheFirst` | order-service/internal/transport/http/middleware/rate_limiter.go:48-66 | a request is admitted if and only if its rank in its identity's window is below the limit, with the remaining count reported, even when EXPIRE fails |
| `RateLimiter.DecisionIsByPeers` | order-service/internal/transport/http/middleware/rate_limiter.go:37-66 | every decision from the requests alone: a failing INCR lets the request pass; otherwise it passes if and only if fewer than the limit of the requests that share its counter came before it, with the rest reported, and else gets Retry-After up to the full minute |
| `RateLimiter.OthersDoNotMatter` | order-service/internal/transport/http/middleware/rate_limiter.go:26-52 | no request of another caller, behind the same address or not, changes a decision: without them it is the same |
| `RateLimiter.SlidingBound` | order-service/internal/transport/http/middleware/rate_limiter.go:31-63 | any T >= 1 consecutive seconds admit at most L(floor((T+58)/60)+1) requests of an identity |
| `RateLimiter.MinuteBound` | order-service/internal/transport/http/middleware/rate_limiter.go:31-63 | hence at most 2L in any 60 seconds |
| `RateLimiter.SlidingBoundAttained` | order-service/internal/transport/http/middleware/rate_limiter.go:31-63 | for every limit and every length there is a run that reaches the bound |
| `RateLimiter.RetryAfterOpensFreshWindow` | order-service/internal/transport/http/middleware/rate_limiter.go:55-63 | Retry-After (section 10.2.3 of RFC 9110) is 1 to 60 seconds and points at the start of an untouched window, where a retry is admitted if and only if the limit is positive |

## Left out

- Service startup, configuration, dialing, queue and exchange declaration, routing, DTOs, logging: no property beyond the calls they make.
- `EmailSender.Send` and SMTP: a step that succeeds or fails, of bounded duration in the timed theorem; the text of the notification is not modelled.
- JSON: lossless, so an unreadable body is the case `Malformed`, and a cache entry that does not parse, with its removal, does not occur.
- `CreatedAt` of orders and payments: Go and Postgres keep it at different precision.
- `ListByStatus`, `ListPayments`, `GetPaymentByOrderID`: queries that only SQL answers.
- The publisher's three retries: it publishes or fails, and `AuthorizePayment` ignores which.
- `PgEventBus.Start` and `Stop`, reconnection of the listener, and the `done` channel.
- `Consumer.Close`, and a negative pool size (on which `make` panics).
- The Redis client: a command under a context that is done is refused before it is sent, as go-redis does, which is not part of this model; only the DEL after a cancelled retry depends on it.
- Random numbers: the draw of `Int63n` is any value of its range.
- A panic of the jitter ends one worker in the step relation; in Go it ends the process and with it all its workers, which is several crash steps.
- The broker's redelivery of a message whose copy is still being handled is a second publish of an equal delivery.
- Columns other than the status in `OrderProtocol`: they never change after the insert.
- Lengths of VARCHAR columns: an INSERT that violates them is a failed INSERT.
- Transactions and isolation levels: each SQL statement is one step of its own, as the code issues them.
- Order of NOTIFY between concurrent `UpdateStatus` calls: only the order of dispatch is used.
- Channels are handles into a list of channel values, and each method of the bus runs under its lock.
- The growth of a full slice beyond doubling: Go's factor for large slices is not observable.
- Times before 1970 and counters beyond 64 bits in the limiter.
- RateLimiter.SlidingBound: clock read, INCR and EXPIRE of a request fall into one second, and requests that fail open are not counted as admitted by the limiter.
- ConsumerRun.Consumer.Run: goroutines take turns rather than run at the same time, and a dispatcher that blocks for ever (`WorkerPool.ZeroPoolBlocks`) is a result of the method.
- HypothesesNeeded.FitsTTLIff: not for policies whose jitter panics, because they die before they have used up the time the margin allows for; not for a single worker, which has no foreign key to delete.
- AtMostOnce.AtMostOnceIff: not for a single worker, whose own release of an expired key harms nobody.
- OrderRefinement.CreateIsARun: a gateway that answers otherwise than the payment service decides has no step.
- Liveness beyond the drain: no fairness of the scheduler or the broker is modelled.
