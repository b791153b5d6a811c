# Dispatch service: verified model

A delivery order is offered to one driver at a time. The driver accepts, rejects, or lets the offer
expire; the order then goes to the next driver in the queue, waits parked when the queue has nobody
for it, and fails after a fixed number of declined offers. This project models the three pieces of
state behind that protocol and the use cases that move them together, and proves what every run of
the service keeps.

How the files fit together:

| file | content |
|---|---|
| `Ranking.dfy` | keys ordered by (value, key): the order of a Redis sorted set and of the sorted SQL reads |
| `ValueObjects.dfy` | ids, errors, addresses and item lines with their normalisation and JSON round trip |
| `AssignmentModel.dfy`, `Assignment.dfy` | the assignment as a value with its operations, and the aggregate object that performs them |
| `DriverPool.dfy` | the three Redis structures as a value, and the pool object with its scanning script |
| `RepositoryModel.dfy`, `Ports.dfy` | the two tables and their refinement of a map; the stateful adapters as objects |
| `DispatchModel.dfy`, `UseCases.dfy` | each use case as a function on the whole state, and as a sequence of port calls proved equal to it |
| `Invariants.dfy`, `Paths.dfy`, `Theorems.dfy` | invariants of small steps, every use case as a path of small steps, theorems over runs |
| `Outcomes.dfy` | what each use case answers and leaves behind, in statuses, drivers, messages and clock readings |
| `Histories.dfy` | what those outcomes add up to over whole runs |
| `Lifetimes.dfy` | the operations a run applies to an order, one by one, and how many there can be |
| `Retry.dfy` | the retry pass over parked orders, and exactly when nobody is left waiting beside a driver |
| `Scenarios.dfy` | runs from scratch in which a natural property fails, and one of maximal length |
| `Interleaving.dfy`, `SoloRuns.dfy` | use cases cut at every repository, pool and schedule call, any number in flight, and their link to the sequential functions |

The objects keep the source's imperative form. Their methods are specified by functions on values,
and the theorems are about those functions. `UseCases.DispatchService.Process` closes the gap: the
objects, running on the two tables, the sorted set and the queues, end any run in the state the
theorems speak of. `Outcomes` says what the functions mean without naming the functions of the
aggregate and the pool they are written with.

Conventions:

- A UUID is 36 characters of text. Ids are naturals: the characters read as one big-endian number,
  so that string order is numeric order.
- The clock is an arbitrary sequence of readings, one per call. Nothing assumes it moves forward.
- New attempt ids come from a counter, so they are fresh, as UUID v7 values are.
- `OfferOutcome.Pending` is the outcome the service calls "offered".
- An expiry message may be delivered any number of times and in any order; it leaves the queue when
  it is acknowledged.

Where the code and its comments or documentation differ, or a natural property is false, the model
follows the code:

- The comment at `src/application/dispatch/dispatch-order.use-case.ts:47` says the retry pass runs
  after any driver becomes assignable. Reject and expire free a driver without it.
  `Scenarios.RejectCanStarve` is a run in which an order then waits for nothing,
  `Retry.DeclineKeepsSaturatedIff` the exact condition.
- The retry pass reads one page of 50 orders. Where orders get more than one attempt it can leave an
  order beyond the page waiting beside a driver it has not tried: `Scenarios.PageCanStarve` is such a
  run, `Retry.PassSaturatesIff` the exact condition, and `Retry.SingleTryServes` the case in which it
  always holds. `Retry.StaysSaturatedIff` puts the conditions together for whole runs.
- Force-assign does not ask whether the driver is free. `Scenarios.ForceCanShare` is a run that puts a
  driver on two orders; `Theorems.ForceKeepsExclusiveIff` says that the guard
  `DispatchModel.ForcesFreeDriver` is exactly what the one-to-one law needs, and with it
  `Theorems.ExactConservation` holds over runs. `Theorems.NoLeakedDriver` needs no guard.
- A second `order.created` for a known order under another event id overwrites the row but not the
  attempts. The order reads back as created exactly when it was never offered
  (`RepositoryModel.FreshSaveReadsBackIff`), and that is what the objects require
  (`DispatchModel.KeepsMap`). The theorems over runs are about runs that announce an order under one
  event id (`DispatchModel.CreatedOnce`); such runs meet it (`DispatchModel.LegalRunsKeepMap`).
- `failed` counts as terminal but is left by force-assign.

## Model

| member | source | states |
|---|---|---|
| `Theorems.NoLeakedDriver` | src/domain/assignment/assignment.ts:118-174 | in every run, whatever admins force, each busy driver is held by some offered or assigned order and is not queued |
| `Theorems.ExactConservation` | src/application/dispatch/force-assign.use-case.ts:19-29 | when forced drivers are not busy, the busy set is exactly the drivers of offered and assigned orders, each held by one order, and the two counts are equal |
| `Theorems.ForcingBusyDriverSharesThem` | src/application/dispatch/force-assign.use-case.ts:20-27 | forcing a driver who is on another order always puts them on both and breaks the one-to-one law |
| `Theorems.ForceKeepsExclusiveIff` | src/application/dispatch/force-assign.use-case.ts:19-29 | a force-assign that takes effect keeps the one-to-one law if and only if the driver was not busy |
| `Scenarios.ForceCanShare` | src/application/dispatch/force-assign.use-case.ts:19-29 | a legal run from scratch that puts one driver on two orders |
| `Outcomes.AttemptOutcome` | src/application/dispatch/dispatch-order.use-case.ts:22-32 | an attempt does something if and only if the order is parked and a queued driver has not been tried; then the longest waiting of them (ties by id) gets one open offer under the next number, opened now and expiring after the time to live, they go from the queue to busy, and one message is sent |
| `Outcomes.PassOutcome` | src/application/dispatch/dispatch-order.use-case.ts:48-51 | a retry pass only turns parked orders into offered ones, each by one new attempt with a driver who was queued, had not been tried and is now busy, and sends one message each; nothing is published, recorded or otherwise changed |
| `Outcomes.AcceptOutcome` | src/application/dispatch/accept-offer.use-case.ts:15-22 | the reply is success if and only if the order is on offer to this driver, and if and only if it thereby became assigned to them and that was published; each error has its exact condition and leaves everything unchanged; the open attempt is closed as accepted |
| `Outcomes.RejectOutcome` | src/application/dispatch/reject-offer.use-case.ts:17-26 | the same replies; on success the attempt is closed as rejected, its driver let go with the score of that moment, and the order failed and announced at its last attempt, else offered to the first in line who has not been tried, else parked |
| `Outcomes.ExpireOutcome` | src/application/dispatch/expire-offer.use-case.ts:16-26 | a message that names the open attempt closes it as expired and moves the order on in the same way; any other changes nothing; an acknowledged message leaves the queue, any other stays |
| `Outcomes.CancelOutcome` | src/application/dispatch/cancel-order.use-case.ts:16-30 | a new cancellation of an awaiting, offered or assigned order ends it as cancelled, its open attempt expired and its driver let go; a completed, cancelled, failed or unknown order is left alone; a retry pass follows in every case and leaves the order as it ended |
| `Outcomes.CompleteOutcome` | src/application/dispatch/complete-delivery.use-case.ts:16-33 | a new completion of an assigned order ends it as completed with driver and attempts kept, lets the driver go, and a retry pass follows; on any other order it is recorded and that is all |
| `Outcomes.LetGoIsFree` | src/infrastructure/redis/redis-driver-pool.ts:32-38 | a driver let go before a pass is not busy after it, unless the pass gave them a parked order |
| `Outcomes.SignOnOutcome` | src/application/dispatch/update-availability.use-case.ts:14-25 | a driver who signs on is willing, and queued with exactly the message's time as score unless busy, before the retry pass |
| `Outcomes.SignOffOutcome` | src/application/dispatch/update-availability.use-case.ts:14-25 | a driver who signs off is neither willing nor queued, stays on the order they may have, and nothing else happens |
| `Outcomes.CreatedOutcome` | src/application/dispatch/handle-order-created.use-case.ts:26-48 | a new message is refused, unrecorded, if and only if its pickup, dropoff or items are, with the first of their errors; otherwise the stored order has the message's own pickup, dropoff, items, customer and schedule, is dated now, and is attempted once |
| `Outcomes.ForceOutcome` | src/application/dispatch/force-assign.use-case.ts:19-29 | each reply has its exact condition on the directory's answer and the order's status; success means the order is newly assigned and published and the driver busy and off the queue; a refusal changes nothing |
| `Histories.CancelledForGood` | src/domain/assignment/assignment.ts:158-174 | an order cancelled while awaiting, offered or assigned is cancelled at every later point of any run and never offered again |
| `Histories.CompletedForGood` | src/domain/assignment/assignment.ts:149-155 | an assigned order that was completed is completed at every later point, with its driver and attempts |
| `Histories.EndsAsToldTo` | src/domain/assignment/assignment.ts:149-174 | an order is completed if and only if the run's operations on it include a completion, and cancelled if and only if they include a cancellation |
| `Histories.EndedForGood` | src/domain/assignment/assignment.ts:92-184 | a completed or cancelled order is unchanged at every later point |
| `Histories.AcceptedForGood` | src/domain/assignment/assignment.ts:106-116 | a driver told that their accept succeeded is the order's driver at every later point |
| `Histories.AnnouncementStands` | src/application/dispatch/handle-order-created.use-case.ts:29-44 | what an accepted creation message said is what the order says at every later point |
| `Histories.OneMessagePerOffer` | src/application/dispatch/dispatch-order.use-case.ts:29-31 | the queue holds at most one message for an attempt and none for one not made, and exactly one until it is acknowledged |
| `Histories.WillingIsAsSaid` | src/application/dispatch/update-availability.use-case.ts:14-25 | at the end of any run a driver is willing if and only if the last new message about them said so |
| `Histories.SignedOffGetsNoOffer` | src/infrastructure/redis/redis-driver-pool.ts:50-52 | after a driver signs off no order gets an offer to them until a later new message signs them on |
| `Theorems.OneOfferPerDriver` | src/infrastructure/persistence/prisma-assignment-repository.ts:19-28 | at most one row matches the query for a driver's current offer, so its answer is determined |
| `Theorems.FailsOnlyWhenExhausted` | src/application/dispatch/dispatch-order.use-case.ts:35-45 | offers of one order go to different drivers, a parked order has a try left, and a failed order was declined by exactly maxAttempts distinct drivers |
| `Lifetimes.RunAccounts` | src/domain/assignment/assignment.ts:92-184 | the operations a run applies to an order, creation's own offer included and a failure counted apart from the decline before it, each take effect on what the one before left and lead from the order's creation, or from where it stood, to its stored state at the end |
| `Lifetimes.BoundedLife` | src/domain/assignment/assignment.ts:92-184 | no run from scratch makes more than 2 * maxAttempts + 3 status changes in one order |
| `Lifetimes.RemainingLife` | src/domain/assignment/assignment.ts:92-184 | from any reachable state the status changes an order still goes through are at most what its measure falls by |
| `Scenarios.BoundIsReached` | src/domain/assignment/assignment.ts:176-184 | for every maxAttempts a run from scratch makes exactly 2 * maxAttempts + 3 status changes in one order |
| `Theorems.NoHangingOffer` | src/application/dispatch/dispatch-order.use-case.ts:29-31 | every open offer has an expiry message with its own attempt number pending |
| `Theorems.DeliveryEndsOfferForGood` | src/application/dispatch/expire-offer.use-case.ts:16-26 | once the message of attempt n is delivered, attempt n is not open then or at any later point of any run, whatever ran before |
| `Theorems.PendingMessageEndsItsOffer` | src/infrastructure/messaging/rabbitmq-offer-scheduler.ts:9-16 | every message found in the holding queue at any point of a run is the end of one offer: once delivered, that attempt is not open then or at any later point |
| `Theorems.AnsweredStaysAnswered` | src/domain/assignment/assignment.ts:128-138 | an attempt that is not open never becomes open again as the state evolves |
| `Theorems.HistoryIsAppendOnly` | src/domain/assignment/assignment.ts:92-138 | between any two points of a run, attempts are only appended, offers are fixed, answers are final, and the order's identity and assigned driver are kept |
| `Theorems.ExpiryTouchesOneAttempt` | src/domain/assignment/assignment.ts:129-138 | a delivered message for attempt n of an order alters no other attempt of any order, and alters that one only from pending to expired |
| `Theorems.StaleExpiryIsIgnored` | src/application/dispatch/expire-offer.use-case.ts:19-22 | a stale, duplicate or unknown message does nothing but read the clock |
| `Theorems.LogShape` | src/domain/assignment/assignment.ts:106-187 | what is published about an order is always nothing, Failed, Assigned, or Failed then Assigned |
| `Theorems.AnnouncedDriverStays` | src/domain/assignment/assignment.ts:106-187 | the driver of a published assignment is the order's assigned driver in every later state |
| `Theorems.RedeliveryIsIgnored` | src/infrastructure/persistence/prisma-processed-event-repository.ts:9-17 | over whole runs, a recorded event delivered again at any later point changes nothing; a cancellation is then a bare retry pass, which changes nothing if and only if no listed order has an untried driver queued |
| `Theorems.RunKeepsInv` | src/application/dispatch/dispatch-order.use-case.ts:9-52 | every legal run keeps the joint invariant of orders, pool, messages and log, and evolves each order monotonically |
| `Paths.NextLeads` | src/interfaces/events/dispatch-events-consumer.ts:42-63 | each message or request, handled to its end, is a sequence of small steps, each one aggregate operation together with the pool change that belongs to it |
| `Paths.RunLeads` | src/interfaces/events/dispatch-events-consumer.ts:42-63 | every legal run is a path of small steps, none of them forcing a busy driver if no command does |
| `Paths.StepKeepsInv` | src/application/dispatch/dispatch-order.use-case.ts:22-45 | every small step keeps the joint invariant |
| `Paths.StepEvolves` | src/domain/assignment/assignment.ts:92-184 | every small step only extends histories and lowers the measure of any order it changes |
| `Paths.DeliveryEndsOffer` | src/application/dispatch/expire-offer.use-case.ts:16-26 | after handling the message for attempt n from any reachable state, the order is not on offer at attempt n |
| `Invariants.KeepsNoLeak` | src/application/dispatch/reject-offer.use-case.ts:22-25 | no step leaves a busy driver without a live order |
| `Invariants.KeepsExclusive` | src/application/dispatch/dispatch-order.use-case.ts:22-32 | no step that forces only free drivers breaks the one-to-one law of busy drivers and live orders |
| `Invariants.KeepsTimed` | src/application/dispatch/dispatch-order.use-case.ts:29-31 | no step leaves an open offer without its message |
| `Invariants.KeepsLogged` | src/domain/assignment/assignment.ts:106-187 | no step takes an order's published log out of agreement with its state |
| `Retry.RetryIsMaximal` | src/application/dispatch/dispatch-order.use-case.ts:48-51 | after a pass over any list, each listed parked order is on offer, or is as it was and has tried every driver still queued |
| `Retry.RetryIdlesIff` | src/application/dispatch/dispatch-order.use-case.ts:48-51 | a pass changes nothing at all exactly when no listed order has an untried driver queued |
| `Retry.RetryIsIdempotent` | src/application/dispatch/dispatch-order.use-case.ts:48-51 | with at most one page parked, an immediate second pass changes nothing |
| `Retry.NoPriorityInversion` | src/application/dispatch/dispatch-order.use-case.ts:48-51 | if a pass gives driver d to an order, every older parked order was offered a driver by that pass or had already tried d |
| `Retry.EarlierGoesFirst` | src/application/dispatch/dispatch-order.use-case.ts:48-51 | the same for positions of any duplicate-free list |
| `Retry.ListedByAge` | src/infrastructure/persistence/prisma-assignment-repository.ts:46-54 | the listing has parked orders only, once each; whoever is older than a listed order is listed before it; one page holds all if there are at most 50 |
| `Retry.AttemptOffers` | src/application/dispatch/dispatch-order.use-case.ts:22-32 | a parked order with an untried driver queued is offered the one of those who waits longest |
| `Retry.RetrySaturates` | src/application/dispatch/dispatch-order.use-case.ts:48-51 | with at most one page parked, a pass leaves no parked order beside a queued driver it has not tried |
| `Retry.PassSaturatesIff` | src/application/dispatch/dispatch-order.use-case.ts:48-51 | once a driver is the only one anybody could wait for, a pass leaves no parked order beside a queued driver it has not tried if and only if the listed page holds an order that has not tried them, or no parked order is left to |
| `Retry.SingleTryServes` | src/application/dispatch/dispatch-order.use-case.ts:49 | with one attempt per order the page is always enough, however many are parked |
| `Retry.NextKeepsSaturatedIff` | src/application/dispatch/update-availability.use-case.ts:14-25 | from any reachable state without a parked order beside an untried queued driver, a use case leaves none if and only if a condition on the state before it holds: for a driver who joins or is freed with a pass, the page reaches an order that wants them or nobody does; for a reject or expiry, nobody does or the driver stopped working |
| `Retry.StaysSaturatedIff` | src/application/dispatch/dispatch-order.use-case.ts:48-51 | a run never leaves a parked order beside an untried queued driver if and only if every command meets that condition when it comes |
| `Retry.CalmRunsStaySaturated` | src/application/dispatch/update-availability.use-case.ts:14-25 | in any run without an effective reject or expiry and with at most one page parked, no parked order is left beside a queued driver it has not tried at any point |
| `Retry.DeclineKeepsSaturatedIff` | src/application/dispatch/reject-offer.use-case.ts:22-25 | a reject or expiry keeps that property exactly when its driver is no longer willing or every other parked order has tried them |
| `Scenarios.RejectCanStarve` | src/application/dispatch/reject-offer.use-case.ts:22-25 | a legal run from scratch in which nobody waits for nothing until a rejection, and the second order does after it |
| `Scenarios.PageCanStarve` | src/application/dispatch/dispatch-order.use-case.ts:49 | wherever maxAttempts is at least 2 and the clock rises, a legal run from scratch fills a page with orders one driver declined, and the pass after that driver is freed leaves a younger order waiting beside them |
| `Interleaving.InterleavedOwnership` | src/application/dispatch/dispatch-order.use-case.ts:22-32 | under any interleaving at repository and pool calls each busy driver has exactly one owner: a stored live order, a handler between claim and save, or a handler between save and free; no driver is on two live orders |
| `Interleaving.QuiescentIsExclusive` | src/infrastructure/messaging/rabbitmq-connection.ts:45 | whenever no handler is in flight, busy drivers and live orders correspond one to one |
| `Interleaving.InterleavedFailure` | src/application/dispatch/dispatch-order.use-case.ts:35-45 | under any interleaving a failed order was declined by exactly maxAttempts distinct drivers, and a parked one has a try left or a handler on its way to fail it |
| `Interleaving.InterleavedTimers` | src/application/dispatch/dispatch-order.use-case.ts:29-31 | under any interleaving each stored open offer has its expiry message in the queue, or a handler between its save and its schedule call |
| `Interleaving.InterleavedAnswerIsFinal` | src/domain/assignment/assignment.ts:129-138 | under any interleaving, and whatever messages come, an attempt once closed is never open again |
| `Interleaving.MovedKeepsInv` | src/application/dispatch/dispatch-order.use-case.ts:22-51 | each single call of each handler keeps ownership, one handler per order, and agreement of what handlers hold with what is stored |
| `Interleaving.MovedKeepsTInv` | src/application/dispatch/expire-offer.use-case.ts:16-26 | each single call of each handler keeps every open offer covered by its message or by the handler about to schedule it, and a handler that will acknowledge a message has closed that attempt or is about to save it closed |
| `SoloRuns.AtomicIsAnInterleaving` | src/application/dispatch/cancel-order.use-case.ts:16-30 | every use case but force-assign, run without interruption, goes call by call to the state its function gives |
| `SoloRuns.AnyNumberInFlight` | src/infrastructure/messaging/rabbitmq-connection.ts:45 | for every n a run of calls has n handlers in flight at once, each on its own order |
| `PoolModel.ClaimIsFifo` | src/infrastructure/redis/redis-driver-pool.ts:11-22 | a claim returns d if and only if d is the least (score, id) queued driver outside the excluded list, and nothing if and only if all queued drivers are excluded |
| `PoolModel.ClaimKeepsOrder` | src/infrastructure/redis/redis-driver-pool.ts:11-22 | a claim takes one driver out of the queue and leaves the rest in order |
| `PoolModel.FreedDriverGoesLast` | src/infrastructure/redis/redis-driver-pool.ts:32-38 | a willing driver freed after everybody queued joined goes to the end of the queue and displaces nobody |
| `PoolModel.PoolLaw` | src/infrastructure/redis/redis-driver-pool.ts:11-58 | after any sequence of pool calls the queue is exactly the willing drivers who are not busy |
| `PoolModel.WillingIsLastWord` | src/infrastructure/redis/redis-driver-pool.ts:24-52 | after any sequence of pool calls a driver is willing if and only if the last sign-on or sign-off of theirs was a sign-on, or there was none and they were willing before |
| `PoolModel.NoDoubleClaim` | src/infrastructure/redis/redis-driver-pool.ts:11-58 | between two claims that return the same driver, in any sequence of calls, that driver was freed |
| `DriverPool.RedisDriverPool.ClaimNext` | src/infrastructure/redis/redis-driver-pool.ts:11-22 | the scanning loop returns the first driver in (score, id) order outside the excluded list, moves exactly that driver from the queue to busy, and changes nothing if there is none |
| `DriverPool.RedisDriverPool.OnWilling` | src/infrastructure/redis/redis-driver-pool.ts:24-30 | the new pool of the value model: willing, and queued with the given score unless busy |
| `DriverPool.RedisDriverPool.OnUnwilling` | src/infrastructure/redis/redis-driver-pool.ts:50-52 | the new pool of the value model: neither willing nor queued |
| `DriverPool.RedisDriverPool.FreeDriver` | src/infrastructure/redis/redis-driver-pool.ts:32-38 | the new pool of the value model: not busy, and queued again only if still willing |
| `DriverPool.RedisDriverPool.MarkBusy` | src/infrastructure/redis/redis-driver-pool.ts:56-58 | the new pool of the value model: busy and not queued |
| `DriverPool.RedisDriverPool.ListAvailable` | src/infrastructure/redis/redis-driver-pool.ts:59-64 | lists each queued driver once with their score, in increasing (score, id) order |
| `AssignmentModel.OperationKeepsSound` | src/domain/assignment/assignment.ts:92-184 | every operation keeps attempts numbered 1..n, drivers distinct, and outcomes in agreement with the status |
| `AssignmentModel.OperationLowersMeasure` | src/domain/assignment/assignment.ts:92-184 | every effective operation lowers the measure, which stays non-negative |
| `AssignmentModel.OperationContinues` | src/domain/assignment/assignment.ts:92-184 | every operation appends to the history and changes only an unanswered attempt's answer |
| `AssignmentModel.LifeIsBounded` | src/domain/assignment/assignment.ts:92-184 | any sequence of effective operations on a new order has at most 2 * max + 3 members |
| `AssignmentModel.LifeBoundIsAttained` | src/domain/assignment/assignment.ts:176-184 | that bound is reached: decline every offer, fail, force-assign, complete |
| `AssignmentModel.LifeEnds` | src/domain/assignment/assignment.ts:149-174 | a sequence of operations ends completed exactly if it contains a completion, cancelled exactly if it contains a cancellation, and nothing follows either |
| `AssignmentModel.FailureNeedsExhaustion` | src/domain/assignment/assignment.ts:86-90 | a failed order was declined by max distinct drivers, and its tried list is exactly the drivers it was offered to |
| `AssignmentModel.StatusTable` | src/domain/assignment/assignment.ts:92-184 | the state machine line by line: the statuses each operation takes effect in, the status it leads to, and the answer it leaves on the attempt |
| `AssignmentModel.PendingIsCurrent` | src/domain/assignment/assignment.ts:82-84 | an attempt is unanswered if and only if it is the last one of an offered order |
| `AssignmentModel.DeclinedDriversAre` | src/domain/assignment/assignment.ts:86-90 | a driver is in the tried list if and only if some attempt to them was rejected or expired |
| `Aggregate.Assignment.FromPersistence` | src/domain/assignment/assignment.ts:65-67 | the object has exactly the given state and no pending events |
| `Aggregate.Assignment.OfferTo` | src/domain/assignment/assignment.ts:92-104 | takes effect exactly in the awaiting status, appending attempt offerAttempts + 1; otherwise throws and changes nothing |
| `Aggregate.Assignment.Accept` | src/domain/assignment/assignment.ts:106-116 | takes effect exactly for the driver on offer, with one event; otherwise the right error and no change |
| `Aggregate.Assignment.RejectByDriver` | src/domain/assignment/assignment.ts:118-126 | takes effect exactly for the driver on offer; otherwise the right error and no change |
| `Aggregate.Assignment.ExpireOffer` | src/domain/assignment/assignment.ts:129-138 | true, with effect, exactly when that attempt is the open one |
| `Aggregate.Assignment.MarkFailed` | src/domain/assignment/assignment.ts:140-147 | takes effect exactly in the awaiting status, with one event |
| `Aggregate.Assignment.MarkCompleted` | src/domain/assignment/assignment.ts:150-155 | true exactly in the assigned status, which becomes completed, with driver and attempts kept; otherwise nothing changes |
| `Aggregate.Assignment.Cancel` | src/domain/assignment/assignment.ts:158-174 | an awaiting, offered or assigned order becomes cancelled, an open attempt is closed as expired and the driver on offer or assigned is returned; a completed, cancelled or failed one is left alone and nobody is returned |
| `Aggregate.Assignment.ForceAssign` | src/domain/assignment/assignment.ts:176-184 | takes effect exactly when parked or failed, with one event |
| `Aggregate.Assignment.PullEvents` | src/domain/assignment/assignment.ts:186-188 | hands out the buffered events in order and empties the buffer |
| `RepositoryModel.SaveThenLoad` | src/infrastructure/persistence/prisma-assignment-repository.ts:30-44 | reading back what was saved gives the same assignment if and only if its value objects are normalised and the attempts table already agrees with it |
| `RepositoryModel.SavedRow` | src/infrastructure/persistence/assignment-mapper.ts:40-48 | each column of the saved order row holds the field of its name, and the other rows are untouched |
| `RepositoryModel.SavedRows` | src/infrastructure/persistence/prisma-assignment-repository.ts:34-43 | each attempt row is created as the attempt is, or keeps everything but its outcome and response time |
| `RepositoryModel.SaveKeepsOthers` | src/infrastructure/persistence/prisma-assignment-repository.ts:30-44 | a save whose attempt ids are new or the order's own leaves every other order as read before |
| `RepositoryModel.FreshSaveReadsBackIff` | src/application/dispatch/handle-order-created.use-case.ts:29-44 | a fresh assignment saved over whatever is stored reads back as saved if and only if the table holds no attempt of its order |
| `RepositoryModel.SaveRefines` | src/infrastructure/persistence/prisma-assignment-repository.ts:30-44 | saving an assignment that continues the stored one acts on the two tables as an update acts on a map |
| `RepositoryModel.WritesRefineMap` | src/infrastructure/persistence/prisma-assignment-repository.ts:14-44 | after any sequence of creations and load-step-save writes the tables read back exactly as a plain map would |
| `RepositoryModel.AttemptsRoundTrip` | src/infrastructure/persistence/assignment-mapper.ts:12-18 | the sorted attempt rows are the saved attempts if and only if the table was compatible |
| `RepositoryModel.AwaitingRowsAreParked` | src/infrastructure/persistence/prisma-assignment-repository.ts:46-54 | the rows the parked query sees are the parked orders of the map with their ages |
| `RepositoryModel.OldestPageIsUnique` | src/infrastructure/persistence/prisma-assignment-repository.ts:46-54 | what the parked query must satisfy (parked orders only, oldest first, one left out only when the page is full and older) has a single solution |
| `RepositoryModel.OfferLookupAgrees` | src/infrastructure/persistence/prisma-assignment-repository.ts:19-28 | "some pending attempt with this driver" and "the current attempt is this driver's" select the same orders |
| `ValueObjects.AddressAcceptedIff` | src/domain/shared/address-snapshot.ts:22-43 | exactly which addresses are accepted, and what each field becomes |
| `ValueObjects.ItemAcceptedIff` | src/domain/shared/order-item-line.ts:16-26 | exactly which item lines are accepted, and what each field becomes |
| `ValueObjects.ItemsAcceptedIff` | src/application/dispatch/handle-order-created.use-case.ts:37-39 | a list is accepted if and only if every line is, line by line in order |
| `ValueObjects.AddressRoundTrip` | src/domain/shared/address-snapshot.ts:22-54 | an address survives its own JSON if and only if it is normalised, and the normalised ones are exactly what the constructor produces |
| `ValueObjects.ItemRoundTrip` | src/domain/shared/order-item-line.ts:16-30 | the same for an item line |
| `ValueObjects.ItemsRoundTrip` | src/infrastructure/persistence/assignment-mapper.ts:24-30 | a list of items survives its JSON if and only if every line is normalised |
| `Text.TrimIsIdempotent` | src/domain/shared/address-snapshot.ts:23-24 | trimming always reaches a trimmed string and fixes exactly the trimmed ones |
| `Text.TrimKeepsTheMiddle` | src/domain/shared/address-snapshot.ts:23-24 | trimming takes white space off both ends and nothing else |
| `Ranking.RankedIsUnique` | src/infrastructure/redis/redis-driver-pool.ts:12 | the listing by (value, key) is the only duplicate-free ordered listing of the keys |
| `Ranking.RankedWithout` | src/infrastructure/redis/redis-driver-pool.ts:17 | removing a member leaves the others in their order |
| `Adapters.PrismaAssignmentRepository.Save` | src/infrastructure/persistence/prisma-assignment-repository.ts:30-44 | the upsert loop produces the two tables of the value model |
| `Adapters.PrismaAssignmentRepository.ById` | src/infrastructure/persistence/prisma-assignment-repository.ts:14-17 | a new aggregate with the state the tables hold, or nothing, or the error of a malformed row |
| `Adapters.PrismaAssignmentRepository.AwaitingDriverOldestFirst` | src/infrastructure/persistence/prisma-assignment-repository.ts:46-54 | new aggregates read from the tables, in strictly increasing age order, of parked orders only, one left out only if the page is full of older ones; or the error of a malformed listed row |
| `Adapters.PrismaAssignmentRepository.OfferedForDriver` | src/infrastructure/persistence/prisma-assignment-repository.ts:19-28 | a new aggregate of an order with an open attempt to the driver, nothing exactly when there is none, or the error of a malformed row |
| `Adapters.PrismaProcessedEventRepository.RecordIfNew` | src/infrastructure/persistence/prisma-processed-event-repository.ts:9-17 | reports exactly whether the event was unseen, and records it |
| `Adapters.RabbitMqEventPublisher.PublishAll` | src/infrastructure/messaging/rabbitmq-event-publisher.ts:9-11 | appends all events in order |
| `UseCases.DispatchOrderUseCase.Attempt` | src/application/dispatch/dispatch-order.use-case.ts:22-32 | on tables, pool, clock and scheduler: a parked order with an untried driver queued is offered the first of those, stored, and its expiry scheduled under the new attempt number; in every other case nothing changes |
| `UseCases.DispatchOrderUseCase.FailOrRetry` | src/application/dispatch/dispatch-order.use-case.ts:35-45 | a parked order out of attempts is stored as failed and its failure published; with attempts left it is attempted again; any other order is untouched |
| `UseCases.DispatchOrderUseCase.RetryParked` | src/application/dispatch/dispatch-order.use-case.ts:48-51 | the loop attempts the parked orders of one page, oldest first, each on the state the previous one left |
| `UseCases.HandleOrderCreatedUseCase.InTransaction` | src/application/dispatch/handle-order-created.use-case.ts:28-46 | for any message: a new valid one is recorded and its fresh assignment saved over whatever the tables hold, which is an update of the map when the order was never offered; a repeat or an invalid one leaves no trace |
| `UseCases.HandleOrderCreatedUseCase.Execute` | src/application/dispatch/handle-order-created.use-case.ts:26-48 | a new valid message records the event, stores the parked order and attempts it; a repeat changes nothing but the clock; an invalid one replies the error and leaves no event record |
| `UseCases.UpdateAvailabilityUseCase.Execute` | src/application/dispatch/update-availability.use-case.ts:14-25 | a new event makes the driver willing and retries the parked orders, or takes them out of the queue; a repeat changes nothing |
| `UseCases.CompleteDeliveryUseCase.Execute` | src/application/dispatch/complete-delivery.use-case.ts:16-33 | a new event on an assigned order completes it, frees its driver and retries the parked orders; otherwise at most the event is recorded |
| `UseCases.CancelOrderUseCase.Execute` | src/application/dispatch/cancel-order.use-case.ts:16-30 | a new event on a live order cancels it and frees exactly the driver it held; whatever happened, the parked orders are retried |
| `UseCases.AcceptOfferUseCase.Execute` | src/application/dispatch/accept-offer.use-case.ts:15-22 | the driver on offer is assigned, the order stored and the assignment published; anyone else gets the matching error and nothing is stored |
| `UseCases.RejectOfferUseCase.Execute` | src/application/dispatch/reject-offer.use-case.ts:17-26 | the driver on offer is freed and the order failed or offered on; anyone else gets the matching error and nothing is stored |
| `UseCases.ExpireOfferUseCase.Execute` | src/application/dispatch/expire-offer.use-case.ts:16-26 | a message for the open attempt frees its driver and fails the order or offers it on; a stale, duplicate or unknown one stores nothing |
| `UseCases.ForceAssignUseCase.Execute` | src/application/dispatch/force-assign.use-case.ts:19-29 | a known driver is put on a parked or failed order, marked busy and published, whether or not they were free; otherwise the matching error and no change |
| `UseCases.DispatchService.Process` | src/server.ts:99-125 | the wired objects, driven by any run of messages and requests that announces no order anew once it was offered, end with tables, pool, queues and log in the state all the theorems above are about |

## Left out

- HTTP, authentication, schemas, error mapping, health checks, logging, configuration and wiring beyond one shared set of ports.
- RabbitMQ topology, message encoding, the bounded republish counter and the dead-letter queue; the holding queue is a multiset and the publisher a log.
- Durations: the expiry instant is stored, but no operation compares it with the clock, so there are no deadline properties.
- Crashes between two port calls: the code has no compensation, so every use case that starts is taken to finish.
- Two handlers on the same order at once: the code takes no lock and updates can be lost, so the interleaved model assumes they are serialised.
- Force-assign in the interleaved model: it saves before it marks the driver busy, so exclusivity does not hold through it.
- Published events and the event records in the interleaved model, which has orders, pool, expiry messages and handlers.
- The driver directory: its answer is a parameter of force-assign, and the list of available drivers is not enriched.
- Ties between parked orders of the same age: listed by id here, unspecified in SQL. The theorems on maximality, no-op passes and position hold for every list.
- UUID syntax, NaN and infinities, non-ASCII case folding, 32-bit column widths.
- Theorems.OneOfferPerDriver: stated for runs in which admins force only drivers who are not busy; two orders can be on one driver otherwise.
- Theorems.ExactConservation: stated for the same runs, because a forced busy driver breaks the law at once (`Theorems.ForceKeepsExclusiveIff`).
- Retry.CalmRunsStaySaturated: assumes at most 50 parked orders at each point and no effective decline; `Retry.StaysSaturatedIff` is the exact statement.
- UseCases.HandleOrderCreatedUseCase.Execute: requires that an order announced under a new event was never offered, which `RepositoryModel.FreshSaveReadsBackIff` shows to be exactly when the tables go on acting as a map; the transaction alone is specified without it.
- UseCases.DispatchService.Process: requires the same along the run, for the same reason.
