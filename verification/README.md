# SMS gateway: message flow, credits, worker pools and configuration

This project models the delivery side of an SMS gateway written in Go and proves
properties of the model. A delivery is read from a RabbitMQ queue, its messages are
sent to mobile network operators by a worker pool or a bulk API, the results go to
save, delay or dead-letter queues, delayed messages come back for another pass, and the
delivery is acked or requeued. Beside that flow run a credit scheduler, a
fast path for transactional messages, a processor that sends each AfricasTalking
message once, and a configuration cache that feeds the rate limiter.

Code that changes objects step by step is modelled by classes and loops whose contracts
tie the new state to a function of the old one. Code whose difficulty is interleaving is
modelled by step machines, and the theorems hold for every run of them.

| file | content |
|---|---|
| Arithmetic.dfy | minimum and maximum |
| Domain.dfy | messages, results, one message's processing |
| CreditMachine.dfy | one queue's credit pool under every interleaving |
| SchedulerMachine.dfy | all pools under one scheduler lock, one refill loop and one reload; who can still be served |
| PriorityScheduler.dfy | the scheduler object: reload, resize, refill, first use |
| ResultHandling.dfy | exhaustion split, publish plans, publisher; batch handling refines single handling |
| WorkerPool.dfy | both worker pools under every schedule |
| Batching.dfy | grouping by sender, chunking, the bulk path |
| Processing.dfy | one batch and one delivery from receipt to settlement |
| TransactionalFastPath.dfy | the fast path object |
| Intake.dfy | accumulation of deliveries, the batching loop, the priority router |
| Pipeline.dfy | the whole system: at-least-once, termination of the retry loop |
| RetryLife.dfy | one copy's life: lanes, exhaustion, exact number of passes |
| AfricasTalking.dfy | send once, save, report; backoff in 64-bit arithmetic |
| SafaricomSdp.dfy | the bulk sender over shared, mutable messages; tokens |
| DynamicConfig.dfy | cache, store, notifications, limiter |

`dafny verify dfyconfig.toml` checks everything.

## How the parts join

* `PriorityScheduler.ClassMatchesMachine` says that the object's loops compute what the
  credit machine's undisturbed runs compute, and `SchedulerMachine.SchedulerRun` says that
  what one queue sees of any scheduler run is a run of the credit machine.
* `Processing.ProcessRegular` and `TransactionalHandler.RunPool` take any complete
  schedule of the pool machine, so what they promise holds for all schedules;
  `WorkerPool.EveryPoolFinishes` says that there always is one.
* `ResultHandling.Published` says what a failing broker makes of a publish plan: it is
  out up to the first failing attempt. Every method that publishes, up to the router, is
  specified by it, so every ack is tied to the broker's failures.
* `SafaricomSdp.MeetsContract` shows that the bulk sender keeps the contract that
  `Batching.ProcessSdpBatch` asks of it, when the messages are distinct.
* `Processing.PlanCoversDelivery` is the reason why a step of `Pipeline` loses nothing,
  and `ResultHandling.BatchRefinesSingle` is why `RetryLife` may follow single results.

## What the code does not do

Each of these is a theorem about the code as it is, with the exact condition where one
exists.

* An acquirer waits until its context is cancelled, however many refills follow, when its
  empty credit channel has been replaced, or will be by the running reload with no refill
  before that: a reload holds the scheduler lock from its start to its end, and the refill
  loop needs that lock to list the queues of a round (`StrandedForever`). These are exactly
  the acquirers that cannot be served any more, in their queue (`StrandedIff`) and in the
  whole scheduler with all its queues (`ServedIff`). One reload of a weight is enough to get
  there, and the acquirer is lost as soon as the reload has the lock (`StrandingIsReachable`).
* A cancelled context can make the pool end without results (`CancelMayLoseAll`); then the
  empty plan succeeds, the delivery is acked and the SMS is nowhere
  (`CancelledContextLoses`). A finished pool has answered its batch exactly when it left
  nothing unfed, nothing in its inbox and dropped no result (`RegularAnswersIff`).
* The router acks after a failed fast-path publish, and then no copy need be on any queue
  (`FastPathLoses`). For an acked delivery with both paths wired, both complete plans are out
  if and only if the broker failed no attempt of the transactional plan, and every SMS is on
  a queue if and only if it failed none of the needed ones (`AckSafeIff`): only the second
  copy of the permanent failures can go missing without a loss (`PlanCoversDelivery`).
* With the dead-letter migrator feeding a consumed queue the number of passes is unbounded
  (`MigratorCyclesForever`). The bound `max(1, limit - retryCount)` holds for all copies if
  and only if the migrator has no such way back (`PassBoundIff`), and it is exact when every
  pass ends retryable (`PassBoundExact`).
* The design document of 2026-05-13 routes a retry by its package id
  (docs/specs/2026-05-13-retry-queue-separation-design.md:45-47). The code routes it by the
  queue it was consumed from, so the second retry of a promotional message already takes the
  transactional lane (`SecondRetryLeavesItsLane`), and so does every later one
  (`LaterRetriesTransactional`). `LaneIsDesignedIff` says exactly when both agree, an unnamed
  gateway queue included. The model follows the code.
* The fast path rewrites a number before it validates it. Both paths validate a message
  alike unless its number is white space only and nothing was missing before it; then the
  fast path alone rejects it (`FastPathYieldsResult`).
* The batching consumer loop stops for good, leaving what it took unsettled, on shutdown and
  also whenever the first delivery is empty and so is every one behind it that it would
  still take, and only then (`BatchingTurn`).
* An AfricasTalking delivery of several messages is requeued without any cancellation
  exactly when the limiter refused one of its eligible messages (`RequeueIff`), and then
  the others are sent again (`MultiMessageResends`).
* The backoff equals the documented one if and only if the true product does not overflow 64
  bits or its residue happens to lie from the cap up to 2^63 (`BackoffIsIdealIff`). With the
  default base of two seconds attempt 34 overflows to a negative duration (`DefaultBase`).
* The limiter does not read the store at start-up: a pod at rest has the stored rates if
  and only if it has handled a notification or started with them (`RatesAtRestIff`). A
  seed by another pod leaves the cache stale if and only if it adds a field
  (`SeedCoherence`).

## Model

| member | source | states |
|---|---|---|
| CreditMachine.StepKeepsShape | internal/sms/service/priority_scheduler.go:241-270 | every step of acquirer, refill or resizer keeps each channel within its capacity and the number of channels in line with the replacements |
| CreditMachine.StepKeepsBalance | internal/sms/service/priority_scheduler.go:394-422 | every step keeps credits put in equal to credits acquired plus held plus in hand |
| CreditMachine.Conservation | internal/sms/service/priority_scheduler.go:241-270 | over every run: prefilled plus granted credits are the acquired ones plus those in all channels ever made plus at most one in the resizer's hand, and no channel is over capacity |
| CreditMachine.InitInv | internal/sms/service/priority_scheduler.go:489-498 | a fresh, prefilled pool satisfies the invariant |
| CreditMachine.ResizerNeverBlocks | internal/sms/service/priority_scheduler.go:252-266 | a resizer with a credit in hand always finds room; without one it can take the next or finish |
| CreditMachine.ReplacedNeverGains | internal/sms/service/priority_scheduler.go:241-270 | a replaced channel never gains a credit again, in any continuation |
| CreditMachine.StrandedForever | internal/sms/service/priority_scheduler.go:447-473 | an acquirer whose empty channel has been replaced, or will be by the running reload with no refill before that, never gets a credit unless it gives up |
| CreditMachine.StrandedIff | internal/sms/service/priority_scheduler.go:380-474 | in a queue some continuation serves a waiting acquirer without its giving up if and only if it is not stranded |
| CreditMachine.StrandingIsReachable | internal/sms/service/priority_scheduler.go:201-237 | a concrete run strands an acquirer when a reload has the scheduler lock, and it is still stranded when the reload is over |
| CreditMachine.NewcomersAreServed | internal/sms/service/priority_scheduler.go:447-473 | an acquirer that comes while no reload is about to replace the channel is not stranded, whatever became of earlier channels |
| CreditMachine.GrantsWithinBudget | internal/sms/service/priority_scheduler.go:394-422 | the grants of any run stay within the effective weights at its refills |
| CreditMachine.RateBound | internal/sms/service/priority_scheduler.go:394-422 | batches admitted by credit in any window are at most the credits held in all channels at its start plus the effective weights of its refills, reloads included |
| CreditMachine.SteadyGrants | internal/sms/service/priority_scheduler.go:394-422 | without reload, a pool drained before each refill is granted exactly its weight per refill under every interleaving |
| CreditMachine.SteadyBudget | internal/sms/service/priority_scheduler.go:394-422 | without a reload the budget of a run is its number of refills times the weight, or the default weight |
| CreditMachine.FairRunExists | internal/sms/service/priority_scheduler.go:380-422 | for every weight, multiplier and number of refills a run exists in which a queue gets exactly its share |
| CreditMachine.BypassesCounted | internal/sms/service/priority_scheduler.go:432-445 | starved acquirers that pass without a credit are counted apart, one by one |
| CreditMachine.ExactShare | internal/sms/service/priority_scheduler.go:394-422 | such a pool, drained at the end too, acquires exactly w * (m + k) batches over k refills |
| CreditMachine.WeightedFairness | internal/sms/service/priority_scheduler.go:380-422 | two such queues share exactly in proportion to their weights |
| CreditMachine.RefillClosedForm | internal/sms/service/priority_scheduler.go:394-422 | without acquisitions the level after j refills is min(capacity, level + j * weight), with the default weight for a weight below 1 |
| CreditMachine.FullAfterMultiplierRefills | internal/sms/service/priority_scheduler.go:394-422 | a pool of weight at least 1 is full after as many refills as its multiplier |
| CreditMachine.ResizeClosedForm | internal/sms/service/priority_scheduler.go:241-270 | an undisturbed resize moves as many credits as fit and leaves the surplus in the old channel |
| SchedulerMachine.SchedulerStep | internal/sms/service/priority_scheduler.go:201-237 | every event of the scheduler, those under its lock included, keeps every pool's invariant, at most one queue being updated and at most one being refilled |
| SchedulerMachine.SchedulerRun | internal/sms/service/priority_scheduler.go:201-237 | what a queue sees of any scheduler run, reloads, snapshots and multiplier changes included, is a run of the pool machine; at most one credit is in hand over all queues |
| SchedulerMachine.ReloadLeavesWeights | internal/sms/service/priority_scheduler.go:201-237 | when a reload ends, whatever happened meanwhile, every queue has the weight of the new map, or the default |
| SchedulerMachine.SetOneLeavesWeights | internal/sms/service/priority_scheduler.go:632-644 | when a single weight was set, that queue has it and every other keeps its own |
| SchedulerMachine.MultiplierAtNextReload | internal/sms/service/priority_scheduler.go:346-356 | a new multiplier changes no queue; capacities follow it at the next replacement or creation |
| SchedulerMachine.SomethingClears | internal/sms/service/priority_scheduler.go:380-391 | the refill loop and a reload never block each other for good |
| SchedulerMachine.ServedInScheduler | internal/sms/service/priority_scheduler.go:380-474 | from every state an acquirer that is not stranded has a run of the whole scheduler that serves it |
| SchedulerMachine.ServedIff | internal/sms/service/priority_scheduler.go:201-474 | in the whole scheduler a waiting acquirer can still be served if and only if it is not stranded |
| PriorityScheduler.Scheduler.constructor | internal/sms/service/priority_scheduler.go:89-125 | the initial state, with the defaults for non-positive settings |
| PriorityScheduler.Scheduler.GetOrCreateQueueState | internal/sms/service/priority_scheduler.go:477-522 | first use makes a full channel of the configured weight; later uses change nothing |
| PriorityScheduler.Scheduler.ResizeCreditChannel | internal/sms/service/priority_scheduler.go:241-270 | contents of the new and of the old channel after the transfer loop |
| PriorityScheduler.Scheduler.RefillQueueCredits | internal/sms/service/priority_scheduler.go:394-422 | the refill loop adds the effective weight as far as it fits and counts exactly what it added |
| PriorityScheduler.Scheduler.UpdateWeights | internal/sms/service/priority_scheduler.go:201-237 | after a reload every queue mirrors the new map or the default, and exactly the changed ones got a new channel |
| PriorityScheduler.Scheduler.SetWeight | internal/sms/service/priority_scheduler.go:632-644 | one weight set; the mirror is kept whether or not the queue exists |
| PriorityScheduler.Scheduler.RefillAllCredits | internal/sms/service/priority_scheduler.go:380-391 | a tick refills every queue once and keeps the mirror |
| PriorityScheduler.ClassMatchesMachine | internal/sms/service/priority_scheduler.go:241-270 | the object's refill and reload compute what the machine's undisturbed runs compute |
| Domain.ProcessingYieldsResult | internal/sms/service/processor.go:303-370 | every path through one message's processing yields a result for that SMS, the retry count rises by one exactly when it is retryable, and exactly which conditions give success and permanent failure |
| Domain.FirstCheckDecides | internal/sms/service/processor.go:303-370 | validation, rate limit, sender lookup, health and send decide in this order, each with its own error |
| Domain.ResultMarks | internal/sms/domain/result.go:47-81 | the marks a result leaves on its message, and that nothing else changes |
| Domain.ValidMeans | internal/sms/domain/message.go:109-126 | a message is valid exactly if it lacks nothing, and the first thing missing names the error |
| Domain.CoreMeans | internal/sms/domain/message.go:153-175 | two messages are the same SMS exactly if text, number, network, sender, package, correlator and outbox row agree |
| Domain.WireAndStamp | internal/sms/adapters/rabbitmq/consumer.go:186-200 | through a queue a message keeps everything but the source queue, which becomes the queue it is read from |
| Domain.NormalizeMeans | internal/sms/domain/message.go:86-106 | exactly how local, plus and other numbers are rewritten, whatever white space is around them |
| Domain.NormalizeTwice | internal/sms/domain/message.go:86-106 | normalising a number twice changes nothing more |
| Domain.FastPathYieldsResult | internal/sms/service/transactional_handler.go:200-260 | the fast path's processing yields a result for the message with its number rewritten; exactly when both paths validate a message alike |
| ResultHandling.BatchResult.AddResult | internal/sms/domain/result.go:117-127 | the result is filed by its type and counted |
| ResultHandling.AddedKeeps | internal/sms/domain/result.go:117-127 | filing keeps the lists sorted by type and adds exactly the one result |
| ResultHandling.FiledInOrder | internal/sms/domain/result.go:117-127 | each list holds the results of its type in the order in which they came |
| ResultHandling.ExhaustionMeans | internal/sms/service/result_handler.go:48-94 | exactly when handling makes a retryable result a permanent failure, by package, limit and retry count, and with which mark |
| ResultHandling.BatchResult.HandleBatchResults | internal/sms/service/result_handler.go:124-141 | the backward delete loop leaves the in-order filter of results under their limit, and the exhausted ones in reverse order behind the old failures; total unchanged |
| ResultHandling.SplitIsPartition | internal/sms/service/result_handler.go:124-141 | kept and moved results together are the old ones with multiplicity; the kept ones are exactly those under their limit; the moved list is exactly the exhausted ones, each marked, in reverse |
| ResultHandling.SplitInOrder | internal/sms/service/result_handler.go:124-141 | what stays keeps its order, what is moved is reversed |
| ResultHandling.SplitKeepsTypes | internal/sms/service/result_handler.go:124-141 | the lists stay sorted by type and every moved result carries the exhaustion mark |
| ResultHandling.HandleResult | internal/sms/service/result_handler.go:62-121 | single handling publishes the plan of the result, an exhausted one as a permanent failure, up to the first failing attempt; success exactly when none fails |
| ResultHandling.DeliveredMeans | internal/sms/adapters/rabbitmq/publisher.go:218-275 | the publications that go out are those before the first failing attempt, all exactly when none fails |
| ResultHandling.PublishedMeans | internal/sms/adapters/rabbitmq/publisher.go:218-275 | after a plan was published the broker has got a prefix of it, and the whole of it exactly on success |
| ResultHandling.Publisher.PublishResult | internal/sms/adapters/rabbitmq/publisher.go:172-212 | the single plan is out up to the first failing attempt; success exactly when none fails |
| ResultHandling.Publisher.PublishBatchResults | internal/sms/adapters/rabbitmq/publisher.go:218-275 | the batch plan is out, in order, exactly up to the first failing attempt; success exactly when none fails |
| ResultHandling.PlanInOrder | internal/sms/adapters/rabbitmq/publisher.go:218-275 | a batch is published saves first and its permanent failures last, to the dead-letter queue and then to the save queue |
| ResultHandling.Destinations | internal/sms/adapters/rabbitmq/publisher.go:172-212 | to which queues a handled result goes, by type, package, limit, source queue and gateway name, and that it goes nowhere else |
| ResultHandling.Publisher.Lanes | internal/sms/adapters/rabbitmq/publisher.go:229-237 | the partition loop yields the two lanes in order |
| ResultHandling.BatchRefinesSingle | internal/sms/service/result_handler.go:62-152 | handling and publishing a batch puts as many copies of every message on every queue as handling each result alone |
| ResultHandling.ExecutedBatchRefinesSingle | internal/sms/adapters/rabbitmq/publisher.go:172-275 | on a broker without failures the executed batch path and the executed single path leave the same copies of every message on every queue |
| ResultHandling.LaneIsDesignedIff | internal/sms/domain/message.go:76-82 | a retry's lane is that of its package exactly when the gateway or source queue is unnamed, or it was consumed from the gateway queue and is promotional, or from another one and is transactional |
| WorkerPool.PoolConservation | internal/sms/service/processor.go:235-300 | under every schedule, cancelled or not, each message is somewhere in the pool as often as it came in |
| WorkerPool.WorkersMean | internal/sms/service/processor.go:235-252 | a pool starts with one idle worker per message as far as there are workers, and room for all messages |
| WorkerPool.RunKeepsShape | internal/sms/service/processor.go:235-300 | every run keeps channel occupancy, goroutine order and the pairing of results with messages |
| WorkerPool.SendsNeverBlock | internal/sms/service/processor.go:239-240 | result and work sends always find room |
| WorkerPool.NoDeadlock | internal/sms/service/processor.go:235-300 | until the collector is done some goroutine can move without a cancellation |
| WorkerPool.RunsAreBounded | internal/sms/service/processor.go:235-300 | every step lowers a rank, so every schedule ends |
| WorkerPool.RegularAnswersAll | internal/sms/service/processor.go:235-300 | with a live context every finished schedule has exactly one result per message |
| WorkerPool.RegularAnswersIff | internal/sms/service/processor.go:235-300 | a finished schedule, cancelled or not, has answered its batch exactly when nothing is left unfed, in the inbox or dropped |
| WorkerPool.EveryPoolFinishes | internal/sms/service/processor.go:235-300 | every state of a pool has a schedule that brings it to its end without a cancellation |
| WorkerPool.CancelMayLoseAll | internal/sms/service/processor.go:283-297 | for every non-empty batch some cancelled schedule ends with no result at all |
| WorkerPool.FastPathAnswersAll | internal/sms/service/transactional_handler.go:275-334 | every finished schedule has one result per message, raises processed by the batch size and failed by the non-successes |
| TransactionalFastPath.RewrittenTwice | internal/sms/service/transactional_handler.go:204-205 | a rewritten batch is the batch but for the form of the numbers, and is not changed again on redelivery |
| TransactionalFastPath.EndsExists | internal/sms/service/transactional_handler.go:275-334 | complete schedules exist for every batch and every number of workers |
| TransactionalFastPath.TransactionalHandler.RunPool | internal/sms/service/transactional_handler.go:283-327 | the handler object's counters, and as answers what its pool collects for the rewritten messages under their schedule |
| TransactionalFastPath.TransactionalHandler.ProcessBatch | internal/sms/service/transactional_handler.go:275-334 | one result per rewritten message, exact counters, and the plan of these results on their own queues is out up to the first failing attempt; whether one failed stays unreported |
| Batching.GroupBySender | internal/sms/service/processor.go:218-232 | the map and order loops compute the sender groups |
| Batching.SendersFirstSeen | internal/sms/service/processor.go:216-232 | the senders listed are exactly those of the batch, in the order in which they are first met |
| Batching.GroupsPartition | internal/sms/service/processor.go:216-232 | the groups are non-empty, have one sender each, and hold every message as often as the batch |
| Batching.ChunksOfGroup | internal/sms/service/processor.go:173-180 | a group's chunks concatenate to it, are sendable, and number ceil(length / size) |
| Batching.ChunksOfGroups | internal/sms/service/processor.go:173-180 | the same over all groups, with the sum of the rounded-up quotients |
| Batching.SdpChunks | internal/sms/adapters/mno/safaricom_sdp.go:341-350 | for every batch the chunks are non-empty, within size and of one sender, so the mixed-sender rejection is unreachable, and they cover the batch |
| Batching.ProcessChunk | internal/sms/service/processor.go:181-203 | message i is answered rate-limited if the chunk is refused, else with result i of the call; all are filed |
| Batching.FromInOrder | internal/sms/service/processor.go:216-232 | within a group the order of the batch is kept |
| Batching.ProcessGroup | internal/sms/service/processor.go:173-213 | the index loop attempts exactly the group's chunks in order and files the limiter's or the bulk sender's answer for every message |
| Batching.ChunksDoneAt | internal/sms/service/processor.go:181-203 | message i of chunk c has the limiter's refusal of that chunk, or result i of the bulk call for it |
| Batching.ProcessSdpBatch | internal/sms/service/processor.go:163-214 | exactly the chunks of the sender groups are attempted, a chunk is refused exactly when the limiter says so, and the answers are those of the chunks |
| Processing.ProcessRegular | internal/sms/service/processor.go:235-277 | what is filed is what the pool collects under the schedule, one result per message |
| Processing.KindMeans | internal/sms/service/processor.go:119-128 | exactly the promotional Safaricom messages take the bulk path, and the two kinds are all messages |
| Processing.KindInOrder | internal/sms/service/processor.go:119-128 | both kinds keep the order of the batch |
| Processing.ProcessBatch | internal/sms/service/processor.go:105-158 | the answers are those of pool and chunks as wired, one per message, on the bulk path, the regular path and every fallback between them |
| Processing.PoolAnswers | internal/sms/service/processor.go:108-112 | without batching, or without promotional Safaricom messages, the answers are what the pool collects |
| Processing.BulkAnswers | internal/sms/service/processor.go:130-144 | promotional Safaricom messages have the answers of their chunks, of the pool, or a missing sender's error |
| Processing.MixedAnswers | internal/sms/service/processor.go:130-156 | a mixed batch is answered as its two kinds would be alone |
| Processing.MixedPoolAnswers | internal/sms/service/processor.go:140-156 | without bulk support the pool gets the other messages first and then the promotional ones |
| Processing.BulkPath | internal/sms/service/processor.go:130-144 | a missing sender answers every bulk message, one without bulk support hands them to the pool |
| Processing.Merge | internal/sms/service/processor.go:146-156 | the pool's results are all added, none lost or doubled |
| Processing.LiveEnvExists | internal/sms/service/processor.go:235-300 | environments with a complete schedule for every batch exist |
| Processing.PlanCoversDelivery | internal/sms/adapters/rabbitmq/publisher.go:218-275 | the plan made from one result per message puts every SMS on some queue at least as often as it came in, exactly when it is published up to the dead letters, and it holds nothing else |
| Processing.PlanMeans | internal/sms/adapters/rabbitmq/publisher.go:218-275 | the plan of one result per message covers the messages exactly from its needed publications on, and uses only save, delay and dead-letter queues |
| Processing.PublishResults | internal/sms/service/result_handler.go:124-152 | split and publish: the plan of the results is out up to the first failing attempt |
| Processing.ProcessMessages | internal/sms/service/processor.go:386-414 | the batch's answers, one per message, and their plan, each on its own queues, is out up to the first failing attempt; success exactly when none fails |
| Processing.ProcessDelivery | internal/sms/service/processor.go:63-101 | acked exactly when the broker fails none of the publications of the plan of the batch's answers, requeued otherwise |
| Intake.AccumulateBatch | internal/bootstrap/app.go:847-878 | takes a prefix of the available deliveries, whole and in order, the last one only while there was room |
| Intake.SinglesTaken | internal/bootstrap/app.go:863-876 | of deliveries with one message each, as many are taken as there are, up to the maximum but at least one |
| Intake.BatchingTurn | internal/bootstrap/app.go:544-567 | takes deliveries as accumulation does; all of a turn are acked exactly when the broker fails none of the publications of their results' plan, else all requeued; the loop stops exactly on shutdown or when nothing it can take holds a message |
| Intake.ClassesPartition | internal/sms/service/message_router.go:57-67 | the priority split loses and doubles nothing |
| Intake.ClassHas | internal/sms/service/message_router.go:61-67 | the transactional class is exactly the messages whose package is so named |
| Intake.ClassInOrder | internal/sms/service/message_router.go:61-67 | both classes keep the order of the delivery |
| Intake.LiveRouteExists | internal/sms/service/message_router.go:50-149 | environments in which routing ends exist for all settings |
| Intake.MessageRouter.ProcessTransactional | internal/sms/service/message_router.go:78-108 | the transactional share: a path runs exactly as wired, with one result per message and their plan out up to the first failing attempt |
| Intake.MessageRouter.ProcessPromotional | internal/sms/service/message_router.go:110-132 | the promotional share: run by a scheduler with a credit or by the processor, with one result per message and their plan out up to the first failing attempt |
| Intake.MessageRouter.RouteDelivery | internal/sms/service/message_router.go:50-149 | acked exactly when, as far as there are messages and a path other than the fast path, the scheduler gave a credit and the broker failed no publication; whose answers were published where; and what an ack is worth, in terms of the broker's failures |
| Intake.MessageRouter.AckSafeIff | internal/sms/service/message_router.go:86-149 | for an acked delivery with both paths wired: complete plans exactly when no attempt of the transactional plan failed, every SMS on a queue exactly when none of its needed attempts failed |
| Intake.MessageRouter.FastPathLoses | internal/sms/service/message_router.go:86-92 | a fast path whose first publish fails loses any delivery of transactional messages: acked, and nothing on any queue |
| Pipeline.JobStepSafe | internal/sms/service/processor.go:75-86 | processing, running a pool that leaves nothing behind, migrating, each single publish and each ack lose no SMS |
| Pipeline.ReturnStepSafe | internal/sms/service/processor.go:78-81 | accumulating, requeueing at any point and closing a job lose no SMS |
| Pipeline.RequeueReturns | internal/sms/service/processor.go:78-81 | a nacked job's deliveries are back on the queue they came from, whole and in order, and nothing else changed |
| Pipeline.ConsumeMeans | internal/sms/adapters/rabbitmq/consumer.go:144-182 | a consumed AMQP message leaves its queue, and the job remembers which one it was |
| Pipeline.AccumulateMeans | internal/bootstrap/app.go:847-878 | a job only grows by deliveries of its own queue, in order |
| Pipeline.AckMeans | internal/bootstrap/app.go:560-565 | an ack needs the whole plan to be out and settles one delivery |
| Pipeline.ExpiryReturns | internal/sms/adapters/rabbitmq/publisher.go:84-99 | a delayed message comes back on the retry queue of its own lane |
| Pipeline.MigrationRoutes | internal/bootstrap/app.go:714-747 | a dead-lettered AMQP message is sent on whole, for another round exactly if one of its messages had run out of retries |
| Pipeline.WorkMeans | internal/sms/adapters/rabbitmq/consumer.go:186-200 | a processor sees the messages in order, each stamped with the job's queue and otherwise as received |
| Pipeline.AtLeastOnce | internal/bootstrap/app.go:544-567 | over every run in which no pool leaves messages behind, with failures at every point, each SMS that arrived is in a queue or an unsettled delivery at least as often as it arrived |
| Pipeline.EverythingInPlace | internal/bootstrap/app.go:544-567 | over every run every AMQP message and every job's source is a queue on which something arrived, or a save, dead-letter, delay or retry queue or a migrator destination |
| Pipeline.AtLeastOnceFromEmpty | internal/bootstrap/app.go:544-567 | from an empty system on, each SMS that arrived is in an unsettled delivery from such a queue or on such a queue, at least as often as it arrived |
| Pipeline.CancelledContextLoses | internal/sms/service/processor.go:78-86 | for every SMS a run from the empty system: it arrives, is consumed, its cancelled pool ends without a result, the empty plan is acked, and the SMS is nowhere |
| Pipeline.PassUsesOne | internal/sms/domain/result.go:59-69 | every pass uses up one of the passes its messages have left |
| Pipeline.RetryLoopTerminates | internal/sms/service/result_handler.go:124-141 | with fixed limits, no publish failures and no migrator, all runs together make at most the sum of max(1, limit - retryCount) passes |
| Pipeline.PassesCounted | internal/sms/service/processor.go:63-101 | what is counted: one pass for every message that a processing step answers |
| Pipeline.OneMessageBound | internal/sms/service/result_handler.go:48-59 | one message that arrived is processed at most max(1, limit - retryCount) times, by its package's limit |
| Pipeline.SentMessageIsSaved | internal/sms/service/processor.go:63-101 | a run in which a message is consumed, answered as sent, saved and acked in one pass, after which the save queue alone holds it, marked as sent |
| RetryLife.PromotionalDelayAtMostOnce | internal/sms/domain/message.go:76-82 | with a named gateway queue to which nothing returns, a copy enters the promotional delay queue at most once, migrator on or off |
| RetryLife.LaterRetriesTransactional | internal/sms/adapters/rabbitmq/consumer.go:186-200 | once a copy is elsewhere than in the gateway queue no retry of it uses the promotional lane |
| RetryLife.SecondRetryLeavesItsLane | internal/sms/adapters/rabbitmq/consumer.go:186-200 | a run in which a promotional copy waits for its second retry in the transactional delay queue, in every wiring |
| RetryLife.SpentNeverDelayed | internal/sms/service/result_handler.go:124-141 | a copy at its limit never enters a delay queue again, even when migrated back |
| RetryLife.PassBound | internal/sms/service/result_handler.go:48-59 | at most max(1, limit - retryCount) passes when the migrator has no way back |
| RetryLife.PassBoundExact | internal/sms/service/result_handler.go:124-141 | exactly that many when every pass ends retryable |
| RetryLife.ExactPasses | internal/sms/service/result_handler.go:48-59 | a copy that is always answered retryable is dead-lettered after exactly max(1, limit - retryCount) passes, by its package's limit, and not before |
| RetryLife.NamedApart | internal/sms/adapters/rabbitmq/publisher.go:84-99 | names that keep the queues apart are all that these results need |
| RetryLife.MigratorCyclesForever | internal/bootstrap/app.go:714-747 | with a way back no bound holds for a message on its last try |
| RetryLife.PassBoundIff | internal/bootstrap/app.go:714-747 | the pass bound holds for all copies and runs if and only if the migrator has no way back to a processor |
| AfricasTalking.BackoffIsIdeal | internal/sms/service/africas_talking_processor.go:272-281 | without overflow the 64-bit computation equals min(base * 2^(attempt-1), max) |
| AfricasTalking.ProductClosedForm | internal/sms/service/africas_talking_processor.go:276 | for every attempt the machine's product is the true product wrapped to 64 bits |
| AfricasTalking.BackoffIsIdealIff | internal/sms/service/africas_talking_processor.go:272-281 | the backoff is the documented one if and only if the true product is below 2^63 or its residue modulo 2^64 lies from the cap up to 2^63 |
| AfricasTalking.BackoffMonotone | internal/sms/service/africas_talking_processor.go:272-281 | below overflow the backoff never shrinks |
| AfricasTalking.BackoffEdges | internal/sms/service/africas_talking_processor.go:273-279 | an attempt before the first counts as the first; without a positive cap the product is used as it is |
| AfricasTalking.DefaultBase | internal/sms/service/africas_talking_processor.go:74-81 | the two-second default is exact up to attempt 33 and negative at 34 |
| AfricasTalking.Processor.constructor | internal/sms/service/africas_talking_processor.go:69-96 | the defaults for non-positive settings |
| AfricasTalking.Processor.RetryInProcess | internal/sms/service/africas_talking_processor.go:212-241 | the record shows what the environment answered: failures without a stop, then a success, the last allowed try or a stop; at most maxReportRetries + 1 tries, the exact total sleep, at most maxReportRetries times the cap |
| AfricasTalking.SleptMeans | internal/sms/service/africas_talking_processor.go:229-239 | below overflow the sleep after an attempt is min(base * 2^(attempt-1), cap); a negative backoff is no sleep |
| AfricasTalking.AttemptsSucceedIff | internal/sms/service/africas_talking_processor.go:212-241 | a step ends in success exactly when the environment lets it succeed within its tries and before a stop |
| AfricasTalking.Processor.FinalizeExhausted | internal/sms/service/africas_talking_processor.go:250-268 | requeue exactly on cancellation, otherwise dead-letter and drop |
| AfricasTalking.Processor.AfterSend | internal/sms/service/africas_talking_processor.go:178-202 | after a send the record grows by the tries that the environment's answers call for, save first, then report, then dead letter, with the outcome of the last step |
| AfricasTalking.Processor.ProcessMessage | internal/sms/service/africas_talking_processor.go:143-203 | the events recorded while the call runs, as the environment decides them: none unless the message goes out, else the send first and then what follows it, with the outcome |
| AfricasTalking.SentOnce | internal/sms/service/africas_talking_processor.go:173-176 | on the record of a call nothing comes before the send, nothing is sent after it, and the message is sent once |
| AfricasTalking.ReportAfterSave | internal/sms/service/africas_talking_processor.go:178-200 | on the record of a call no report comes before a required save has succeeded |
| AfricasTalking.SavedIfFinal | internal/sms/service/africas_talking_processor.go:188-194 | with a publisher a sent or rejected message is saved next, reported only after a save succeeded, and acked only with one; any other message is never saved |
| AfricasTalking.SentIfEligible | internal/sms/service/africas_talking_processor.go:146-173 | a message is sent exactly if it is valid, has an outbox row and the limiter lets it; else it is dropped, or requeued if refused |
| AfricasTalking.DeadLetteredIff | internal/sms/service/africas_talking_processor.go:250-268 | a sent message is dead-lettered, as the last event, exactly if it is dropped and there is a dead-letter queue |
| AfricasTalking.AckIffReported | internal/sms/service/africas_talking_processor.go:178-202 | ack if and only if the message is valid, has an outbox row and is not refused, its save, if it has a publisher and a final answer, succeeds within its tries before a stop, and so does the report |
| AfricasTalking.RequeueMeans | internal/sms/service/africas_talking_processor.go:157-166 | requeue if and only if the limiter refused the message or a context was cancelled after its send |
| AfricasTalking.Processor.ProcessDelivery | internal/sms/service/africas_talking_processor.go:111-140 | one call per message whatever the others did, recorded one after the other; requeue wins over drop, ack needs all |
| AfricasTalking.RequeueIff | internal/sms/service/africas_talking_processor.go:130-139 | without cancellation a delivery is requeued exactly when the limiter refused one of its eligible messages |
| AfricasTalking.Processor.DeliverUntilSettled | internal/sms/service/africas_talking_processor.go:205-211 | over any number of redeliveries of a single-message delivery the record holds at most one send of it while no context is cancelled |
| AfricasTalking.Processor.MultiMessageResends | internal/sms/service/africas_talking_processor.go:130-135 | a two-message delivery leads to two sends of one message on the record without any cancellation |
| SafaricomSdp.NewResult | internal/sms/domain/result.go:47-81 | a constructor marks the shared message in place |
| SafaricomSdp.AllResults | internal/sms/adapters/mno/safaricom_sdp.go:509-530 | result i for message i, all of one type, every cell told its results even when it occurs twice |
| SafaricomSdp.Sender.GetToken | internal/sms/adapters/mno/safaricom_sdp.go:538-568 | which token, how many fetches and how much sleep the environment's answers lead to; at most ten fetches and 55 seconds of backoff |
| SafaricomSdp.Sender.LastFetchMeans | internal/sms/adapters/mno/safaricom_sdp.go:550-567 | fetching stops at the first success or cancellation, or at the tenth fetch |
| SafaricomSdp.Sender.WaitsMean | internal/sms/adapters/mno/safaricom_sdp.go:550-567 | ten failed fetches cost ten waits, a first success none |
| SafaricomSdp.Sender.ExecuteSend | internal/sms/adapters/mno/safaricom_sdp.go:170-306 | result, request and state follow from the token and the operator's answer |
| SafaricomSdp.Sender.SingleByCode | internal/sms/adapters/mno/safaricom_sdp.go:233-305 | the result of a single send by status code, and when the cached token is deleted |
| SafaricomSdp.Sender.SendEach | internal/sms/adapters/mno/safaricom_sdp.go:500-505 | results, requests and state are those of single sends one after the other |
| SafaricomSdp.Sender.BulkAccepted | internal/sms/adapters/mno/safaricom_sdp.go:410-505 | nothing is accepted twice, a success means accepted, single sends follow only a rejected bulk request |
| SafaricomSdp.Sender.BulkByCode | internal/sms/adapters/mno/safaricom_sdp.go:410-505 | by status code: 2xx success for all; 401, 404, 408, 429, 5xx and a failed transport a retry for all without single posts; a request not built a failure for all; any other code one single send per message |
| SafaricomSdp.Sender.SendBatch | internal/sms/adapters/mno/safaricom_sdp.go:331-506 | result i for message i in place; without a mixed batch, open breaker or missing token the operator's bulk answer decides for all messages, or single sends follow; nothing accepted twice |
| SafaricomSdp.DistinctHits | internal/sms/domain/result.go:59-69 | for distinct messages the retry count rises by one exactly for a retryable result |
| SafaricomSdp.MeetsContract | internal/sms/adapters/mno/safaricom_sdp.go:331-506 | for distinct messages the bulk sender keeps the one-result-per-message contract |
| DynamicConfig.CacheCoherence | internal/sms/adapters/redis/dynamic_config.go:75-154 | under every interleaving the cache equals the store unless a publish is owed, a notification is pending or a refresh is under way |
| DynamicConfig.LimiterFollowsStore | internal/common/ratelimit/limiter.go:268-285 | coalescing loses no final update: at rest, once a notification was handled, every rate equals the stored value |
| DynamicConfig.AllMatchMeans | internal/common/ratelimit/limiter.go:275-282 | which stored field is the rate of which network |
| DynamicConfig.AbsentFieldsKeepRates | internal/common/ratelimit/limiter.go:275-282 | a field that is not stored changes no rate, but the international one always follows the CM rate |
| DynamicConfig.ColdCacheStaysCold | internal/sms/adapters/redis/dynamic_config.go:75-86 | a cache that was never filled is not filled by a single write |
| DynamicConfig.ChangeArrives | internal/sms/adapters/redis/dynamic_config.go:75-154 | a rate set here or on another pod can come to rest in force, by store, publish, refresh, signal and limiter |
| DynamicConfig.RatesAtRestIff | internal/common/ratelimit/limiter.go:268-285 | exactly when a pod at rest has the stored rates |
| DynamicConfig.BootMayDisagree | internal/bootstrap/app.go:103-112 | a pod started with other rates than the store holds rests in disagreement |
| DynamicConfig.SeedCoherence | internal/sms/adapters/redis/dynamic_config.go:161-172 | a seed by another pod adds the absent fields and no other, and keeps a resting cache coherent exactly when it adds none |

## Left out

- SafaricomSdp.Sender.GetToken: a failed read of the token cache is not modelled; the token is then fetched as if absent.
- SafaricomSdp.Sender.SendBatch: accepted means answered with a 2xx status; what the operator did with a request that got no answer is unknown.
- Pipeline.AtLeastOnce: the fast path, whose failed publishes are not reported, is not a step of this machine; `AckSafeIff` treats it. A publish without error counts as enqueued.
- AfricasTalking.Processor.RetryInProcess: the time already slept in a backoff that a cancellation interrupts is not counted.
- DynamicConfig.LimiterFollowsStore: refreshes succeed, stored values parse as integers, notifications are not lost, and the two networks fed by the CM rate change in one step.
- Aliasing of messages outside the bulk sender: elsewhere messages are values, so two results that share one message object are not covered.
- Positive worker counts, batch sizes and delays are preconditions where the constructors guarantee them.
- Trimming and case folding of package ids and network names: they appear in normal form.
- Fields that are only passed through (timestamps, operator responses, latencies) and JSON encoding beyond dropping the source queue.
- Limits of the retry namespace change only by the process's own configuration; a limit is fixed during a run.
- Wrap-around of retry counts and of credit capacities in 64-bit integers.
- The starvation bypass: when it applies depends on a clock; the credit machine allows it at any time and counts it apart.
- Refill period changes and the weight store's notifications: both drop the newer value when their one-slot channel is full, so no agreement holds.
- Order inside broker queues: any order is allowed, and the theorems hold for all.
- Circuit breakers, token buckets, HTTP, Redis and AMQP connections: their answers are parameters.
- Result type numbers outside the three defined ones, and messages that fail to parse.
- The asynchronous queue of the transactional handler, which the router does not use.
- Retry budgets of the limiter, which never change after start-up.
- Metrics, logging, health checks, configuration loading and shutdown order.
