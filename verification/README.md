# Verification of the node-pipeline e-mail delivery

A Dafny model of the delivery side of `node-pipeline`: how a mail job is submitted, queued, delivered by
any number of workers over at-least-once queues, retried, dead-lettered and reported back, and what is
guaranteed of it when workers die, connections drop, replies get lost and messages are redelivered.
`dafny verify dfyconfig.toml` checks everything. Nothing was executed.

## The delivery protocol

`Delivery.dfy` is a state machine. Its state holds every broker copy of a message (in the main queue, in a
retry tier, in the dead-letter queue, delivered and unacknowledged, or acknowledged), every activation of
the consumer's handler with the stage it is in, the ledger rows, the status events published, and counts.
Every `await` of the worker is a step of its own, and between two steps anything else may happen: another
worker's step, the death of a worker process, the loss of a connection whose handler keeps running beside
the redelivered copy, a call that throws although it was applied, a mail reported as failed although the
server took it, a TTL that expires. The broker keeps what it confirmed, SQL statements are atomic, and a
TTL moves a message to the main queue atomically.

| step function of `Delivery` | code, in `node-pipeline/src/delivery/` |
|---|---|
| `Reject` | `email.consumer.ts:87-118` |
| `Admission` | `delivery.service.ts:40-45` |
| `Defer` | `delivery.service.ts:187-202` |
| `InsertRow`, `SelectRow` | `idempotency-guard.ts:16-33` |
| `SendMail` | `delivery.service.ts:58-62`, `delivery.service.ts:92-150` |
| `Confirm` | `delivery.service.ts:63-67`, `delivery.service.ts:87-89` |
| `Fail` | `delivery.service.ts:102-106`, `delivery.service.ts:159-163` |
| `HandOver` | `delivery.service.ts:107-114`, `delivery.service.ts:164-169` |
| `Announce` | `delivery.service.ts:204-211` |
| `Leave` | `email.consumer.ts:123-137` |

Faults that hit a job are counted by what they do to it:

- a *splitting* fault puts a copy back in play beside work already done or still going on: a connection lost
  while the row is open, a crash or a failed UPDATE between the acceptance of the mail and its ledger row, a
  publish that was applied and threw, an error reported for an accepted mail;
- a *redoing* fault gives back an attempt whose send call was spent on no mail;
- a *stranding* fault hits a handler between its FAILED row and the publish of the successor
  (`delivery.service.ts:102-114` and `:159-169`).

`DeliveryFaults.dfy` says which steps of a run are faults, and that these counts go up at faults only and by
one at most (`MarksAreFaults`, `CountsAreFaults`). The main results hold of every reachable state, whatever
number of workers, jobs and faults:

- **Zero loss** (`NoLoss`): a job no fault has stranded is delivered, dead-lettered, about to be handed on to
  an attempt that is still open, or has a live copy. The proof walks the chain of FAILED rows.
- **Effectively once** (`AtMostOncePlusFaults`): accepted mails and dead letters of a job together are at
  most one plus its splitting faults, so in every run at most one plus the faults that hit the job
  (`FaultBudget`), and without a fault exactly one in the end (`FaultlessJob`). The bound is reached for every
  number of faults (`FaultBoundIsTight`): the statement of the repository's README that redelivery comes to
  exactly one send is not true of a crash between the acceptance of the mail and the ledger UPDATE. The model
  follows the code.
- **Conservation** (`Conservation`, `FinishedJob`): without a splitting fault, mails, dead letters and copies
  that may still become one add up to exactly one, or to zero if and only if the job was stranded.
- **Lost jobs** (`LostIffNeverResolved`, `LostIffStranded`, `SomeJobIsLost`): a job is lost exactly when no
  continuation gets it mailed or dead-lettered; as long as it is not, a run without faults and deferrals does.
  Without a splitting fault that happens exactly when a fault has stranded it: the redelivery finds a closed row
  and is acknowledged.
- **Bounded work** (`BoundedCalls`, `RunsAreBounded`): at most six send calls per job and splitting fault,
  however often it is deferred, and no run goes on without new submissions, deferrals or faults.
- **Coming to rest** (`Progress`, `ComesToRest`, `EndsWithOne`): while anything of a job is left, some step that
  is neither fault nor deferral can be taken; such steps run out with the job at rest, and, unless faults split
  or stranded it, with exactly one mail or dead letter.
- **Ledger** (`ContiguousRows`, `ClosedRowsAreFinal`, `DeliveredRowIsLast`, `AttemptCountsFailures`): rows
  are contiguous under every fault. A single lost connection can have a DELIVERED row overwritten
  (`DeliveredRowOverwritten`); a closed row is final exactly when no handler of its attempt is at a stage from
  which it can still write the other outcome (`FinalIffUnthreatened`). A row closed with one writer at a time is
  final whatever comes then, and every job no fault has split had one writer at a time
  (`UnsplitReachedExclusively`).
- **Causes** (`ErrorsDecide`, `EventsTellTheCause`): a message is dead-lettered before its last attempt only
  after a permanent error and tried again only after a transient one, and every status event carries the code
  its handler's send ended with.
- **Reports** (`EventsAreComplete`, `EventsAreSound`): in a run in which no fault hits a job, every delivery,
  retry and dead letter of it is on the status queue once nothing of it is in flight; whatever the faults, only
  what has happened is.

The proofs weigh copies and handlers (`DeliveryMeasures.dfy`) and balance each step against the faults it
counts (`DeliveryAccounting.dfy`, `DeliveryHandover.dfy`). `EmailDelivery.dfy` is the code itself (guard,
delivery service, consumer) with the exceptions it throws and catches. Each awaited call is a step of the
state machine (`DeliveryWorld.dfy`), after which arbitrary other steps happen, so its methods are proved to
follow the protocol in every interleaving. How each call ends is fixed beforehand by arbitrary functions, so
the code cannot make up an exception. A log holds every call of the limiter and of the worker's breaker with
its answer; it is proved to be their whole history and to tell the truth about their answers, and at every
stage a handler has asked and told exactly what its steps demand (`DeliveryLog.dfy`). `DeliverySteps.dfy` says
what single steps come to without naming the step functions: which calls take effect, what an exception leads
to, when an attempt is sent, and what the breaker hears of it.

## The parts around it

- `RateLimiter.dfy`: the token bucket script in thousandths of a token, and the envelope it enforces exactly, on
  any clock.
- `CircuitBreaker.dfy`: the mutable breaker, and the predicate on its history that it computes.
- `Topology.dfy` and `Deferrals.dfy`: the declarations on the broker, where the protocol's messages are routed,
  and how long they wait there.
- `Submission.dfy` and `EmailJobs.dfy`: concurrent submissions over Redis, the jobs table and the broker,
  first as a state machine and then as code. The 503 answer advises to retry with the same key; the code
  keeps the row and deletes the key, so no later request succeeds (`RetryAfterUnavailableFails`). The job was
  published if and only if its publish step was applied (`PublishedIffApplied`), and can then be mailed in spite
  of the answer (`UnavailableButMailed`).
- `JobsTable.dfy` and `StatusProjection.dfy`: the job rows and the consumer that folds status events into them.
- `Pipeline.dfy`: submission, jobs table, status events and workers run together. What the API publishes is
  what the workers process, a job once only, and a submission answered as new is safe (`NewSubmissionIsSafe`).
- `Contracts.dfy`, `RetryPolicy.dfy`, `Providers.dfy`, `Sums.dfy`: shared values, the retry policy, error
  classification, and sums over sequences.

## Model

| member | source | states |
|---|---|---|
| DeliveryTheorems.NoLoss | node-pipeline/src/delivery/delivery.service.ts:39-202 | in every run, a published job that no fault hit between a FAILED row and its successor publish has a DELIVERED row, a dead-letter copy, a handler about to publish a successor whose row is open, or a live copy |
| DeliveryTheorems.FollowAttempts | node-pipeline/src/delivery/delivery.service.ts:97-169 | from any message of an unstranded job, following its FAILED rows attempt by attempt ends at something that keeps the job safe |
| DeliveryTheorems.AckHandsOver | node-pipeline/src/delivery/email.consumer.ts:62-137 | after a delivery was settled, acknowledged or not, the message's row is closed, or a live copy exists, or (invalid body) a dead-letter copy does |
| DeliveryTheorems.PendingRowHasCopy | node-pipeline/src/delivery/idempotency-guard.ts:16-33 | every PENDING row still has a queued or unacknowledged copy |
| DeliveryTheorems.AtMostOncePlusFaults | node-pipeline/src/delivery/delivery.service.ts:47-89 | accepted mails plus dead letters of a job are at most 1 + splitting faults; DELIVERED rows never exceed accepted mails |
| DeliveryScenarios.FaultBoundIsTight | node-pipeline/src/delivery/delivery.service.ts:58-67 | for every n some run in which exactly n faults hit the job ends with n + 1 accepted mails |
| DeliveryTheorems.Conservation | node-pipeline/src/delivery/delivery.service.ts:39-202 | without a splitting fault, mails, dead letters and copies that may become one sum to one, or to zero once stranded |
| DeliveryTheorems.FinishedJob | node-pipeline/src/delivery/delivery.service.ts:39-202 | without a splitting fault a job with nothing left in flight ended in exactly one mail or dead letter if and only if it was not stranded |
| DeliveryScenarios.CrashInWindowStrands | node-pipeline/src/delivery/delivery.service.ts:102-114 | one refused send and one crash after the FAILED row strand a job that nothing else went wrong with |
| DeliveryLoss.LostIffStranded | node-pipeline/src/delivery/delivery.service.ts:102-169 | without a splitting fault a job is lost if and only if a fault fell between a FAILED row and its successor |
| DeliveryLoss.LostIffNeverResolved | node-pipeline/src/delivery/delivery.service.ts:39-202 | a job is lost if and only if no continuation, whatever happens in it, ends with a mail or a dead letter of it; else a run without faults and deferrals does |
| DeliveryLoss.LostOrSafe | node-pipeline/src/delivery/delivery.service.ts:102-169 | lost and safe exclude each other; without a splitting fault one of them holds |
| DeliveryLoss.LostMeans | node-pipeline/src/delivery/delivery.service.ts:47-55 | every row of a lost job is closed, nobody is about to send or confirm, and what is about to fail or be handed over leads to a closed row |
| DeliveryLoss.LostForever | node-pipeline/src/delivery/delivery.service.ts:47-55 | a lost job stays lost through every continuation of the run |
| DeliveryLoss.SomeJobIsLost | node-pipeline/src/delivery/delivery.service.ts:102-114 | one fault, and none that splits, is enough to lose a job |
| DeliveryTheorems.BoundedCalls | node-pipeline/src/delivery/retry-policy.ts:7-19 | send calls of a job are at most 6 * (1 + splitting faults) + redoing faults, however often it is deferred |
| DeliveryTheorems.FaultBudget | node-pipeline/src/delivery/delivery.service.ts:39-202 | in every run, mails plus dead letters of a job are at most 1 + the faults that hit it, and its send calls at most 6 * (1 + those faults) |
| DeliveryTheorems.FaultlessJob | node-pipeline/src/delivery/delivery.service.ts:39-202 | a job that no fault hits is mailed at most once, never stranded, always safe, and ends in exactly one mail or dead letter |
| DeliveryTheorems.RunKeepsWritesMailed | node-pipeline/src/delivery/delivery.service.ts:58-67 | every DELIVERED outcome ever written, overwritten or not, stands for a mail the server accepted |
| DeliveryCauses.ErrorsDecide | node-pipeline/src/delivery/delivery.service.ts:92-150 | in every run a valid message is dead-lettered before attempt 5 only if some send of it ended in a permanent error or its provider is not registered, and its next attempt is issued only if some send of it ended in a transient error, before attempt 5 |
| DeliveryCauses.EventsTellTheCause | node-pipeline/src/delivery/delivery.service.ts:73-178 | in every run each DELIVERED event stands for an accepted mail of the handler that published it and has no code, each RETRY_SCHEDULED event names the next attempt after a transient error and each DEAD_LETTERED event the failed attempt, with the code the handler's send ended with |
| DeliveryCauses.RunIsCaused | node-pipeline/src/delivery/delivery.service.ts:58-178 | in every run every stage, status event, issued message, dead letter and ledger outcome has the send behind it that calls for it |
| DeliveryCauses.CountsAreSends | node-pipeline/src/delivery/delivery.service.ts:60-61 | the calls and mails counted for a job are the send steps of the run and those the server accepted |
| DeliveryReports.EventsAreComplete | node-pipeline/src/delivery/delivery.service.ts:73-81 | in every run in which no fault hits the job, once nothing of it is in flight every DELIVERED row, every later attempt and every dead letter of it has its event on the status queue |
| DeliveryReports.EventsAreSound | node-pipeline/src/delivery/delivery.service.ts:204-211 | whatever the faults, an event on the status queue says only what ledger and queues say of its attempt |
| DeliveryReports.RunTells | node-pipeline/src/delivery/delivery.service.ts:115-178 | in every run in which no fault hits the job, whatever has happened to it is on the status queue or about to be published by a handler |
| DeliveryFaults.MarksAreFaults | node-pipeline/src/delivery/delivery.service.ts:39-211 | a step that is no call that throws, crash, lost connection or doubtful send counts no fault, and one that is counts at most one |
| DeliveryFaults.CountsAreFaults | node-pipeline/src/delivery/delivery.service.ts:39-211 | the splitting, redoing and stranding faults counted against a job in a run are together at most the faults that hit it |
| DeliveryRuns.RunsAreBounded | node-pipeline/src/delivery/delivery.service.ts:39-202 | every run is at most 140 times as long as its submissions, deferrals and faults are many |
| DeliveryRuns.SettledOnce | node-pipeline/src/delivery/email.consumer.ts:62-85 | in every run an activation settles at most once, and exactly once when it has ended other than by its process dying |
| DeliveryLoss.Progress | node-pipeline/src/delivery/delivery.service.ts:39-202 | while anything of a job is queued or being handled, some step that is neither a fault nor a deferral is enabled |
| DeliveryLoss.SmoothRunsAreShort | node-pipeline/src/delivery/delivery.service.ts:39-202 | a run without faults, deferrals and submissions is no longer than the rank of the state it begins with |
| DeliveryLoss.ComesToRest | node-pipeline/src/delivery/delivery.service.ts:39-202 | from every state a run without faults and deferrals brings the job to rest |
| DeliveryLoss.EndsWithOne | node-pipeline/src/delivery/delivery.service.ts:39-202 | a job neither split nor stranded comes to rest with exactly one mail or dead letter once faults and deferrals stop |
| DeliveryLedger.ContiguousRows | node-pipeline/src/delivery/delivery.service.ts:97-136 | under every fault row (j, b) exists only if every earlier row of j exists and was FAILED; attempts end at 5 |
| DeliveryLedger.ExhaustedJobHasAllRows | node-pipeline/src/delivery/delivery.service.ts:130-136 | a job dead-lettered at its last attempt has all six rows, all closed |
| DeliveryLedger.ClosedRowsAreFinal | node-pipeline/src/delivery/idempotency-guard.ts:35-53 | a row closed while no two workers were past reserve for the same attempt never changes again, whatever faults come |
| DeliveryLedger.FinalIffUnthreatened | node-pipeline/src/delivery/idempotency-guard.ts:35-53 | in any state a closed row stays as it is in every continuation if and only if no handler of its attempt is about to send (over FAILED: by the registered provider), to confirm over FAILED, or to record a failure over DELIVERED |
| DeliveryScenarios.DeliveredRowOverwritten | node-pipeline/src/delivery/idempotency-guard.ts:35-53 | a run with one lost connection overwrites a DELIVERED row with FAILED |
| DeliveryLedger.DeliveredRowIsLast | node-pipeline/src/delivery/idempotency-guard.ts:16-53 | with one writer at a time a DELIVERED row is the job's last row and every lower row is FAILED |
| DeliveryLedger.AttemptCountsFailures | node-pipeline/src/delivery/retry-policy.ts:7-19 | with one writer at a time a message in play carries the number of FAILED rows of its job |
| DeliveryLedger.UnsplitReachedExclusively | node-pipeline/src/delivery/idempotency-guard.ts:16-33 | a job that no fault has split had one writer at a time in every state of its run |
| DeliveryStructure.NextFits | node-pipeline/src/delivery/delivery.service.ts:39-211 | every step of every handler publishes only its own message or the next attempt to where it belongs, opens a row only as PENDING, and reports only what it has done |
| DeliveryStructure.StepKeepsWellFormed | node-pipeline/src/delivery/delivery.service.ts:39-211 | every step keeps copies, handlers, rows, messages and events consistent, and histories only grow |
| DeliveryStructure.MessageOrigin | node-pipeline/src/contracts/events.ts:4-12 | every message a handler holds is its job's first message with an attempt of at most 5 |
| DeliveryAccounting.TokenBalance | node-pipeline/src/delivery/delivery.service.ts:39-202 | no step of a handler makes more copies that may send, mails or dead letters than it uses up, but for the splitting fault it counts |
| DeliveryAccounting.ConfirmBalance | node-pipeline/src/delivery/delivery.service.ts:58-67 | a row turns DELIVERED only against an accepted mail that no row shows yet |
| DeliveryAccounting.WorkBalance | node-pipeline/src/delivery/retry-policy.ts:7-19 | each send call uses up one of the attempts left to its copy, but for the faults it counts |
| DeliveryAccounting.StepKeepsBalance | node-pipeline/src/delivery/delivery.service.ts:39-202 | every step of the system keeps the balances of tokens, unconfirmed mails and remaining work |
| DeliveryHandover.DutyBalance | node-pipeline/src/delivery/email.consumer.ts:62-137 | no step lets go of the last copy of an open row |
| DeliveryHandover.WindowBalance | node-pipeline/src/delivery/delivery.service.ts:102-169 | a FAILED row is followed by the successor publish, or the step counts a stranding fault |
| DeliveryHandover.StepKeepsInv | node-pipeline/src/delivery/delivery.service.ts:39-202 | every step keeps every published message looked after, entombed or succeeded |
| DeliveryHandover.ReachableInv | node-pipeline/src/delivery/delivery.service.ts:39-202 | the invariant holds in every reachable state |
| DeliveryLog.HeardAtStage | node-pipeline/src/delivery/delivery.service.ts:40-45 | in every run nothing is deferred, reserved, sent or recorded unless limiter and breaker were asked and answered accordingly, and past the send the breaker was told of the mail or of the failure that is retried |
| DeliveryLog.StepKeepsHeard | node-pipeline/src/delivery/delivery.service.ts:62-143 | each step adds just what the next stage presupposes to have been asked or told |
| DeliveryLog.NothingIsShared | node-pipeline/src/delivery/delivery.service.ts:40-43 | messages share a limiter key, or a breaker, if and only if they have the same provider |
| DeliverySteps.HowHandlersEnd | node-pipeline/src/delivery/delivery.service.ts:39-90 | a step leads to a requeue if and only if its call throws something other than a provider error; to an acknowledgement if and only if it confirms a dead letter of an invalid body, a deferral or a status event, or finds the attempt closed |
| DeliverySteps.SentWhenReserved | node-pipeline/src/delivery/idempotency-guard.ts:16-33 | an attempt is sent if and only if its row was just inserted or found PENDING |
| DeliverySteps.SendLeads | node-pipeline/src/delivery/delivery.service.ts:92-140 | where a send leads: confirmation, the next attempt on its tier with its delay after a transient error before attempt 5, else the dead letter, with the error's code |
| DeliverySteps.CallsTakeEffect | node-pipeline/src/delivery/delivery.service.ts:58-211 | each call takes effect if and only if it returns or throws after the other side has acted; what it then writes, publishes, reports or gives back to the broker |
| DeliverySteps.SendsAreTold | node-pipeline/src/delivery/delivery.service.ts:40-143 | in every run a handler that has sent has asked limiter and breaker once each, both let it through, and the breaker was told of an accepted mail and of every error but a permanent one or that of an unregistered provider |
| DeliverySteps.LateFailuresAreTold | node-pipeline/src/delivery/delivery.service.ts:63-142 | after the send the breaker is told of a failure if and only if closing the row of a sent mail or publishing its DELIVERED event throws |
| DeliveryWorld.World.Deliver | node-pipeline/src/delivery/email.consumer.ts:52-54 | every delivery by the broker begins an activation that has asked, told and owes nothing |
| DeliveryWorld.World.CallScript | node-pipeline/src/resilience/rate-limiter.service.ts:30-40 | a script call ends as was fixed for it and is logged with the true answer of the limiter |
| DeliveryWorld.World.AskBreaker | node-pipeline/src/resilience/circuit-breaker.service.ts:15-26 | a question to the breaker is logged with its true answer |
| DeliveryWorld.World.TellBreaker | node-pipeline/src/resilience/circuit-breaker.service.ts:28-48 | a report to the breaker enters both its history and the log |
| EmailDelivery.IdempotencyGuard.Complete | node-pipeline/src/delivery/idempotency-guard.ts:35-53 | closes the row with the given outcome and takes the handler on if and only if the UPDATE did not throw; else to a requeue, with the failure still to be told if a mail had been accepted |
| EmailDelivery.IdempotencyGuard.Reserve | node-pipeline/src/delivery/idempotency-guard.ts:16-33 | true only if this call inserted the row or found it PENDING, and then the handler goes on to send; false only if it found it otherwise, and then it goes on to acknowledge; an exception leads to a requeue |
| EmailDelivery.DeliveryService.Process | node-pipeline/src/delivery/delivery.service.ts:39-90 | in every interleaving it follows the protocol from admission to settling and is acknowledged if and only if it returns ACK; it has asked the limiter and the breaker, gone by their true answers, and told the breaker of the mail or failure; only if the script call failed does it end without the limiter having answered |
| EmailDelivery.DeliveryService.Deliver | node-pipeline/src/delivery/delivery.service.ts:58-86 | a failed send ends in the error of the mail client, later exceptions in an unexpected error; an accepted mail has been told to the breaker, a failure other than a permanent one is still to be told; if it does not throw, the row was written DELIVERED and the DELIVERED event of this attempt is on the status queue |
| EmailDelivery.DeliveryService.HandleFailure | node-pipeline/src/delivery/delivery.service.ts:92-150 | every error but a permanent one is told to the breaker, once; unexpected errors and no others are requeued; an acknowledged failure has its row FAILED and, if it was transient before attempt 5, its next attempt issued and a RETRY_SCHEDULED event with the error's code out, else its dead letter and a DEAD_LETTERED event with the code |
| EmailDelivery.DeliveryService.Retry | node-pipeline/src/delivery/delivery.service.ts:100-129 | acknowledges only if the row was written FAILED, the next attempt was issued and a RETRY_SCHEDULED event of that attempt with the error's code is out |
| EmailDelivery.DeliveryService.DeadLetter | node-pipeline/src/delivery/delivery.service.ts:152-185 | acknowledges only if the row was written FAILED, the message was put on the dead-letter queue and a DEAD_LETTERED event of this attempt with the error's code is out |
| EmailDelivery.DeliveryService.Defer | node-pipeline/src/delivery/delivery.service.ts:187-202 | publishes the unchanged message to the tier and is acknowledged if and only if the broker confirmed that |
| EmailDelivery.EmailConsumer.Handle | node-pipeline/src/delivery/email.consumer.ts:62-85 | with a channel the delivery is settled exactly once on every path, what is acknowledged has been handed over, and the in-flight count is the number of active activations; without one nothing happens |
| EmailDelivery.EmailConsumer.Process | node-pipeline/src/delivery/email.consumer.ts:87-121 | a body that does not parse is dead-lettered as it is and acknowledged if and only if the broker confirmed that; the others are delivered |
| EmailDelivery.EmailConsumer.SettleDelivery | node-pipeline/src/delivery/email.consumer.ts:123-137 | the first and only settling of the activation; an acknowledged message is handed over |
| EmailDelivery.EmailConsumer.OnModuleDestroy | node-pipeline/src/delivery/email.consumer.ts:34-47 | returns at once with nothing in flight, else waits until nothing is or ten seconds have passed; once the cancelling went through no activation begins |
| DeliveryWorld.World.Send | node-pipeline/src/providers/provider.factory.ts:17-26 | for an unregistered provider a permanent rejection, else the outcome of the mail client as the SMTP adapter classifies it |
| DeliveryWorld.World.Publish | node-pipeline/src/infra/rabbitmq/rabbitmq.service.ts:48-67 | a publish that resolves has put the message on the queue it is addressed to and takes the handler on; one that rejects, applied or not, makes it requeue |
| DeliveryWorld.World.PublishStatus | node-pipeline/src/delivery/delivery.service.ts:204-211 | a status publish that resolves has put its event on the status queue; one that rejects makes the handler requeue, with the failure still to be told if the event was DELIVERED |
| Providers.SmtpErrorsAreProviderErrors | node-pipeline/src/providers/smtp.provider.ts:61-87 | each permanent error comes of exactly its one code, unavailable of exactly the listed codes, every other code is unknown and transient, and nothing is left unclassified |
| Topology.RoutedToOneQueue | node-pipeline/src/infra/rabbitmq/topology.bootstrap.ts:4-49 | after the declarations an address of the services (main queue, tiers, dead letters, status events) reaches its queue and no other if and only if the queue is declared or was bound before, and nothing else was bound to that address before |
| Topology.TiersLeadBack | node-pipeline/src/infra/rabbitmq/topology.bootstrap.ts:23-34 | every tier holds its messages for the delay of the retry policy and then hands them to the main queue's address |
| Topology.ProtocolIsRouted | node-pipeline/src/delivery/delivery.service.ts:107-211 | on any broker, whatever any handler publishes in any run, copy or status event, goes to a declared queue other than the main queue, and to it alone if and only if no other queue was bound to the address before |
| Topology.TiersHoldTheirAttempts | node-pipeline/src/delivery/delivery.service.ts:24-25 | in every run tiers 3 to 5 hold only the attempt of that number |
| Topology.QueuesByName | node-pipeline/src/contracts/topology.ts:1-21 | email.retry.tier1 to tier5 keep a message 5, 30, 120, 600 and 1800 seconds and hand it to email.exchange under email.deliver; there is no other tier; the other queues are plain and the four exchanges direct |
| Topology.RoutesByName | node-pipeline/src/infra/rabbitmq/topology.bootstrap.ts:16-48 | on a broker that had nothing, which queue each address leads to, by its name |
| Deferrals.DeferredMessagesWait | node-pipeline/src/delivery/delivery.service.ts:24-45 | in every run a message the limiter denied waits five seconds and one the breaker held back waits thirty, unchanged, and then goes back to the main queue's address; it is put there unless the publish threw without being applied |
| Topology.RetryQueueNames | node-pipeline/src/contracts/topology.ts:19-21 | tier queue names are distinct from one another and from the other queues |
| Topology.RetryRoutingKeyIsUnrouted | node-pipeline/src/contracts/topology.ts:7-7 | on any broker the declarations add no queue to the declared retry routing key |
| Topology.DeclaredTwice | node-pipeline/src/infra/rabbitmq/rabbitmq.service.ts:73-78 | declaring again on reconnect is never refused and changes nothing |
| Topology.AssertTopology | node-pipeline/src/infra/rabbitmq/topology.bootstrap.ts:4-49 | succeeds on exactly the brokers that hold nothing contradictory, and leaves what was there plus the whole topology |
| Topology.AssertRetryQueues | node-pipeline/src/infra/rabbitmq/topology.bootstrap.ts:23-34 | the loop adds all five tiers and their bindings, or meets a contradiction |
| RateLimiter.TokensInRange | node-pipeline/src/resilience/rate-limiter.service.ts:15-20 | tokens stay between zero and the capacity on any clock |
| RateLimiter.AdmissionBound | node-pipeline/src/resilience/rate-limiter.service.ts:15-21 | on any clock, 1000 * admissions over a run of requests are at most 1000 * capacity + rate * milliseconds of forward clock movement |
| RateLimiter.ForwardTelescopes | node-pipeline/src/resilience/rate-limiter.service.ts:15-15 | the forward clock movement of a window is its length if and only if the clock does not go back in it, else more |
| RateLimiter.BackwardClockBreaksWindow | node-pipeline/src/resilience/rate-limiter.service.ts:21-21 | a clock that goes back and forth admits more than burst and rate allow for the window |
| RateLimiter.FoundIsLeastRoom | node-pipeline/src/resilience/rate-limiter.service.ts:8-20 | on any clock the tokens a request finds are the minimum, over all windows that end with it, of what the envelope of burst and forward clock movement has left |
| RateLimiter.RejectedIffWindowFull | node-pipeline/src/resilience/rate-limiter.service.ts:8-20 | on any clock a request is rejected if and only if admitting it would overfill some window, measured by forward clock movement |
| RateLimiter.WindowBound | node-pipeline/src/resilience/rate-limiter.service.ts:15-20 | no window in which the clock does not go back is overfilled, whatever the clock did before |
| RateLimiter.RejectedOnMonotoneClock | node-pipeline/src/resilience/rate-limiter.service.ts:8-20 | on a clock that has not gone back a request is rejected if and only if for some window 1000 * (admissions + 1) exceed 1000 * capacity + rate * length in milliseconds |
| RateLimiter.ExpiredIsFull | node-pipeline/src/resilience/rate-limiter.service.ts:22-22 | a bucket as old as its TTL has refilled to capacity |
| RateLimiter.TtlIsCeiling | node-pipeline/src/resilience/rate-limiter.service.ts:22-22 | the TTL is the least number of milliseconds that is at least capacity / rate * 2000 |
| RateLimiter.ExpiryUnobservable | node-pipeline/src/resilience/rate-limiter.service.ts:11-22 | whichever expired keys are dropped, every request finds what it would find in a bucket kept forever |
| RateLimiter.NextRequest | node-pipeline/src/resilience/rate-limiter.service.ts:8-16 | the stored hash, or its absence, determines what the next request of the whole history finds |
| RateLimiter.RateLimiterService.Acquire | node-pipeline/src/resilience/rate-limiter.service.ts:4-40 | decides as the never-dropped bucket of the key's request history does, stores the new bucket and touches no other key |
| CircuitBreaker.MachineIsTripped | node-pipeline/src/resilience/circuit-breaker.service.ts:15-26 | on a monotone clock the stored machine is open if and only if failures since the last success reach the threshold and the last one lies within the cooldown |
| CircuitBreaker.ProbesDoNotMatter | node-pipeline/src/resilience/circuit-breaker.service.ts:21-24 | asking, and with it the half-open state, changes no later answer |
| CircuitBreaker.StreakCounts | node-pipeline/src/resilience/circuit-breaker.service.ts:28-48 | the streak is the number of failures in the history that no success has followed, and the last failure is the last of them |
| CircuitBreaker.CooledStaysOver | node-pipeline/src/resilience/circuit-breaker.service.ts:21-24 | on a monotone clock a cooldown once over stays over until the next failure |
| CircuitBreaker.BackwardClockShowsHalfOpen | node-pipeline/src/resilience/circuit-breaker.service.ts:15-26 | on a clock that goes back the half-open state does show |
| CircuitBreaker.CircuitBreakerService.IsOpen | node-pipeline/src/resilience/circuit-breaker.service.ts:15-26 | on a monotone clock open if and only if at least the threshold of failures have come since the last success and the last failure lies within the cooldown; on any clock unless a probe has seen the cooldown over |
| CircuitBreaker.CircuitBreakerService.RecordSuccess | node-pipeline/src/resilience/circuit-breaker.service.ts:28-30 | forgets the breaker, as its history demands, and no other |
| CircuitBreaker.CircuitBreakerService.RecordFailure | node-pipeline/src/resilience/circuit-breaker.service.ts:32-48 | counts one failure more than the history's streak and is open exactly from the threshold on |
| Submission.OneJobPerKey | node-pipeline/src/email-jobs/email-jobs.service.ts:42-113 | over all concurrent calls, expiries, lost replies and deaths a key has at most one job, and each job is published at most once |
| Submission.SameAnswer | node-pipeline/src/email-jobs/email-jobs.service.ts:56-63 | all successful answers for a key carry the same job id; one at most says it is no duplicate, it is that of the creating call, and then the job was published |
| Submission.NewRequest | node-pipeline/src/email-jobs/email-jobs.service.ts:46-80 | the exact answer of an undisturbed request for each state of the key: it is refused exactly when Redis key and row exist one without the other |
| Submission.PoisonedForever | node-pipeline/src/email-jobs/email-jobs.service.ts:69-109 | once a job has its row, its call has failed or ended and Redis does not name it, that stays so, and only calls that had already read its id from Redis can still succeed for the key |
| Submission.RetryAfterUnavailableFails | node-pipeline/src/email-jobs/email-jobs.service.ts:99-108 | no request for the key that begins after a 503 answer ever succeeds |
| Submission.UnavailableThoughPublished | node-pipeline/src/email-jobs/email-jobs.service.ts:95-108 | a 503 answer is reachable for a job whose message reached the broker, and leaves its key poisoned |
| Submission.PublishedIffApplied | node-pipeline/src/email-jobs/email-jobs.service.ts:95-108 | in every run a job's message is with the broker if and only if its call's publish step was applied, confirmed or not, whatever the answer |
| Submission.FailuresAreCaused | node-pipeline/src/email-jobs/email-jobs.service.ts:69-109 | in every run 503 is answered only if publish or mark threw, an uncaught exception only if some step threw or the INSERT found the key's row |
| Submission.OrphanForever | node-pipeline/src/email-jobs/email-jobs.service.ts:69-96 | a row whose creating call is past its publish without having published is never published |
| Submission.RowsArePublishedOrOrphans | node-pipeline/src/email-jobs/email-jobs.service.ts:69-96 | every row is published, about to be published, or an orphan |
| Submission.DuplicateOfAnOrphan | node-pipeline/src/email-jobs/email-jobs.service.ts:56-63 | a retry can be answered as a duplicate of a job that will never be published |
| Submission.NextOk | node-pipeline/src/email-jobs/email-jobs.service.ts:42-113 | which stage leads to which, and that Redis, table and broker change only where the handler writes them |
| Submission.CallsTakeEffect | node-pipeline/src/email-jobs/email-jobs.service.ts:48-104 | the key is claimed, the job inserted, the message published and the key deleted if and only if the call returns or throws after the other side has acted, and key and row were free |
| Submission.AnswersMean | node-pipeline/src/email-jobs/email-jobs.service.ts:48-113 | the key is deleted if and only if publish or mark failed, 503 answered if and only if that deletion went through, 409 if and only if the key's id or job is missing; every other exception is let through |
| Submission.StepKeepsInv | node-pipeline/src/email-jobs/email-jobs.service.ts:42-113 | every step keeps calls, Redis keys, rows and publishes consistent |
| EmailJobs.EmailJobsService.Submit | node-pipeline/src/email-jobs/email-jobs.service.ts:42-113 | in every interleaving the call ends with its own new job, published, or a duplicate of the key's one job, or a refusal; 503 only if its publish or mark threw, an exception only if one of its steps threw or its INSERT found the key's row; its job is published if and only if its publish step was applied |
| EmailJobs.EmailJobsService.Handle | node-pipeline/src/email-jobs/email-jobs.service.ts:48-113 | follows the protocol to its answer with the replies fixed for its steps; which answers are possible depends on whether the claim threw and the key was free |
| JobsTable.FoldClosedForm | node-pipeline/src/email-jobs/email-jobs.repository.ts:24-54 | any updates give the status of the last one, the time of the last delivery, and the code of the last coded dead letter after it |
| JobsTable.DeliveredRowIsClean | node-pipeline/src/email-jobs/email-jobs.repository.ts:31-40 | a DELIVERED row has a delivery time and no error code, with markPublished interleaved or not |
| JobsTable.DeliveredShowsIff | node-pipeline/src/email-jobs/email-jobs.service.ts:96-97 | DELIVERED shows if and only if the delivery was the last update; the delivery time is set if and only if there was one |
| JobsTable.EmailJobsRepository.Create | node-pipeline/src/email-jobs/email-jobs.repository.ts:14-17 | inserts a QUEUED row without time or code unless its id or idempotency key is taken |
| JobsTable.EmailJobsRepository.FindById | node-pipeline/src/email-jobs/email-jobs.repository.ts:19-22 | finds the row exactly if one was created, as the fold of all its updates, under the key it was created with and no other row has |
| JobsTable.EmailJobsRepository.UpdateMany | node-pipeline/src/email-jobs/email-jobs.repository.ts:31-54 | appends one update to the row's history if the row exists, else does nothing; other rows stay |
| JobsTable.EmailJobsRepository.MarkPublished | node-pipeline/src/email-jobs/email-jobs.repository.ts:24-29 | throws if and only if the row does not exist, else makes it read PUBLISHED and changes nothing else |
| StatusProjection.StatusConsumer.Handle | node-pipeline/src/email-jobs/status.consumer.ts:49-71 | a malformed body changes nothing and is dropped; a delivery is acknowledged if and only if neither update nor acknowledgement threw, and requeued otherwise, unless that throws too; an update that was applied makes the event's row, and no other, read what the event reports |
| StatusProjection.StatusConsumer.Apply | node-pipeline/src/email-jobs/status.consumer.ts:97-110 | after an applied update the event's row has the event's status; DELIVERED sets the time and clears the code, DEAD_LETTERED sets a code if the event has one, nothing else of the row and no other row changes |
| Pipeline.ProjectedAsReported | node-pipeline/src/email-jobs/status.consumer.ts:97-110 | processing an event in a run of the whole makes its job's row read what it reports, and changes nothing else |
| Pipeline.ProjectionIsSound | node-pipeline/src/email-jobs/status.consumer.ts:97-110 | in all runs of API and workers, with events repeated and reordered, a row reads DELIVERED only if a worker wrote the row and the server accepted a mail, DEAD_LETTERED only if a dead-letter copy exists, RETRY_SCHEDULED only if a later attempt was issued |
| Pipeline.PlayIsSound | node-pipeline/src/email-jobs/email-jobs.repository.ts:14-54 | the table that submission relies on and the table that events update stay one, the jobs published are the jobs the workers know, and every row is sound |
| Pipeline.SubmissionMoves | node-pipeline/src/email-jobs/email-jobs.service.ts:69-97 | in a run of the whole the INSERT adds a QUEUED row, markPublished changes only its status, the publish puts attempt 0 of the job on the main queue, and no other step of a submission touches table or queue |
| Pipeline.SubmissionAlwaysProceeds | node-pipeline/src/email-jobs/email-jobs.publisher.ts:10-17 | no publish of the API is ever a second publish of a job |
| Pipeline.OneJobPerKeyReachesWorkers | node-pipeline/src/email-jobs/email-jobs.service.ts:42-113 | at most one job of an idempotency key ever reaches the workers, and it has its row |
| Pipeline.NewSubmissionIsSafe | node-pipeline/src/email-jobs/email-jobs.service.ts:111-112 | a submission answered as new has its row and its job is safe unless stranded, within the fault budget |
| Pipeline.UnavailableButMailed | node-pipeline/src/email-jobs/email-jobs.service.ts:95-108 | a run of API and workers answers 503 for a job that is mailed |
| Pipeline.SameConstraint | node-pipeline/src/email-jobs/email-jobs.repository.ts:14-17 | the unique constraints of the table are those submission counts on |
| StatusProjection.FinalEventsExclude | node-pipeline/src/delivery/delivery.service.ts:73-81 | without a splitting fault a job never has both a DELIVERED and a DEAD_LETTERED event |

## Left out

- The Go pipeline and its web client.
- Message bodies, JSON and schema parsing, e-mail address syntax: a message is a job, an attempt, a provider and whether its body is valid.
- The connection and reconnect timers of `RabbitmqService`: only that publishes confirm or throw, and that a lost connection requeues what was unacknowledged.
- Prefetch limits and the order of deliveries: any queued copy may be delivered next.
- Completeness of the status projection under faults: an event whose publish threw is not published again, and a late update overwrites DELIVERED. Without a fault every event is published (EventsAreComplete).
- Wall-clock liveness: work is bounded, but no step is said to happen within a time.
- Metrics, logging, health checks, the API-key guard, HTTP filters, configuration loading and deployment.
- Failures of the mail consumer's `ack` and `nack`: it swallows them, which is the settling of a lost connection.
- Other columns of the tables, `updatedAt`, and `IN_FLIGHT`, which nothing writes.
- `getStatus`, which only reads a row.
- Delivery.Admission: limiter and breaker answers are arbitrary in the state machine; they come from the modelled limiter and breaker in `DeliveryWorld`.
- Delivery.SendMail: the state machine also allows a send to throw something that is no provider error, which the SMTP adapter never does.
- RateLimiter.RateLimiterService.Acquire: tokens are exact thousandths, where the script uses floating-point numbers; a key may expire only after its TTL by the same clock that stamps requests, where Redis and the workers have clocks of their own.
- DeliveryTheorems.NoLoss: stated for jobs no fault has stranded, because the code loses the others (LostIffStranded).
- DeliveryLedger.ClosedRowsAreFinal: asks for one writer at a time up to the state it starts from, because `complete` is an unconditional UPDATE; the exact condition is that of FinalIffUnthreatened.
- Submission.OneJobPerKey: ids drawn by `randomUUID` are taken not to collide; a call is numbered and its number is its id.
- EmailDelivery.EmailConsumer.OnModuleDestroy: one consumer of one worker; a cancel call that threw is taken not to have been applied.
