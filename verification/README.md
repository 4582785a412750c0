# Order lifecycle: a verified model

This project models the order-fulfilment backend in Dafny and proves what it promises.
An order travels `PENDING -> RESERVED -> PAID -> COMPLETED` (or to `FAILED` / `CANCELLED`)
through a transactional outbox, RabbitMQ consumers with an idempotency inbox, a payment
gateway with a claim-before-charge ledger, a stock table and a Redis cache. None of these
parts alone makes the whole exactly-once, lossless and stock-exact; the proofs show that
together they do, for every interleaving, crash, redelivery and takeover, and they show
precisely where they do not.

## How it is organised

| file | content |
|---|---|
| `OrderStateMachine.dfy`, `Stock.dfy` | the status machine; stock totals, reservation and restore on values |
| `Tables.dfy` | the tables and every transaction on them, as functions |
| `Database.dfy` | the services and consumers as imperative code, proved to be those transactions |
| `Saga.dfy` | one transition system: tables, broker, deliveries, cancellations, drains, provider, clock |
| `SagaInvariant.dfy`, `SagaTables.dfy`, `SagaSteps.dfy`, `SagaDeliveries.dfy` | the invariant and its preservation, step by step |
| `SagaTheorems.dfy`, `SagaWitnesses.dfy` | the promises over whole runs; runs that reach the limits |
| `SagaTraces.dfy` | who created, paid, cancelled and charged, over runs with their steps |
| `SagaAlone.dfy` | undisturbed requests and deliveries: the saga's steps in sequence are the services |
| `OrderCache.dfy` | the cache-aside reads running beside the saga |
| `OutboxRelay.dfy`, `WakeUp.dfy` | the drain loop and the flags that wake it |
| `Retry.dfy`, `Tokens.dfy`, `Carts.dfy`, `Metrics.dfy` | bounded retry; refresh-token families; one-shot carts; the metric buffer |

A step of a transition system is one atomic unit of the source: a conditional `UPDATE`, a
committed transaction, a publish, an ack, a provider call. `runOnce` is split into reading the
inbox, running the reservation and committing on the tables as they are then, so two
deliveries of one message really race. `cancelOrder` is a read, a claim and one update per
restored line. `authorize` is claim, lookup, staleness test, charge and record, and a crash may
fall between any two. Any statement of a consumer may also throw, which sends its message through
the retry handler; that covers an unreachable database or provider, a lost compare-and-set inside a
consumer's transaction and a commit whose acknowledgement is lost. Primary keys are positions in a
table, so key order is creation order. Fields marked as history are written by steps and read by none.

Where source comments and code differ, the model follows the code:

- `orders.service.ts:353-354` says a PENDING cancel has nothing to give back. A cancel that read
  PENDING may claim an order that is RESERVED by then (line 344 accepts both), and its stock is
  never restored: `StaleCancelLeaks`, `LeakIsForGood`, and exactly when: `ClaimLeaksIff`.
- `outbox-relay.service.ts:63-64` loops while full batches are *claimed*, not published. With 50
  failing rows the loop does not end: `LoopExitsIff`, `FailingHeadIsReclaimed`.
- `OrderEntity.ts:19` calls an order's items the cart's line items at checkout time. They are what
  the winning checkout had read, which can be older: `SnapshotCanBeStale`, and exactly when:
  `ClaimTakesCartIff`, `OrderIsTheCartIff`.
- `cart.service.ts:86-91` says a checkout claims the cart, then creates the order. The two are not one
  transaction, and a checkout that dies in between leaves a checked-out cart without an order:
  `ClaimedCartCanLoseItsOrder`, and what else can become of a claimed cart: `ClaimedCartIsAccountedFor`.
- `outbox-relay.service.ts:41-46` promises a drain at once rather than at the next poll. A drain that throws
  before its SELECT with no other queued leaves the row to the poll: `ThrowLosesWakeUp`, and exactly when:
  `NoWakeUpIsLostIff`, `StalledIff`.
- `listOrdersForUser` can leave a list short of an order created while it was being filled:
  `StaleListExists`, and exactly when: `CachedListCompleteIff`.
- Reuse detection does not end a token family while one of its rotations is between claim and
  insert: `ReuseCanMissASuccessor`, and exactly when: `ReuseKillsFamilyIff`.

## Model

| member | source | states |
|---|---|---|
| `OrderStateMachine.LifeIsFinite` | src/modules/orders/order-state-machine.ts:16-46 | any sequence of legal transitions has at most four statuses, never repeats one, and stops at the first terminal status |
| `OrderStateMachine.TransitionRules` | src/modules/orders/order-state-machine.ts:3-46 | what leads to each status, which statuses are terminal, and no move back or in place |
| `Stock.ReservationIsOrderFree` | src/modules/products/products.service.ts:57-83 | permuting the lines changes neither the verdict nor the resulting stock |
| `Stock.ReservedStaysNonNegative` | src/modules/products/products.service.ts:64-76 | a reservation that goes through keeps every count at or above zero |
| `Stock.RestoreUndoesReserve` | src/modules/products/products.service.ts:77-107 | restoring the reserved lines gives the original stock |
| `Database.Database.RestoreStock` | src/modules/products/products.service.ts:91-107 | the loop adds each product's total over all lines, and ignores unknown products |
| `Database.Database.ReserveStock` | src/modules/products/products.service.ts:57-83 | succeeds iff each product's total over all lines is in stock; success subtracts exactly the totals; failure names the first short line and leaves every count as it was |
| `Database.Database.CreateOrder` | src/modules/orders/services/orders.service.ts:78-107 | a PENDING order of the caller with all its lines, and an OrderCreated row with the same lines, together |
| `Database.Database.TransitionSeen` | src/modules/orders/services/orders.service.ts:208-231 | whatever happened since the status was read, the compare-and-set is either the legal move of the row as it is or a Conflict that changes nothing; it moves iff the status is still the one read and the move is legal |
| `Database.Database.TransitionOrder` | src/modules/orders/services/orders.service.ts:198-232 | undisturbed, it moves the status if the state machine allows it; otherwise NotFound or Conflict and no change |
| `Database.Database.InitiatePayment` | src/modules/orders/services/orders.service.ts:267-306 | succeeds iff the caller owns the order and it is RESERVED and unpaid; NotFound iff it is missing or somebody else's; claims and enqueues InventoryReserved, or changes nothing |
| `Database.Database.CancelSeen` | src/modules/orders/services/orders.service.ts:326-361 | the claim goes by the row as it is, the restore by the row that was read: stock comes back iff that one was RESERVED |
| `Database.Database.CancelOrder` | src/modules/orders/services/orders.service.ts:324-361 | undisturbed, it cancels iff allowed and gives back exactly what a RESERVED order took |
| `Database.Database.Reserve` | src/modules/inventory/inventory.consumer.ts:75-118 | reservation with its compensation, transition, Failed row, inbox record and rollback amount to the one transaction the saga interleaves; no message id dead-letters |
| `Database.InventoryOutcome` | src/modules/inventory/inventory.consumer.ts:75-118 | when handling is dead-lettered, skipped, refused or processed; a PENDING order is RESERVED with exactly its totals taken iff every product covers its total, else FAILED and announced |
| `Database.Database.Authorize` | src/modules/payment/payment.gateway.ts:71-103 | the first caller charges and records; a decision is returned, not made again; an undecided claim is taken over iff it is more than 30 s old, and refused otherwise with nothing changed |
| `Database.Database.AuthorizeAndAdvance` | src/modules/payment/payment.consumer.ts:62-120 | authorisation outside, transition and announcement inside the inbox transaction |
| `Database.PaymentOutcome` | src/modules/payment/payment.consumer.ts:62-131 | when handling is dead-lettered, in flight, skipped, refused or processed; a processed order is PAID or FAILED as authorised, with the event that says so |
| `Database.Database.Complete` | src/modules/completion/order-completion.consumer.ts:54-80 | PAID to COMPLETED with its announcement and inbox record, or no change |
| `Database.CompletionOutcome` | src/modules/completion/order-completion.consumer.ts:54-80 | processed iff the order is PAID and the message new; then COMPLETED and announced, otherwise no change |
| `Database.RedeliveriesCommitOnce` | src/modules/messaging/inbox/inbox.service.ts:29-59 | however often a message is handled, the tables end as its first successful work left them, recorded once; with a recorded key or no success they do not change |
| `Database.RedeliveredPaymentChangesNothing` | src/modules/payment/payment.consumer.ts:81-127 | a payment event handled again, at any later time and whatever the provider would say, leaves every table as it was |
| `SagaTables.CreateKeepsTables` | src/modules/orders/services/orders.service.ts:80-106 | creating an order keeps rows, events, inbox and ledger consistent |
| `SagaTables.PayKeepsTables` | src/modules/orders/services/orders.service.ts:282-301 | so does the payment claim with its outbox row |
| `SagaTables.CancelKeepsTables` | src/modules/orders/services/orders.service.ts:337-351 | so does the cancel claim |
| `SagaTables.AdvanceKeepsTables` | src/modules/messaging/inbox/inbox.service.ts:35-46 | so does any first processing of an event that moves its order |
| `SagaSteps.WonClaimKeepsCancels` | src/modules/orders/services/orders.service.ts:335-361 | a successful claim leaves every held line with exactly one restorer or a recorded reason |
| `SagaSteps.CancelRestoreKeepsStock` | src/modules/products/products.service.ts:98-106 | one restored line keeps stock plus held quantities constant |
| `SagaSteps.PublishKeeps` | src/modules/messaging/outbox/outbox-relay.service.ts:94-110 | a publish keeps the invariant: what a drain has published is in the broker or processed |
| `SagaSteps.DrainCommitKeeps` | src/modules/messaging/outbox/outbox-relay.service.ts:112-116 | marking the published rows keeps the invariant |
| `SagaDeliveries.CommitKeepsStock` | src/modules/inventory/inventory.consumer.ts:92-107 | committing a reservation moves exactly its totals from stock to the order |
| `SagaDeliveries.CommitKeeps` | src/modules/messaging/inbox/inbox.service.ts:29-59 | every end of a runOnce transaction keeps the whole invariant |
| `SagaDeliveries.ThrowKeeps` | src/modules/messaging/process-event-once.ts:36-41 | a handler that throws, wherever it stands, keeps the invariant: its message is still in the broker |
| `SagaDeliveries.RetryKeeps` | src/modules/messaging/retry-error-handler.ts:70-99 | parking a copy or dead-lettering it never takes an unprocessed message out of the broker |
| `SagaDeliveries.ClaimLedgerKeeps` | src/modules/payment/payment.gateway.ts:118-127 | the claim pays for one provider call |
| `SagaDeliveries.JudgeStaleKeeps` | src/modules/payment/payment.gateway.ts:83-91 | a takeover pays for one more |
| `SagaDeliveries.ChargeKeeps` | src/modules/payment/payment.gateway.ts:93-94 | a provider call keeps ledger, provider and deliveries in agreement |
| `SagaDeliveries.ChargeFailsKeeps` | src/modules/payment/payment.gateway.ts:93 | so does a provider call that throws, and it counts as a call |
| `SagaDeliveries.RecordKeeps` | src/modules/payment/payment.gateway.ts:95-102 | recording and returning keep every answer equal to the ledger |
| `SagaTheorems.StepKeepsInv` | src/modules/orders/services/orders.service.ts:54-370 | every step of requests, relay, deliveries and gateway keeps the saga invariant |
| `SagaTheorems.RunKeepsInv` | src/modules/orders/services/orders.service.ts:54-370 | every state of every run satisfies it |
| `SagaTheorems.RunLater` | src/modules/orders/order-state-machine.ts:43-46 | along a run rows keep owner and lines, terminal rows and decisions never change, events and inbox records only accumulate |
| `SagaTheorems.EventsMatchState` | src/modules/orders/services/orders.service.ts:80-106 | for each order and kind, exactly one outbox row if the row says it happened, otherwise none |
| `SagaTheorems.NoEventIsLost` | src/modules/messaging/outbox/outbox-relay.service.ts:93-117 | an order waiting for an event has exactly one, unprocessed, in the outbox or in the broker |
| `SagaTheorems.QuiescenceSettlesOrders` | src/modules/messaging/retry-error-handler.ts:70-99 | with outbox relayed and all queues empty, every order is terminal or RESERVED awaiting pay |
| `SagaTheorems.EventFindsOrderReady` | src/modules/orders/services/orders.service.ts:214-231 | an unprocessed event finds its order in the status it acts on, or PENDING/CANCELLED for OrderCreated |
| `SagaTheorems.OnlyCancelledOrdersRefuse` | src/modules/inventory/inventory.consumer.ts:93-107 | the work of a first processing refuses iff it is inventory on a cancelled order, and then nothing changes |
| `SagaTheorems.WorkIsAppliedOnce` | src/modules/messaging/inbox/inbox.service.ts:29-58 | work has been committed once per inbox record and never otherwise |
| `SagaTraces.CommittedExactlyOnce` | src/modules/messaging/inbox/inbox.service.ts:29-58 | over every run, the number of committed works of an inbox key is one if the key is recorded and zero if not |
| `SagaTheorems.PaymentAgreement` | src/modules/payment/payment.gateway.ts:35-61 | any two results authorize ever returns for an order are equal |
| `SagaTheorems.DecisionIsFinal` | src/modules/payment/payment.gateway.ts:95-101 | a recorded decision never changes and is what the provider said |
| `SagaTheorems.ProviderCallsAreBounded` | src/modules/payment/payment.gateway.ts:74-93 | provider calls for an order, throwing ones included, are at most one plus its takeovers, and there are none of either before its claim |
| `SagaTraces.HistoryIsHonest` | src/modules/payment/payment.gateway.ts:71-103 | the history counts exactly the provider calls and takeovers of the run and holds exactly the answers authorize gave |
| `SagaTraces.ProviderIsCalledOnce` | src/modules/payment/payment.gateway.ts:35-61 | over every run the provider is called at most once and once more per takeover, never for a cancelled order, and no two callers are told different things |
| `SagaTheorems.StatusFollowsLedger` | src/modules/payment/payment.consumer.ts:82-119 | PAID or COMPLETED implies authorised, and an authorised order is RESERVED, PAID or COMPLETED, never FAILED |
| `SagaTheorems.PayAndCancelExclude` | src/modules/orders/services/orders.service.ts:315-323 | an order ever CANCELLED is at no point of the run payment-initiated, in the ledger or known to the provider, and the provider is never called for it |
| `SagaTraces.OrdersAreCreates` | src/modules/orders/services/orders.service.ts:78-107 | the orders of every run are exactly what was checked out, in order, each with its owner and all its lines |
| `SagaTraces.OnlyOwnersPay` | src/modules/orders/services/orders.service.ts:267-301 | an order is marked as paid for only by its owner's payment step, taken when it was RESERVED and unpaid |
| `SagaTraces.CancelsWereRead` | src/modules/orders/services/orders.service.ts:324-335 | a cancel request was begun by the owner of a cancellable order, and wasReserved is the status it read |
| `SagaTraces.OnlyOwnersCancel` | src/modules/orders/services/orders.service.ts:324-351 | an order is cancelled only by the claim of a request its owner began |
| `SagaTheorems.StockIsExact` | src/modules/products/products.service.ts:57-107 | at the end of every run stock is non-negative, and stock plus what orders hold equals initial stock plus replenishments; what an order holds follows from its row |
| `SagaTheorems.CancelledStockIsExplained` | src/modules/orders/services/orders.service.ts:324-361 | a cancelled order keeps stock only while restoring, after a crashed restore, or after claiming a RESERVED order it had read as PENDING |
| `SagaTheorems.ClaimLeaksIff` | src/modules/orders/services/orders.service.ts:335-355 | a claim leaves stock with nobody to restore it iff the request read PENDING, the order is RESERVED and has lines |
| `SagaTraces.LeaksIffReadPending` | src/modules/orders/services/orders.service.ts:325-355 | over every run, a claim leaks iff the read its own request began with saw PENDING and the claim meets RESERVED with lines |
| `SagaTheorems.LeakIsForGood` | src/modules/orders/services/orders.service.ts:335-361 | from then on, in every run, the order stays CANCELLED and holds exactly that stock; so does one whose restore crashed |
| `SagaTheorems.AttemptsAreBounded` | src/modules/messaging/retry-error-handler.ts:67-99 | no copy exceeds the retry limit, and a dead-lettered copy has used up its retries |
| `SagaTheorems.RetryFollowsCommands` | src/modules/messaging/retry-error-handler.ts:67-99 | the saga's retry step parks and dead-letters exactly the copies the error handler sends and nacks, with their attempt counts, and stays open iff an ack is due |
| `SagaTheorems.TakeoverIff` | src/modules/payment/payment.gateway.ts:83-91 | a duplicate takes an undecided claim over iff it looks stale to the clock of the retry schedule; otherwise it throws and changes nothing |
| `SagaAlone.AuthorizeStepsAlone` | src/modules/payment/payment.gateway.ts:71-103 | claim, lookup, staleness test, charge and record in sequence are authorize |
| `SagaAlone.InventoryStepsAlone` | src/modules/inventory/inventory.consumer.ts:75-118 | inbox check, stock judgement and commit in sequence are the inventory consumer |
| `SagaAlone.PaymentStepsAlone` | src/modules/payment/payment.consumer.ts:62-131 | authorisation, inbox check and commit in sequence are the payment consumer |
| `SagaAlone.CompletionStepsAlone` | src/modules/completion/order-completion.consumer.ts:54-80 | inbox check and commit in sequence are the completion consumer |
| `SagaAlone.CancelStepsAlone` | src/modules/orders/services/orders.service.ts:324-361 | read, claim and restores in sequence cancel the owner's PENDING or unpaid RESERVED order and give back all it had taken, or change nothing |
| `SagaAlone.CrashUndoesDelivery` | src/modules/messaging/inbox/inbox.service.ts:15-22 | a consumer that dies, wherever it stands, returns exactly the copy it had taken |
| `SagaAlone.RelayStepsAlone` | src/modules/messaging/outbox/outbox-relay.service.ts:93-116 | any unpublished, unlocked row can be published and marked, which queues one fresh copy and changes nothing else |
| `SagaAlone.RetryStepsAlone` | src/modules/messaging/retry-error-handler.ts:42-92 | a failed delivery with retries left comes back to its work queue once, with one attempt more |
| `SagaAlone.PayStepAlone` | src/modules/orders/services/orders.service.ts:267-306 | the owner's payment of a RESERVED, unpaid order marks and announces it; any other changes nothing |
| `SagaWitnesses.LegalLoserExists` | src/modules/inventory/inventory.consumer.ts:100-115 | a run in which a duplicate stands past the inbox check before a legal RESERVED to FAILED move |
| `SagaWitnesses.StaleCancelLeaks` | src/modules/orders/services/orders.service.ts:337-361 | a run in which a cancelled order holds its stock with no request left to restore it |
| `SagaWitnesses.EventCanRestInDlq` | src/modules/messaging/retry-error-handler.ts:94-99 | a run in which the event of a PENDING order ends in the dead-letter queue, unprocessed, after all its retries |
| `OrderCache.CacheStepKeeps` | src/modules/cache/cache.service.ts:54-114 | every saga step, load, late write, del, lost del and expiry keeps both caches right |
| `OrderCache.UserOrdersAreNewestFirst` | src/modules/orders/services/orders.service.ts:137-143 | a list load returns exactly the user's orders as they are, most recent first |
| `OrderCache.GetStepsAlone` | src/modules/orders/services/orders.service.ts:175-188 | a by-id miss stores the owner-scoped row iff it is terminal, and nothing else |
| `OrderCache.ListStepsAlone` | src/modules/orders/services/orders.service.ts:137-148 | a list miss stores the full list iff every order in it is terminal |
| `OrderCache.CachedReadIsDatabaseRead` | src/modules/orders/services/orders.service.ts:169-189 | getOrderForUser returns what the owner-scoped database lookup would, even if no invalidation succeeds |
| `OrderCache.HitsAreRefused` | src/modules/orders/services/orders.service.ts:269-274 | a cache hit never passes the status check of initiatePayment or cancelOrder |
| `OrderCache.CachedListIsARecentView` | src/modules/orders/services/orders.service.ts:130-149 | a cached list is the user's current list minus only orders created after the read that filled it |
| `OrderCache.CachedListCompleteIff` | src/modules/orders/services/orders.service.ts:117-129 | it is complete iff its owner has created nothing since |
| `OrderCache.CachedListIsComplete` | src/modules/orders/services/orders.service.ts:111-112 | it is complete when no load overlapped a create and no del is lost or outstanding |
| `OrderCache.StaleListExists` | src/modules/orders/services/orders.service.ts:137-147 | a run that leaves a list short of an order |
| `OrderCache.OrderReads.Get` | src/modules/orders/services/orders.service.ts:169-189 | returns the owner-scoped row; a miss stores it iff it is terminal, a hit stores nothing |
| `OrderCache.OrderReads.List` | src/modules/orders/services/orders.service.ts:130-149 | a miss returns exactly the user's orders, most recent first, and stores them iff all are terminal; a hit returns what was stored |
| `OutboxRelay.LoopExitsIff` | src/modules/messaging/outbox/outbox-relay.service.ts:63-64 | the drain loop ends iff fewer than 50 of the waiting rows fail to publish |
| `OutboxRelay.FailingHeadIsReclaimed` | src/modules/messaging/outbox/outbox-relay.service.ts:84-124 | 50 failing rows at the head are claimed again, unchanged |
| `OutboxRelay.BatchKeepsFailing` | src/modules/messaging/outbox/outbox-relay.service.ts:93-117 | a batch removes exactly its publishable rows and keeps order |
| `OutboxRelay.OutboxRelayService.Nudge` | src/modules/messaging/outbox/outbox-relay.service.ts:47-53 | schedules a drain, or asks the running one to be followed by another |
| `OutboxRelay.OutboxRelayService.DrainOnce` | src/modules/messaging/outbox/outbox-relay.service.ts:77-125 | sends the publishable rows of the batch under their own ids, in order, and marks exactly those |
| `OutboxRelay.OutboxRelayService.Relay` | src/modules/messaging/outbox/outbox-relay.service.ts:56-74 | ends with exactly the failing rows unpublished and every other row sent once, in order; a request for another drain is consumed and schedules exactly one |
| `OutboxRelay.OutboxCommitSubscriber.AfterInsert` | src/modules/messaging/outbox/outbox-commit.subscriber.ts:44-51 | is the insert of `CommitNudgesIff`: remembers the runner, or nudges for a row written outside a transaction |
| `OutboxRelay.OutboxCommitSubscriber.AfterTransactionCommit` | src/modules/messaging/outbox/outbox-commit.subscriber.ts:53-55 | is its commit: nudges for a remembered runner and forgets it |
| `OutboxRelay.CommitNudgesIff` | src/modules/messaging/outbox/outbox-commit.subscriber.ts:44-59 | after any sequence of hook calls a commit nudges iff its runner inserted a row in its transaction that it has neither committed nor rolled back since |
| `WakeUp.NudgedExactlyOnce` | src/modules/messaging/outbox/outbox-commit.subscriber.ts:44-59 | a committed transaction nudges once iff it wrote rows; a rolled-back one never |
| `WakeUp.NoWakeUpIsLostIff` | src/modules/messaging/outbox/outbox-relay.service.ts:41-74 | in every run a nudged unselected row is unpublished, and is covered by a scheduled drain, a drain yet to select, or drainAgain iff the run is not stalled |
| `WakeUp.StalledIff` | src/modules/messaging/outbox/outbox-relay.service.ts:56-74 | a run is stalled iff some drain threw with no other queued and nothing has nudged or started a drain since |
| `WakeUp.ThrowKeepsCoverIff` | src/modules/messaging/outbox/outbox-relay.service.ts:65-73 | a throwing drain leaves rows covered iff drainAgain is set or another drain is scheduled |
| `WakeUp.ThrowLosesWakeUp` | src/modules/messaging/outbox/outbox-relay.service.ts:65-69 | a drain that throws before its SELECT leaves such a row to the poll timer |
| `WakeUp.RelayDoesNotWakeItself` | src/modules/messaging/outbox/outbox-relay.service.ts:47-74 | in every run another drain is owed iff a nudge came during the running one, and the callbacks ever queued are at most the nudges |
| `WakeUp.RowsLeaveWhenPublished` | src/modules/messaging/outbox/outbox-relay.service.ts:93-116 | a row stops being unpublished iff a drain that selected it marks it published |
| `Retry.NeverAckedBeforeParked` | src/modules/messaging/retry-error-handler.ts:79-91 | in every prefix of the commands, an ack comes after the parked copy |
| `Retry.Channel.HandleError` | src/modules/messaging/retry-error-handler.ts:62-101 | a message without the header counts as never retried and is parked for the base delay as attempt 1, then acked; in general parked for base times 2^attempts with one attempt more, or nacked |
| `Retry.FailUntilDead` | src/modules/messaging/retry-error-handler.ts:42-101 | a message that always fails is handled once more than it has retries left (a header-less one maxRetries + 1 times), each time after the handler's own delay, waits base times (2^maxRetries - 1) in all from its first try, keeps id, content and other headers, and is then dead-lettered |
| `Retry.TakesOverIff` | src/modules/messaging/retry-error-handler.ts:32-35 | of the tries of a duplicate, spaced by the handler's delays, some sees a stale claim iff the last comes more than 30 s after the claim |
| `Retry.DefaultRetriesRespectLiveClaims` | src/modules/payment/payment.gateway.ts:15-22 | with the defaults that is iff the first try comes more than 23 s after the claim |
| `Tokens.AtMostOneHolder` | src/modules/auth/services/token.service.ts:60-72 | unrevoked tokens plus rotations in flight number at most one per family |
| `Tokens.FamiliesAreChains` | src/modules/auth/services/token.service.ts:27-35 | one root per family and at most one successor per token |
| `Tokens.FamilyHasOneUser` | src/modules/auth/services/token.service.ts:72-88 | all tokens of a family belong to the user who logged in |
| `Tokens.SuccessorsAreEarned` | src/modules/auth/services/token.service.ts:37-72 | in every run a token has a successor only if it was presented unrevoked, unexpired and with its user enabled |
| `Tokens.LoserFindsReuse` | src/modules/auth/services/token.service.ts:60-70 | of two calls that validated one token, the first claim rotates it and the other has found reuse |
| `Tokens.ReuseKillsFamilyIff` | src/modules/auth/services/token.service.ts:90-106 | it ends the family iff no rotation is between claim and insert; otherwise that successor is live |
| `Tokens.ReuseCanMissASuccessor` | src/modules/auth/services/token.service.ts:60-72 | a run in which reuse is detected while a rotation of the family is between claim and insert, so the family survives |
| `Tokens.ReuseEndsFamily` | src/modules/auth/services/token.service.ts:90-94 | in that case no token of the family is ever issued or live again |
| `Tokens.RotateStepsAlone` | src/modules/auth/services/token.service.ts:36-73 | the steps of an undisturbed rotate have the outcome the service promises |
| `Tokens.TokenService.Rotate` | src/modules/auth/services/token.service.ts:36-73 | succeeds iff the token is on file, unrevoked, unexpired and its user enabled, exchanging it for one successor of its user and family; a revoked one of an enabled user costs its family; other refusals change nothing |
| `Carts.AtMostOneOpenCart` | src/entities/cart/CartEntity.ts:25-29 | a user never has two open carts |
| `Carts.RequestStepsAlone` | src/modules/cart/cart.service.ts:59-118 | the steps of an undisturbed get, setItem, removeItem or checkout do to the open cart exactly what the operation says, and to nothing else |
| `Carts.CollisionUsesTheWinner` | src/modules/cart/cart.service.ts:42-51 | a request whose insert collided goes on with the winner's cart iff the user has an open one |
| `Carts.CheckedOutForGood` | src/modules/cart/cart.service.ts:99-108 | a checked-out cart never reopens and its winner never changes |
| `Carts.OneOrderPerCart` | src/modules/cart/cart.service.ts:86-118 | no cart yields two orders |
| `Carts.OrderIsTheWinnersSnapshot` | src/modules/cart/cart.service.ts:93-117 | an order's lines are what the winning checkout read, owner included, and are not empty |
| `Carts.ClaimTakesCartIff` | src/modules/cart/cart.service.ts:93-108 | at a winning claim the cart is what was read with the later edits replayed on it; the snapshot is the cart iff each product edited since ended up as it was read |
| `Carts.ClaimedOnce` | src/modules/cart/cart.service.ts:99-108 | a checked-out cart was claimed at exactly one step of the run |
| `Carts.OrderIsTheCartIff` | src/entities/order/OrderEntity.ts:17-21 | over whole runs, an order has the lines its cart's claim had read, and they are the cart's items at the claim iff that condition held there |
| `Carts.SnapshotCanBeStale` | src/modules/cart/cart.service.ts:92-117 | a run in which the winning claim takes a cart that differs from what its checkout read, and the order carries the older lines |
| `Carts.ClaimedCartIsAccountedFor` | src/modules/cart/cart.service.ts:86-118 | a checked-out cart has exactly one of: an order, a request that owes it one, a winner that died in between; other carts have none |
| `Carts.AbandonedForGood` | src/modules/cart/cart.service.ts:99-117 | in the last case it never gets an order and never reopens |
| `Carts.ClaimedCartCanLoseItsOrder` | src/modules/cart/cart.service.ts:99-117 | a run that ends with a checked-out cart, no order and no request |
| `Carts.CartService.GetOpenCart` | src/modules/cart/cart.service.ts:30-57 | the open cart, or a fresh empty one |
| `Carts.CartService.Set` | src/modules/cart/cart.service.ts:59-78 | sets one quantity in the open cart, created if need be, touching nothing else; a product that does not exist is refused and changes no item |
| `Carts.CartService.Remove` | src/modules/cart/cart.service.ts:80-84 | takes one product out of the open cart and leaves every other line |
| `Carts.CartService.DoCheckout` | src/modules/cart/cart.service.ts:92-118 | undisturbed, a non-empty open cart becomes exactly one order with its items |
| `Metrics.SamplesAreConserved` | src/modules/metrics/metrics-persistence.service.ts:51-93 | issued batches followed by the buffer are the accepted samples in order; batch and buffer sizes are bounded; a waiting sample has a timer or a flush |
| `Metrics.EverySampleIsTaken` | src/modules/metrics/metrics-persistence.service.ts:51-93 | over every run, what was written followed by what waits is exactly the recorded samples in order, minus those that met 50,000 waiting rows |
| `Metrics.ShutdownOnlyDrains` | src/modules/metrics/metrics-persistence.service.ts:44-49 | during shutdown nothing is accepted and every shutdown write shrinks the buffer |
| `Metrics.RecordWritesFullBatches` | src/modules/metrics/metrics-persistence.service.ts:65-68 | recording writes early only a full batch |
| `Metrics.MetricsPersistenceService.DoRecord` | src/modules/metrics/metrics-persistence.service.ts:51-69 | takes the sample unless 50,000 are waiting, whatever flush is under way, and then flushes or sets the timer as the value function says |
| `Metrics.MetricsPersistenceService.DoWriteBatch` | src/modules/metrics/metrics-persistence.service.ts:83-93 | takes up to 500 rows off the front in one INSERT |
| `Metrics.MetricsPersistenceService.DoFlushNow` | src/modules/metrics/metrics-persistence.service.ts:71-80 | clears the timer and starts a batch |
| `Metrics.MetricsPersistenceService.FlushSettled` | src/modules/metrics/metrics-persistence.service.ts:74-79 | starts the next batch, sets a timer, or rests |
| `Metrics.MetricsPersistenceService.OnModuleDestroy` | src/modules/metrics/metrics-persistence.service.ts:44-49 | empties the buffer, whatever flush settles or timer fires while it waits: everything accepted has been issued, in order |

## Left out

- Controllers, DTOs, guards, validation, CORS and cookies: one-branch checks around the services.
- bcrypt, JWT signing, SHA-256 and UUIDs: ids are fresh and a presented token is identified with its stored row.
- TypeORM, amqplib and ioredis internals: only row counts, unique keys, row locks, in-order channel commands and at-least-once delivery are modelled.
- Row locks of a reservation: after reserveStock has succeeded the commit requires the stock still to be there, which is what the held locks ensure; a deadlock or a lock timeout is not modelled.
- initiatePayment's preliminary read: the claim tests the same conditions again, so read and claim are one step of the saga.
- Payload fields an event only forwards (userId, reason, occurredAt) and the rehydration of dates in cached orders.
- Messages without a messageId: handled by the consumers in `Database.dfy`, not by the saga, because the relay always publishes with an id.
- Creation times: order lists and outbox batches are sorted by `createdAt` in the source and by commit position here, so two overlapping creates of one user may appear in the other order.
- Products entering or leaving the catalogue during a run; `list` and `findByIds`; the random restock amount, which is any non-negative amount here.
- CacheService statistics and the cache-off switch.
- The textual names of wait queues and a base delay that is not a whole number of milliseconds.
- Prometheus, tracing, correlation ids, stage timings, metrics history, seeds, migrations and configuration.
- The email consumer's text: the consumer itself is the fourth inbox consumer of the saga, with no work of its own.
- productName on order lines.
- Liveness: nothing is claimed about a broker or provider coming back; termination is proved for the drain loop, the retry schedule and shutdown.
- OutboxRelay.OutboxRelayService.Relay: requires fewer than 50 failing rows, because otherwise the loop of the source does not end, as `LoopExitsIff` states.
- Metrics.SamplesAreConserved: counts an INSERT as issued whether or not the database accepts it, because the source logs a failed insert and drops its rows.
- Tokens.TokenService.Rotate: runs alone; concurrent calls are the subject of the transition system beside it.
- Database.Database.TransitionOrder: runs alone, so its compare-and-set cannot lose; `TransitionSeen` is the part after the read, for any interference.
- Database.Database.CancelOrder: runs alone; `CancelSeen` is the part after the read, and the three interleaved parts are steps of the saga.
