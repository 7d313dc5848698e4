# Checkout verification

A Dafny model of the event-driven checkout: the order, payment, inventory and notification services with their
databases, the transactional outboxes and their polling relays, the Kafka log, the retrying consumers, the HTTP
idempotency layer with its Redis fast path, and the gateway's rate limiter.

The model has two levels, tied together.

* **Functions and transition systems.** Each transaction is a function from tables to tables. `Checkout` puts the four
  services, three relays and the log together as one transition system; `Idempotency` does the same for any number of
  concurrent `POST /orders` requests over one database and one cache. The main theorems quantify over every run: any
  interleaving, redelivery, reordering, crash, lost acknowledgement or cache failure.
* **Classes.** The services, the relay, the Kafka consumer, the cache and the rate-limit guard are classes with the
  fields and loops of the code. Their methods are proved equal to the functions above, and one `execute`, one relay
  tick and one dispatch of a message are proved to be runs of the transition systems.

Where to read what:

| file | subject |
|---|---|
| Events, Outbox | messages, the outbox table |
| Inventory, Orders, Payments, Notifications, Totals | tables and transactions of each service |
| StockLedger | the ledger law, overselling, all-or-nothing |
| Checkout | the protocol as a transition system |
| Tables, CheckoutInvariant | the inductive invariant |
| PaymentSteps, InventorySteps, OrderSteps, RelaySteps, DeliverySteps, InventoryDelivery, OrderDelivery, CheckoutRuns | every step keeps it |
| CheckoutSafety, CheckoutRest, CheckoutProgress, CheckoutTermination, CheckoutFairness, CheckoutNotices, Overselling, Confluence, Witnesses | what follows |
| Idempotency, ExecuteRefinement | HTTP idempotency, and `execute` as a run of it |
| ReserveByItem | the inventory told item by item: first and second delivery, release, stock at rest |
| ProcessOnce, InventoryService, PaymentService, NotificationService, OrderService, Json, KafkaConsumer | the services as they run |
| PartitionRuns, DispatchRefinement | a consumer on its partition over whole runs; a dispatch as a run of the protocol |
| OutboxRelay, RelayRefinement | the relay, and a tick as a run of the protocol |
| RateLimit | the gateway's limiter |

`dafny verify dfyconfig.toml` checks everything.

## What turned out false

Five statements one might expect are false of this code. Each has a concrete witness, and the exact condition under
which the code does meet it.

* *A cancelled order's stock is released.* `Witnesses.CancelledOrderKeepsStock` is a run that ends at rest, with nothing
  dead-lettered, in which the inventory handled `orders.cancelled` before `orders.created`: the release finds nothing and
  the later reserve is never undone. It is released if and only if creation was handled first
  (`CheckoutRest.CompensatedExactlyWhen`). docs/sequence-diagrams/checkout-failure-path.md:35-36 says that order of
  arrival does not matter; the model follows the code.
* *A cancelled order is not charged.* `Witnesses.CancelledOrderIsCharged`; at rest a cancelled order was charged if and
  only if its total is not a declined one (`CheckoutRest.OutcomeAtRest`). There is no refund.
* *Available stock stays non-negative.* `StockLedger.RepeatedProductOversells`: the check is per line, so an order that
  repeats a product oversells it. A cart can be trusted at every stock level if and only if it names no product twice or
  asks for more of one than the default stock (`StockLedger.ReserveSafeExactlyWhen`), and an order can be taken beside any
  number of such orders, in every run that overflows no counter, under the same condition or with the largest default
  stock a column can hold, where the oversell itself would overflow (`Overselling.TakenSafelyExactlyWhen`).
* *One poison message cannot wedge its partition* (services/order-service/src/kafka/kafka-consumer.service.ts:22-23,
  docs/adr/0005-dlq-and-retry-policy.md:40). JSON whose event id cannot be read or printed, on a routed topic, does: the
  value `null`, or an object whose `eventId` is an object with a `toString` of its own, or an array that contains one at
  any depth or is nested too deeply to be joined. Every call of the handler throws on it, and then so does the log line
  before dead-lettering, which prints the id (services/order-service/src/kafka/kafka-consumer.service.ts:97-99). Nothing is
  parked and the offset never passes it, in any run (`PartitionRuns.WedgeIsNeverPassed`; `PartitionRuns.PoisonWedges` for
  `null`, `{"eventId":{"toString":null}}` and `{"eventId":[{"toString":1}]}`). If a dead letter would be accepted, the
  offset moves exactly when the message is not such JSON (`PartitionRuns.PollMovesExactlyWhen`), and while dead letters
  are accepted a partition is consumed to its end exactly when none lies ahead
  (`PartitionRuns.PartitionStaysLiveExactlyWhen`). "Accepted" is about the one send: the dead letter can be serialised and
  the broker takes it. A dead letter wraps its message and is larger, so near the broker's size limit it is refused with
  the topic up, and the offset stays.
* *The saga is confluent.* The status is (`Confluence.StatusDependsOnTheSetOnly`), the cancel reason is not: when both
  legs fail it names whichever failure arrived first (`Confluence.ReasonFollowsArrival`).

Two further differences from the documentation. The 409 for an IN_PROGRESS key (README.md:91 and
docs/adr/0004-idempotency-three-layers.md:25) is never answered, because a key row only becomes visible when its
transaction has completed it (`Idempotency.NeverConflict`). And a dead-lettered message is not always an unprocessed one:
`KafkaConsumer.ParkedYetProcessed` says exactly when it has been processed nonetheless: it was before, or one commit's
acknowledgement was lost while every other call aborted.

The limiter's interval bound is sharper than twice the limit: an interval as long as a window admits at most
2 * max - 1 requests, and that is reached for every limit of at least one and every window of at least two milliseconds.

## Assumptions

* Each database transaction is atomic and serialisable, and each service handles one message at a time (one instance).
  The read-then-update in `reserve` and `applyLegOutcome` is not safe for several instances at READ COMMITTED.
* `randomUUID` is fresh; identifiers are parameters. The body hash is an abstract string.
* Kafka is a growing log. A subscribed consumer may be handed any logged message in any order, any number of times. The
  consumer groups have joined before the first message (`fromBeginning: false`).
* A publish may append and then fail; a commit may succeed and its acknowledgement be lost; a relay may die anywhere.
* Rounding of JavaScript numbers is monotone and exact up to 2^53.
* While a consumer backs off, other transactions may commit anything to its service's tables, but only ever add to the
  processed table. Outboxes stage events on their own topic. Of any other JSON the handlers read the two ids only, and the
  database takes nothing but UUIDs for them.
* A request body has passed its DTO validation: at least one item, positive quantities and prices.

## Model

| member | source | states |
|---|---|---|
| CheckoutRuns.RunKeeps | services/order-service/src/orders/orders.service.ts:113-191 | Every run of the whole system, whatever the interleaving of requests, relay sends, restarts, duplicate and reordered deliveries, keeps the invariant that ties orders, payments, reservations, notifications, dedup tables, outboxes and log together |
| CheckoutRuns.StepKeeps | services/order-service/src/consumers/idempotent-consumer.ts:21-43 | Each single step (request, publish, mark, restart, delivery) keeps that invariant |
| CheckoutSafety.ConfirmedIsPaidAndHeld | services/order-service/src/orders/orders.service.ts:113-164 | In every reachable state a CONFIRMED order has a completed payment of exactly its total, a reservation still RESERVED with one line per item that names its product and quantity, and no cancellation in any outbox or in the log |
| CheckoutSafety.ChargedTheExactTotal | services/payment-service/src/payments/payments.service.ts:41-100 | Every charge is for the exact sum of quantity times unit price of its order, a positive amount, and is declined exactly when its remainder by 100 is the declined cents |
| CheckoutSafety.EventsAreTruthful | services/order-service/src/orders/orders.service.ts:141-191 | Every outbox row of every service carries the correlation id, customer, amounts, currency and cancel reason of its order, one exact total from creation through charge to confirmation; a reservation has one line per item with its product and quantity, and a rejection lists items of the order, each asking for more than was available |
| CheckoutSafety.LedgerBalances | services/inventory-service/src/inventory/inventory.service.ts:44-161 | In every reachable state, for every product, available + reserved is the default stock and reserved is the sum over all RESERVED reservations of that product's quantities, repeated products included |
| CheckoutSafety.SwallowedMeansRedelivered | services/payment-service/src/common/idempotent-consumer.ts:11-30 | In every reachable state the transaction of a delivery commits exactly when the event is not yet in the processed table: unique keys on payments, reservations and notifications never fire inside the work, so no unprocessed event is silently skipped |
| CheckoutSafety.SettlementIsAnnouncedOnce | services/order-service/src/orders/orders.service.ts:119-191 | Exactly one `orders.created` row per order, and exactly one confirmed-or-cancelled row when its status is not PENDING and none before |
| CheckoutSafety.SettlementIsFinal | services/order-service/src/orders/orders.service.ts:119-123 | Along any run a settled order row never changes, and no order ever changes its customer, items, total or correlation id |
| CheckoutSafety.PublishedExactlyFromOutbox | services/order-service/src/outbox/outbox-relay.service.ts:62-79 | No loss and no phantom: every row marked published is in the log, and every logged message is a committed outbox row |
| CheckoutSafety.LogIsCausal | services/order-service/src/outbox/outbox.service.ts:25-40 | On the log, per order, a leg outcome is preceded by the creation and a settlement by an outcome, and every logged message's order exists, so the saga never meets an unknown order |
| CheckoutSafety.NeverOversold | services/inventory-service/src/inventory/inventory.service.ts:54-97 | If every order of a run names no product twice, or asks for more of one than the default stock, no product's available quantity ever goes below zero |
| CheckoutSafety.ReservedWithinStock | services/inventory-service/src/inventory/inventory.service.ts:54-65 | In no reachable state does a line of a reservation exceed the default stock |
| Overselling.TakenSafelyExactlyWhen | services/inventory-service/src/inventory/inventory.service.ts:54-97 | A valid order can be placed beside any safe ones, in every run that overflows no counter, without ever overselling if and only if it names no product twice or asks for more of one than the default stock, or that stock is the largest an INTEGER holds; otherwise a run that oversells without an overflow is constructed |
| CheckoutRest.NothingPendingAtRest | services/order-service/src/orders/orders.service.ts:119-138 | Once outboxes are drained and every message handled, no order is PENDING, whatever the interleaving was |
| CheckoutRest.OutcomeAtRest | services/payment-service/src/payments/payments.service.ts:42-42 | At rest an order is CONFIRMED exactly when its total does not leave the declined cents on division by 100 and its reserve succeeded; a cancelled one was charged exactly when its total does not |
| CheckoutRest.CompensatedExactlyWhen | services/inventory-service/src/inventory/inventory.service.ts:134-161 | At rest a cancelled order's reservation is released if and only if inventory did not handle the cancellation before the creation |
| ReserveByItem.ItemsAtRest | services/inventory-service/src/inventory/inventory.service.ts:88-109 | At rest a product's reserved quantity is what the items of the confirmed orders buy of it plus what is stranded by cancellations handled too early; the rest of the default stock is available; and if creation was always handled first, exactly the confirmed orders hold stock |
| CheckoutRest.OversizedOrderIsCancelledYetCharged | services/payment-service/src/payments/payments.service.ts:74-98 | In every run, an order for more than the default stock whose total is not declined ends cancelled and charged |
| CheckoutProgress.AtMostFourEvents | services/order-service/src/consumers/saga.consumer.ts:37-43 | An order yields at most four distinct outbox events in any run |
| CheckoutProgress.AtMostSixHandlings | services/notification-service/src/notifications/notification-events.consumer.ts:26-29 | An order causes at most six first-time handlings over all services in any run |
| CheckoutProgress.StepCounts | services/order-service/src/outbox/outbox-relay.service.ts:68-77 | The measure (relay marks plus processed entries) grows by one at every mark and every first-time handling and at no other step |
| CheckoutTermination.WorkPerOrderIsBounded | services/inventory-service/src/inventory/inventory-events.consumer.ts:29-32 | Event chains end: every run performs at most ten marks and first-time handlings per order it creates |
| CheckoutTermination.CanComeToRest | docs/adr/0002-transactional-outbox-polling-relay.md:15-15 | From every reachable state there is a continuation without new requests that drains all outboxes and handles all messages |
| CheckoutFairness.FairRunsComeToRest | docs/adr/0002-transactional-outbox-polling-relay.md:15-15 | Every infinite run in which requests stop, relays with rows to publish keep marking and unhandled messages keep being delivered is at rest from some step on |
| CheckoutNotices.NoticesAreTrue | services/notification-service/src/notifications/notifications.service.ts:17-43 | In every reachable state each notification went to its order's customer and is true: the order is confirmed, or its payment failed |
| CheckoutNotices.NotifiedAtRest | services/notification-service/src/notifications/notification-events.consumer.ts:26-43 | At rest the confirmation notice exists exactly for the confirmed orders and the payment notice exactly for those whose payment failed |
| Confluence.StatusDependsOnTheSetOnly | services/order-service/src/orders/orders.service.ts:119-138 | Any two delivery sequences (permuted, repeated, other orders' messages mixed in) that deliver the same outcomes of an order give it the same status: CANCELLED on any failure, CONFIRMED on two successes, else PENDING |
| Confluence.ReasonFollowsArrival | services/order-service/src/orders/orders.service.ts:176-177 | When both legs fail, a cancellation is staged, and the reason it announces is the payment exactly when the payment's failure arrived first |
| Witnesses.CancelledOrderKeepsStock | services/inventory-service/src/inventory/inventory.service.ts:139-143 | A reachable state at rest in which a cancelled order still holds its stock |
| Witnesses.CancelledOrderIsCharged | services/payment-service/src/payments/order-events.consumer.ts:21-30 | A run to rest that leaves an order cancelled and its payment completed |
| StockLedger.HandleKeepsBalance | services/inventory-service/src/inventory/inventory-events.consumer.ts:34-46 | Any delivery of any event to the inventory keeps the ledger balanced |
| StockLedger.ReserveIsAllOrNothing | services/inventory-service/src/inventory/inventory.service.ts:46-109 | Products first seen here start at the default stock; if any line exceeds what is available, no counter and no reservation changes beyond that; otherwise every product, new or known, moves by exactly its summed quantity and the reservation records the lines |
| StockLedger.ReserveSafeExactlyWhen | services/inventory-service/src/inventory/inventory.service.ts:56-97 | A cart of positive lines leaves stock non-negative from every level between zero and the default stock if and only if it names no product twice or some line exceeds the default stock |
| StockLedger.RepeatedProductOversells | services/inventory-service/src/inventory/inventory.service.ts:56-65 | An order with two lines of 60 of one product against a stock of 100 is reserved and leaves -20 available |
| Inventory.NoShortfallMeansCovered | services/inventory-service/src/inventory/inventory.service.ts:54-65 | The check reports no shortfall exactly when each line on its own is covered |
| ReserveByItem.FirstDeliveryByItem | services/inventory-service/src/inventory/inventory.service.ts:46-109 | The first delivery of an order: if no item asks for more than is there, every product, new or known, moves by exactly what the order's items buy of it and the order is reserved; otherwise nothing moves and nothing is reserved |
| ReserveByItem.FirstAnswerByItem | services/inventory-service/src/inventory/inventory.service.ts:66-128 | It is answered by one event: a reservation of one line per item, as recorded, or a rejection that lists exactly the items that ask for more than is there |
| ReserveByItem.SecondDeliveryByItem | services/inventory-service/src/inventory/inventory.service.ts:66-106 | A second creation event of a reserved order changes nothing at all if its items fit once more, and is rejected if they do not; what is held stays held |
| ReserveByItem.ReleaseUndoesReserve | services/inventory-service/src/inventory/inventory.service.ts:134-161 | Round trip: after a reserve and a release every product is as it was before the order, the reservation keeps its lines and is marked released, and a further cancellation changes nothing |
| Inventory.BoughtIsAdditive | services/inventory-service/src/inventory/inventory.service.ts:89-97 | What an order buys of a product is the sum over its single items, repeated products included |
| Inventory.ShortfallsAreInOrder | services/inventory-service/src/inventory/inventory.service.ts:55-65 | The shortfalls of a list are those of its single lines, each once and in order, all against the same stock |
| InventoryService.Service.EnsureProducts | services/inventory-service/src/inventory/inventory.service.ts:46-52 | The upsert loop adds a row with the default stock for each unknown product and leaves known ones alone |
| InventoryService.Service.Check | services/inventory-service/src/inventory/inventory.service.ts:54-65 | The check loop lists, in order, the lines that exceed the unchanged stock |
| InventoryService.Service.Move | services/inventory-service/src/inventory/inventory.service.ts:88-97 | The update loop moves each product by the sum of its lines, and fails exactly when a product has no row |
| InventoryService.Service.Reserve | services/inventory-service/src/inventory/inventory.service.ts:44-128 | The row-by-row `reserve` ends, and leaves the tables, exactly as the reserve transaction function the ledger theorems are about |
| InventoryService.Service.Release | services/inventory-service/src/inventory/inventory.service.ts:134-161 | The row-by-row `release` does likewise |
| InventoryService.Service.Receive | services/inventory-service/src/common/idempotent-consumer.ts:11-30 | Marker and work in one transaction: rolled back on a unique violation (swallowed), on any exception and on an abort (thrown), kept when it commits even if the acknowledgement is lost |
| InventoryService.ReceiveDeduplicates | services/inventory-service/src/common/idempotent-consumer.ts:18-29 | Once an event's transaction has committed, every later one for it is a unique violation, on any tables that hold its marker |
| PaymentService.Service.Charge | services/payment-service/src/payments/payments.service.ts:41-100 | Both branches of `charge` insert one payment row and one matching outcome event, or nothing if the order was charged |
| Payments.ChargeDecides | services/payment-service/src/payments/payments.service.ts:41-100 | A first charge of 100 * q + r cents stores a completed payment and announces it exactly when r is not the declined cents, and a failed one otherwise; a charged order is never charged again |
| PaymentService.Service.Receive | services/payment-service/src/common/idempotent-consumer.ts:11-30 | The payment consumer's transaction with rollback, as for the inventory |
| PaymentService.ReceiveDeduplicates | services/payment-service/src/common/idempotent-consumer.ts:18-29 | A redelivered order is not charged again, whatever was committed since |
| NotificationService.Service.Send | services/notification-service/src/notifications/notifications.service.ts:17-43 | At most one notification row per order and kind |
| NotificationService.Service.Receive | services/notification-service/src/common/idempotent-consumer.ts:11-30 | The notification consumer's transaction with rollback |
| NotificationService.ReceiveDeduplicates | services/notification-service/src/common/idempotent-consumer.ts:18-29 | A redelivered event notifies nobody twice, whatever was committed since |
| Totals.Sum | services/order-service/src/orders/orders.service.ts:42-45 | The reduce loop computes the left-to-right rounded sum of rounded products |
| Totals.TotalIsAdditive | services/order-service/src/orders/orders.service.ts:42-45 | The total is the sum of quantity times unit price over the single items |
| Totals.StoredTotalIsExact | services/order-service/prisma/migrations/20260623115456_init/migration.sql:14-14 | For lists of any length, the rounded total fits the INTEGER column exactly when the true sum does, and then the two are equal |
| Orders.CreatedAsRequested | services/order-service/src/orders/orders.service.ts:37-89 | A valid request commits exactly when its key and order id are unused and its total is at most 2147483647; then it adds one PENDING order with the request's customer, items, currency (USD if it names none) and exact total, its replay under the key, and one unpublished creation event that says the same |
| OrderService.Service.InsertOrder | services/order-service/src/orders/orders.service.ts:39-89 | Inside the transaction `createOrder` inserts one order with the exact total, stages its event and returns its snapshot; it fails exactly on a taken id or a value no column holds |
| OrderService.Service.PlaceOrder | services/order-service/src/idempotency/idempotency.service.ts:87-106 | The key is claimed IN_PROGRESS, the work done, the key completed: together one transaction body with no IN_PROGRESS row left when it finishes |
| OrderService.Service.Transact | services/order-service/src/idempotency/idempotency.service.ts:87-106 | The body as a transaction: all of it or nothing |
| OrderService.Service.Execute | services/order-service/src/idempotency/idempotency.service.ts:64-153 | `execute`, case by case: a cached entry or a committed row is replayed with its status, or answered 422 for another body, and nothing changes; a rival that commits first decides by its hash; a first request that can commit is answered 201 and not replayed with the order now stored, and cached exactly when Redis is up and takes it; an error is answered only on an abort, a lost acknowledgement, a used order id or a total no column holds |
| OrderService.Service.ApplyLegOutcome | services/order-service/src/orders/orders.service.ts:113-191 | Recording a leg and settling equals the saga's transition function: unknown and settled orders are left alone, and a settlement stages one event with the order's total or its failed leg |
| OrderService.Service.Receive | services/order-service/src/consumers/saga.consumer.ts:45-71 | The four saga handlers inside `processOnce` |
| OrderService.ReceiveDeduplicates | services/order-service/src/consumers/idempotent-consumer.ts:28-42 | A redelivered outcome never advances the saga twice, whatever was committed since, and nothing but its own marker ever stops it |
| Idempotency.RunKeeps | services/order-service/src/idempotency/idempotency.service.ts:64-124 | Any run of any number of concurrent requests keeps the invariant over keys, claims, orders, cache and request phases, and never changes a committed key row |
| Idempotency.OneOrderPerKey | services/order-service/src/idempotency/idempotency.service.ts:87-106 | However many requests race on a key, at most one order was ever made for it, and no order is announced as created twice |
| Idempotency.RepliesAreEqual | services/order-service/src/idempotency/idempotency.service.ts:126-144 | All successful replies to one key, first and replayed, cached or not, are equal as values with status 201, and answer the same body |
| Idempotency.ReplyIsTheOrder | services/order-service/src/orders/orders.service.ts:86-89 | What is replied is the stored order as it was created; only its saga state may have moved on |
| Idempotency.HashDecides | services/order-service/src/idempotency/idempotency.service.ts:147-153 | Every answered request got a reply exactly when its hash is the committed row's, and 422 exactly when it is not |
| Idempotency.CommittedKeyChangesNothing | services/order-service/src/idempotency/idempotency.service.ts:71-83 | From a committed key on, along every run, no step of any request with that key changes the database, and the one order made under it stays the only one |
| Idempotency.CommittedKeyIsFinal | services/order-service/src/idempotency/idempotency.service.ts:94-102 | Along any run a committed key row and the response it replays never change |
| Idempotency.NeverConflict | services/order-service/src/idempotency/idempotency.service.ts:142-143 | No committed key row is IN_PROGRESS, so 409 is never answered |
| Idempotency.FastPathRefines | services/order-service/src/idempotency/idempotency.service.ts:71-77 | Whatever is cached, for whatever body, the cached entry and the committed row give the same outcome |
| Idempotency.EitherPathSameOutcome | services/order-service/src/redis/redis.service.ts:39-56 | For a committed and cached key the path through Redis and the path through Postgres end in the same state |
| ExecuteRefinement.ExecuteIsARun | services/order-service/src/idempotency/idempotency.service.ts:64-124 | Every call of `Execute`, whatever befalls it and whether another transaction holds the key when it starts (and then commits, aborts or outlasts it) or not, is a run of the concurrent protocol with the same outcome, database and cache |
| ExecuteRefinement.ExecuteReplays | services/order-service/src/idempotency/idempotency.service.ts:71-83 | From the moment a key is committed, even if its client was never told, every call changes no table, replays the committed response with 201 for the committed body and answers 422 for any other, Redis up or down |
| ExecuteRefinement.ExecuteReplies | services/order-service/src/idempotency/idempotency.service.ts:126-144 | A client that got a reply and a client that calls later with the same key and body are told the very same |
| ProcessOnce.AtMostOnce | services/order-service/src/consumers/idempotent-consumer.ts:10-20 | Over any number of calls with any fates, whatever other transactions commit in between: if one call's work takes effect, no other call changes anything |
| ProcessOnce.AllThrewYetApplied | services/order-service/src/consumers/idempotent-consumer.ts:35-42 | Every call of a series throws exactly when all abort, or the event was unprocessed and one acknowledgement was lost while all others abort; and then the event is processed exactly when it was before or in that last case |
| KafkaConsumer.Consumer.HandleWithRetry | services/order-service/src/kafka/kafka-consumer.service.ts:83-111 | The retry loop, with other transactions committing during its backoffs, equals its specification on every event and on any other JSON: tables, dead letters, calls, backoff, and whether an exception leaves it, as one does when the event id cannot be read or printed |
| KafkaConsumer.RetryIsBounded | services/order-service/src/kafka/kafka-consumer.service.ts:90-110 | At most maxRetries + 1 calls, all but the last having thrown; twice the total backoff is retryBackoffMs * k * (k + 1) for k retries; one dead letter exactly when all calls threw, it is accepted and the event id can be read and printed |
| KafkaConsumer.DeadLetterTellsTheCalls | services/order-service/src/kafka/kafka-consumer.service.ts:66-111 | The handler is called for every routed JSON message and no other, at most maxRetries + 1 times; a message is parked at most once, with as many attempts as calls were made, so one that is no JSON with 0, exactly when the dead letter is accepted |
| KafkaConsumer.JsonIsHandledAsItsEvent | services/order-service/src/consumers/saga.consumer.ts:45-71 | JSON that bears an event's two ids, on that event's topic, has the same effect as the event, whatever else it says |
| KafkaConsumer.JsonNeedsBothIds | services/order-service/src/consumers/idempotent-consumer.ts:21-43 | Of all other JSON, only an object with a processed event id and a payload passes for a redelivery, and only one with an unprocessed event id and an order id in its payload commits |
| Json.UnprintableExactlyWhen | services/order-service/src/kafka/kafka-consumer.service.ts:97-99 | A value cannot be printed exactly when, some arrays down, there is an object with a `toString` of its own or an array beyond the host's depth |
| KafkaConsumer.AppliedAtMostOnce | services/order-service/src/kafka/kafka-consumer.service.ts:90-110 | Retries included, and whatever else commits during the backoffs, at most one call advances the saga |
| KafkaConsumer.ParkedYetProcessed | docs/adr/0005-dlq-and-retry-policy.md:30-32 | An event is dead-lettered exactly when the dead letter is accepted and all calls aborted, or it was unprocessed and one acknowledgement was lost while all others aborted; a dead-lettered event is in the processed table exactly when it was before or in that last case |
| KafkaConsumer.Consumer.Dispatch | services/order-service/src/kafka/kafka-consumer.service.ts:66-81 | A message on an unrouted topic or without a value does nothing, an unparseable one (an empty one too) is parked with 0 attempts, everything else goes through the retry loop |
| KafkaConsumer.Consumer.Poll | services/order-service/src/kafka/kafka-consumer.service.ts:59-81 | One turn of the partition: the offset moves on unless an exception leaves the dispatch |
| PartitionRuns.PollMovesExactlyWhen | services/order-service/src/kafka/kafka-consumer.service.ts:66-110 | If a dead letter would be accepted, the offset moves exactly when the message is not JSON on a routed topic whose event id cannot be read or printed; in any case it moves by at most one, and only past a message that is processed, parked or not for this consumer |
| PartitionRuns.OnlyHandledIsPassed | services/order-service/src/kafka/kafka-consumer.service.ts:14-17 | Over any run of polls, restarts, rebalances and other transactions, every message the offset has passed was processed, parked or not for this consumer |
| PartitionRuns.WedgeIsNeverPassed | services/order-service/src/kafka/kafka-consumer.service.ts:94-103 | In no run does the offset pass JSON on a routed topic whose event id cannot be read or printed, and none is ever parked |
| PartitionRuns.PoisonWedges | services/order-service/src/kafka/kafka-consumer.service.ts:97-100 | Three such messages, `null` among them: after a poll that would have its dead letter accepted, nothing is parked and the offset is where it was |
| PartitionRuns.EmptyObjectIsParked | services/order-service/src/kafka/kafka-consumer.service.ts:95-101 | An empty object on a routed topic is no event either, but is parked after maxRetries + 1 calls and passed |
| PartitionRuns.BorrowedIdIsSwallowed | services/order-service/src/consumers/idempotent-consumer.ts:35-40 | JSON that is no event but bears a processed id is swallowed after one call, without a retry or a dead letter |
| PartitionRuns.PartitionStaysLiveExactlyWhen | docs/adr/0005-dlq-and-retry-policy.md:40-40 | While dead letters are accepted, enough polls consume the partition to its end if and only if no such JSON lies ahead |
| DispatchRefinement.DispatchIsARun | services/order-service/src/kafka/kafka-consumer.service.ts:66-111 | Dispatching a logged message, retries included and with the rest of the system doing anything during the backoffs, is a run of the checkout protocol in which each of its at most maxRetries + 1 calls is one delivery or none |
| DispatchRefinement.CallIsAStep | services/order-service/src/kafka/kafka-consumer.service.ts:91-94 | At any state of the system a call of the handler is one delivery step, or none if it aborts |
| OutboxRelay.Relay.DrainBatch | services/order-service/src/outbox/outbox-relay.service.ts:62-79 | With rows being staged by others while each row is in flight, the loop publishes and marks the batch up to the first row that fails, and no further |
| OutboxRelay.Relay.Poll | services/order-service/src/outbox/outbox-relay.service.ts:49-60 | A tick does nothing while another runs or after stop; otherwise it drains one batch, survives failures and frees the guard unless the process died (`TickGuard`, `FreeAfterEveryTick` say so of the state it is proved to reach) |
| OutboxRelay.TickGuard | services/order-service/src/outbox/outbox-relay.service.ts:49-60 | After a tick the guard is taken exactly if it was before, or the relay was not stopped and a row that is reached killed the process; every other failure is counted and frees it |
| OutboxRelay.FreeAfterEveryTick | services/order-service/src/outbox/outbox-relay.service.ts:49-60 | Along any run of arrivals, restarts and ticks in which no row kills the process, the relay is free after every act, whatever failed |
| OutboxRelay.TickMarksThrough | services/order-service/src/outbox/outbox-relay.service.ts:68-75 | Row by row: a row of the batch is marked exactly if it and all before it got through, and no other row changes |
| OutboxRelay.TickSends | services/order-service/src/outbox/outbox-relay.service.ts:68-71 | Message by message: the j-th row of the batch is the j-th message appended exactly if it was reached and the broker took it |
| OutboxRelay.PendingMeans | services/order-service/src/outbox/outbox-relay.service.ts:63-67 | The pending rows are exactly the unpublished ones, oldest first |
| OutboxRelay.TickMarksAPrefix | services/inventory-service/src/outbox/outbox-relay.service.ts:38-60 | The rows a tick marks are a prefix of its batch, what stays pending is the rest in order followed by what arrived meanwhile, and it appends at most one message per marked row plus one if it failed |
| OutboxRelay.Accounting | services/order-service/src/outbox/outbox-relay.service.ts:68-75 | Over any run, with crashes anywhere in the loop and rows arriving at any time, log appends are at most marked rows plus failed ticks |
| OutboxRelay.Progress | services/payment-service/src/outbox/outbox-relay.service.ts:38-60 | Whatever arrives and whatever else fails in between, every clean tick takes a full batch off the rows that were there before |
| OutboxRelay.AllPublishedAfter | services/order-service/src/outbox/outbox-relay.service.ts:49-67 | n pending rows are all published, their events unchanged, once ceil(n / batchSize) ticks met no failure while the process was up, counted over what befalls the relay: any number of other ticks may fail in between, or die and be restarted, and any number of rows may arrive |
| OutboxRelay.LeftAlone | services/order-service/src/outbox/outbox-relay.service.ts:63-75 | Undisturbed, k ticks publish exactly the k * batchSize oldest rows, once each and in order |
| OutboxRelay.PendingAfter | services/order-service/src/outbox/outbox-relay.service.ts:63-67 | Marking a prefix of the pending rows leaves exactly the others pending, in the same order |
| RelayRefinement.TickIsARun | services/order-service/src/outbox/outbox-relay.service.ts:62-79 | Every tick of a relay, failures and crashes included and with the rest of the system doing anything while its rows are in flight, is a run of the checkout protocol with the same outbox and the same messages sent |
| RateLimit.Redis.IncrementWindow | services/api-gateway/src/redis/redis.service.ts:43-54 | Increments a live counter without touching its expiry, or starts a new window; returns the count and the time left, rounded to the nearest second as Redis does |
| RateLimit.Guard.CanActivate | services/api-gateway/src/rate-limit/rate-limit.guard.ts:38-70 | With a customer id exactly that customer's counter is hit and decides, whatever the address; else the address's; else that of "anonymous"; every other counter stays as it was. Admits exactly the first max hits of a window, with the matching headers; admits everything when Redis is down or the command fails |
| RateLimit.WindowBound | services/api-gateway/src/rate-limit/rate-limit.guard.ts:51-69 | While Redis is healthy, of the requests of an identity that fall into a window, any window of any history, exactly max are admitted, or all if there are fewer |
| RateLimit.IntervalBound | services/api-gateway/src/redis/redis.service.ts:43-54 | Any half-open interval of one window's length holds fewer than 2 * max admitted requests of an identity, over any history of any number of identities |
| RateLimit.IntervalBoundIsTight | services/api-gateway/src/redis/redis.service.ts:43-54 | For every max of at least 1 and every window of at least 2 ms, a history that admits 2 * max - 1 requests in one interval of a window's length |
| RateLimit.IdentitiesAreSeparate | services/api-gateway/src/rate-limit/rate-limit.guard.ts:44-46 | One identity's admissions and counter depend on its own requests only |

## Left out

- Multi-instance anomalies: transactions are serialisable by assumption; MVCC is not modelled.
- Integer overflow of the product counters: it aborts the transaction, which is an aborted delivery here.
- Deliveries that abort, retry or end in a dead-letter topic are no steps of the checkout system, because they change no
  table; `KafkaConsumer` models them one message at a time.
- Dead letters stay where they are parked: nothing in the repository consumes the DLQ topics, and "at rest" means that
  none of a run's messages was lost to them.
- The Kafka consumer class is the order service's; the other services have the same code, and their transactions are
  shown to deduplicate in the same sense.
- StockLedger.ReserveSafeExactlyWhen: lets the counters of one `reserve` grow without bound; with the largest default stock
  an INTEGER holds, an oversell aborts instead, which TakenSafelyExactlyWhen accounts for over runs.
- Outbox row ids and timestamps: rows are kept in insertion order, which stands for `createdAt` order.
- RateLimit.IntervalBound: assumes a healthy Redis throughout, and max and window positive; a failing Redis admits
  everything, by design, and with max 0 nothing is admitted (`RateLimit.NothingAdmitted`).
- The instant at which a Redis key expires relative to a command is modelled as a half-open interval.
- Response timestamps (`createdAt`) and the logger.
- JSON encoding, SHA-256, UUID syntax, event versions and the envelope's metadata.
- The DLQ topic name table and error strings.
- Notification texts and `fmt`.
- Reading an order (`findOne`) and `toResponse`'s field copying beyond the snapshot.
- JWT issuing and checking, request ids, the proxy, health checks, configuration, module wiring, containers, load tests.
