/** The order service's tables and its two kinds of transaction: creating an order and advancing its saga. */
module Orders {
  import opened Events
  import opened Totals
  import Outbox

  datatype Status = Pending | Confirmed | Cancelled

  datatype LegStatus = LegPending | Succeeded | Failed

  datatype Leg = PaymentLeg | InventoryLeg

  datatype Order = Order(
    customerId: Uuid,
    status: Status,
    payment: LegStatus,
    inventory: LegStatus,
    totalAmountCents: int,
    currency: string,
    correlationId: Uuid,
    items: seq<Item>)

  /** The HTTP response body: a snapshot of the order row. */
  datatype Response = Response(id: Uuid, order: Order)

  datatype KeyStatus = InProgress | Completed

  /** A row of `idempotency_keys`; an IN_PROGRESS row has no response yet. */
  datatype KeyRow = KeyRow(requestHash: string, status: KeyStatus, response: Option<Response>, statusCode: Option<int>)

  datatype Db = Db(
    keys: map<Uuid, KeyRow>,
    orders: map<Uuid, Order>,
    outbox: seq<Outbox.Row>,
    processed: seq<Uuid>)

  const EMPTY := Db(map[], map[], [], [])

  /** A validated request body. */
  datatype Dto = Dto(customerId: Uuid, items: seq<Item>, currency: Option<string>)

  ghost predicate ValidDto(dto: Dto) {
    dto.items != [] && PositiveItems(dto.items)
  }

  /** The identifiers one request draws. */
  datatype Ids = Ids(orderId: Uuid, correlationId: Uuid, eventId: Uuid)

  /** The INTEGER columns of an order row and its item rows. */
  predicate ColumnsTake(total: int, items: seq<Item>) {
    && FitsInteger(total)
    && (forall i :: 0 <= i < |items| ==> FitsInteger(items[i].quantity) && FitsInteger(items[i].unitPriceCents))
  }

  predicate FitsColumns(items: seq<Item>) {
    ColumnsTake(ExactTotal(items), items)
  }

  function NewOrder(dto: Dto, ids: Ids): Order {
    Order(dto.customerId, Pending, LegPending, LegPending, ExactTotal(dto.items),
          if dto.currency.Some? then dto.currency.value else "USD", ids.correlationId, dto.items)
  }

  function CreatedEvent(order: Order, ids: Ids): Event {
    Event(ids.eventId, ids.correlationId, ids.orderId,
      OrderCreated(order.customerId, order.items, order.totalAmountCents, order.currency))
  }

  /** The whole POST transaction: claim the key, insert the order, stage `orders.created`, complete the key. */
  function CreateOrder(db: Db, key: Uuid, hash: string, dto: Dto, ids: Ids): Work<Db> {
    if key in db.keys || ids.orderId in db.orders then
      UniqueViolation
    else if !FitsColumns(dto.items) then
      Throws
    else
      var order := NewOrder(dto, ids);
      Commit(Db(
        db.keys[key := KeyRow(hash, Completed, Some(Response(ids.orderId, order)), Some(201))],
        db.orders[ids.orderId := order],
        Outbox.Enqueue(db.outbox, CreatedEvent(order, ids)),
        db.processed))
  }

  /** The order row a request asks for. */
  ghost predicate AsRequested(order: Order, dto: Dto, ids: Ids) {
    && order.customerId == dto.customerId && order.items == dto.items
    && order.totalAmountCents == ExactTotal(dto.items)
    && (dto.currency == Some(order.currency) || (dto.currency == None && order.currency == "USD"))
    && order.status == Pending && order.payment == LegPending && order.inventory == LegPending
    && order.correlationId == ids.correlationId
  }

  /** One order was added, as requested, with its replay under the key and one event that says the same. */
  ghost predicate Placed(before: Db, after: Db, key: Uuid, hash: string, dto: Dto, ids: Ids) {
    && ids.orderId in after.orders && after.processed == before.processed
    && var order := after.orders[ids.orderId];
    && AsRequested(order, dto, ids)
    && after.orders == before.orders[ids.orderId := order]
    && after.keys == before.keys[key := KeyRow(hash, Completed, Some(Response(ids.orderId, order)), Some(201))]
    && after.outbox == before.outbox + [Outbox.Row(Event(ids.eventId, ids.correlationId, ids.orderId,
         OrderCreated(dto.customerId, dto.items, ExactTotal(dto.items), order.currency)), false)]
  }

  /** A request is refused on a key or an order id in use, or on a total beyond the INTEGER range, and on nothing else;
      otherwise it does what it asks for. */
  lemma CreatedAsRequested(db: Db, key: Uuid, hash: string, dto: Dto, ids: Ids)
    requires ValidDto(dto)
    ensures var work := CreateOrder(db, key, hash, dto, ids);
            if key in db.keys || ids.orderId in db.orders then work == UniqueViolation
            else if ExactTotal(dto.items) > 2147483647 then work == Throws
            else work.Commit? && Placed(db, work.db, key, hash, dto, ids)
  {
    forall i | 0 <= i < |dto.items|
      ensures FitsInteger(ExactTotal(dto.items)) ==>
                FitsInteger(dto.items[i].quantity) && FitsInteger(dto.items[i].unitPriceCents)
    {
      WithinTotal(dto.items, i);
    }
    TotalIsPositive(dto.items);
    hide ExactTotal, PositiveItems;
  }

  // ---- the saga --------------------------------------------------------------------

  function WithLeg(order: Order, leg: Leg, outcome: LegStatus): Order {
    match leg
    case PaymentLeg => order.(payment := outcome)
    case InventoryLeg => order.(inventory := outcome)
  }

  /** Records one leg's outcome, then settles the order if that decides it. */
  function ApplyLegOutcome(db: Db, orderId: Uuid, leg: Leg, outcome: LegStatus, eventId: Uuid): Db {
    if orderId !in db.orders || db.orders[orderId].status != Pending then
      db
    else
      var updated := WithLeg(db.orders[orderId], leg, outcome);
      if updated.payment == Failed || updated.inventory == Failed then
        var reason := if updated.payment == Failed then PaymentFailure else OutOfStock;
        db.(orders := db.orders[orderId := updated.(status := Cancelled)],
            outbox := Outbox.Enqueue(db.outbox,
              Event(eventId, updated.correlationId, orderId, OrderCancelled(updated.customerId, reason))))
      else if updated.payment == Succeeded && updated.inventory == Succeeded then
        db.(orders := db.orders[orderId := updated.(status := Confirmed)],
            outbox := Outbox.Enqueue(db.outbox,
              Event(eventId, updated.correlationId, orderId,
                OrderConfirmed(updated.customerId, updated.totalAmountCents))))
      else
        db.(orders := db.orders[orderId := updated])
  }

  predicate Subscribed(p: Payload) {
    KindOf(p) == PaymentOutcome || KindOf(p) == InventoryOutcome
  }

  function LegOf(p: Payload): Leg
    requires Subscribed(p)
  {
    if KindOf(p) == PaymentOutcome then PaymentLeg else InventoryLeg
  }

  function OutcomeOf(p: Payload): LegStatus
    requires Subscribed(p)
  {
    if p.PaymentCompleted? || p.InventoryReserved? then Succeeded else Failed
  }

  function Attempt(db: Db, e: Event, eventId: Uuid): Work<Db>
    requires Subscribed(e.payload)
  {
    if e.eventId in db.processed then
      UniqueViolation
    else
      Commit(ApplyLegOutcome(db.(processed := db.processed + [e.eventId]),
        e.orderId, LegOf(e.payload), OutcomeOf(e.payload), eventId))
  }

  /** The same for a message whose ids may be missing or malformed; the database takes only UUIDs. */
  function AttemptIds(db: Db, id: Option<Uuid>, orderId: Option<Uuid>, leg: Leg, outcome: LegStatus, eventId: Uuid)
    : Work<Db>
  {
    if id.None? then Throws
    else if id.value in db.processed then UniqueViolation
    else if orderId.None? then Throws
    else Commit(ApplyLegOutcome(db.(processed := db.processed + [id.value]), orderId.value, leg, outcome, eventId))
  }

  function Handle(db: Db, e: Event, eventId: Uuid): Db {
    if !Subscribed(e.payload) then db
    else
      match Attempt(db, e, eventId)
      case Commit(next) => next
      case _ => db
  }
}
