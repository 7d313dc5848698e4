/** What the tables of the four services promise about themselves and about each other. The publication flags of
    the outboxes play no part here: of an outbox only the set of staged events counts. */
module Tables {
  import opened Events
  import opened Outbox
  import opened Totals
  import opened Checkout
  import Orders
  import Payments
  import Inventory
  import Notifications

  datatype OrderTables = OrderTables(orders: map<Uuid, Orders.Order>, events: set<Event>, processed: seq<Uuid>)

  datatype PaymentTables =
    PaymentTables(payments: map<Uuid, Payments.Payment>, events: set<Event>, processed: seq<Uuid>)

  datatype InventoryTables =
    InventoryTables(reservations: map<Uuid, Inventory.Reservation>, events: set<Event>, processed: seq<Uuid>)

  /** No moment of an order is announced by two different events. */
  ghost predicate OnePerSlot(events: set<Event>) {
    forall a, b :: a in events && b in events && SlotOf(a) == SlotOf(b) ==> a == b
  }

  // ---- the order service -----------------------------------------------------------

  /** A staged event of the order service tells the truth about its order. */
  ghost predicate OrderEventOk(orders: map<Uuid, Orders.Order>, e: Event) {
    && e.orderId in orders
    && var order := orders[e.orderId];
    && e.correlationId == order.correlationId
    && KindOf(e.payload) in {Created, Settled}
    && e.payload.customerId == order.customerId
    && (e.payload.OrderCreated? ==>
          && e.payload.items == order.items
          && e.payload.totalAmountCents == order.totalAmountCents
          && e.payload.currency == order.currency)
    && (e.payload.OrderConfirmed? ==>
          order.status == Orders.Confirmed && e.payload.totalAmountCents == order.totalAmountCents)
    && (e.payload.OrderCancelled? ==>
          && order.status == Orders.Cancelled
          && (e.payload.reason == PaymentFailure <==> order.payment == Orders.Failed))
  }

  /** The status is a function of the two legs. */
  ghost predicate LegsOk(order: Orders.Order) {
    match order.status
    case Pending =>
      && order.payment != Orders.Failed && order.inventory != Orders.Failed
      && !(order.payment == Orders.Succeeded && order.inventory == Orders.Succeeded)
    case Confirmed => order.payment == Orders.Succeeded && order.inventory == Orders.Succeeded
    case Cancelled => order.payment == Orders.Failed || order.inventory == Orders.Failed
  }

  /** The stored total is the exact sum of its positive lines. */
  ghost predicate SaleOk(order: Orders.Order) {
    && order.items != [] && PositiveItems(order.items)
    && order.totalAmountCents == ExactTotal(order.items) && FitsInteger(order.totalAmountCents)
  }

  /** Every order was announced, and its settlement is announced exactly when it is settled. */
  ghost predicate Announced(orders: map<Uuid, Orders.Order>, events: set<Event>) {
    forall o :: o in orders ==>
      && Slot(o, Created) in Slots(events)
      && (orders[o].status != Orders.Pending <==> Slot(o, Settled) in Slots(events))
  }

  ghost predicate OrdersOk(t: OrderTables) {
    && (forall e :: e in t.events ==> OrderEventOk(t.orders, e))
    && Announced(t.orders, t.events)
    && (forall o :: o in t.orders ==> LegsOk(t.orders[o]) && SaleOk(t.orders[o]))
  }

  ghost predicate IsCreated(t: OrderTables, e: Event) {
    e in t.events && e.payload.OrderCreated?
  }

  ghost predicate IsCancelled(t: OrderTables, e: Event) {
    e in t.events && e.payload.OrderCancelled?
  }

  // ---- the payment service ---------------------------------------------------------

  ghost predicate PaymentEventOk(payments: map<Uuid, Payments.Payment>, e: Event) {
    && e.orderId in payments
    && var payment := payments[e.orderId];
    && KindOf(e.payload) == PaymentOutcome
    && e.payload.customerId == payment.customerId
    && payment.completed == e.payload.PaymentCompleted?
    && (e.payload.PaymentCompleted? ==>
          e.payload.paymentId == payment.id && e.payload.amountChargedCents == payment.amountCents)
  }

  ghost predicate PaymentsOk(t: PaymentTables) {
    && (forall e :: e in t.events ==> PaymentEventOk(t.payments, e))
    && (forall o :: o in t.payments ==> Slot(o, PaymentOutcome) in Slots(t.events))
  }

  ghost predicate PaymentAgrees(c: Config, order: Orders.Order, payment: Payments.Payment) {
    && payment.customerId == order.customerId
    && payment.amountCents == order.totalAmountCents
    && (payment.completed <==> !Payments.Declined(order.totalAmountCents, c.declineEndsIn))
  }

  /** Shortfalls name lines of the order, each asking for more than was available. */
  ghost predicate ShortOf(lines: seq<Line>, shortfalls: seq<Shortfall>) {
    && shortfalls != []
    && forall f :: f in shortfalls ==> Line(f.productId, f.requested) in lines && f.available < f.requested
  }

  /** Events of another service name known orders, carry their correlation id, and reject nothing but what is short. */
  ghost predicate Correlated(orders: map<Uuid, Orders.Order>, events: set<Event>) {
    forall e :: e in events ==>
      && e.orderId in orders && e.correlationId == orders[e.orderId].correlationId
      && (e.payload.InventoryRejected? ==> ShortOf(LinesOf(orders[e.orderId].items), e.payload.shortfalls))
  }

  /** A payment row for exactly the created orders the payment service has handled, for the order's total. */
  ghost predicate PayLink(c: Config, ord: OrderTables, pay: PaymentTables) {
    && (forall o :: o in pay.payments ==> o in ord.orders && PaymentAgrees(c, ord.orders[o], pay.payments[o]))
    && (forall e :: IsCreated(ord, e) ==> (e.eventId in pay.processed <==> e.orderId in pay.payments))
    && Correlated(ord.orders, pay.events)
  }

  // ---- the inventory service -------------------------------------------------------

  ghost predicate InventoryEventOk(reservations: map<Uuid, Inventory.Reservation>, e: Event) {
    && KindOf(e.payload) == InventoryOutcome
    && (e.payload.InventoryReserved? ==>
          && e.orderId in reservations
          && reservations[e.orderId].id == e.payload.reservationId
          && reservations[e.orderId].lines == e.payload.lines)
    && (e.payload.InventoryRejected? ==> e.orderId !in reservations)
  }

  ghost predicate InventoryOk(t: InventoryTables) {
    && (forall e :: e in t.events ==> InventoryEventOk(t.reservations, e))
    && (forall o :: o in t.reservations ==> Slot(o, InventoryOutcome) in Slots(t.events))
  }

  ghost predicate ReservationAgrees(order: Orders.Order, r: Inventory.Reservation) {
    && r.lines == LinesOf(order.items)
    && (r.released ==> order.status == Orders.Cancelled)
  }

  ghost predicate InvLink(ord: OrderTables, inv: InventoryTables) {
    && (forall o :: o in inv.reservations ==>
          o in ord.orders && ReservationAgrees(ord.orders[o], inv.reservations[o]))
    && (forall e :: IsCreated(ord, e) ==>
          (e.eventId in inv.processed <==> Slot(e.orderId, InventoryOutcome) in Slots(inv.events)))
    && Correlated(ord.orders, inv.events)
  }

  /** A reservation is released exactly when its order's creation was handled before its cancellation. */
  ghost predicate ReleaseOk(ord: OrderTables, inv: InventoryTables) {
    forall e, x | IsCreated(ord, e) && IsCancelled(ord, x) && x.orderId == e.orderId ::
      e.orderId in inv.reservations ==>
        (inv.reservations[e.orderId].released <==> Before(inv.processed, e.eventId, x.eventId))
  }

  // ---- the saga follows its legs ---------------------------------------------------

  ghost predicate LegFacts(pay: PaymentTables, inv: InventoryTables, o: Uuid, order: Orders.Order) {
    && (order.payment == Orders.Succeeded ==> o in pay.payments && pay.payments[o].completed)
    && (order.payment == Orders.Failed ==> o in pay.payments && !pay.payments[o].completed)
    && (order.inventory == Orders.Succeeded ==> o in inv.reservations)
    && (order.inventory == Orders.Failed ==>
          Slot(o, InventoryOutcome) in Slots(inv.events) && o !in inv.reservations)
  }

  /** A handled outcome left its mark, unless the order was settled already. */
  ghost predicate Recorded(orders: map<Uuid, Orders.Order>, e: Event) {
    && e.orderId in orders
    && (orders[e.orderId].status == Orders.Pending ==>
          (if KindOf(e.payload) == PaymentOutcome then orders[e.orderId].payment else orders[e.orderId].inventory)
            != Orders.LegPending)
  }

  ghost predicate OrdLink(ord: OrderTables, pay: PaymentTables, inv: InventoryTables) {
    && (forall o :: o in ord.orders ==> LegFacts(pay, inv, o, ord.orders[o]))
    && (forall e :: e in pay.events && e.eventId in ord.processed ==> Recorded(ord.orders, e))
    && (forall e :: e in inv.events && e.eventId in ord.processed ==> Recorded(ord.orders, e))
  }

  // ---- notifications ---------------------------------------------------------------

  ghost predicate Notifies(events: set<Event>, e: Event) {
    e in events && Notifications.Subscribed(e.payload)
  }

  function NoticeKey(e: Event): (Uuid, Notifications.NotificationKind)
    requires Notifications.Subscribed(e.payload)
  {
    (e.orderId, Notifications.NoticeOf(e.payload))
  }

  ghost predicate NtfLink(events: set<Event>, ntf: Notifications.Db) {
    && (forall e :: Notifies(events, e) ==> (e.eventId in ntf.processed <==> NoticeKey(e) in ntf.notifications))
    && (forall e :: Notifies(events, e) && NoticeKey(e) in ntf.notifications ==>
          ntf.notifications[NoticeKey(e)] == e.payload.customerId)
    && (forall k :: k in ntf.notifications ==> exists e :: Notifies(events, e) && k == NoticeKey(e))
  }

  // ---- identifiers -----------------------------------------------------------------

  ghost predicate IdsOk(events: set<Event>, orders: set<Uuid>, used: set<Uuid>) {
    && (forall a, b :: a in events && b in events && a.eventId == b.eventId ==> a == b)
    && (forall e :: e in events ==> e.eventId in used)
    && orders <= used
  }

  /** A processed table holds ids of staged events its service subscribes to, each once. */
  ghost predicate ProcessedOk(svc: Service, processed: seq<Uuid>, events: set<Event>) {
    && NoDuplicates(processed)
    && (forall id :: id in processed ==>
          exists e :: e in events && e.eventId == id && Subscribed(svc, e.payload))
  }

  // ---- all tables together ---------------------------------------------------------

  ghost predicate Agree(c: Config, ord: OrderTables, pay: PaymentTables, inv: InventoryTables) {
    && OrdersOk(ord)
    && PaymentsOk(pay)
    && InventoryOk(inv)
    && PayLink(c, ord, pay)
    && InvLink(ord, inv)
    && ReleaseOk(ord, inv)
    && OrdLink(ord, pay, inv)
  }
}
