/** The order service's transactions keep the tables in agreement. */
module OrderSteps {
  import opened Events
  import opened Outbox
  import opened Checkout
  import opened Tables
  import Orders

  // ---- a new order -----------------------------------------------------------------

  ghost function Inserted(ord: OrderTables, o: Uuid, order: Orders.Order, f: Event): OrderTables {
    OrderTables(ord.orders[o := order], ord.events + {f}, ord.processed)
  }

  ghost predicate Opens(o: Uuid, order: Orders.Order, f: Event) {
    && order.status == Orders.Pending && order.payment == Orders.LegPending && order.inventory == Orders.LegPending
    && SaleOk(order)
    && f.orderId == o && f.payload.OrderCreated? && f.correlationId == order.correlationId
    && f.payload.customerId == order.customerId && f.payload.items == order.items
    && f.payload.totalAmountCents == order.totalAmountCents && f.payload.currency == order.currency
  }

  lemma SlotKnown(ord: OrderTables, slot: Slot)
    requires OrdersOk(ord) && slot in Slots(ord.events)
    ensures slot.orderId in ord.orders
  {
    var e :| e in ord.events && SlotOf(e) == slot;
    assert OrderEventOk(ord.orders, e);
  }

  lemma InsertedOrdersOk(ord: OrderTables, o: Uuid, order: Orders.Order, f: Event)
    requires OrdersOk(ord) && o !in ord.orders && Opens(o, order, f)
    ensures OrdersOk(Inserted(ord, o, order, f))
  {
    var next := Inserted(ord, o, order, f);
    assert Slots(next.events) == Slots(ord.events) + {SlotOf(f)};
    if Slot(o, Settled) in Slots(ord.events) { SlotKnown(ord, Slot(o, Settled)); }
    forall e | e in next.events ensures OrderEventOk(next.orders, e) {
      if e in ord.events { assert OrderEventOk(ord.orders, e); }
    }
  }

  lemma InsertedLinks(c: Config, ord: OrderTables, pay: PaymentTables, inv: InventoryTables,
                      o: Uuid, order: Orders.Order, f: Event)
    requires PayLink(c, ord, pay) && InvLink(ord, inv) && o !in ord.orders && Opens(o, order, f)
    requires f.eventId !in pay.processed && f.eventId !in inv.processed
    ensures PayLink(c, Inserted(ord, o, order, f), pay) && InvLink(Inserted(ord, o, order, f), inv)
  {
  }

  lemma InsertedReleaseOk(ord: OrderTables, inv: InventoryTables, o: Uuid, order: Orders.Order, f: Event)
    requires OrdersOk(ord) && ReleaseOk(ord, inv) && o !in ord.orders && Opens(o, order, f)
    ensures ReleaseOk(Inserted(ord, o, order, f), inv)
  {
    var next := Inserted(ord, o, order, f);
    forall e, x | IsCreated(next, e) && IsCancelled(next, x) && x.orderId == e.orderId
      ensures e.orderId in inv.reservations ==>
        (inv.reservations[e.orderId].released <==> Before(inv.processed, e.eventId, x.eventId))
    {
      assert IsCancelled(ord, x) && OrderEventOk(ord.orders, x);
    }
  }

  lemma InsertedOrdLink(ord: OrderTables, pay: PaymentTables, inv: InventoryTables,
                        o: Uuid, order: Orders.Order, f: Event)
    requires OrdLink(ord, pay, inv) && o !in ord.orders && Opens(o, order, f)
    ensures OrdLink(Inserted(ord, o, order, f), pay, inv)
  {
    var next := Inserted(ord, o, order, f);
    forall x | x in next.orders ensures LegFacts(pay, inv, x, next.orders[x]) {
      if x != o { assert LegFacts(pay, inv, x, ord.orders[x]); }
    }
    forall e | (e in pay.events || e in inv.events) && e.eventId in ord.processed ensures Recorded(next.orders, e) {
      assert Recorded(ord.orders, e);
    }
  }

  lemma InsertedAgree(c: Config, ord: OrderTables, pay: PaymentTables, inv: InventoryTables,
                      o: Uuid, order: Orders.Order, f: Event)
    requires Agree(c, ord, pay, inv) && o !in ord.orders && Opens(o, order, f)
    requires f.eventId !in pay.processed && f.eventId !in inv.processed
    ensures Agree(c, Inserted(ord, o, order, f), pay, inv)
  {
    InsertedOrdersOk(ord, o, order, f);
    InsertedLinks(c, ord, pay, inv, o, order, f);
    InsertedReleaseOk(ord, inv, o, order, f);
    InsertedOrdLink(ord, pay, inv, o, order, f);
  }

  // ---- a leg's outcome -------------------------------------------------------------

  /** The order row goes from pending to `row`; `f` announces the settlement, if there is one. */
  ghost function Advanced(ord: OrderTables, m: Event, row: Orders.Order, f: Option<Event>): OrderTables {
    OrderTables(ord.orders[m.orderId := row],
                if f.Some? then ord.events + {f.value} else ord.events,
                ord.processed + [m.eventId])
  }

  ghost predicate SameSale(a: Orders.Order, b: Orders.Order) {
    && a.customerId == b.customerId && a.totalAmountCents == b.totalAmountCents && a.currency == b.currency
    && a.correlationId == b.correlationId && a.items == b.items
  }

  ghost predicate Settles(o: Uuid, row: Orders.Order, f: Event) {
    && f.orderId == o && f.correlationId == row.correlationId
    && f.payload.OrderCancelled? == (row.status == Orders.Cancelled)
    && (f.payload.OrderConfirmed? || f.payload.OrderCancelled?)
    && f.payload.customerId == row.customerId
    && (f.payload.OrderConfirmed? ==> f.payload.totalAmountCents == row.totalAmountCents)
    && (f.payload.OrderCancelled? ==> (f.payload.reason == PaymentFailure <==> row.payment == Orders.Failed))
  }

  /** `row` is what recording one outcome may turn the pending order `was` into. */
  ghost predicate Advances(o: Uuid, was: Orders.Order, row: Orders.Order, f: Option<Event>) {
    && was.status == Orders.Pending && SameSale(was, row) && LegsOk(row)
    && (was.payment != Orders.LegPending ==> row.payment != Orders.LegPending)
    && (was.inventory != Orders.LegPending ==> row.inventory != Orders.LegPending)
    && f.Some? == (row.status != Orders.Pending)
    && (f.Some? ==> Settles(o, row, f.value))
  }

  lemma AdvancedOrdersOk(ord: OrderTables, m: Event, row: Orders.Order, f: Option<Event>)
    requires OrdersOk(ord) && m.orderId in ord.orders && Advances(m.orderId, ord.orders[m.orderId], row, f)
    ensures OrdersOk(Advanced(ord, m, row, f))
  {
    var next := Advanced(ord, m, row, f);
    if f.Some? { assert Slots(next.events) == Slots(ord.events) + {SlotOf(f.value)}; }
    forall e | e in next.events ensures OrderEventOk(next.orders, e) {
      if e in ord.events {
        assert OrderEventOk(ord.orders, e);
        assert SlotOf(e) in Slots(ord.events);
      }
    }
  }

  lemma AdvancedOtherLinks(c: Config, ord: OrderTables, pay: PaymentTables, inv: InventoryTables,
                           m: Event, row: Orders.Order, f: Option<Event>)
    requires PayLink(c, ord, pay) && InvLink(ord, inv)
    requires m.orderId in ord.orders && Advances(m.orderId, ord.orders[m.orderId], row, f)
    ensures PayLink(c, Advanced(ord, m, row, f), pay) && InvLink(Advanced(ord, m, row, f), inv)
  {
    var next := Advanced(ord, m, row, f);
    assert forall e :: IsCreated(next, e) <==> IsCreated(ord, e);
  }

  lemma AdvancedReleaseOk(ord: OrderTables, inv: InventoryTables, m: Event, row: Orders.Order, f: Option<Event>)
    requires ReleaseOk(ord, inv) && InvLink(ord, inv)
    requires m.orderId in ord.orders && Advances(m.orderId, ord.orders[m.orderId], row, f)
    requires f.Some? ==> f.value.eventId !in inv.processed
    ensures ReleaseOk(Advanced(ord, m, row, f), inv)
  {
    var next := Advanced(ord, m, row, f);
    forall e, x | IsCreated(next, e) && IsCancelled(next, x) && x.orderId == e.orderId
      ensures e.orderId in inv.reservations ==>
        (inv.reservations[e.orderId].released <==> Before(inv.processed, e.eventId, x.eventId))
    {
      assert IsCreated(ord, e);
      if x in ord.events { assert IsCancelled(ord, x); }
    }
  }

  lemma AdvancedOrdLink(ord: OrderTables, pay: PaymentTables, inv: InventoryTables,
                        m: Event, row: Orders.Order, f: Option<Event>)
    requires OrdLink(ord, pay, inv)
    requires m.orderId in ord.orders && Advances(m.orderId, ord.orders[m.orderId], row, f)
    requires m in pay.events || m in inv.events
    requires forall e :: (e in pay.events || e in inv.events) && e.eventId == m.eventId ==> e == m
    requires LegFacts(pay, inv, m.orderId, row) && Recorded(ord.orders[m.orderId := row], m)
    ensures OrdLink(Advanced(ord, m, row, f), pay, inv)
  {
    var next := Advanced(ord, m, row, f);
    forall e | e in pay.events && e.eventId in next.processed ensures Recorded(next.orders, e) {
      if e.eventId in ord.processed { assert Recorded(ord.orders, e); }
    }
    forall e | e in inv.events && e.eventId in next.processed ensures Recorded(next.orders, e) {
      if e.eventId in ord.processed { assert Recorded(ord.orders, e); }
    }
  }

  lemma AdvancedAgree(c: Config, ord: OrderTables, pay: PaymentTables, inv: InventoryTables,
                      m: Event, row: Orders.Order, f: Option<Event>)
    requires Agree(c, ord, pay, inv)
    requires m.orderId in ord.orders && Advances(m.orderId, ord.orders[m.orderId], row, f)
    requires m in pay.events || m in inv.events
    requires forall e :: (e in pay.events || e in inv.events) && e.eventId == m.eventId ==> e == m
    requires LegFacts(pay, inv, m.orderId, row) && Recorded(ord.orders[m.orderId := row], m)
    requires f.Some? ==> f.value.eventId !in inv.processed
    ensures Agree(c, Advanced(ord, m, row, f), pay, inv)
  {
    AdvancedOrdersOk(ord, m, row, f);
    AdvancedOtherLinks(c, ord, pay, inv, m, row, f);
    AdvancedReleaseOk(ord, inv, m, row, f);
    AdvancedOrdLink(ord, pay, inv, m, row, f);
  }

  /** An outcome for a settled order only marks the event as handled. */
  ghost function Ignored(ord: OrderTables, m: Event): OrderTables {
    ord.(processed := ord.processed + [m.eventId])
  }

  lemma IgnoredOrdersOk(ord: OrderTables, m: Event)
    requires OrdersOk(ord)
    ensures OrdersOk(Ignored(ord, m))
  {
  }

  lemma IgnoredLinks(c: Config, ord: OrderTables, pay: PaymentTables, inv: InventoryTables, m: Event)
    requires PayLink(c, ord, pay) && InvLink(ord, inv) && ReleaseOk(ord, inv)
    ensures PayLink(c, Ignored(ord, m), pay) && InvLink(Ignored(ord, m), inv) && ReleaseOk(Ignored(ord, m), inv)
  {
    var next := Ignored(ord, m);
    assert forall e :: IsCreated(next, e) <==> IsCreated(ord, e);
    assert forall e :: IsCancelled(next, e) <==> IsCancelled(ord, e);
  }

  lemma IgnoredOrdLink(ord: OrderTables, pay: PaymentTables, inv: InventoryTables, m: Event)
    requires OrdLink(ord, pay, inv) && m.orderId in ord.orders && ord.orders[m.orderId].status != Orders.Pending
    requires forall e :: (e in pay.events || e in inv.events) && e.eventId == m.eventId ==> e == m
    ensures OrdLink(Ignored(ord, m), pay, inv)
  {
    forall e | (e in pay.events || e in inv.events) && e.eventId in Ignored(ord, m).processed
      ensures Recorded(ord.orders, e)
    {
      if e.eventId in ord.processed { assert Recorded(ord.orders, e); }
    }
  }

  lemma IgnoredAgree(c: Config, ord: OrderTables, pay: PaymentTables, inv: InventoryTables, m: Event)
    requires Agree(c, ord, pay, inv) && m.orderId in ord.orders && ord.orders[m.orderId].status != Orders.Pending
    requires forall e :: (e in pay.events || e in inv.events) && e.eventId == m.eventId ==> e == m
    ensures Agree(c, Ignored(ord, m), pay, inv)
  {
    IgnoredOrdersOk(ord, m);
    IgnoredLinks(c, ord, pay, inv, m);
    IgnoredOrdLink(ord, pay, inv, m);
  }
}
