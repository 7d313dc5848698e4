/** New orders, and deliveries to the order service's saga, keep the invariant. */
module OrderDelivery {
  import opened Events
  import opened Outbox
  import opened Checkout
  import opened CheckoutInvariant
  import opened Tables
  import opened DeliverySteps
  import Orders
  import OrderSteps
  import StockLedger

  // ---- POST /orders ----------------------------------------------------------------

  lemma NewOrderOpens(dto: Orders.Dto, ids: Orders.Ids)
    requires Orders.ValidDto(dto) && Orders.FitsColumns(dto.items)
    ensures var order := Orders.NewOrder(dto, ids);
            OrderSteps.Opens(ids.orderId, order, Orders.CreatedEvent(order, ids))
  {
  }

  lemma OrderSlotIsNew(c: Config, s: System, o: Uuid, kind: Kind)
    requires Agree(c, OrdT(s), PayT(s), InvT(s)) && o !in s.ord.orders
    ensures Slot(o, kind) !in Slots(AllStaged(s))
  {
    hide Agree;
    forall e | e in AllStaged(s) ensures SlotOf(e) != Slot(o, kind) {
      Origin(c, s, e);
    }
  }

  lemma PostKeeps(c: Config, s: System, step: Step)
    requires Inv(c, s) && step.Post? && Enabled(s, step)
    ensures Inv(c, Apply(c, s, step))
  {
    hide Agree, BooksOk, NtfLink, StockLedger.DbBalanced, RelayOk, DistinctSlots, OnePerSlot, Caused,
         Orders.FitsColumns, Orders.ValidDto, OrderSteps.Opens;
    var next := Apply(c, s, step);
    var ids := step.ids;
    var drawn := {ids.orderId, ids.correlationId, ids.eventId};
    assert ids.eventId in drawn && ids.orderId in drawn;
    var order := Orders.NewOrder(step.dto, ids);
    var f := Orders.CreatedEvent(order, ids);
    NewOrderOpens(step.dto, ids);
    assert next.ord == Orders.CreateOrder(s.ord, step.key, step.hash, step.dto, ids).db;
    EnqueueFacts(s.ord.outbox, f);
    OrderSlotIsNew(c, s, ids.orderId, Created);
    EnqueueDistinct(s.ord.outbox, f);
    assert AllStaged(next) == AllStaged(s) + {f};
    FreshIsUnprocessed(AllStaged(s), s.ord.orders.Keys, s.used, HandledBy(s), s.log, ids.eventId);
    NewIsCaused(s.log, f);
    StagingKeepsBooks(AllStaged(s), s.ord.orders.Keys, s.used, HandledBy(s), s.log, f, drawn);
    StagingKeepsNtf(AllStaged(s), s.ntf, f);
    OrderSteps.InsertedAgree(c, OrdT(s), PayT(s), InvT(s), ids.orderId, order, f);
    RelayGrows(s.ord.outbox, s.ordRelay, s.log, f);
    assert next.ord.orders.Keys <= s.ord.orders.Keys + drawn;
  }

  lemma NewIsCaused(log: seq<Event>, f: Event)
    requires f.payload.OrderCreated?
    ensures Caused(log, SlotOf(f))
  {
  }

  // ---- the saga --------------------------------------------------------------------

  /** What the outcome event says about the leg it reports. */
  lemma OutcomeIsTrue(c: Config, s: System, m: Event)
    requires Agree(c, OrdT(s), PayT(s), InvT(s)) && m in AllStaged(s) && Orders.Subscribed(m.payload)
    ensures m in Staged(s.pay.outbox) || m in Staged(s.inv.outbox)
    ensures m.orderId in s.ord.orders
    ensures m.payload.PaymentCompleted? ==> m.orderId in s.pay.payments && s.pay.payments[m.orderId].completed
    ensures m.payload.PaymentFailed? ==> m.orderId in s.pay.payments && !s.pay.payments[m.orderId].completed
    ensures m.payload.InventoryReserved? ==> m.orderId in s.inv.reservations
    ensures m.payload.InventoryRejected? ==>
              m.orderId !in s.inv.reservations && Slot(m.orderId, InventoryOutcome) in Slots(Staged(s.inv.outbox))
  {
    Origin(c, s, m);
    hide PayLink, InvLink, ReleaseOk, OrdLink, OrdersOk;
    if m in Staged(s.pay.outbox) {
      assert PaymentEventOk(s.pay.payments, m);
    } else {
      assert InventoryEventOk(s.inv.reservations, m);
      assert SlotOf(m) in Slots(Staged(s.inv.outbox));
    }
  }

  /** What recording the outcome `m` makes of a pending order, and what it announces. */
  function Recording(order: Orders.Order, m: Event): Orders.Order
    requires Orders.Subscribed(m.payload)
  {
    var updated := Orders.WithLeg(order, Orders.LegOf(m.payload), Orders.OutcomeOf(m.payload));
    if updated.payment == Orders.Failed || updated.inventory == Orders.Failed then
      updated.(status := Orders.Cancelled)
    else if updated.payment == Orders.Succeeded && updated.inventory == Orders.Succeeded then
      updated.(status := Orders.Confirmed)
    else
      updated
  }

  lemma SagaShape(ord: Orders.Db, m: Event, eventId: Uuid) returns (row: Orders.Order, f: Option<Event>)
    requires Orders.Subscribed(m.payload) && m.eventId !in ord.processed && m.orderId in ord.orders
    requires ord.orders[m.orderId].status == Orders.Pending && LegsOk(ord.orders[m.orderId])
    ensures row == Recording(ord.orders[m.orderId], m)
    ensures OrderSteps.Advances(m.orderId, ord.orders[m.orderId], row, f)
    ensures f.Some? ==> f.value.eventId == eventId
    ensures var next := Orders.Handle(ord, m, eventId);
            && next.orders == ord.orders[m.orderId := row]
            && next.outbox == (if f.Some? then Enqueue(ord.outbox, f.value) else ord.outbox)
            && next.processed == ord.processed + [m.eventId]
  {
    row := Recording(ord.orders[m.orderId], m);
    var reason := if row.payment == Orders.Failed then PaymentFailure else OutOfStock;
    f := match row.status
         case Pending => None
         case Confirmed => Some(Event(eventId, row.correlationId, m.orderId,
                                      OrderConfirmed(row.customerId, row.totalAmountCents)))
         case Cancelled => Some(Event(eventId, row.correlationId, m.orderId, OrderCancelled(row.customerId, reason)));
  }

  lemma PendingOrder(c: Config, s: System, o: Uuid)
    requires Agree(c, OrdT(s), PayT(s), InvT(s)) && o in s.ord.orders
    ensures LegsOk(s.ord.orders[o]) && LegFacts(PayT(s), InvT(s), o, s.ord.orders[o])
    ensures s.ord.orders[o].status == Orders.Pending ==> Slot(o, Settled) !in Slots(Staged(s.ord.outbox))
  {
    hide PayLink, InvLink, ReleaseOk, PaymentsOk, InventoryOk;
    assert Announced(s.ord.orders, Staged(s.ord.outbox));
  }

  lemma SettledSlotIsNew(c: Config, s: System, o: Uuid)
    requires Agree(c, OrdT(s), PayT(s), InvT(s)) && Slot(o, Settled) !in Slots(Staged(s.ord.outbox))
    ensures Slot(o, Settled) !in Slots(AllStaged(s))
  {
    hide Agree;
    forall e | e in AllStaged(s) ensures SlotOf(e) != Slot(o, Settled) {
      Origin(c, s, e);
    }
  }

  lemma RecordingFacts(c: Config, s: System, m: Event)
    requires Agree(c, OrdT(s), PayT(s), InvT(s)) && m in AllStaged(s) && Orders.Subscribed(m.payload)
    requires m.orderId in s.ord.orders && s.ord.orders[m.orderId].status == Orders.Pending
    ensures var row := Recording(s.ord.orders[m.orderId], m);
            LegFacts(PayT(s), InvT(s), m.orderId, row) && Recorded(s.ord.orders[m.orderId := row], m)
  {
    hide Agree;
    OutcomeIsTrue(c, s, m);
    PendingOrder(c, s, m.orderId);
  }

  lemma CausedByOutcome(log: seq<Event>, m: Event)
    requires m in log && Orders.Subscribed(m.payload)
    ensures Caused(log, Slot(m.orderId, Settled))
  {
    assert SlotOf(m) == Slot(m.orderId, PaymentOutcome) || SlotOf(m) == Slot(m.orderId, InventoryOutcome);
  }

  lemma SettlementSlot(o: Uuid, was: Orders.Order, row: Orders.Order, f: Option<Event>)
    requires OrderSteps.Advances(o, was, row, f)
    ensures f.Some? ==> SlotOf(f.value) == Slot(o, Settled)
  {
  }

  /** Recording an outcome that settles nothing yet. */
  lemma RecordKeeps(c: Config, s: System, m: Event, next: System, row: Orders.Order)
    requires Inv(c, s) && m in AllStaged(s) && Orders.Subscribed(m.payload) && m.eventId !in s.ord.processed
    requires m.orderId in s.ord.orders && OrderSteps.Advances(m.orderId, s.ord.orders[m.orderId], row, None)
    requires row == Recording(s.ord.orders[m.orderId], m)
    requires next == s.(ord := next.ord)
    requires next.ord.orders == s.ord.orders[m.orderId := row]
    requires next.ord.outbox == s.ord.outbox && next.ord.processed == s.ord.processed + [m.eventId]
    ensures Inv(c, next)
  {
    hide Agree, BooksOk, NtfLink, StockLedger.DbBalanced, RelayOk, DistinctSlots, OnePerSlot, LegFacts,
         Recorded, OrderSteps.Advances, Recording;
    OrderHasUniqueEvents(c, s, m);
    OutcomeIsTrue(c, s, m);
    OrderIsPending(m.orderId, s.ord.orders[m.orderId], row, None);
    RecordingFacts(c, s, m);
    assert AllStaged(next) == AllStaged(s);
    assert next.ord.orders.Keys == s.ord.orders.Keys;
    HandlingKeepsBooks(AllStaged(s), s.ord.orders.Keys, s.used, HandledBy(s), s.log, m, OrderService, HandledBy(next));
    OrderSteps.AdvancedAgree(c, OrdT(s), PayT(s), InvT(s), m, row, None);
  }

  lemma OrderIsPending(o: Uuid, was: Orders.Order, row: Orders.Order, f: Option<Event>)
    requires OrderSteps.Advances(o, was, row, f)
    ensures was.status == Orders.Pending
  {
  }

  /** Recording an outcome that settles the order, announced by `f`. */
  lemma SettleKeeps(c: Config, s: System, m: Event, next: System, row: Orders.Order, f: Event, ids: set<Uuid>)
    requires Inv(c, s) && m in s.log && m in AllStaged(s) && Orders.Subscribed(m.payload)
    requires m.eventId !in s.ord.processed && f.eventId !in s.used && f.eventId in ids
    requires m.orderId in s.ord.orders && OrderSteps.Advances(m.orderId, s.ord.orders[m.orderId], row, Some(f))
    requires row == Recording(s.ord.orders[m.orderId], m)
    requires next == s.(ord := next.ord, used := s.used + ids)
    requires next.ord.orders == s.ord.orders[m.orderId := row]
    requires next.ord.outbox == Enqueue(s.ord.outbox, f) && next.ord.processed == s.ord.processed + [m.eventId]
    ensures Inv(c, next)
  {
    hide Agree, BooksOk, NtfLink, StockLedger.DbBalanced, RelayOk, DistinctSlots, OnePerSlot, Caused, LegFacts,
         Recorded, OrderSteps.Advances, Recording, LegsOk;
    OrderHasUniqueEvents(c, s, m);
    OutcomeIsTrue(c, s, m);
    OrderIsPending(m.orderId, s.ord.orders[m.orderId], row, Some(f));
    PendingOrder(c, s, m.orderId);
    RecordingFacts(c, s, m);
    FreshIsUnprocessed(AllStaged(s), s.ord.orders.Keys, s.used, HandledBy(s), s.log, f.eventId);
    SettlementSlot(m.orderId, s.ord.orders[m.orderId], row, Some(f));
    EnqueueFacts(s.ord.outbox, f);
    SettledSlotIsNew(c, s, m.orderId);
    EnqueueDistinct(s.ord.outbox, f);
    CausedByOutcome(s.log, m);
    assert AllStaged(next) == AllStaged(s) + {f};
    AnsweringKeepsBooks(c, s, next, m, OrderService, f, ids);
    RelayGrows(s.ord.outbox, s.ordRelay, s.log, f);
    OrderSteps.AdvancedAgree(c, OrdT(s), PayT(s), InvT(s), m, row, Some(f));
  }

  lemma AdvanceKeeps(c: Config, s: System, m: Event, rowId: Uuid, eventId: Uuid)
    requires Inv(c, s) && m in s.log && m in AllStaged(s) && Orders.Subscribed(m.payload)
    requires m.eventId !in s.ord.processed && eventId !in s.used
    requires m.orderId in s.ord.orders && s.ord.orders[m.orderId].status == Orders.Pending
    ensures Inv(c, s.(ord := Orders.Handle(s.ord, m, eventId), used := s.used + {rowId, eventId}))
  {
    PendingOrder(c, s, m.orderId);
    hide Inv, OrderSteps.Advances, Recording, Orders.Handle, LegsOk, LegFacts;
    var row, f := SagaShape(s.ord, m, eventId);
    var next := s.(ord := Orders.Handle(s.ord, m, eventId));
    if f.Some? {
      SettleKeeps(c, s, m, next.(used := s.used + {rowId, eventId}), row, f.value, {rowId, eventId});
    } else {
      RecordKeeps(c, s, m, next, row);
      NoChangeKeeps(c, next, {rowId, eventId});
    }
  }

  lemma IgnoreKeeps(c: Config, s: System, m: Event, eventId: Uuid)
    requires Inv(c, s) && m in AllStaged(s) && Orders.Subscribed(m.payload) && m.eventId !in s.ord.processed
    requires m.orderId in s.ord.orders && s.ord.orders[m.orderId].status != Orders.Pending
    ensures Inv(c, s.(ord := Orders.Handle(s.ord, m, eventId)))
  {
    hide Agree, BooksOk, NtfLink, StockLedger.DbBalanced, RelayOk, DistinctSlots, OnePerSlot;
    var next := s.(ord := Orders.Handle(s.ord, m, eventId));
    OrderHasUniqueEvents(c, s, m);
    assert AllStaged(next) == AllStaged(s);
    HandlingKeepsBooks(AllStaged(s), s.ord.orders.Keys, s.used, HandledBy(s), s.log, m, OrderService, HandledBy(next));
    OrderSteps.IgnoredAgree(c, OrdT(s), PayT(s), InvT(s), m);
  }
}
