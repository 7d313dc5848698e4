/** The inventory transactions keep the tables in agreement. */
module InventorySteps {
  import opened Events
  import opened Outbox
  import opened Checkout
  import opened Tables
  import Inventory

  // ---- reserve ---------------------------------------------------------------------

  /** The tables after the creation event `m` was answered with `f`, and with `r` if stock sufficed. */
  ghost function Answered(inv: InventoryTables, m: Event, r: Option<Inventory.Reservation>, f: Event): InventoryTables {
    InventoryTables(
      if r.Some? then inv.reservations[m.orderId := r.value] else inv.reservations,
      inv.events + {f},
      inv.processed + [m.eventId])
  }

  ghost predicate Answers(m: Event, r: Option<Inventory.Reservation>, f: Event) {
    && m.payload.OrderCreated?
    && f.orderId == m.orderId && f.correlationId == m.correlationId
    && KindOf(f.payload) == InventoryOutcome
    && f.payload.InventoryReserved? == r.Some?
    && (r.None? ==> ShortOf(LinesOf(m.payload.items), f.payload.shortfalls))
    && (r.Some? ==> r.value.id == f.payload.reservationId && r.value.lines == f.payload.lines && !r.value.released)
  }

  /** An unhandled creation event has no answer and no reservation yet. */
  lemma Unanswered(ord: OrderTables, inv: InventoryTables, m: Event)
    requires InventoryOk(inv) && InvLink(ord, inv) && IsCreated(ord, m) && m.eventId !in inv.processed
    ensures Slot(m.orderId, InventoryOutcome) !in Slots(inv.events) && m.orderId !in inv.reservations
  {
  }

  lemma AnsweredInventoryOk(inv: InventoryTables, m: Event, r: Option<Inventory.Reservation>, f: Event)
    requires InventoryOk(inv) && Answers(m, r, f)
    requires Slot(m.orderId, InventoryOutcome) !in Slots(inv.events) && m.orderId !in inv.reservations
    ensures InventoryOk(Answered(inv, m, r, f))
  {
    var next := Answered(inv, m, r, f);
    assert Slots(next.events) == Slots(inv.events) + {SlotOf(f)};
    forall e | e in next.events ensures InventoryEventOk(next.reservations, e) {
      if e in inv.events {
        assert InventoryEventOk(inv.reservations, e);
        assert SlotOf(e) in Slots(inv.events);
        assert e.orderId != m.orderId;
      }
    }
  }

  lemma AnsweredInvLink(ord: OrderTables, inv: InventoryTables, m: Event, r: Option<Inventory.Reservation>, f: Event)
    requires InvLink(ord, inv) && IsCreated(ord, m) && OnePerSlot(ord.events)
    requires forall e :: e in ord.events && e.eventId == m.eventId ==> e == m
    requires OrderEventOk(ord.orders, m) && Answers(m, r, f)
    requires r.Some? ==> r.value.lines == LinesOf(m.payload.items)
    ensures InvLink(ord, Answered(inv, m, r, f))
  {
    var next := Answered(inv, m, r, f);
    assert Slots(next.events) == Slots(inv.events) + {SlotOf(f)};
    forall e | IsCreated(ord, e)
      ensures e.eventId in next.processed <==> Slot(e.orderId, InventoryOutcome) in Slots(next.events)
    {
      if e.orderId == m.orderId { assert SlotOf(e) == SlotOf(m); }
    }
  }

  lemma AnsweredReleaseOk(ord: OrderTables, inv: InventoryTables, m: Event, r: Option<Inventory.Reservation>, f: Event)
    requires ReleaseOk(ord, inv) && IsCreated(ord, m) && OnePerSlot(ord.events)
    requires forall e :: e in ord.events && e.eventId == m.eventId ==> e == m
    requires m.eventId !in inv.processed && m.orderId !in inv.reservations && Answers(m, r, f)
    ensures ReleaseOk(ord, Answered(inv, m, r, f))
  {
    var next := Answered(inv, m, r, f);
    forall e, x | IsCreated(ord, e) && IsCancelled(ord, x) && x.orderId == e.orderId
      ensures e.orderId in next.reservations ==>
        (next.reservations[e.orderId].released <==> Before(next.processed, e.eventId, x.eventId))
    {
      BeforeAppend(inv.processed, m.eventId, e.eventId, x.eventId);
      if e.orderId == m.orderId { assert SlotOf(e) == SlotOf(m); }
    }
  }

  lemma AnsweredOrdLink(ord: OrderTables, pay: PaymentTables, inv: InventoryTables,
                        m: Event, r: Option<Inventory.Reservation>, f: Event)
    requires OrdLink(ord, pay, inv) && Answers(m, r, f) && f.eventId !in ord.processed
    requires Slot(m.orderId, InventoryOutcome) !in Slots(inv.events)
    ensures OrdLink(ord, pay, Answered(inv, m, r, f))
  {
    var next := Answered(inv, m, r, f);
    assert Slots(next.events) == Slots(inv.events) + {SlotOf(f)};
    forall o | o in ord.orders ensures LegFacts(pay, next, o, ord.orders[o]) {
      assert LegFacts(pay, inv, o, ord.orders[o]);
    }
  }

  lemma AnsweredAgree(c: Config, ord: OrderTables, pay: PaymentTables, inv: InventoryTables,
                      m: Event, r: Option<Inventory.Reservation>, f: Event)
    requires Agree(c, ord, pay, inv) && IsCreated(ord, m) && OnePerSlot(ord.events)
    requires forall e :: e in ord.events && e.eventId == m.eventId ==> e == m
    requires m.eventId !in inv.processed && f.eventId !in ord.processed && Answers(m, r, f)
    requires r.Some? ==> r.value.lines == LinesOf(m.payload.items)
    ensures Agree(c, ord, pay, Answered(inv, m, r, f))
  {
    assert OrderEventOk(ord.orders, m);
    Unanswered(ord, inv, m);
    AnsweredInventoryOk(inv, m, r, f);
    AnsweredInvLink(ord, inv, m, r, f);
    AnsweredReleaseOk(ord, inv, m, r, f);
    AnsweredOrdLink(ord, pay, inv, m, r, f);
  }

  // ---- release ---------------------------------------------------------------------

  /** The tables after the cancellation event `x` was handled. */
  ghost function Undone(inv: InventoryTables, x: Event): InventoryTables {
    InventoryTables(
      if x.orderId in inv.reservations
      then inv.reservations[x.orderId := inv.reservations[x.orderId].(released := true)]
      else inv.reservations,
      inv.events,
      inv.processed + [x.eventId])
  }

  lemma UndoneLinks(ord: OrderTables, pay: PaymentTables, inv: InventoryTables, x: Event)
    requires InventoryOk(inv) && InvLink(ord, inv) && OrdLink(ord, pay, inv)
    requires IsCancelled(ord, x) && OrderEventOk(ord.orders, x)
    requires forall e :: e in ord.events && e.eventId == x.eventId ==> e == x
    ensures InventoryOk(Undone(inv, x)) && InvLink(ord, Undone(inv, x)) && OrdLink(ord, pay, Undone(inv, x))
  {
    var next := Undone(inv, x);
    forall e | e in next.events ensures InventoryEventOk(next.reservations, e) {
      assert InventoryEventOk(inv.reservations, e);
    }
    forall o | o in ord.orders ensures LegFacts(pay, next, o, ord.orders[o]) {
      assert LegFacts(pay, inv, o, ord.orders[o]);
    }
  }

  lemma UndoneReleaseOk(ord: OrderTables, inv: InventoryTables, x: Event)
    requires InventoryOk(inv) && InvLink(ord, inv) && ReleaseOk(ord, inv)
    requires IsCancelled(ord, x) && OnePerSlot(ord.events) && x.eventId !in inv.processed
    requires forall e :: e in ord.events && e.eventId == x.eventId ==> e == x
    ensures ReleaseOk(ord, Undone(inv, x))
  {
    var next := Undone(inv, x);
    forall e, y | IsCreated(ord, e) && IsCancelled(ord, y) && y.orderId == e.orderId
      ensures e.orderId in next.reservations ==>
        (next.reservations[e.orderId].released <==> Before(next.processed, e.eventId, y.eventId))
    {
      BeforeAppend(inv.processed, x.eventId, e.eventId, y.eventId);
      if y.orderId == x.orderId {
        assert SlotOf(y) == SlotOf(x);
        assert e.orderId in inv.reservations ==> e.eventId in inv.processed;
      }
    }
  }

  lemma UndoneAgree(c: Config, ord: OrderTables, pay: PaymentTables, inv: InventoryTables, x: Event)
    requires Agree(c, ord, pay, inv) && IsCancelled(ord, x) && OnePerSlot(ord.events)
    requires forall e :: e in ord.events && e.eventId == x.eventId ==> e == x
    requires x.eventId !in inv.processed
    ensures Agree(c, ord, pay, Undone(inv, x))
  {
    assert OrderEventOk(ord.orders, x);
    UndoneLinks(ord, pay, inv, x);
    UndoneReleaseOk(ord, inv, x);
  }
}
