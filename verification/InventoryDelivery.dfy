/** Deliveries to the inventory service keep the invariant. */
module InventoryDelivery {
  import opened Events
  import opened Outbox
  import opened Checkout
  import opened CheckoutInvariant
  import opened Tables
  import opened DeliverySteps
  import Inventory
  import InventorySteps
  import StockLedger

  lemma InventorySlotIsNew(c: Config, s: System, o: Uuid)
    requires Agree(c, OrdT(s), PayT(s), InvT(s)) && Slot(o, InventoryOutcome) !in Slots(Staged(s.inv.outbox))
    ensures Slot(o, InventoryOutcome) !in Slots(AllStaged(s))
  {
    hide Agree;
    forall e | e in AllStaged(s) ensures SlotOf(e) != Slot(o, InventoryOutcome) {
      Origin(c, s, e);
    }
  }

  lemma CreationUnanswered(c: Config, s: System, m: Event)
    requires Agree(c, OrdT(s), PayT(s), InvT(s))
    requires m in Staged(s.ord.outbox) && m.payload.OrderCreated? && m.eventId !in s.inv.processed
    ensures Slot(m.orderId, InventoryOutcome) !in Slots(Staged(s.inv.outbox)) && m.orderId !in s.inv.reservations
  {
    hide PayLink, OrdLink, ReleaseOk, OrdersOk;
    InventorySteps.Unanswered(OrdT(s), InvT(s), m);
  }

  lemma ReserveShape(inv: Inventory.Db, m: Event, rowId: Uuid, eventId: Uuid, stock: int)
      returns (r: Option<Inventory.Reservation>, f: Event)
    requires m.payload.OrderCreated? && m.orderId !in inv.reservations
    requires Inventory.Attempt(inv, m, rowId, eventId, stock).Commit?
    ensures InventorySteps.Answers(m, r, f) && f.eventId == eventId
    ensures r.Some? ==> r.value.lines == LinesOf(m.payload.items)
    ensures var next := Inventory.Handle(inv, m, rowId, eventId, stock);
            && next.reservations == (if r.Some? then inv.reservations[m.orderId := r.value] else inv.reservations)
            && next.outbox == Enqueue(inv.outbox, f)
            && next.processed == inv.processed + [m.eventId]
  {
    var lines := LinesOf(m.payload.items);
    var short := Inventory.Shortfalls(Inventory.Stocked(inv.products, lines, stock), lines);
    if short != [] {
      Inventory.ShortfallsAreShort(Inventory.Stocked(inv.products, lines, stock), lines);
      r := None;
      f := Event(eventId, m.correlationId, m.orderId, InventoryRejected(short));
    } else {
      r := Some(Inventory.Reservation(rowId, false, lines));
      f := Event(eventId, m.correlationId, m.orderId, InventoryReserved(rowId, lines));
    }
  }

  /** Answering the creation event `m` with `f`, and with the reservation `r` if stock sufficed. */
  lemma AnswerKeeps(c: Config, s: System, m: Event, next: System,
                    r: Option<Inventory.Reservation>, f: Event, ids: set<Uuid>)
    requires Inv(c, s) && m in s.log && m in AllStaged(s) && m.payload.OrderCreated?
    requires m.eventId !in s.inv.processed && f.eventId !in s.used && f.eventId in ids
    requires InventorySteps.Answers(m, r, f) && (r.Some? ==> r.value.lines == LinesOf(m.payload.items))
    requires next == s.(inv := next.inv, used := s.used + ids)
    requires next.inv.reservations == if r.Some? then s.inv.reservations[m.orderId := r.value] else s.inv.reservations
    requires next.inv.outbox == Enqueue(s.inv.outbox, f) && next.inv.processed == s.inv.processed + [m.eventId]
    requires StockLedger.DbBalanced(next.inv, c.defaultStock)
    ensures Inv(c, next)
  {
    hide Agree, BooksOk, NtfLink, StockLedger.DbBalanced, RelayOk, DistinctSlots, OnePerSlot, Caused, OrderEventOk,
         InventorySteps.Answers, Staged, Slots, Enqueue, PublishedCount;
    CreatedIsStaged(c, s, m);
    OrderHasUniqueEvents(c, s, m);
    FreshIsUnprocessed(AllStaged(s), s.ord.orders.Keys, s.used, HandledBy(s), s.log, f.eventId);
    CreationUnanswered(c, s, m);
    AnswerSlot(m, r, f);
    EnqueueFacts(s.inv.outbox, f);
    InventorySlotIsNew(c, s, m.orderId);
    EnqueueDistinct(s.inv.outbox, f);
    CausedByCreation(s.log, m, m.orderId, InventoryOutcome);
    assert AllStaged(next) == AllStaged(s) + {f};
    AnsweringKeepsBooks(c, s, next, m, InventoryService, f, ids);
    InventorySteps.AnsweredAgree(c, OrdT(s), PayT(s), InvT(s), m, r, f);
    RelayGrows(s.inv.outbox, s.invRelay, s.log, f);
  }

  lemma BalanceKept(c: Config, s: System, m: Event, rowId: Uuid, eventId: Uuid)
    requires Inv(c, s)
    ensures StockLedger.DbBalanced(Inventory.Handle(s.inv, m, rowId, eventId, c.defaultStock), c.defaultStock)
  {
    hide Agree, BooksOk, NtfLink, RowsOk, RelaysOk;
    StockLedger.HandleKeepsBalance(s.inv, m, rowId, eventId, c.defaultStock);
  }

  lemma ReserveKeeps(c: Config, s: System, m: Event, rowId: Uuid, eventId: Uuid)
    requires Inv(c, s) && m in s.log && m in AllStaged(s) && m.payload.OrderCreated?
    requires m.eventId !in s.inv.processed && eventId !in s.used
    ensures Inv(c, s.(inv := Inventory.Handle(s.inv, m, rowId, eventId, c.defaultStock),
                      used := s.used + {rowId, eventId}))
  {
    var next := s.(inv := Inventory.Handle(s.inv, m, rowId, eventId, c.defaultStock),
                   used := s.used + {rowId, eventId});
    NotReserved(c, s, m);
    hide Inv, InventorySteps.Answers, Inventory.Handle, Inventory.Attempt, StockLedger.DbBalanced;
    FirstInventoryDeliveryCommits(c, s, m, rowId, eventId);
    var r, f := ReserveShape(s.inv, m, rowId, eventId, c.defaultStock);
    BalanceKept(c, s, m, rowId, eventId);
    AnswerKeeps(c, s, m, next, r, f, {rowId, eventId});
  }

  lemma NotReserved(c: Config, s: System, m: Event)
    requires Inv(c, s) && m in AllStaged(s) && m.payload.OrderCreated? && m.eventId !in s.inv.processed
    ensures m.orderId !in s.inv.reservations
  {
    hide Agree, BooksOk, NtfLink, StockLedger.DbBalanced, RowsOk, RelaysOk, OrderEventOk;
    CreatedIsStaged(c, s, m);
    CreationUnanswered(c, s, m);
  }

  lemma AnswerSlot(m: Event, r: Option<Inventory.Reservation>, f: Event)
    requires InventorySteps.Answers(m, r, f)
    ensures SlotOf(f) == Slot(m.orderId, InventoryOutcome)
  {
  }

  lemma ReleaseShape(inv: Inventory.Db, m: Event, rowId: Uuid, eventId: Uuid, stock: int)
    requires m.payload.OrderCancelled? && Inventory.Attempt(inv, m, rowId, eventId, stock).Commit?
    ensures var next := Inventory.Handle(inv, m, rowId, eventId, stock);
            && next.outbox == inv.outbox
            && InventoryTables(next.reservations, Staged(next.outbox), next.processed)
               == InventorySteps.Undone(InventoryTables(inv.reservations, Staged(inv.outbox), inv.processed), m)
  {
    var o := m.orderId;
    if o in inv.reservations && inv.reservations[o].released {
      assert inv.reservations[o := inv.reservations[o].(released := true)] == inv.reservations;
    }
  }

  lemma ReleaseKeeps(c: Config, s: System, m: Event, rowId: Uuid, eventId: Uuid)
    requires Inv(c, s) && m in AllStaged(s) && m.payload.OrderCancelled? && m.eventId !in s.inv.processed
    ensures Inv(c, s.(inv := Inventory.Handle(s.inv, m, rowId, eventId, c.defaultStock)))
  {
    hide Agree, BooksOk, NtfLink, StockLedger.DbBalanced, RelayOk, DistinctSlots, OnePerSlot, OrderEventOk;
    var next := s.(inv := Inventory.Handle(s.inv, m, rowId, eventId, c.defaultStock));
    FirstInventoryDeliveryCommits(c, s, m, rowId, eventId);
    CreatedIsStaged(c, s, m);
    OrderHasUniqueEvents(c, s, m);
    ReleaseShape(s.inv, m, rowId, eventId, c.defaultStock);
    assert AllStaged(next) == AllStaged(s);
    HandlingKeepsBooks(AllStaged(s), s.ord.orders.Keys, s.used, HandledBy(s), s.log, m, InventoryService,
      HandledBy(next));
    InventorySteps.UndoneAgree(c, OrdT(s), PayT(s), InvT(s), m);
    BalanceKept(c, s, m, rowId, eventId);
  }
}
