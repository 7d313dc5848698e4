/** What a run has achieved once it comes to rest: outboxes drained, every message handled by every subscriber. */
module CheckoutRest {
  import opened Events
  import opened Outbox
  import opened Tables
  import opened Checkout
  import opened CheckoutInvariant
  import opened CheckoutRuns
  import opened CheckoutSafety
  import Orders
  import StockLedger

  /** At rest, whatever was staged has been logged and handled by all its subscribers. */
  lemma StagedIsHandled(c: Config, s: System, e: Event, svc: Service)
    requires Reachable(c, s) && Quiescent(s) && e in AllStaged(s) && Subscribed(svc, e.payload)
    ensures e.eventId in Processed(s, svc)
  {
    StagedHasRow(s, e);
    PublishedExactlyFromOutbox(c, s);
    hide Reachable, AllStaged;
  }

  lemma OrderAnnounced(c: Config, s: System, o: Uuid) returns (e: Event)
    requires Agree(c, OrdT(s), PayT(s), InvT(s)) && o in s.ord.orders
    ensures IsCreated(OrdT(s), e) && e.orderId == o && e in AllStaged(s)
  {
    hide PayLink, InvLink, OrdLink, ReleaseOk, PaymentsOk, InventoryOk, LegsOk, SaleOk;
    assert Announced(s.ord.orders, Staged(s.ord.outbox));
    e :| e in Staged(s.ord.outbox) && SlotOf(e) == Slot(o, Created);
    assert OrderEventOk(s.ord.orders, e);
  }

  lemma PaymentAnnounced(c: Config, s: System, e: Event) returns (p: Event)
    requires Agree(c, OrdT(s), PayT(s), InvT(s)) && IsCreated(OrdT(s), e) && e.eventId in s.pay.processed
    ensures p in Staged(s.pay.outbox) && SlotOf(p) == Slot(e.orderId, PaymentOutcome)
    ensures e.orderId in s.pay.payments
  {
    hide InvLink, OrdLink, ReleaseOk, OrdersOk, InventoryOk, PaymentEventOk;
    p :| p in Staged(s.pay.outbox) && SlotOf(p) == Slot(e.orderId, PaymentOutcome);
  }

  lemma InventoryAnnounced(c: Config, s: System, e: Event) returns (p: Event)
    requires Agree(c, OrdT(s), PayT(s), InvT(s)) && IsCreated(OrdT(s), e) && e.eventId in s.inv.processed
    ensures p in Staged(s.inv.outbox) && SlotOf(p) == Slot(e.orderId, InventoryOutcome)
  {
    hide PayLink, OrdLink, ReleaseOk, OrdersOk, PaymentsOk, InventoryEventOk;
    p :| p in Staged(s.inv.outbox) && SlotOf(p) == Slot(e.orderId, InventoryOutcome);
  }

  lemma OutcomesRecorded(c: Config, s: System, p: Event, q: Event, o: Uuid)
    requires Agree(c, OrdT(s), PayT(s), InvT(s)) && o in s.ord.orders
    requires p in Staged(s.pay.outbox) && SlotOf(p) == Slot(o, PaymentOutcome) && p.eventId in s.ord.processed
    requires q in Staged(s.inv.outbox) && SlotOf(q) == Slot(o, InventoryOutcome) && q.eventId in s.ord.processed
    ensures s.ord.orders[o].status != Orders.Pending
  {
    hide PayLink, InvLink, ReleaseOk, PaymentsOk, InventoryOk, OrderEventOk, Announced;
    assert Recorded(s.ord.orders, p);
    assert Recorded(s.ord.orders, q);
    assert LegsOk(s.ord.orders[o]);
  }

  /** At rest no order is pending, whatever the interleaving was. */
  lemma NothingPendingAtRest(c: Config, s: System, o: Uuid)
    requires Reachable(c, s) && Quiescent(s) && o in s.ord.orders
    ensures s.ord.orders[o].status != Orders.Pending
    ensures o in s.pay.payments
  {
    ReachableAgree(c, s);
    hide Reachable, Quiescent, Agree, IsCreated;
    var e := OrderAnnounced(c, s, o);
    CreatedSubscribers(OrdT(s), e);
    StagedIsHandled(c, s, e, PaymentService);
    StagedIsHandled(c, s, e, InventoryService);
    var p := PaymentAnnounced(c, s, e);
    var q := InventoryAnnounced(c, s, e);
    StagedIsHandled(c, s, p, OrderService);
    StagedIsHandled(c, s, q, OrderService);
    OutcomesRecorded(c, s, p, q, o);
  }

  lemma CreatedSubscribers(t: OrderTables, e: Event)
    requires IsCreated(t, e)
    ensures Subscribed(PaymentService, e.payload) && Subscribed(InventoryService, e.payload)
  {
  }

  /** At rest an order is confirmed exactly when its total is not a declined one and its reserve succeeded;
      and a cancelled order was charged nonetheless exactly when its total is not a declined one. */
  lemma OutcomeAtRest(c: Config, s: System, o: Uuid)
    requires Reachable(c, s) && Quiescent(s) && o in s.ord.orders
    ensures s.ord.orders[o].status == Orders.Confirmed <==>
            s.ord.orders[o].totalAmountCents % 100 != c.declineEndsIn && o in s.inv.reservations
    ensures o in s.pay.payments
    ensures s.ord.orders[o].status == Orders.Cancelled ==>
            (s.pay.payments[o].completed <==> s.ord.orders[o].totalAmountCents % 100 != c.declineEndsIn)
  {
    NothingPendingAtRest(c, s, o);
    ReachableAgree(c, s);
    hide Reachable, Quiescent, Agree;
    OrderFacts(c, s, o);
    ChargedTheExactTotal(c, s, o);
  }

  // ---- compensation ----------------------------------------------------------------

  /** Inventory handled the order's cancellation before its creation. */
  ghost predicate CancelledFirst(s: System, o: Uuid) {
    exists e, x :: IsCreated(OrdT(s), e) && IsCancelled(OrdT(s), x) && e.orderId == o && x.orderId == o
                && Before(s.inv.processed, x.eventId, e.eventId)
  }

  lemma EitherBefore(ids: seq<Uuid>, a: Uuid, b: Uuid)
    requires NoDuplicates(ids) && a in ids && b in ids && a != b
    ensures Before(ids, a, b) <==> !Before(ids, b, a)
  {
    var i :| 0 <= i < |ids| && ids[i] == a;
    var j :| 0 <= j < |ids| && ids[j] == b;
  }

  lemma CancellationAnnounced(c: Config, s: System, o: Uuid) returns (x: Event)
    requires Agree(c, OrdT(s), PayT(s), InvT(s)) && o in s.ord.orders && s.ord.orders[o].status == Orders.Cancelled
    ensures IsCancelled(OrdT(s), x) && x.orderId == o && x in AllStaged(s)
  {
    hide PayLink, InvLink, OrdLink, ReleaseOk, PaymentsOk, InventoryOk, LegsOk, SaleOk;
    assert Announced(s.ord.orders, Staged(s.ord.outbox));
    x :| x in Staged(s.ord.outbox) && SlotOf(x) == Slot(o, Settled);
    assert OrderEventOk(s.ord.orders, x);
  }

  lemma ReachableInventoryTable(c: Config, s: System, e: Event, x: Event)
    requires Reachable(c, s) && IsCreated(OrdT(s), e) && IsCancelled(OrdT(s), x)
    ensures NoDuplicates(s.inv.processed)
    ensures e.eventId != x.eventId && e in AllStaged(s) && x in AllStaged(s)
    ensures Subscribed(InventoryService, e.payload) && Subscribed(InventoryService, x.payload)
  {
    hide Reachable, BooksOk, NoDuplicates;
    ReachableBooks(c, s);
    assert e != x;
  }

  lemma ReleasedIffBefore(c: Config, s: System, e: Event, x: Event)
    requires Agree(c, OrdT(s), PayT(s), InvT(s)) && IsCreated(OrdT(s), e) && IsCancelled(OrdT(s), x)
    requires e.orderId == x.orderId && e.orderId in s.inv.reservations
    ensures s.inv.reservations[e.orderId].released <==> Before(s.inv.processed, e.eventId, x.eventId)
  {
    hide PayLink, InvLink, OrdLink, OrdersOk, PaymentsOk, InventoryOk, Before;
  }

  lemma ReleasedIffInOrder(c: Config, s: System, e: Event, x: Event)
    requires Reachable(c, s) && Quiescent(s) && IsCreated(OrdT(s), e) && IsCancelled(OrdT(s), x)
    requires e.orderId == x.orderId && e.orderId in s.inv.reservations
    ensures s.inv.reservations[e.orderId].released <==> !Before(s.inv.processed, x.eventId, e.eventId)
  {
    hide Reachable, Quiescent, Agree, NoDuplicates, Before, AllStaged, IsCreated, IsCancelled;
    ReachableAgree(c, s);
    ReachableInventoryTable(c, s, e, x);
    ReleasedIffBefore(c, s, e, x);
    StagedIsHandled(c, s, e, InventoryService);
    StagedIsHandled(c, s, x, InventoryService);
    EitherBefore(s.inv.processed, e.eventId, x.eventId);
  }

  /** Compensation works exactly when inventory handles creation before cancellation: at rest, the reservation of a
      cancelled order is released if and only if the cancellation was not handled first. */
  lemma CompensatedExactlyWhen(c: Config, s: System, o: Uuid)
    requires Reachable(c, s) && Quiescent(s)
    requires o in s.ord.orders && s.ord.orders[o].status == Orders.Cancelled && o in s.inv.reservations
    ensures s.inv.reservations[o].released <==> !CancelledFirst(s, o)
  {
    ReachableAgree(c, s);
    hide Reachable, Quiescent, Agree, Before, AllStaged, IsCreated, IsCancelled;
    var e := OrderAnnounced(c, s, o);
    var x := CancellationAnnounced(c, s, o);
    ReleasedIffInOrder(c, s, e, x);
    if CancelledFirst(s, o) {
      var e', x' :| IsCreated(OrdT(s), e') && IsCancelled(OrdT(s), x') && e'.orderId == o && x'.orderId == o
                 && Before(s.inv.processed, x'.eventId, e'.eventId);
      ReleasedIffInOrder(c, s, e', x');
    }
  }

  // ---- stock at rest ---------------------------------------------------------------

  /** The lines of the confirmed orders. */
  ghost function ConfirmedLines(s: System): map<Uuid, seq<Line>> {
    map o | o in s.ord.orders && s.ord.orders[o].status == Orders.Confirmed :: LinesOf(s.ord.orders[o].items)
  }

  /** The lines of the cancelled orders whose reserve succeeded after their cancellation had been handled. */
  ghost function StrandedLines(s: System): map<Uuid, seq<Line>> {
    map o | o in s.ord.orders && s.ord.orders[o].status == Orders.Cancelled
          && o in s.inv.reservations && CancelledFirst(s, o) :: LinesOf(s.ord.orders[o].items)
  }

  lemma ActiveAtRest(c: Config, s: System, o: Uuid)
    requires Reachable(c, s) && Quiescent(s)
    ensures o in StockLedger.ActiveLines(s.inv.reservations) <==> o in ConfirmedLines(s) || o in StrandedLines(s)
    ensures o in s.inv.reservations ==> o in s.ord.orders
    ensures o in s.inv.reservations ==> s.inv.reservations[o].lines == LinesOf(s.ord.orders[o].items)
  {
    ReachableAgree(c, s);
    hide Reachable, Quiescent, Agree, CancelledFirst;
    ReservedIsOrdered(c, s, o);
    if o in s.ord.orders {
      NothingPendingAtRest(c, s, o);
      OutcomeAtRest(c, s, o);
      OrderFacts(c, s, o);
      if o in s.inv.reservations && s.ord.orders[o].status == Orders.Cancelled {
        CompensatedExactlyWhen(c, s, o);
      }
    }
  }

  lemma ReservedIsOrdered(c: Config, s: System, o: Uuid)
    requires Agree(c, OrdT(s), PayT(s), InvT(s))
    ensures o in s.inv.reservations ==> o in s.ord.orders
  {
    hide PayLink, OrdLink, ReleaseOk, OrdersOk, PaymentsOk, InventoryOk, IsCreated, Correlated;
  }

  lemma ActiveSplit(c: Config, s: System)
    requires Reachable(c, s) && Quiescent(s)
    ensures StockLedger.ActiveLines(s.inv.reservations) == ConfirmedLines(s) + StrandedLines(s)
    ensures ConfirmedLines(s).Keys !! StrandedLines(s).Keys
  {
    forall o { ActiveAtRest(c, s, o); }
    hide Reachable, Quiescent, CancelledFirst;
    var active, both := StockLedger.ActiveLines(s.inv.reservations), ConfirmedLines(s) + StrandedLines(s);
    assert active.Keys == both.Keys;
    forall o | o in active ensures active[o] == both[o] {
    }
  }

  /** Conservation of stock at rest: what is reserved of a product is what the confirmed orders bought plus what is
      stranded by cancellations handled too early; the rest of the default stock is available. */
  lemma StockAtRest(c: Config, s: System, p: Uuid)
    requires Reachable(c, s) && Quiescent(s) && p in s.inv.products
    ensures s.inv.products[p].reserved
         == StockLedger.Demand(ConfirmedLines(s), p) + StockLedger.Demand(StrandedLines(s), p)
    ensures s.inv.products[p].available == c.defaultStock - s.inv.products[p].reserved
  {
    LedgerBalances(c, s, p);
    ActiveSplit(c, s);
    hide Reachable, Quiescent, CancelledFirst, ConfirmedLines, StrandedLines;
    StockLedger.DemandUnion(ConfirmedLines(s), StrandedLines(s), p);
  }

  // ---- charged, yet cancelled ------------------------------------------------------

  /** There is no refund: in every run, an order asking for more than the default stock whose payment is not declined
      ends, at rest, cancelled and charged. */
  lemma OversizedOrderIsCancelledYetCharged(c: Config, s: System, o: Uuid, i: nat)
    requires Reachable(c, s) && Quiescent(s) && o in s.ord.orders
    requires i < |s.ord.orders[o].items| && s.ord.orders[o].items[i].quantity > c.defaultStock
    requires s.ord.orders[o].totalAmountCents % 100 != c.declineEndsIn
    ensures s.ord.orders[o].status == Orders.Cancelled
    ensures o in s.pay.payments && s.pay.payments[o].completed
  {
    hide Reachable, Quiescent;
    NothingPendingAtRest(c, s, o);
    OutcomeAtRest(c, s, o);
    if s.ord.orders[o].status == Orders.Confirmed {
      ConfirmedIsPaidAndHeld(c, s, o);
      assert s.inv.reservations[o].lines[i] in s.inv.reservations[o].lines;
      ReservedWithinStock(c, s, o, s.inv.reservations[o].lines[i]);
    }
  }
}
