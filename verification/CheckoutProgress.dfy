/** Event chains are finite, and every reachable state can run to rest. */
module CheckoutProgress {
  import opened Events
  import opened Outbox
  import opened Tables
  import opened Checkout
  import opened CheckoutInvariant
  import opened DeliverySteps
  import opened CheckoutRuns
  import opened CheckoutSafety
  import Orders
  import Payments
  import Inventory

  // ---- counting --------------------------------------------------------------------

  lemma {:induction false} InjectionBound<A(!new), B(!new)>(s: set<A>, f: A -> B, t: set<B>)
    requires forall a :: a in s ==> f(a) in t
    requires forall a, b :: a in s && b in s && f(a) == f(b) ==> a == b
    ensures |s| <= |t|
  {
    if s != {} {
      var x :| x in s;
      InjectionBound(s - {x}, f, t - {f(x)});
    }
  }

  // ---- per order -------------------------------------------------------------------

  /** The events staged for one order. */
  ghost function EventsOf(s: System, o: Uuid): set<Event> {
    set e | e in AllStaged(s) && e.orderId == o
  }

  /** The first-time handlings of one order's events. */
  ghost function HandlingsOf(s: System, o: Uuid): set<(Service, Event)> {
    set svc: Service, e | e in AllStaged(s) && e.orderId == o && Subscribed(svc, e.payload)
                       && e.eventId in Processed(s, svc) :: (svc, e)
  }

  lemma ReachableOnePerSlot(c: Config, s: System)
    requires Reachable(c, s)
    ensures OnePerSlot(AllStaged(s))
  {
    ReachableAgree(c, s);
    ReachableRows(c, s);
    hide Reachable, Agree, RowsOk, RelaysOk, OnePerSlot;
    AllOnePerSlot(c, s);
  }

  /** An order yields at most four events in any run. */
  lemma AtMostFourEvents(c: Config, s: System, o: Uuid)
    requires Reachable(c, s)
    ensures |EventsOf(s, o)| <= 4
  {
    ReachableOnePerSlot(c, s);
    hide Reachable;
    InjectionBound(EventsOf(s, o), (e: Event) => KindOf(e.payload),
      {Created, Settled, PaymentOutcome, InventoryOutcome});
  }

  lemma ConfirmedEventPaid(c: Config, s: System, a: Event)
    requires Agree(c, OrdT(s), PayT(s), InvT(s)) && a in AllStaged(s)
    ensures a.payload.OrderConfirmed? ==> a.orderId in s.pay.payments && s.pay.payments[a.orderId].completed
  {
    Origin(c, s, a);
    hide PayLink, InvLink, ReleaseOk, InventoryOk, PaymentsOk, Announced;
    assert a.payload.OrderConfirmed? ==> OrderEventOk(s.ord.orders, a);
    assert LegsOk(s.ord.orders[a.orderId]) && LegFacts(PayT(s), InvT(s), a.orderId, s.ord.orders[a.orderId]);
  }

  lemma FailedEventUnpaid(c: Config, s: System, b: Event)
    requires Agree(c, OrdT(s), PayT(s), InvT(s)) && b in AllStaged(s)
    ensures b.payload.PaymentFailed? ==> b.orderId in s.pay.payments && !s.pay.payments[b.orderId].completed
  {
    Origin(c, s, b);
    hide OrdersOk, PayLink, InvLink, ReleaseOk, InventoryOk, OrdLink;
    assert b.payload.PaymentFailed? ==> PaymentEventOk(s.pay.payments, b);
  }

  /** A customer hears of one order either that it is confirmed or that its payment failed, never both. */
  lemma OneNotice(c: Config, s: System, a: Event, b: Event)
    requires Agree(c, OrdT(s), PayT(s), InvT(s)) && a in AllStaged(s) && b in AllStaged(s)
    requires a.orderId == b.orderId && a.payload.OrderConfirmed?
    ensures !b.payload.PaymentFailed?
  {
    hide Agree, AllStaged;
    ConfirmedEventPaid(c, s, a);
    FailedEventUnpaid(c, s, b);
  }

  type Handling = (Service, Event)

  lemma HandlingFacts(s: System, o: Uuid, h: Handling)
    requires h in HandlingsOf(s, o)
    ensures h.1 in AllStaged(s) && h.1.orderId == o && Subscribed(h.0, h.1.payload)
  {
  }

  /** A handling is told by its service and the moment it is about; notices are told by their service alone. */
  function Tag(h: Handling): (Service, Kind) {
    (h.0, if h.0 == NotificationService then Settled else KindOf(h.1.payload))
  }

  lemma TagTells(c: Config, s: System, a: Handling, b: Handling)
    requires Agree(c, OrdT(s), PayT(s), InvT(s)) && OnePerSlot(AllStaged(s))
    requires a.1 in AllStaged(s) && b.1 in AllStaged(s) && a.1.orderId == b.1.orderId
    requires Subscribed(a.0, a.1.payload) && Subscribed(b.0, b.1.payload) && Tag(a) == Tag(b)
    ensures a == b
  {
    hide Agree, AllStaged;
    if a.0 == NotificationService {
      if a.1.payload.OrderConfirmed? { OneNotice(c, s, a.1, b.1); }
      if b.1.payload.OrderConfirmed? { OneNotice(c, s, b.1, a.1); }
    }
    assert SlotOf(a.1) == SlotOf(b.1);
  }

  ghost const TAGS: set<(Service, Kind)> :=
    {(PaymentService, Created), (InventoryService, Created), (InventoryService, Settled),
     (OrderService, PaymentOutcome), (OrderService, InventoryOutcome), (NotificationService, Settled)}

  lemma TagRange(h: Handling)
    requires Subscribed(h.0, h.1.payload)
    ensures Tag(h) in TAGS
  {
  }

  lemma TagCount()
    ensures |TAGS| == 6
  {
  }

  /** An order causes at most six first-time handlings, over all services, in any run. */
  lemma AtMostSixHandlings(c: Config, s: System, o: Uuid)
    requires Reachable(c, s)
    ensures |HandlingsOf(s, o)| <= 6
  {
    hide Reachable, Agree, AllStaged, OnePerSlot, Tag, Subscribed, HandlingsOf, TAGS;
    ReachableOnePerSlot(c, s);
    ReachableAgree(c, s);
    forall a | a in HandlingsOf(s, o) ensures Tag(a) in TAGS {
      HandlingFacts(s, o, a);
      TagRange(a);
    }
    forall a, b | a in HandlingsOf(s, o) && b in HandlingsOf(s, o) && Tag(a) == Tag(b) ensures a == b {
      HandlingFacts(s, o, a);
      HandlingFacts(s, o, b);
      TagTells(c, s, a, b);
    }
    InjectionBound(HandlingsOf(s, o), (h: Handling) => Tag(h), TAGS);
    TagCount();
  }

  // ---- over the whole system -------------------------------------------------------

  /** Relay marks and first-time handlings so far. */
  function Done(s: System): nat {
    PublishedCount(s.ord.outbox) + PublishedCount(s.pay.outbox) + PublishedCount(s.inv.outbox)
    + |s.ord.processed| + |s.pay.processed| + |s.inv.processed| + |s.ntf.processed|
  }

  ghost function OfKind(s: System, kind: Kind): set<Event> {
    set e | e in AllStaged(s) && KindOf(e.payload) == kind
  }

  lemma KindBound(c: Config, s: System, kind: Kind)
    requires Agree(c, OrdT(s), PayT(s), InvT(s)) && OnePerSlot(AllStaged(s))
    ensures |OfKind(s, kind)| <= |s.ord.orders|
  {
    hide Agree;
    forall e | e in OfKind(s, kind) ensures e.orderId in s.ord.orders { Origin(c, s, e); }
    forall a, b | a in OfKind(s, kind) && b in OfKind(s, kind) && a.orderId == b.orderId ensures a == b {
      assert SlotOf(a) == SlotOf(b);
    }
    InjectionBound(OfKind(s, kind), (e: Event) => e.orderId, s.ord.orders.Keys);
  }

  lemma RowBound(rows: seq<Row>, events: set<Event>)
    requires DistinctSlots(rows) && Staged(rows) <= events
    ensures |rows| <= |events|
  {
    var evs := seq(|rows|, i requires 0 <= i < |rows| => rows[i].event);
    forall e | e in evs ensures e in events {
      var i :| 0 <= i < |evs| && evs[i] == e;
      assert rows[i] in rows;
    }
    NoDuplicatesBound(evs, events);
  }

  lemma ProcessedBound(svc: Service, processed: seq<Uuid>, events: set<Event>, mine: set<Event>)
    requires ProcessedOk(svc, processed, events)
    requires forall e :: e in events && Subscribed(svc, e.payload) ==> e in mine
    ensures |processed| <= |mine|
  {
    var ids := set e | e in mine :: e.eventId;
    assert |ids| <= |mine| by { ImageBound(mine, ids); }
    NoDuplicatesBound(processed, ids);
  }

  lemma {:induction false} ImageBound(events: set<Event>, ids: set<Uuid>)
    requires ids == set e | e in events :: e.eventId
    ensures |ids| <= |events|
  {
    if events != {} {
      var x :| x in events;
      var rest := set e | e in events - {x} :: e.eventId;
      ImageBound(events - {x}, rest);
      assert ids == rest + {x.eventId};
    }
  }

  lemma UnionBound(a: set<Event>, b: set<Event>, n: nat)
    requires |a| <= n && |b| <= n
    ensures |a + b| <= 2 * n
  {
    assert a + b == a + (b - a);
    assert |b - a| <= |b| by { assert b == (b - a) + (a * b); }
  }

  ghost function Notices(s: System): set<Event> {
    set e | e in AllStaged(s) && (e.payload.OrderConfirmed? || e.payload.PaymentFailed?)
  }

  lemma NoticeBound(c: Config, s: System)
    requires Agree(c, OrdT(s), PayT(s), InvT(s)) && OnePerSlot(AllStaged(s))
    ensures |Notices(s)| <= |s.ord.orders|
  {
    hide Agree, AllStaged;
    forall e | e in Notices(s) ensures e.orderId in s.ord.orders { Origin(c, s, e); }
    forall a, b | a in Notices(s) && b in Notices(s) && a.orderId == b.orderId ensures a == b {
      if a.payload.OrderConfirmed? { OneNotice(c, s, a, b); }
      if b.payload.OrderConfirmed? { OneNotice(c, s, b, a); }
      assert SlotOf(a) == SlotOf(b);
    }
    InjectionBound(Notices(s), (e: Event) => e.orderId, s.ord.orders.Keys);
  }

  lemma RowsBound(c: Config, s: System)
    requires Agree(c, OrdT(s), PayT(s), InvT(s)) && RowsOk(s) && OnePerSlot(AllStaged(s))
    ensures |s.ord.outbox| <= 2 * |s.ord.orders|
    ensures |s.pay.outbox| <= |s.ord.orders| && |s.inv.outbox| <= |s.ord.orders|
  {
    hide Agree, DistinctSlots, OnePerSlot;
    forall kind { KindBound(c, s, kind); }
    forall e | e in AllStaged(s)
      ensures e in Staged(s.ord.outbox) ==> e in OfKind(s, Created) + OfKind(s, Settled)
      ensures e in Staged(s.pay.outbox) ==> e in OfKind(s, PaymentOutcome)
      ensures e in Staged(s.inv.outbox) ==> e in OfKind(s, InventoryOutcome)
    {
      Origin(c, s, e);
    }
    UnionBound(OfKind(s, Created), OfKind(s, Settled), |s.ord.orders|);
    RowBound(s.ord.outbox, OfKind(s, Created) + OfKind(s, Settled));
    RowBound(s.pay.outbox, OfKind(s, PaymentOutcome));
    RowBound(s.inv.outbox, OfKind(s, InventoryOutcome));
  }

  lemma HandlingsBound(c: Config, s: System)
    requires Agree(c, OrdT(s), PayT(s), InvT(s)) && HandledOk(HandledBy(s), AllStaged(s)) && OnePerSlot(AllStaged(s))
    ensures |s.ord.processed| <= 2 * |s.ord.orders| && |s.inv.processed| <= 2 * |s.ord.orders|
    ensures |s.pay.processed| <= |s.ord.orders| && |s.ntf.processed| <= |s.ord.orders|
  {
    hide Agree, ProcessedOk, OnePerSlot, AllStaged;
    forall kind { KindBound(c, s, kind); }
    NoticeBound(c, s);
    UnionBound(OfKind(s, PaymentOutcome), OfKind(s, InventoryOutcome), |s.ord.orders|);
    UnionBound(OfKind(s, Created), OfKind(s, Settled), |s.ord.orders|);
    ProcessedBound(OrderService, s.ord.processed, AllStaged(s),
      OfKind(s, PaymentOutcome) + OfKind(s, InventoryOutcome));
    ProcessedBound(InventoryService, s.inv.processed, AllStaged(s), OfKind(s, Created) + OfKind(s, Settled));
    ProcessedBound(PaymentService, s.pay.processed, AllStaged(s), OfKind(s, Created));
    ProcessedBound(NotificationService, s.ntf.processed, AllStaged(s), Notices(s));
  }

  /** Each order pays for at most ten steps of work: four marks and six first-time handlings. */
  lemma WorkIsBounded(c: Config, s: System)
    requires Reachable(c, s)
    ensures Done(s) <= 10 * |s.ord.orders|
  {
    ReachableAgree(c, s);
    ReachableRows(c, s);
    ReachableBooks(c, s);
    ReachableOnePerSlot(c, s);
    hide Reachable, Agree, RowsOk, RelaysOk, BooksOk, IdsOk, HandledOk, OnePerSlot, AllStaged;
    RowsBound(c, s);
    HandlingsBound(c, s);
  }

  // ---- every step of work is counted -----------------------------------------------

  /** A relay mark, or a delivery that is not a redelivery. */
  ghost predicate Works(s: System, step: Step)
    requires Enabled(s, step)
  {
    || step.MarkRow?
    || (step.Deliver? && Subscribed(step.svc, s.log[step.message].payload)
        && s.log[step.message].eventId !in Processed(s, step.svc))
  }

  ghost function Posted(step: Step): nat { if step.Post? then 1 else 0 }

  lemma MarkCounts(c: Config, s: System, step: Step)
    requires Reachable(c, s) && step.MarkRow? && Enabled(s, step)
    ensures Done(Apply(c, s, step)) == Done(s) + 1
  {
    ReachableRows(c, s);
    hide Reachable, RowsOk, RelaysOk, PublishedCount;
    RelayOf3(s, step.svc);
    MarkCount(Rows(s, step.svc), RelayOf(s, step.svc).row);
  }

  lemma OrderHandlingCounts(db: Orders.Db, m: Event, id: Uuid)
    requires Orders.Subscribed(m.payload) && m.eventId !in db.processed
    ensures var next := Orders.Handle(db, m, id);
            PublishedCount(next.outbox) == PublishedCount(db.outbox) && |next.processed| == |db.processed| + 1
  {
    hide PublishedCount;
    var next := Orders.Handle(db, m, id);
    if next.outbox != db.outbox { EnqueueFacts(db.outbox, next.outbox[|db.outbox|].event); }
  }

  lemma PaymentHandlingCounts(db: Payments.Db, m: Event, rowId: Uuid, id: Uuid, declineEndsIn: int)
    requires Payments.Subscribed(m.payload) && Payments.Attempt(db, m, rowId, id, declineEndsIn).Commit?
    ensures var next := Payments.Handle(db, m, rowId, id, declineEndsIn);
            PublishedCount(next.outbox) == PublishedCount(db.outbox) && |next.processed| == |db.processed| + 1
  {
    hide PublishedCount;
    EnqueueFacts(db.outbox, Payments.Handle(db, m, rowId, id, declineEndsIn).outbox[|db.outbox|].event);
  }

  lemma InventoryHandlingCounts(db: Inventory.Db, m: Event, rowId: Uuid, id: Uuid, stock: int)
    requires Inventory.Subscribed(m.payload) && Inventory.Attempt(db, m, rowId, id, stock).Commit?
    ensures var next := Inventory.Handle(db, m, rowId, id, stock);
            PublishedCount(next.outbox) == PublishedCount(db.outbox) && |next.processed| == |db.processed| + 1
  {
    hide PublishedCount;
    var next := Inventory.Handle(db, m, rowId, id, stock);
    if next.outbox != db.outbox { EnqueueFacts(db.outbox, next.outbox[|db.outbox|].event); }
  }

  /** A first delivery adds one entry to one processed table and touches no publication flag. */
  lemma FirstDeliveryCounts(c: Config, s: System, svc: Service, i: nat, rowId: Uuid, eventId: Uuid)
    requires Reachable(c, s) && i < |s.log|
    requires Subscribed(svc, s.log[i].payload) && s.log[i].eventId !in Processed(s, svc)
    ensures Done(Receive(c, s, svc, s.log[i], rowId, eventId)) == Done(s) + 1
  {
    var m := s.log[i];
    SwallowedMeansRedelivered(c, s, svc, i, rowId, eventId);
    hide Reachable, PublishedCount, Orders.Handle, Payments.Handle, Inventory.Handle,
         Orders.Attempt, Payments.Attempt, Inventory.Attempt;
    match svc
    case OrderService => OrderHandlingCounts(s.ord, m, eventId);
    case PaymentService => PaymentHandlingCounts(s.pay, m, rowId, eventId, c.declineEndsIn);
    case InventoryService => InventoryHandlingCounts(s.inv, m, rowId, eventId, c.defaultStock);
    case NotificationService =>
  }

  lemma OtherStepCounts(c: Config, s: System, step: Step)
    requires Enabled(s, step) && !step.MarkRow? && !step.Deliver?
    ensures Done(Apply(c, s, step)) == Done(s)
  {
    hide PublishedCount;
    if step.Post? {
      EnqueueFacts(s.ord.outbox, Orders.CreatedEvent(Orders.NewOrder(step.dto, step.ids), step.ids));
    }
  }

  lemma DeliveryCounts(c: Config, s: System, step: Step)
    requires Reachable(c, s) && Enabled(s, step) && step.Deliver?
    ensures Done(Apply(c, s, step)) == Done(s) + (if Works(s, step) then 1 else 0)
  {
    hide Reachable, Receive, Subscribed, Processed;
    if Works(s, step) {
      FirstDeliveryCounts(c, s, step.svc, step.message, step.rowId, step.eventId);
    } else {
      RedeliveryChangesNothing(c, s, step.svc, s.log[step.message], step.rowId, step.eventId);
    }
  }

  lemma StepCounts(c: Config, s: System, step: Step)
    requires Reachable(c, s) && Enabled(s, step)
    ensures Done(Apply(c, s, step)) == Done(s) + (if Works(s, step) then 1 else 0)
  {
    hide Reachable, Apply, Done;
    if step.MarkRow? {
      MarkCounts(c, s, step);
    } else if step.Deliver? {
      DeliveryCounts(c, s, step);
    } else {
      OtherStepCounts(c, s, step);
    }
  }

  lemma StepOrders(c: Config, s: System, step: Step)
    requires Enabled(s, step)
    ensures |Apply(c, s, step).ord.orders| == |s.ord.orders| + Posted(step)
  {
    if step.Deliver? {
      DeliveryTouches(c, s, step.svc, s.log[step.message], step.rowId, step.eventId);
      HandleKeepsItems(s.ord, s.log[step.message], step.eventId);
      hide Receive, Orders.Handle;
      var after := Apply(c, s, step).ord.orders;
      assert after.Keys == s.ord.orders.Keys;
      assert |after| == |after.Keys| && |s.ord.orders| == |s.ord.orders.Keys|;
    }
  }
}
