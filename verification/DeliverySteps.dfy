/** New orders and deliveries keep the invariant; a first delivery always commits its work. */
module DeliverySteps {
  import opened Events
  import opened Outbox
  import opened Checkout
  import opened CheckoutInvariant
  import opened Tables
  import Orders
  import Payments
  import Inventory
  import Notifications
  import StockLedger
  import PaymentSteps
  import InventorySteps

  lemma CreatedIsStaged(c: Config, s: System, m: Event)
    requires Agree(c, OrdT(s), PayT(s), InvT(s)) && m in AllStaged(s)
    requires m.payload.OrderCreated? || m.payload.OrderConfirmed? || m.payload.OrderCancelled?
    ensures m in Staged(s.ord.outbox) && OrderEventOk(s.ord.orders, m)
  {
    Origin(c, s, m);
    hide PayLink, InvLink, OrdLink, ReleaseOk;
  }

  // ---- payment ---------------------------------------------------------------------

  /** The first delivery of a creation event finds no payment row for its order. */
  lemma FirstChargeCommits(c: Config, s: System, m: Event, paymentId: Uuid, eventId: Uuid)
    requires Inv(c, s) && m in AllStaged(s) && Payments.Subscribed(m.payload) && m.eventId !in s.pay.processed
    ensures Payments.Attempt(s.pay, m, paymentId, eventId, c.declineEndsIn).Commit?
  {
    CreatedIsStaged(c, s, m);
    hide InvLink, OrdLink, ReleaseOk, NtfLink, BooksOk, RowsOk, RelaysOk, StockLedger.DbBalanced;
    assert IsCreated(OrdT(s), m);
  }

  // ---- inventory -------------------------------------------------------------------

  lemma FirstInventoryDeliveryCommits(c: Config, s: System, m: Event, rowId: Uuid, eventId: Uuid)
    requires Inv(c, s) && m in AllStaged(s) && Inventory.Subscribed(m.payload) && m.eventId !in s.inv.processed
    ensures Inventory.Attempt(s.inv, m, rowId, eventId, c.defaultStock).Commit?
  {
    hide PayLink, OrdLink, ReleaseOk, NtfLink, BooksOk, RowsOk, RelaysOk;
    CreatedIsStaged(c, s, m);
    var marked := s.inv.(processed := s.inv.processed + [m.eventId]);
    if m.payload.OrderCreated? {
      InventorySteps.Unanswered(OrdT(s), InvT(s), m);
    } else {
      StockLedger.ReleaseKeepsBalance(marked, m.orderId, c.defaultStock);
    }
  }

  // ---- notifications ---------------------------------------------------------------

  lemma FirstNoticeCommits(c: Config, s: System, m: Event)
    requires Inv(c, s) && m in AllStaged(s) && Notifications.Subscribed(m.payload) && m.eventId !in s.ntf.processed
    ensures Notifications.Attempt(s.ntf, m).Commit?
  {
    hide Agree, BooksOk, RowsOk, RelaysOk, StockLedger.DbBalanced;
    assert Notifies(AllStaged(s), m);
  }

  // ---- the invariant after each delivery -------------------------------------------

  /** A delivery that changes no table still draws identifiers. */
  lemma NoChangeKeeps(c: Config, s: System, ids: set<Uuid>)
    requires Inv(c, s)
    ensures Inv(c, s.(used := s.used + ids))
  {
    hide Agree, BooksOk, NtfLink, StockLedger.DbBalanced, RelayOk, DistinctSlots;
    DrawingKeepsBooks(AllStaged(s), s.ord.orders.Keys, s.used, HandledBy(s), s.log, ids);
  }

  /** What the books need to know when service tables change: one table grew by a handled event. */
  lemma HandlingKeepsBooks(events: set<Event>, orders: set<Uuid>, used: set<Uuid>, h: Handled, log: seq<Event>,
                           m: Event, svc: Service, next: Handled)
    requires BooksOk(events, orders, used, h, log) && m in events && Subscribed(svc, m.payload)
    requires match svc
             case OrderService => m.eventId !in h.ord && next == h.(ord := h.ord + [m.eventId])
             case PaymentService => m.eventId !in h.pay && next == h.(pay := h.pay + [m.eventId])
             case InventoryService => m.eventId !in h.inv && next == h.(inv := h.inv + [m.eventId])
             case NotificationService => m.eventId !in h.ntf && next == h.(ntf := h.ntf + [m.eventId])
    ensures BooksOk(events, orders, used, next, log)
  {
    hide ProcessedOk, IdsOk, LogOk;
    match svc
    case OrderService => HandlingKeepsProcessed(svc, h.ord, events, m);
    case PaymentService => HandlingKeepsProcessed(svc, h.pay, events, m);
    case InventoryService => HandlingKeepsProcessed(svc, h.inv, events, m);
    case NotificationService => HandlingKeepsProcessed(svc, h.ntf, events, m);
  }

  lemma UniqueId(events: set<Event>, orders: set<Uuid>, used: set<Uuid>, h: Handled, log: seq<Event>, m: Event)
    requires BooksOk(events, orders, used, h, log) && m in events
    ensures forall e :: e in events && e.eventId == m.eventId ==> e == m
  {
    hide HandledOk, LogOk;
  }

  lemma LoggedIsStaged(events: set<Event>, orders: set<Uuid>, used: set<Uuid>, h: Handled, log: seq<Event>, i: nat)
    requires BooksOk(events, orders, used, h, log) && i < |log|
    ensures log[i] in events
  {
    hide HandledOk, IdsOk, CausalLog, Caused;
  }

  /** Across all three outboxes, no moment of an order is announced twice. */
  lemma AllOnePerSlot(c: Config, s: System)
    requires Agree(c, OrdT(s), PayT(s), InvT(s)) && RowsOk(s)
    ensures OnePerSlot(AllStaged(s))
  {
    hide Agree, DistinctSlots;
    RowsOnePerSlot(s.ord.outbox);
    RowsOnePerSlot(s.pay.outbox);
    RowsOnePerSlot(s.inv.outbox);
    forall a, b | a in AllStaged(s) && b in AllStaged(s) && SlotOf(a) == SlotOf(b) ensures a == b {
      Origin(c, s, a);
      Origin(c, s, b);
    }
  }

  lemma NotificationKeeps(c: Config, s: System, m: Event)
    requires Inv(c, s) && m in AllStaged(s) && Notifications.Subscribed(m.payload) && m.eventId !in s.ntf.processed
    ensures Inv(c, s.(ntf := Notifications.Handle(s.ntf, m)))
  {
    hide Agree, BooksOk, NtfLink, StockLedger.DbBalanced, RelayOk, DistinctSlots, OnePerSlot;
    FirstNoticeCommits(c, s, m);
    AllOnePerSlot(c, s);
    var next := s.(ntf := Notifications.Handle(s.ntf, m));
    UniqueId(AllStaged(s), s.ord.orders.Keys, s.used, HandledBy(s), s.log, m);
    NoticeKeepsLink(AllStaged(s), s.ntf, m);
    HandlingKeepsBooks(AllStaged(s), s.ord.orders.Keys, s.used, HandledBy(s), s.log, m, NotificationService,
      HandledBy(next));
  }

  lemma NoticeKeepsLink(events: set<Event>, ntf: Notifications.Db, m: Event)
    requires NtfLink(events, ntf) && OnePerSlot(events) && Notifies(events, m)
    requires forall e :: e in events && e.eventId == m.eventId ==> e == m
    requires m.eventId !in ntf.processed && Notifications.Attempt(ntf, m).Commit?
    ensures NtfLink(events, Notifications.Handle(ntf, m))
  {
    var next := Notifications.Handle(ntf, m);
    assert next.processed == ntf.processed + [m.eventId];
    assert next.notifications == ntf.notifications[NoticeKey(m) := m.payload.customerId];
    forall e | Notifies(events, e)
      ensures e.eventId in next.processed <==> NoticeKey(e) in next.notifications
      ensures NoticeKey(e) in next.notifications ==> next.notifications[NoticeKey(e)] == e.payload.customerId
    {
      if NoticeKey(e) == NoticeKey(m) { assert SlotOf(e) == SlotOf(m); }
    }
  }

  // ---- a delivery that stages an answer --------------------------------------------

  /** The books after handling `m` and staging the answer `f`. */
  lemma AnsweringKeepsBooks(c: Config, s: System, next: System, m: Event, svc: Service, f: Event, ids: set<Uuid>)
    requires Inv(c, s) && m in AllStaged(s) && Subscribed(svc, m.payload) && m.eventId !in Processed(s, svc)
    requires f.eventId !in s.used && f.eventId in ids && Caused(s.log, SlotOf(f)) && SlotOf(f) !in Slots(AllStaged(s))
    requires AllStaged(next) == AllStaged(s) + {f}
    requires next.ord.orders.Keys == s.ord.orders.Keys && next.used == s.used + ids && next.log == s.log
    requires forall x :: Processed(next, x) == if x == svc then Processed(s, x) + [m.eventId] else Processed(s, x)
    requires next.ntf == s.ntf
    ensures BooksOk(AllStaged(next), next.ord.orders.Keys, next.used, HandledBy(next), next.log)
    ensures NtfLink(AllStaged(next), next.ntf)
  {
    hide Agree, BooksOk, NtfLink, Caused, RowsOk, RelaysOk, StockLedger.DbBalanced;
    var orders := s.ord.orders.Keys;
    FreshIsUnprocessed(AllStaged(s), orders, s.used, HandledBy(s), s.log, f.eventId);
    StagingKeepsNtf(AllStaged(s), s.ntf, f);
    StagingKeepsBooks(AllStaged(s), orders, s.used, HandledBy(s), s.log, f, ids);
    assert BooksOk(AllStaged(next), orders, next.used, HandledBy(s), s.log);
    assert Processed(next, OrderService) == next.ord.processed;
    assert Processed(next, PaymentService) == next.pay.processed;
    assert Processed(next, InventoryService) == next.inv.processed;
    assert Processed(next, NotificationService) == next.ntf.processed;
    HandlingKeepsBooks(AllStaged(next), orders, next.used, HandledBy(s), s.log, m, svc, HandledBy(next));
  }

  lemma CausedByCreation(log: seq<Event>, m: Event, o: Uuid, kind: Kind)
    requires m in log && m.payload.OrderCreated? && m.orderId == o && kind in {PaymentOutcome, InventoryOutcome}
    ensures Caused(log, Slot(o, kind))
  {
    assert SlotOf(m) == Slot(o, Created);
  }

  lemma PaymentSlotIsNew(c: Config, s: System, o: Uuid)
    requires Agree(c, OrdT(s), PayT(s), InvT(s)) && o !in s.pay.payments
    ensures Slot(o, PaymentOutcome) !in Slots(AllStaged(s))
  {
    hide Agree;
    forall e | e in AllStaged(s) ensures SlotOf(e) != Slot(o, PaymentOutcome) {
      Origin(c, s, e);
      if e in Staged(s.pay.outbox) { PaymentEventHasRow(c, s, e); }
    }
  }

  lemma PaymentEventHasRow(c: Config, s: System, e: Event)
    requires Agree(c, OrdT(s), PayT(s), InvT(s)) && e in Staged(s.pay.outbox)
    ensures e.orderId in s.pay.payments
  {
    hide OrdersOk, InventoryOk, PayLink, InvLink, ReleaseOk, OrdLink;
    assert PaymentEventOk(s.pay.payments, e);
  }

  lemma PaymentShape(pay: Payments.Db, m: Event, paymentId: Uuid, eventId: Uuid, declineEndsIn: int)
      returns (payment: Payments.Payment, f: Event)
    requires Payments.Subscribed(m.payload) && Payments.Attempt(pay, m, paymentId, eventId, declineEndsIn).Commit?
    ensures m.orderId !in pay.payments
    ensures payment == Payments.NewPayment(m.payload.customerId, m.payload.totalAmountCents, paymentId, declineEndsIn)
    ensures PaymentSteps.Announces(m, payment, f) && f.eventId == eventId
    ensures Payments.Handle(pay, m, paymentId, eventId, declineEndsIn)
         == Payments.Db(pay.payments[m.orderId := payment], Enqueue(pay.outbox, f), pay.processed + [m.eventId])
  {
    payment := Payments.NewPayment(m.payload.customerId, m.payload.totalAmountCents, paymentId, declineEndsIn);
    f := Payments.OutcomeEvent(m.orderId, m.correlationId, payment, eventId);
  }

  lemma OrderHasUniqueEvents(c: Config, s: System, m: Event)
    requires Inv(c, s) && m in AllStaged(s)
    ensures forall e :: e in AllStaged(s) && e.eventId == m.eventId ==> e == m
    ensures OnePerSlot(Staged(s.ord.outbox))
  {
    hide Agree, NtfLink, RelaysOk, StockLedger.DbBalanced, BooksOk, DistinctSlots, OnePerSlot;
    UniqueId(AllStaged(s), s.ord.orders.Keys, s.used, HandledBy(s), s.log, m);
    RowsOnePerSlot(s.ord.outbox);
  }

  lemma PaymentKeeps(c: Config, s: System, m: Event, rowId: Uuid, eventId: Uuid)
    requires Inv(c, s) && m in s.log && m in AllStaged(s) && Payments.Subscribed(m.payload)
    requires m.eventId !in s.pay.processed && eventId !in s.used
    ensures Inv(c, s.(pay := Payments.Handle(s.pay, m, rowId, eventId, c.declineEndsIn),
                      used := s.used + {rowId, eventId}))
  {
    hide Agree, BooksOk, NtfLink, StockLedger.DbBalanced, RelayOk, DistinctSlots, OnePerSlot, Caused, OrderEventOk,
         PaymentSteps.Announces;
    var next := s.(pay := Payments.Handle(s.pay, m, rowId, eventId, c.declineEndsIn),
                   used := s.used + {rowId, eventId});
    FirstChargeCommits(c, s, m, rowId, eventId);
    CreatedIsStaged(c, s, m);
    OrderHasUniqueEvents(c, s, m);
    FreshIsUnprocessed(AllStaged(s), s.ord.orders.Keys, s.used, HandledBy(s), s.log, eventId);
    var payment, f := PaymentShape(s.pay, m, rowId, eventId, c.declineEndsIn);
    AnnouncedSlot(m, payment, f);
    EnqueueFacts(s.pay.outbox, f);
    PaymentSlotIsNew(c, s, m.orderId);
    EnqueueDistinct(s.pay.outbox, f);
    CausedByCreation(s.log, m, m.orderId, PaymentOutcome);
    assert AllStaged(next) == AllStaged(s) + {f};
    AnsweringKeepsBooks(c, s, next, m, PaymentService, f, {rowId, eventId});
    NewPaymentAgrees(c, s.ord.orders, m, payment, rowId);
    PaymentSteps.ChargedAgree(c, OrdT(s), PayT(s), InvT(s), m, payment, f);
    RelayGrows(s.pay.outbox, s.payRelay, s.log, f);
  }

  lemma AnnouncedSlot(m: Event, payment: Payments.Payment, f: Event)
    requires PaymentSteps.Announces(m, payment, f)
    ensures SlotOf(f) == Slot(m.orderId, PaymentOutcome)
  {
  }

  lemma NewPaymentAgrees(c: Config, orders: map<Uuid, Orders.Order>, m: Event, payment: Payments.Payment, id: Uuid)
    requires m.payload.OrderCreated? && OrderEventOk(orders, m)
    requires payment == Payments.NewPayment(m.payload.customerId, m.payload.totalAmountCents, id, c.declineEndsIn)
    ensures m.orderId in orders && PaymentAgrees(c, orders[m.orderId], payment)
  {
  }
}
