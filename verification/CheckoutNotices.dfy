/** What customers are told is true when they are told it, and at rest they have been told. */
module CheckoutNotices {
  import opened Events
  import opened Outbox
  import opened Tables
  import opened Checkout
  import opened CheckoutInvariant
  import opened CheckoutRuns
  import opened CheckoutSafety
  import opened CheckoutRest
  import opened CheckoutProgress
  import Orders
  import Notifications
  import StockLedger

  lemma ReachableNotices(c: Config, s: System)
    requires Reachable(c, s)
    ensures NtfLink(AllStaged(s), s.ntf)
  {
    ReachableInv(c, s);
    hide Agree, BooksOk, NtfLink, RowsOk, RelaysOk, StockLedger.DbBalanced;
  }

  lemma StagedIsTruthful(c: Config, s: System, e: Event)
    requires Reachable(c, s) && e in AllStaged(s)
    ensures e.orderId in s.ord.orders && Truthful(s.ord.orders[e.orderId], e.payload)
  {
    hide Reachable, Truthful, AllStaged;
    StagedHasRow(s, e);
    var svc, r :| r in Rows(s, svc) && r.event == e;
    EventsAreTruthful(c, s, svc, r);
  }

  lemma ConfirmedEventConfirmed(c: Config, s: System, e: Event)
    requires Agree(c, OrdT(s), PayT(s), InvT(s)) && e in AllStaged(s) && e.payload.OrderConfirmed?
    ensures e.orderId in s.ord.orders && s.ord.orders[e.orderId].status == Orders.Confirmed
  {
    Origin(c, s, e);
    hide PayLink, InvLink, OrdLink, ReleaseOk, InventoryOk, PaymentsOk, Announced;
    assert OrderEventOk(s.ord.orders, e);
  }

  /** In every reachable state each notification went to the order's customer, and says what is and stays the case:
      the order is confirmed, or its payment failed. */
  lemma NoticesAreTrue(c: Config, s: System, o: Uuid, kind: Notifications.NotificationKind)
    requires Reachable(c, s) && (o, kind) in s.ntf.notifications
    ensures o in s.ord.orders && s.ntf.notifications[(o, kind)] == s.ord.orders[o].customerId
    ensures kind == Notifications.OrderConfirmedNotice ==> s.ord.orders[o].status == Orders.Confirmed
    ensures kind == Notifications.PaymentFailedNotice ==> o in s.pay.payments && !s.pay.payments[o].completed
  {
    ReachableAgree(c, s);
    ReachableNotices(c, s);
    hide Reachable, Agree, AllStaged;
    var e :| Notifies(AllStaged(s), e) && (o, kind) == NoticeKey(e);
    StagedIsTruthful(c, s, e);
    if e.payload.OrderConfirmed? {
      ConfirmedEventConfirmed(c, s, e);
    } else {
      FailedEventUnpaid(c, s, e);
    }
  }

  lemma NoticeHandled(c: Config, s: System, e: Event)
    requires Reachable(c, s) && Quiescent(s) && Notifies(AllStaged(s), e)
    ensures NoticeKey(e) in s.ntf.notifications
  {
    hide Reachable, Quiescent, AllStaged;
    StagedIsHandled(c, s, e, NotificationService);
    ReachableNotices(c, s);
  }

  lemma SettlementStaged(c: Config, s: System, o: Uuid) returns (x: Event)
    requires Agree(c, OrdT(s), PayT(s), InvT(s)) && o in s.ord.orders && s.ord.orders[o].status == Orders.Confirmed
    ensures x in AllStaged(s) && x.orderId == o && x.payload.OrderConfirmed?
  {
    hide PayLink, InvLink, OrdLink, ReleaseOk, PaymentsOk, InventoryOk, LegsOk, SaleOk;
    assert Announced(s.ord.orders, Staged(s.ord.outbox));
    x :| x in Staged(s.ord.outbox) && SlotOf(x) == Slot(o, Settled);
    assert OrderEventOk(s.ord.orders, x);
  }

  lemma PaymentStaged(c: Config, s: System, o: Uuid) returns (p: Event)
    requires Agree(c, OrdT(s), PayT(s), InvT(s)) && o in s.pay.payments
    ensures p in AllStaged(s) && p.orderId == o
    ensures p.payload.PaymentFailed? <==> !s.pay.payments[o].completed
  {
    hide PayLink, InvLink, OrdLink, ReleaseOk, OrdersOk, InventoryOk;
    p :| p in Staged(s.pay.outbox) && SlotOf(p) == Slot(o, PaymentOutcome);
    assert PaymentEventOk(s.pay.payments, p);
  }

  /** At rest the customer of every confirmed order, and of every order whose payment failed, has been told so;
      and nobody else. */
  lemma NotifiedAtRest(c: Config, s: System, o: Uuid)
    requires Reachable(c, s) && Quiescent(s) && o in s.ord.orders
    ensures o in s.pay.payments
    ensures (o, Notifications.OrderConfirmedNotice) in s.ntf.notifications
       <==> s.ord.orders[o].status == Orders.Confirmed
    ensures (o, Notifications.PaymentFailedNotice) in s.ntf.notifications <==> !s.pay.payments[o].completed
  {
    ReachableAgree(c, s);
    hide Reachable, Quiescent, Agree, AllStaged;
    NothingPendingAtRest(c, s, o);
    if s.ord.orders[o].status == Orders.Confirmed {
      var x := SettlementStaged(c, s, o);
      NoticeHandled(c, s, x);
    }
    if !s.pay.payments[o].completed {
      var p := PaymentStaged(c, s, o);
      NoticeHandled(c, s, p);
    }
    forall kind | (o, kind) in s.ntf.notifications
      ensures kind == Notifications.OrderConfirmedNotice ==> s.ord.orders[o].status == Orders.Confirmed
      ensures kind == Notifications.PaymentFailedNotice ==> !s.pay.payments[o].completed
    {
      NoticesAreTrue(c, s, o, kind);
    }
  }
}
