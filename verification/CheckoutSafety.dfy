/** Safety over whole runs: what holds of every order, payment, reservation and log entry in every reachable state. */
module CheckoutSafety {
  import opened Events
  import opened Outbox
  import opened Tables
  import opened Checkout
  import opened CheckoutInvariant
  import opened DeliverySteps
  import opened CheckoutRuns
  import Orders
  import Payments
  import Inventory
  import Notifications
  import StockLedger
  import Totals

  lemma OrderFacts(c: Config, s: System, o: Uuid)
    requires Agree(c, OrdT(s), PayT(s), InvT(s)) && o in s.ord.orders
    ensures LegsOk(s.ord.orders[o]) && SaleOk(s.ord.orders[o])
    ensures LegFacts(PayT(s), InvT(s), o, s.ord.orders[o])
    ensures o in s.pay.payments ==> PaymentAgrees(c, s.ord.orders[o], s.pay.payments[o])
    ensures o in s.inv.reservations ==> ReservationAgrees(s.ord.orders[o], s.inv.reservations[o])
  {
    hide ReleaseOk, PaymentsOk, InventoryOk, IsCreated, Correlated;
  }

  lemma RowStaged(s: System, svc: Service, r: Row)
    requires r in Rows(s, svc)
    ensures r.event in AllStaged(s)
  {
  }

  /** A confirmed order was paid in full, holds exactly its lines in a reservation that is still active,
      and is announced as cancelled nowhere: in no outbox and not in the log. */
  lemma ConfirmedIsPaidAndHeld(c: Config, s: System, o: Uuid)
    requires Reachable(c, s) && o in s.ord.orders && s.ord.orders[o].status == Orders.Confirmed
    ensures o in s.pay.payments && s.pay.payments[o].completed
    ensures s.pay.payments[o].amountCents == Totals.ExactTotal(s.ord.orders[o].items)
    ensures o in s.inv.reservations && !s.inv.reservations[o].released
    ensures var items, held := s.ord.orders[o].items, s.inv.reservations[o].lines;
            && |held| == |items|
            && forall i :: 0 <= i < |items| ==>
                 held[i].productId == items[i].productId && held[i].quantity == items[i].quantity
    ensures forall svc, r :: r in Rows(s, svc) && r.event.orderId == o ==> !r.event.payload.OrderCancelled?
    ensures forall e :: e in s.log && e.orderId == o ==> !e.payload.OrderCancelled?
  {
    ReachableAgree(c, s);
    ReachableLog(c, s);
    hide Reachable, Agree, CausalLog, AllStaged;
    OrderFacts(c, s, o);
    forall svc, r | r in Rows(s, svc) && r.event.orderId == o ensures !r.event.payload.OrderCancelled? {
      RowStaged(s, svc, r);
      NotCancelled(c, s, r.event);
    }
    forall e | e in s.log && e.orderId == o ensures !e.payload.OrderCancelled? {
      NotCancelled(c, s, e);
    }
  }

  lemma NotCancelled(c: Config, s: System, e: Event)
    requires Agree(c, OrdT(s), PayT(s), InvT(s)) && e in AllStaged(s)
    requires e.orderId in s.ord.orders ==> s.ord.orders[e.orderId].status == Orders.Confirmed
    ensures !e.payload.OrderCancelled?
  {
    if e.payload.OrderCancelled? {
      CreatedIsStaged(c, s, e);
    }
  }

  /** Stored totals are exact, and exactly that amount is charged. */
  lemma ChargedTheExactTotal(c: Config, s: System, o: Uuid)
    requires Reachable(c, s) && o in s.pay.payments
    ensures o in s.ord.orders
    ensures s.ord.orders[o].totalAmountCents == Totals.ExactTotal(s.ord.orders[o].items)
    ensures s.pay.payments[o].amountCents == Totals.ExactTotal(s.ord.orders[o].items)
    ensures Totals.ExactTotal(s.ord.orders[o].items) > 0
    ensures s.pay.payments[o].completed
       <==> Totals.ExactTotal(s.ord.orders[o].items) % 100 != c.declineEndsIn
  {
    ReachableInv(c, s);
    hide Reachable, BooksOk, NtfLink, RowsOk, RelaysOk, StockLedger.DbBalanced, ReleaseOk, OrdLink, InvLink, IsCreated;
    assert SaleOk(s.ord.orders[o]);
    Totals.TotalIsPositive(s.ord.orders[o].items);
  }

  /** The amounts, lines and reasons an event announces are those of its order: one exact total from creation
      through the charge to the confirmation. */
  ghost predicate Truthful(order: Orders.Order, p: Payload) {
    match p
    case OrderCreated(customerId, items, total, currency) =>
      && customerId == order.customerId && items == order.items && currency == order.currency
      && total == Totals.ExactTotal(order.items)
    case OrderConfirmed(customerId, total) =>
      customerId == order.customerId && total == Totals.ExactTotal(order.items)
    case OrderCancelled(customerId, reason) =>
      customerId == order.customerId && (reason == PaymentFailure <==> order.payment == Orders.Failed)
    case PaymentCompleted(customerId, _, amount) =>
      customerId == order.customerId && amount == Totals.ExactTotal(order.items)
    case PaymentFailed(customerId) => customerId == order.customerId
    case InventoryReserved(_, lines) =>
      && |lines| == |order.items|
      && forall i :: 0 <= i < |lines| ==>
           lines[i].productId == order.items[i].productId && lines[i].quantity == order.items[i].quantity
    case InventoryRejected(shortfalls) =>
      && shortfalls != []
      && forall f :: f in shortfalls ==>
           f.available < f.requested
           && exists i :: 0 <= i < |order.items| && order.items[i].productId == f.productId
                       && order.items[i].quantity == f.requested
  }

  lemma OrderEventTruthful(t: OrderTables, e: Event)
    requires OrdersOk(t) && e in t.events
    ensures e.orderId in t.orders && Truthful(t.orders[e.orderId], e.payload)
    ensures e.correlationId == t.orders[e.orderId].correlationId
  {
    hide Announced;
    assert OrderEventOk(t.orders, e) && SaleOk(t.orders[e.orderId]);
  }

  lemma PaymentEventTruthful(c: Config, ord: OrderTables, pay: PaymentTables, e: Event)
    requires OrdersOk(ord) && PaymentsOk(pay) && PayLink(c, ord, pay) && e in pay.events
    ensures e.orderId in ord.orders && Truthful(ord.orders[e.orderId], e.payload)
    ensures e.correlationId == ord.orders[e.orderId].correlationId
  {
    hide Announced, OrderEventOk, IsCreated;
    assert PaymentEventOk(pay.payments, e);
    assert PaymentAgrees(c, ord.orders[e.orderId], pay.payments[e.orderId]) && SaleOk(ord.orders[e.orderId]);
  }

  lemma InventoryEventTruthful(ord: OrderTables, inv: InventoryTables, e: Event)
    requires InventoryOk(inv) && InvLink(ord, inv) && e in inv.events
    ensures e.orderId in ord.orders && Truthful(ord.orders[e.orderId], e.payload)
    ensures e.correlationId == ord.orders[e.orderId].correlationId
  {
    hide IsCreated;
    assert InventoryEventOk(inv.reservations, e);
    if e.payload.InventoryRejected? { ShortItems(ord.orders[e.orderId].items, e.payload.shortfalls); }
  }

  lemma ShortItems(items: seq<Item>, shortfalls: seq<Shortfall>)
    requires ShortOf(LinesOf(items), shortfalls)
    ensures forall f :: f in shortfalls ==>
              f.available < f.requested
              && exists i :: 0 <= i < |items| && items[i].productId == f.productId && items[i].quantity == f.requested
  {
    var lines := LinesOf(items);
    forall f | f in shortfalls
      ensures exists i :: 0 <= i < |items| && items[i].productId == f.productId && items[i].quantity == f.requested
    {
      var i :| 0 <= i < |lines| && lines[i] == Line(f.productId, f.requested);
    }
  }

  /** Every committed outbox row, hence every logged message, tells the truth about its order. */
  lemma EventsAreTruthful(c: Config, s: System, svc: Service, r: Row)
    requires Reachable(c, s) && r in Rows(s, svc)
    ensures r.event.orderId in s.ord.orders && Truthful(s.ord.orders[r.event.orderId], r.event.payload)
    ensures r.event.correlationId == s.ord.orders[r.event.orderId].correlationId
  {
    hide Reachable, OrdersOk, PaymentsOk, InventoryOk, PayLink, InvLink, ReleaseOk, OrdLink, Truthful;
    ReachableAgree(c, s);
    match svc
    case OrderService => OrderEventTruthful(OrdT(s), r.event);
    case PaymentService => PaymentEventTruthful(c, OrdT(s), PayT(s), r.event);
    case InventoryService => InventoryEventTruthful(OrdT(s), InvT(s), r.event);
    case NotificationService =>
  }

  /** The stock ledger, for every product and every run, repeated products included. */
  lemma LedgerBalances(c: Config, s: System, p: Uuid)
    requires Reachable(c, s) && p in s.inv.products
    ensures s.inv.products[p].available + s.inv.products[p].reserved == c.defaultStock
    ensures s.inv.products[p].reserved == StockLedger.Demand(StockLedger.ActiveLines(s.inv.reservations), p)
  {
    ReachableInv(c, s);
    hide Reachable, Agree, BooksOk, NtfLink, RowsOk, RelaysOk;
  }

  // ---- unique keys -----------------------------------------------------------------

  /** Whether the transaction a delivery runs commits. */
  ghost predicate AttemptCommits(c: Config, s: System, svc: Service, m: Event, rowId: Uuid, eventId: Uuid)
    requires Subscribed(svc, m.payload)
  {
    match svc
    case OrderService => Orders.Attempt(s.ord, m, eventId).Commit?
    case PaymentService => Payments.Attempt(s.pay, m, rowId, eventId, c.declineEndsIn).Commit?
    case InventoryService => Inventory.Attempt(s.inv, m, rowId, eventId, c.defaultStock).Commit?
    case NotificationService => Notifications.Attempt(s.ntf, m).Commit?
  }

  /** A swallowed unique violation is always a genuine redelivery: the work of a logged message commits
      exactly when the message is not yet in the processed table. */
  lemma SwallowedMeansRedelivered(c: Config, s: System, svc: Service, i: nat, rowId: Uuid, eventId: Uuid)
    requires Reachable(c, s) && i < |s.log| && Subscribed(svc, s.log[i].payload)
    ensures AttemptCommits(c, s, svc, s.log[i], rowId, eventId) <==> s.log[i].eventId !in Processed(s, svc)
  {
    var m := s.log[i];
    ReachableInv(c, s);
    LoggedEvent(c, s, i);
    hide Reachable, Inv;
    if m.eventId !in Processed(s, svc) {
      match svc
      case OrderService =>
      case PaymentService => FirstChargeCommits(c, s, m, rowId, eventId);
      case InventoryService => FirstInventoryDeliveryCommits(c, s, m, rowId, eventId);
      case NotificationService => FirstNoticeCommits(c, s, m);
    }
  }

  // ---- settlement ------------------------------------------------------------------

  /** Rows announcing the given moment. */
  function CountSlot(rows: seq<Row>, slot: Slot): nat {
    if rows == [] then 0
    else CountSlot(rows[..|rows| - 1], slot) + (if SlotOf(rows[|rows| - 1].event) == slot then 1 else 0)
  }

  lemma {:induction false} DistinctCount(rows: seq<Row>, slot: Slot)
    requires DistinctSlots(rows)
    ensures CountSlot(rows, slot) == if slot in Slots(Staged(rows)) then 1 else 0
  {
    if rows != [] {
      var n := |rows| - 1;
      var last := rows[n].event;
      DistinctCount(rows[..n], slot);
      assert forall r :: r in rows <==> r in rows[..n] || r == rows[n];
      assert Staged(rows) == Staged(rows[..n]) + {last};
      assert Slots(Staged(rows)) == Slots(Staged(rows[..n])) + {SlotOf(last)};
      forall r | r in rows[..n] ensures SlotOf(r.event) != SlotOf(last) {
        var k :| 0 <= k < n && rows[k] == r;
      }
    }
  }

  /** Every order is announced once; its settlement once when it is settled and never before. */
  lemma SettlementIsAnnouncedOnce(c: Config, s: System, o: Uuid)
    requires Reachable(c, s)
    ensures CountSlot(s.ord.outbox, Slot(o, Created)) == (if o in s.ord.orders then 1 else 0)
    ensures CountSlot(s.ord.outbox, Slot(o, Settled))
         == (if o in s.ord.orders && s.ord.orders[o].status != Orders.Pending then 1 else 0)
  {
    ReachableInv(c, s);
    hide Reachable, BooksOk, NtfLink, RelaysOk, StockLedger.DbBalanced, DistinctSlots,
         PayLink, InvLink, OrdLink, ReleaseOk, PaymentsOk, InventoryOk, OrderEventOk;
    DistinctCount(s.ord.outbox, Slot(o, Created));
    DistinctCount(s.ord.outbox, Slot(o, Settled));
    if o !in s.ord.orders {
      forall e | e in Staged(s.ord.outbox) ensures e.orderId != o {
        Origin(c, s, e);
      }
    }
  }

  /** What a later state keeps of an earlier one: the sale, and a settled status. */
  ghost predicate Keeps(before: map<Uuid, Orders.Order>, after: map<Uuid, Orders.Order>) {
    forall o :: o in before ==>
      && o in after
      && after[o].customerId == before[o].customerId && after[o].items == before[o].items
      && after[o].totalAmountCents == before[o].totalAmountCents
      && after[o].correlationId == before[o].correlationId
      && (before[o].status != Orders.Pending ==> after[o] == before[o])
  }

  lemma HandleKeepsOrders(db: Orders.Db, m: Event, id: Uuid)
    ensures Keeps(db.orders, Orders.Handle(db, m, id).orders)
  {
  }

  lemma StepKeepsOrders(c: Config, s: System, step: Step)
    requires Enabled(s, step)
    ensures Keeps(s.ord.orders, Apply(c, s, step).ord.orders)
  {
    if step.Deliver? {
      HandleKeepsOrders(s.ord, s.log[step.message], step.eventId);
    }
  }

  /** Settlement is final: along any run, a terminal status (indeed the whole settled row) never changes. */
  lemma {:induction false} SettlementIsFinal(c: Config, s: System, steps: seq<Step>)
    requires Run(c, s, steps)
    ensures Keeps(s.ord.orders, After(c, s, steps).ord.orders)
    decreases |steps|
  {
    if steps != [] {
      hide Apply, Enabled;
      StepKeepsOrders(c, s, steps[0]);
      SettlementIsFinal(c, Apply(c, s, steps[0]), steps[1..]);
    }
  }

  // ---- the log ---------------------------------------------------------------------

  lemma RelayOf3(s: System, svc: Service)
    requires RelaysOk(s)
    ensures RelayOk(Rows(s, svc), RelayOf(s, svc), s.log)
  {
  }

  lemma StagedHasRow(s: System, e: Event)
    requires e in AllStaged(s)
    ensures exists svc, r :: r in Rows(s, svc) && r.event == e
  {
    if e in Staged(s.ord.outbox) {
      var r :| r in s.ord.outbox && r.event == e;
      assert r in Rows(s, OrderService);
    } else if e in Staged(s.pay.outbox) {
      var r :| r in s.pay.outbox && r.event == e;
      assert r in Rows(s, PaymentService);
    } else {
      var r :| r in s.inv.outbox && r.event == e;
      assert r in Rows(s, InventoryService);
    }
  }

  /** No loss and no phantom: a published row is in the log, and every logged message is a committed outbox row. */
  lemma PublishedExactlyFromOutbox(c: Config, s: System)
    requires Reachable(c, s)
    ensures forall svc, r :: r in Rows(s, svc) && r.published ==> r.event in s.log
    ensures forall e :: e in s.log ==> exists svc, r :: r in Rows(s, svc) && r.event == e
  {
    ReachableRows(c, s);
    ReachableLog(c, s);
    hide Reachable, RowsOk, RelaysOk, RelayOk, CausalLog, AllStaged;
    forall svc, r | r in Rows(s, svc) && r.published ensures r.event in s.log {
      RelayOf3(s, svc);
      PublishedIsLogged(Rows(s, svc), RelayOf(s, svc), s.log, r);
    }
    forall e | e in s.log ensures exists svc, r :: r in Rows(s, svc) && r.event == e {
      StagedHasRow(s, e);
    }
  }

  lemma PublishedIsLogged(rows: seq<Row>, relay: Relay, log: seq<Event>, r: Row)
    requires RelayOk(rows, relay, log) && r in rows && r.published
    ensures r.event in log
  {
  }

  /** Causality on the log, per order: a leg outcome is preceded by the creation, a settlement by an outcome;
      and an outcome never reaches the saga before its order exists. */
  lemma LogIsCausal(c: Config, s: System, i: nat)
    requires Reachable(c, s) && i < |s.log|
    ensures s.log[i].orderId in s.ord.orders
    ensures KindOf(s.log[i].payload) in {PaymentOutcome, InventoryOutcome} ==>
              exists j :: 0 <= j < i && SlotOf(s.log[j]) == Slot(s.log[i].orderId, Created)
    ensures KindOf(s.log[i].payload) == Settled ==>
              exists j :: 0 <= j < i && s.log[j].orderId == s.log[i].orderId
                       && KindOf(s.log[j].payload) in {PaymentOutcome, InventoryOutcome}
  {
    ReachableInv(c, s);
    LoggedEvent(c, s, i);
    hide Reachable, Agree, IdsOk, HandledOk, NtfLink, RowsOk, RelaysOk, StockLedger.DbBalanced;
    var o := s.log[i].orderId;
    assert Caused(s.log[..i], SlotOf(s.log[i]));
    match KindOf(s.log[i].payload)
    case Created =>
    case Settled =>
      if Mentions(s.log[..i], o, PaymentOutcome) {
        var j := MentionIndex(s.log, i, o, PaymentOutcome);
      } else {
        var j := MentionIndex(s.log, i, o, InventoryOutcome);
      }
    case _ =>
      var j := MentionIndex(s.log, i, o, Created);
  }

  lemma MentionIndex(log: seq<Event>, i: nat, o: Uuid, kind: Kind) returns (j: nat)
    requires i <= |log| && Mentions(log[..i], o, kind)
    ensures j < i && SlotOf(log[j]) == Slot(o, kind)
  {
    var e :| e in log[..i] && SlotOf(e) == Slot(o, kind);
    j :| 0 <= j < i && log[..i][j] == e;
  }

  // ---- overselling -----------------------------------------------------------------

  /** What the gateway of a shop could check on a request body: no product named twice, or a line beyond all stock. */
  ghost predicate SafeOrder(items: seq<Item>, stock: int) {
    || (forall i, j :: 0 <= i < j < |items| ==> items[i].productId != items[j].productId)
    || (exists i :: 0 <= i < |items| && items[i].quantity > stock)
  }

  lemma SafeOrderIsSafeCart(items: seq<Item>, stock: int)
    ensures SafeOrder(items, stock) <==> StockLedger.SafeCart(LinesOf(items), stock)
  {
    var lines := LinesOf(items);
    if i :| 0 <= i < |items| && items[i].quantity > stock { assert lines[i] in lines; }
  }

  ghost predicate SafeOrders(orders: map<Uuid, Orders.Order>, stock: int) {
    forall o :: o in orders ==> SafeOrder(orders[o].items, stock)
  }

  lemma PositiveOrderLines(items: seq<Item>)
    requires Totals.PositiveItems(items)
    ensures StockLedger.Positive(LinesOf(items))
  {
  }

  lemma HoldingsArePositive(c: Config, s: System)
    requires Agree(c, OrdT(s), PayT(s), InvT(s))
    ensures StockLedger.PositiveHoldings(s.inv.reservations)
  {
    hide PayLink, OrdLink, ReleaseOk, PaymentsOk, InventoryOk, IsCreated, Correlated, Announced, OrderEventOk;
    forall o | o in s.inv.reservations ensures StockLedger.Positive(s.inv.reservations[o].lines) {
      assert o in s.ord.orders && ReservationAgrees(s.ord.orders[o], s.inv.reservations[o]);
      assert SaleOk(s.ord.orders[o]);
      PositiveOrderLines(s.ord.orders[o].items);
    }
  }

  /** In every reachable state no product has more than the default stock available, because nothing negative is
      held. */
  lemma StockIsBounded(c: Config, s: System)
    requires Inv(c, s)
    ensures StockLedger.AtMostStock(s.inv.products, c.defaultStock)
    ensures StockLedger.PositiveHoldings(s.inv.reservations)
  {
    HoldingsArePositive(c, s) by { hide Agree, BooksOk, NtfLink, RowsOk, RelaysOk, StockLedger.DbBalanced; }
    hide Agree, BooksOk, NtfLink, RowsOk, RelaysOk, StockLedger.DbBalanced;
    StockLedger.BalancedIsAtMostStock(s.inv, c.defaultStock);
  }

  lemma DeliveryOversellsNothing(c: Config, s: System, m: Event, rowId: Uuid, eventId: Uuid)
    requires Inv(c, s) && StockLedger.NoneNegative(s.inv.products) && SafeOrders(s.ord.orders, c.defaultStock)
    requires m in AllStaged(s) && c.defaultStock >= 0
    ensures StockLedger.NoneNegative(Inventory.Handle(s.inv, m, rowId, eventId, c.defaultStock).products)
  {
    if m.payload.OrderCreated? {
      CreatedItems(c, s, m);
      SafeOrderIsSafeCart(m.payload.items, c.defaultStock);
    }
    StockIsBounded(c, s);
    hide Inv, Inventory.Handle, StockLedger.NoneNegative, StockLedger.PositiveHoldings, StockLedger.SafeCart;
    StockLedger.HandleNeverOversells(s.inv, m, rowId, eventId, c.defaultStock);
  }

  lemma DeliveryTouches(c: Config, s: System, svc: Service, m: Event, rowId: Uuid, eventId: Uuid)
    ensures var next := Receive(c, s, svc, m, rowId, eventId);
            && next.inv == (if svc == InventoryService then Inventory.Handle(s.inv, m, rowId, eventId, c.defaultStock)
                            else s.inv)
            && next.ord == (if svc == OrderService then Orders.Handle(s.ord, m, eventId) else s.ord)
  {
  }

  lemma StepKeepsStock(c: Config, s: System, step: Step)
    requires Inv(c, s) && StockLedger.NoneNegative(s.inv.products) && SafeOrders(s.ord.orders, c.defaultStock)
    requires Enabled(s, step) && c.defaultStock >= 0
    ensures StockLedger.NoneNegative(Apply(c, s, step).inv.products)
  {
    if step.Deliver? {
      var m := s.log[step.message];
      LoggedEvent(c, s, step.message);
      hide Inv, Receive, StockLedger.NoneNegative, SafeOrders;
      DeliveryOversellsNothing(c, s, m, step.rowId, step.eventId);
      DeliveryTouches(c, s, step.svc, m, step.rowId, step.eventId);
    } else {
      OtherStepsTouchNoStock(c, s, step);
      hide Inv, SafeOrders, Apply, StockLedger.NoneNegative;
    }
  }

  lemma OtherStepsTouchNoStock(c: Config, s: System, step: Step)
    requires Enabled(s, step) && !step.Deliver?
    ensures Apply(c, s, step).inv.products == s.inv.products
    ensures Apply(c, s, step).inv.reservations == s.inv.reservations
  {
  }

  lemma StepKeepsSafe(c: Config, s: System, step: Step)
    requires SafeOrders(s.ord.orders, c.defaultStock) && Enabled(s, step)
    requires step.Post? ==> SafeOrder(step.dto.items, c.defaultStock)
    ensures SafeOrders(Apply(c, s, step).ord.orders, c.defaultStock)
  {
    hide SafeOrder;
    if step.Deliver? {
      var m := s.log[step.message];
      DeliveryTouches(c, s, step.svc, m, step.rowId, step.eventId);
      HandleKeepsItems(s.ord, m, step.eventId);
      hide Receive, Orders.Handle;
    }
  }

  lemma CreatedItems(c: Config, s: System, m: Event)
    requires Inv(c, s) && m in AllStaged(s) && m.payload.OrderCreated?
    ensures m.orderId in s.ord.orders && m.payload.items == s.ord.orders[m.orderId].items
    ensures Totals.PositiveItems(m.payload.items)
  {
    hide BooksOk, NtfLink, RowsOk, RelaysOk, StockLedger.DbBalanced, PayLink, InvLink, ReleaseOk, OrdLink;
    CreatedIsStaged(c, s, m);
  }

  lemma HandleKeepsItems(db: Orders.Db, m: Event, id: Uuid)
    ensures Orders.Handle(db, m, id).orders.Keys == db.orders.Keys
    ensures forall o :: o in db.orders ==> Orders.Handle(db, m, id).orders[o].items == db.orders[o].items
  {
  }

  lemma {:induction false} RunOversellsNothing(c: Config, s: System, steps: seq<Step>)
    requires Inv(c, s) && StockLedger.NoneNegative(s.inv.products) && SafeOrders(s.ord.orders, c.defaultStock)
    requires Run(c, s, steps) && c.defaultStock >= 0
    requires forall i :: 0 <= i < |steps| && steps[i].Post? ==> SafeOrder(steps[i].dto.items, c.defaultStock)
    ensures StockLedger.NoneNegative(After(c, s, steps).inv.products)
    decreases |steps|
  {
    hide Inv, Apply, Enabled, StockLedger.NoneNegative, SafeOrders, SafeOrder;
    if steps != [] {
      StepKeeps(c, s, steps[0]);
      StepKeepsStock(c, s, steps[0]);
      StepKeepsSafe(c, s, steps[0]);
      RunOversellsNothing(c, Apply(c, s, steps[0]), steps[1..]);
    }
  }

  /** No oversell: if every order names no product twice, or asks for more of one than there ever is, no run ever takes
      available stock below zero. */
  lemma NeverOversold(c: Config, steps: seq<Step>, p: Uuid)
    requires Run(c, INIT, steps) && c.defaultStock >= 0
    requires forall i :: 0 <= i < |steps| && steps[i].Post? ==> SafeOrder(steps[i].dto.items, c.defaultStock)
    requires p in After(c, INIT, steps).inv.products
    ensures After(c, INIT, steps).inv.products[p].available >= 0
  {
    InitHolds(c);
    hide SafeOrder;
    RunOversellsNothing(c, INIT, steps);
  }

  // ---- holdings --------------------------------------------------------------------

  lemma StepKeepsFit(c: Config, s: System, step: Step)
    requires Inv(c, s) && StockLedger.HoldingsFit(s.inv.reservations, c.defaultStock) && Enabled(s, step)
    ensures StockLedger.HoldingsFit(Apply(c, s, step).inv.reservations, c.defaultStock)
  {
    StockIsBounded(c, s);
    hide Inv, StockLedger.HoldingsFit, StockLedger.AtMostStock, StockLedger.PositiveHoldings;
    if step.Deliver? {
      hide Receive;
      DeliveryTouches(c, s, step.svc, s.log[step.message], step.rowId, step.eventId);
      StockLedger.HandleKeepsFit(s.inv, s.log[step.message], step.rowId, step.eventId, c.defaultStock);
    } else {
      OtherStepsTouchNoStock(c, s, step);
      hide Apply;
    }
  }

  lemma {:induction false} RunKeepsFit(c: Config, s: System, steps: seq<Step>)
    requires Inv(c, s) && StockLedger.HoldingsFit(s.inv.reservations, c.defaultStock) && Run(c, s, steps)
    ensures StockLedger.HoldingsFit(After(c, s, steps).inv.reservations, c.defaultStock)
    decreases |steps|
  {
    hide Inv, Apply, Enabled, StockLedger.HoldingsFit;
    if steps != [] {
      StepKeeps(c, s, steps[0]);
      StepKeepsFit(c, s, steps[0]);
      RunKeepsFit(c, Apply(c, s, steps[0]), steps[1..]);
    }
  }

  /** In no reachable state does a reservation hold more of a product on one line than its default stock. */
  lemma ReservedWithinStock(c: Config, s: System, o: Uuid, l: Line)
    requires Reachable(c, s) && o in s.inv.reservations && l in s.inv.reservations[o].lines
    ensures l.quantity <= c.defaultStock
  {
    InitHolds(c);
    hide Inv, Apply, Enabled;
    var steps :| Run(c, INIT, steps) && After(c, INIT, steps) == s;
    RunKeepsFit(c, INIT, steps);
  }
}
