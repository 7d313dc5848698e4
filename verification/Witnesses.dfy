/** Two runs that refute what the documentation suggests: cancelled orders need not free their stock, nor go
    uncharged. */
module Witnesses {
  import opened Events
  import opened Outbox
  import opened Checkout
  import opened Inventory
  import Orders
  import Payments
  import Notifications
  import Totals
  import CheckoutSafety
  import CheckoutRest
  import CheckoutTermination

  const CONFIG := Config(100, 13)

  // ---- a declined order whose cancellation overtakes its creation at the inventory --

  const ITEMS := [Item(7, 1, 13)]
  const DTO := Orders.Dto(1, ITEMS, None)
  const IDS := Orders.Ids(10, 11, 12)
  const PENDING := Orders.Order(1, Orders.Pending, Orders.LegPending, Orders.LegPending, 13, "USD", 11, ITEMS)
  const CANCELLED := PENDING.(status := Orders.Cancelled, payment := Orders.Failed)
  const KEYS: map<Uuid, Orders.KeyRow> :=
    map[0 := Orders.KeyRow("hash", Orders.Completed, Some(Orders.Response(10, PENDING)), Some(201))]
  const CREATED := Event(12, 11, 10, OrderCreated(1, ITEMS, 13, "USD"))
  const FAILED := Event(21, 11, 10, PaymentFailed(1))
  const UNDO := Event(23, 11, 10, OrderCancelled(1, PaymentFailure))
  const HELD := Event(27, 11, 10, InventoryReserved(26, [Line(7, 1)]))

  lemma Totals13()
    ensures Totals.ExactTotal(ITEMS) == 13 && Totals.PositiveItems(ITEMS) && LinesOf(ITEMS) == [Line(7, 1)]
  {
    assert ITEMS[..0] == [];
  }

  const S1 := INIT.(ord := Orders.Db(KEYS, map[10 := PENDING], [Row(CREATED, false)], []), used := {10, 11, 12})
  const S3 := S1.(ord := S1.ord.(outbox := [Row(CREATED, true)]), log := [CREATED])
  const S4 := S3.(pay := Payments.Db(map[10 := Payments.Payment(20, 1, 13, false)], [Row(FAILED, false)], [12]),
                  used := {10, 11, 12, 20, 21})
  const S6 := S4.(pay := S4.pay.(outbox := [Row(FAILED, true)]), log := [CREATED, FAILED])
  const S7 := S6.(ord := Orders.Db(KEYS, map[10 := CANCELLED], [Row(CREATED, true), Row(UNDO, false)], [21]),
                  used := {10, 11, 12, 20, 21, 22, 23})
  const S9 := S7.(ord := S7.ord.(outbox := [Row(CREATED, true), Row(UNDO, true)]), log := [CREATED, FAILED, UNDO])
  const S10 := S9.(inv := S9.inv.(processed := [23]), used := {10, 11, 12, 20, 21, 22, 23, 24, 25})
  const S11 := S10.(inv := Db(map[7 := Product(99, 1)], map[10 := Reservation(26, false, [Line(7, 1)])],
                              [Row(HELD, false)], [23, 12]),
                    used := {10, 11, 12, 20, 21, 22, 23, 24, 25, 26, 27})
  const S13 := S11.(inv := S11.inv.(outbox := [Row(HELD, true)]), log := [CREATED, FAILED, UNDO, HELD])
  const S14 := S13.(ord := S13.ord.(processed := [21, 27]),
                    used := {10, 11, 12, 20, 21, 22, 23, 24, 25, 26, 27, 28, 29})
  const S15 := S14.(ntf := Notifications.Db(map[(10, Notifications.PaymentFailedNotice) := 1], [21]),
                    used := {10, 11, 12, 20, 21, 22, 23, 24, 25, 26, 27, 28, 29, 30, 31})

  /** One step of a run that goes on from there. */
  lemma Cons(s: System, step: Step, rest: seq<Step>, end: System)
    requires Enabled(s, step) && Run(CONFIG, Apply(CONFIG, s, step), rest)
    requires After(CONFIG, Apply(CONFIG, s, step), rest) == end
    ensures Run(CONFIG, s, [step] + rest) && After(CONFIG, s, [step] + rest) == end
  {
    assert ([step] + rest)[1..] == rest;
  }

  lemma PostStep()
    ensures var step := Post(0, "hash", DTO, IDS); Enabled(INIT, step) && Apply(CONFIG, INIT, step) == S1
  {
    Totals13();
  }

  lemma ChargeStep()
    ensures var step := Deliver(PaymentService, 0, 20, 21); Enabled(S3, step) && Apply(CONFIG, S3, step) == S4
  {
  }

  lemma CancelStep()
    ensures var step := Deliver(OrderService, 1, 22, 23); Enabled(S6, step) && Apply(CONFIG, S6, step) == S7
  {
  }

  lemma EarlyReleaseStep()
    ensures var step := Deliver(InventoryService, 2, 24, 25); Enabled(S9, step) && Apply(CONFIG, S9, step) == S10
  {
  }

  lemma LateReserveStep()
    ensures var step := Deliver(InventoryService, 0, 26, 27); Enabled(S10, step) && Apply(CONFIG, S10, step) == S11
  {
    Totals13();
    var lines := [Line(7, 1)];
    assert lines[..0] == [];
    assert Line(7, 1) in lines;
    var stocked := Stocked(S10.inv.products, lines, 100);
    assert stocked == map[7 := Product(100, 0)];
    assert Shortfalls(stocked, lines) == [];
    assert Quantity(lines, 7) == 1;
    assert Moved(stocked, lines, 1) == map[7 := Product(99, 1)];
  }

  lemma IgnoredStep()
    ensures var step := Deliver(OrderService, 3, 28, 29); Enabled(S13, step) && Apply(CONFIG, S13, step) == S14
  {
  }

  lemma NoticeStep()
    ensures var step := Deliver(NotificationService, 1, 30, 31); Enabled(S14, step) && Apply(CONFIG, S14, step) == S15
  {
  }

  /** Publishing and marking the only unpublished row. */
  lemma Relayed(s: System, svc: Service, row: nat, end: System)
    requires RelayOf(s, svc) == Idle && row < |Rows(s, svc)| && !Rows(s, svc)[row].published
    requires end == WithRows(s, svc, Mark(Rows(s, svc), row)).(log := s.log + [Rows(s, svc)[row].event])
    ensures var a, b := Publish(svc, row, true), MarkRow(svc);
            && Enabled(s, a) && Enabled(Apply(CONFIG, s, a), b)
            && Apply(CONFIG, Apply(CONFIG, s, a), b) == end
  {
  }

  lemma ConsRelay(s: System, svc: Service, row: nat, mid: System, rest: seq<Step>, end: System)
    requires RelayOf(s, svc) == Idle && row < |Rows(s, svc)| && !Rows(s, svc)[row].published
    requires mid == WithRows(s, svc, Mark(Rows(s, svc), row)).(log := s.log + [Rows(s, svc)[row].event])
    requires Run(CONFIG, mid, rest) && After(CONFIG, mid, rest) == end
    ensures Run(CONFIG, s, [Publish(svc, row, true), MarkRow(svc)] + rest)
    ensures After(CONFIG, s, [Publish(svc, row, true), MarkRow(svc)] + rest) == end
  {
    Relayed(s, svc, row, mid);
    var a, b := Publish(svc, row, true), MarkRow(svc);
    hide Enabled, Apply;
    Cons(Apply(CONFIG, s, a), b, rest, end);
    Cons(s, a, [b] + rest, end);
    assert [a, b] + rest == [a] + ([b] + rest);
  }

  lemma HeldIsRelayed()
    ensures RelayOf(S11, InventoryService) == Idle && |Rows(S11, InventoryService)| == 1
    ensures Rows(S11, InventoryService)[0] == Row(HELD, false)
    ensures S13 == WithRows(S11, InventoryService, Mark(Rows(S11, InventoryService), 0)).(log := S11.log + [HELD])
  {
  }

  lemma TailReaches() returns (steps: seq<Step>)
    ensures Run(CONFIG, S10, steps) && After(CONFIG, S10, steps) == S15
  {
    LateReserveStep();
    IgnoredStep();
    NoticeStep();
    assert Run(CONFIG, S15, []) && After(CONFIG, S15, []) == S15;
    HeldIsRelayed();
    hide Enabled, Apply, Rows, RelayOf, WithRows, Mark;
    Cons(S14, Deliver(NotificationService, 1, 30, 31), [], S15);
    steps := [Deliver(NotificationService, 1, 30, 31)] + [];
    Cons(S13, Deliver(OrderService, 3, 28, 29), steps, S15);
    steps := [Deliver(OrderService, 3, 28, 29)] + steps;
    ConsRelay(S11, InventoryService, 0, S13, steps, S15);
    steps := [Publish(InventoryService, 0, true), MarkRow(InventoryService)] + steps;
    Cons(S10, Deliver(InventoryService, 0, 26, 27), steps, S15);
    steps := [Deliver(InventoryService, 0, 26, 27)] + steps;
  }

  lemma MiddleReaches() returns (steps: seq<Step>)
    ensures Run(CONFIG, S4, steps) && After(CONFIG, S4, steps) == S15
  {
    CancelStep();
    EarlyReleaseStep();
    steps := TailReaches();
    assert S9 == WithRows(S7, OrderService, Mark(Rows(S7, OrderService), 1)).(log := S7.log + [UNDO]);
    assert S6 == WithRows(S4, PaymentService, Mark(Rows(S4, PaymentService), 0)).(log := S4.log + [FAILED]);
    hide Enabled, Apply;
    Cons(S9, Deliver(InventoryService, 2, 24, 25), steps, S15);
    steps := [Deliver(InventoryService, 2, 24, 25)] + steps;
    ConsRelay(S7, OrderService, 1, S9, steps, S15);
    steps := [Publish(OrderService, 1, true), MarkRow(OrderService)] + steps;
    Cons(S6, Deliver(OrderService, 1, 22, 23), steps, S15);
    steps := [Deliver(OrderService, 1, 22, 23)] + steps;
    ConsRelay(S4, PaymentService, 0, S6, steps, S15);
    steps := [Publish(PaymentService, 0, true), MarkRow(PaymentService)] + steps;
  }

  lemma S15Reachable()
    ensures Reachable(CONFIG, S15)
  {
    PostStep();
    ChargeStep();
    var steps := MiddleReaches();
    assert S3 == WithRows(S1, OrderService, Mark(Rows(S1, OrderService), 0)).(log := S1.log + [CREATED]);
    hide Enabled, Apply;
    Cons(S3, Deliver(PaymentService, 0, 20, 21), steps, S15);
    steps := [Deliver(PaymentService, 0, 20, 21)] + steps;
    ConsRelay(S1, OrderService, 0, S3, steps, S15);
    steps := [Publish(OrderService, 0, true), MarkRow(OrderService)] + steps;
    Cons(INIT, Post(0, "hash", DTO, IDS), steps, S15);
  }

  lemma S15Quiescent()
    ensures Quiescent(S15)
  {
    forall svc, e | e in S15.log && Checkout.Subscribed(svc, e.payload) ensures e.eventId in Processed(S15, svc) {
      assert e in [CREATED, FAILED, UNDO, HELD];
    }
  }

  /** "Cancelled implies released" is false of this system: in this run the inventory handles the cancellation before
      the creation, and at rest, with nothing dead-lettered, the cancelled order still holds its stock. */
  lemma CancelledOrderKeepsStock()
    ensures Reachable(CONFIG, S15) && Quiescent(S15)
    ensures S15.ord.orders[10].status == Orders.Cancelled
    ensures !S15.inv.reservations[10].released && S15.inv.products[7] == Product(99, 1)
  {
    S15Reachable();
    S15Quiescent();
  }

  // ---- an order for more than the stock --------------------------------------------

  const BIG := [Item(7, 101, 1)]
  const BIG_DTO := Orders.Dto(1, BIG, None)

  lemma BigTotal()
    ensures Totals.ExactTotal(BIG) == 101 && Totals.PositiveItems(BIG)
  {
    assert BIG[..0] == [];
  }

  /** "Cancelled implies not charged" is false of this system: there is a run that ends at rest with order 10
      cancelled and its payment completed. */
  lemma CancelledOrderIsCharged() returns (steps: seq<Step>)
    ensures Run(CONFIG, INIT, steps) && Quiescent(After(CONFIG, INIT, steps))
    ensures var s := After(CONFIG, INIT, steps);
            && 10 in s.ord.orders && s.ord.orders[10].status == Orders.Cancelled
            && 10 in s.pay.payments && s.pay.payments[10].completed
  {
    BigTotal();
    var post := Post(0, "hash", BIG_DTO, IDS);
    assert Enabled(INIT, post);
    var s1 := Apply(CONFIG, INIT, post);
    assert s1.ord.orders[10].items == BIG && s1.ord.orders[10].totalAmountCents == 101;
    hide Enabled, Apply, Totals.ExactTotal;
    CheckoutTermination.InitReachable(CONFIG);
    CheckoutTermination.ReachableStep(CONFIG, INIT, post);
    var rest := CheckoutTermination.CanComeToRest(CONFIG, s1);
    CheckoutSafety.SettlementIsFinal(CONFIG, s1, rest);
    steps := [post] + rest;
    Cons(INIT, post, rest, After(CONFIG, s1, rest));
    CheckoutTermination.ReachableAfter(CONFIG, s1, rest);
    CheckoutRest.OversizedOrderIsCancelledYetCharged(CONFIG, After(CONFIG, s1, rest), 10, 0);
  }
}
