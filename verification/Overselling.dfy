/** Which orders the system can take without ever overselling: the converse of `NeverOversold`, by constructing runs. */
module Overselling {
  import opened Events
  import opened Outbox
  import opened Checkout
  import opened CheckoutInvariant
  import opened CheckoutRuns
  import opened CheckoutSafety
  import opened CheckoutTermination
  import opened Inventory
  import Orders
  import StockLedger
  import Totals

  /** The products after a `reserve` that commits. */
  function AfterReserve(products: map<Uuid, Product>, lines: seq<Line>, stock: int): map<Uuid, Product> {
    var stocked := Stocked(products, lines, stock);
    if Shortfalls(stocked, lines) == [] then Moved(stocked, lines, 1) else stocked
  }

  lemma CommittedReserve(db: Db, e: Event, r: Uuid, id: Uuid, stock: int)
    requires e.payload.OrderCreated? && Attempt(db, e, r, id, stock).Commit?
    ensures Handle(db, e, r, id, stock).products == AfterReserve(db.products, LinesOf(e.payload.items), stock)
  {
  }

  lemma Fresh(c: Config, s: System) returns (id: Uuid, key: Uuid)
    requires Reachable(c, s)
    ensures forall u :: u in s.used ==> u < id
    ensures key !in s.ord.keys && id !in s.ord.orders
    ensures id + 2 !in s.inv.processed
  {
    id := FreshId(s.used);
    key := FreshId(s.ord.keys.Keys);
    ReachableBooks(c, s);
    hide Reachable, BooksOk;
    FreshIsUnprocessed(AllStaged(s), s.ord.orders.Keys, s.used, HandledBy(s), s.log, id + 2);
  }

  lemma PostShape(c: Config, s: System, key: Uuid, dto: Orders.Dto, id: Uuid)
    requires Orders.ValidDto(dto) && Orders.FitsColumns(dto.items)
    requires key !in s.ord.keys && id !in s.ord.orders && forall u :: u in s.used ==> u < id
    ensures var ids := Orders.Ids(id, id + 1, id + 2); var post := Post(key, "hash", dto, ids);
            var created := Orders.CreatedEvent(Orders.NewOrder(dto, ids), ids);
            && Enabled(s, post)
            && var s1 := Apply(c, s, post);
               && s1.inv == s.inv && s1.ord.outbox == Enqueue(s.ord.outbox, created) && s1.log == s.log
               && s1.ordRelay == s.ordRelay && s1.used == s.used + {id, id + 1, id + 2}
  {
    hide Orders.FitsColumns, Totals.ExactTotal, Totals.PositiveItems;
  }

  lemma PublishShape(c: Config, s: System, row: nat)
    requires s.ordRelay == Idle && row < |s.ord.outbox| && !s.ord.outbox[row].published
    ensures Enabled(s, Publish(OrderService, row, false))
    ensures Apply(c, s, Publish(OrderService, row, false)) == s.(log := s.log + [s.ord.outbox[row].event])
  {
  }

  lemma DeliverShape(c: Config, s: System, i: nat, id: Uuid)
    requires i < |s.log| && id !in s.used && s.log[i].payload.OrderCreated?
    requires Attempt(s.inv, s.log[i], id, id, c.defaultStock).Commit?
    ensures var step := Deliver(InventoryService, i, id, id);
            && Enabled(s, step) && Apply(c, s, step).ordRelay == s.ordRelay
            && Apply(c, s, step).inv.products
                 == AfterReserve(s.inv.products, LinesOf(s.log[i].payload.items), c.defaultStock)
  {
    CommittedReserve(s.inv, s.log[i], id, id, c.defaultStock);
    hide Handle, Attempt, AfterReserve;
  }

  // ---- counters in range -----------------------------------------------------------

  /** Every counter fits its INTEGER column. */
  ghost predicate CountersFit(products: map<Uuid, Product>) {
    forall p :: p in products ==>
      Totals.FitsInteger(products[p].available) && Totals.FitsInteger(products[p].reserved)
  }

  /** No update of the run overflows a counter. */
  ghost predicate InRange(c: Config, s: System, steps: seq<Step>)
    requires Run(c, s, steps)
    decreases |steps|
  {
    && CountersFit(s.inv.products)
    && (steps == [] || InRange(c, Apply(c, s, steps[0]), steps[1..]))
  }

  lemma {:induction false} InRangeAppend(c: Config, s: System, a: seq<Step>, b: seq<Step>)
    requires Run(c, s, a) && Run(c, After(c, s, a), b)
    requires InRange(c, s, a) && InRange(c, After(c, s, a), b)
    ensures Run(c, s, a + b) && InRange(c, s, a + b)
    decreases |a|
  {
    hide Enabled, Apply, CountersFit;
    RunAppend(c, s, a, b);
    if a == [] {
      assert a + b == b;
    } else {
      assert (a + b)[1..] == a[1..] + b;
      InRangeAppend(c, Apply(c, s, a[0]), a[1..], b);
    }
  }

  lemma {:induction false} InRangeEnds(c: Config, s: System, steps: seq<Step>)
    requires Run(c, s, steps) && InRange(c, s, steps)
    ensures CountersFit(After(c, s, steps).inv.products)
    decreases |steps|
  {
    hide Enabled, Apply, CountersFit;
    if steps != [] { InRangeEnds(c, Apply(c, s, steps[0]), steps[1..]); }
  }

  lemma InRangeOne(c: Config, s: System, step: Step)
    requires Enabled(s, step) && CountersFit(s.inv.products) && CountersFit(Apply(c, s, step).inv.products)
    ensures Run(c, s, [step]) && InRange(c, s, [step])
  {
    hide Enabled, Apply, CountersFit;
    assert [step][1..] == [];
    assert Run(c, Apply(c, s, step), []) && InRange(c, Apply(c, s, step), []);
  }

  lemma InRangeNone(c: Config, s: System)
    requires CountersFit(s.inv.products)
    ensures Run(c, s, []) && InRange(c, s, [])
  {
  }

  /** The quantities of an order add up to no more than its total in cents. */
  lemma {:induction false} QuantityWithinTotal(items: seq<Item>, p: Uuid)
    requires Totals.PositiveItems(items)
    ensures 0 <= Quantity(LinesOf(items), p) <= Totals.ExactTotal(items)
  {
    if items != [] {
      var n := |items| - 1;
      assert items[n] in items;
      assert forall i :: i in items[..n] ==> i in items;
      assert LinesOf(items)[..n] == LinesOf(items[..n]);
      QuantityWithinTotal(items[..n], p);
      assert items[n].quantity * items[n].unitPriceCents >= items[n].quantity;
    }
  }

  // ---- placing orders --------------------------------------------------------------

  lemma Then(c: Config, s: System, steps: seq<Step>, step: Step)
    requires Reachable(c, s) && Run(c, s, steps) && Enabled(After(c, s, steps), step)
    ensures Run(c, s, steps + [step]) && After(c, s, steps + [step]) == Apply(c, After(c, s, steps), step)
    ensures Reachable(c, After(c, s, steps + [step]))
    ensures InRange(c, s, steps) && CountersFit(After(c, s, steps + [step]).inv.products) ==>
              InRange(c, s, steps + [step])
  {
    hide Reachable, Enabled, Apply, CountersFit;
    if InRange(c, s, steps) && CountersFit(Apply(c, After(c, s, steps), step).inv.products) {
      InRangeEnds(c, s, steps);
      InRangeOne(c, After(c, s, steps), step);
      InRangeAppend(c, s, steps, [step]);
    }
    OneStep(c, After(c, s, steps), step);
    RunAppend(c, s, steps, [step]);
    ReachableAfter(c, s, steps + [step]);
  }

  /** From any reachable state an order can be placed, published and brought to the inventory. */
  lemma Place(c: Config, s: System, dto: Orders.Dto) returns (steps: seq<Step>)
    requires Reachable(c, s) && s.ordRelay == Idle && Orders.ValidDto(dto) && Orders.FitsColumns(dto.items)
    ensures Run(c, s, steps) && forall t :: t in steps && t.Post? ==> t.dto == dto
    ensures var next := After(c, s, steps);
            && Reachable(c, next) && next.ordRelay == Idle
            && next.inv.products == AfterReserve(s.inv.products, LinesOf(dto.items), c.defaultStock)
            && (CountersFit(s.inv.products) && CountersFit(next.inv.products) ==> InRange(c, s, steps))
  {
    hide Reachable, Enabled, Apply, AfterReserve, CountersFit, InRange, Orders.ValidDto, Orders.FitsColumns, Run, After;
    var id, key := Fresh(c, s);
    var ids := Orders.Ids(id, id + 1, id + 2);
    var created := Orders.CreatedEvent(Orders.NewOrder(dto, ids), ids);
    PostShape(c, s, key, dto, id);
    var a := Post(key, "hash", dto, ids);
    NoSteps(c, s);
    if CountersFit(s.inv.products) { InRangeNone(c, s); }
    Then(c, s, [], a);
    var s1 := After(c, s, [] + [a]);
    var row := |s.ord.outbox|;
    PublishShape(c, s1, row);
    var b := Publish(OrderService, row, false);
    Then(c, s, [] + [a], b);
    var s2 := After(c, s, [] + [a] + [b]);
    var i := |s.log|;
    assert s2.log[i] == created;
    SwallowedMeansRedelivered(c, s2, InventoryService, i, id + 3, id + 3);
    DeliverShape(c, s2, i, id + 3);
    var d := Deliver(InventoryService, i, id + 3, id + 3);
    Then(c, s, [] + [a] + [b], d);
    steps := [] + [a] + [b] + [d];
  }

  lemma NoSteps(c: Config, s: System)
    ensures Run(c, s, []) && After(c, s, []) == s
  {
  }

  // ---- the level an unsafe cart needs ----------------------------------------------

  /** An order that leaves exactly the peak of the product the unsafe cart repeats. */
  function Filler(p: Uuid, quantity: int): Orders.Dto {
    Orders.Dto(0, [Item(p, quantity, 1)], None)
  }

  lemma FillerIsFine(p: Uuid, quantity: int, stock: int)
    requires 0 < quantity && Totals.FitsInteger(quantity)
    ensures var dto := Filler(p, quantity);
            && Orders.ValidDto(dto) && Orders.FitsColumns(dto.items) && SafeOrder(dto.items, stock)
            && LinesOf(dto.items) == [Line(p, quantity)]
  {
    assert [Item(p, quantity, 1)][..0] == [];
  }

  lemma FillerLeaves(p: Uuid, quantity: int, stock: int)
    requires 0 < quantity <= stock
    ensures AfterReserve(map[], [Line(p, quantity)], stock) == map[p := Product(stock - quantity, quantity)]
  {
    var lines := [Line(p, quantity)];
    assert Line(p, quantity) in lines && lines[..0] == [];
    var stocked := Stocked(map[], lines, stock);
    assert stocked == map[p := Product(stock, 0)];
    NoShortfallMeansCovered(stocked, lines);
    assert Quantity(lines, p) == quantity;
  }

  /** Every request of the run is either this cart or a safe one. */
  ghost predicate PostsOnly(c: Config, steps: seq<Step>, items: seq<Item>) {
    forall i :: 0 <= i < |steps| && steps[i].Post? ==>
      steps[i].dto.items == items || SafeOrder(steps[i].dto.items, c.defaultStock)
  }

  ghost predicate Oversells(c: Config, steps: seq<Step>) {
    && Run(c, INIT, steps)
    && exists p :: p in After(c, INIT, steps).inv.products && After(c, INIT, steps).inv.products[p].available < 0
  }

  /** As much as can be left for the cart to oversell by the least, so that no counter overflows. */
  function Leave(lines: seq<Line>, p: Uuid, stock: int): int {
    if Quantity(lines, p) - 1 <= stock then Quantity(lines, p) - 1 else stock
  }

  lemma FillUp(c: Config, p: Uuid, level: int) returns (steps: seq<Step>)
    requires 0 <= level <= c.defaultStock && Totals.FitsInteger(c.defaultStock)
    ensures Run(c, INIT, steps) && InRange(c, INIT, steps)
    ensures forall t :: t in steps && t.Post? ==> SafeOrder(t.dto.items, c.defaultStock)
    ensures var next := After(c, INIT, steps);
            && Reachable(c, next) && next.ordRelay == Idle
            && (next.inv.products == StockLedger.Level(p, level, c.defaultStock) ||
                (level == c.defaultStock && next.inv.products == map[]))
  {
    var quantity := c.defaultStock - level;
    InitReachable(c);
    InRangeNone(c, INIT);
    hide Reachable, Run, After, AfterReserve, SafeOrder, Orders.ValidDto, Orders.FitsColumns, InRange;
    NoSteps(c, INIT);
    if quantity == 0 {
      steps := [];
    } else {
      FillerIsFine(p, quantity, c.defaultStock);
      FillerLeaves(p, quantity, c.defaultStock);
      steps := Place(c, INIT, Filler(p, quantity));
    }
  }

  lemma CartLeavesCountersFit(products: map<Uuid, Product>, items: seq<Item>, p: Uuid, stock: int)
    requires Totals.PositiveItems(items) && Totals.FitsInteger(Totals.ExactTotal(items))
    requires 0 <= stock < Totals.INT4_MAX && forall l :: l in LinesOf(items) ==> l.quantity <= stock
    requires var lines := LinesOf(items); var level := Leave(lines, p, stock);
             && StockLedger.Peak(lines, p) <= level
             && (products == StockLedger.Level(p, level, stock) || (level == stock && products == map[]))
    ensures CountersFit(AfterReserve(products, LinesOf(items), stock))
    ensures p in AfterReserve(products, LinesOf(items), stock)
    ensures AfterReserve(products, LinesOf(items), stock)[p].available < 0
  {
    var lines := LinesOf(items);
    var level := Leave(lines, p, stock);
    StockLedger.UnsafeCartOversells(products, lines, p, level, stock);
    var after := AfterReserve(products, lines, stock);
    assert after == Moved(Stocked(products, lines, stock), lines, 1);
    hide StockLedger.Peak, Stocked, Shortfalls, Quantity, Totals.ExactTotal;
    forall q | q in after
      ensures Totals.FitsInteger(after[q].available) && Totals.FitsInteger(after[q].reserved)
    {
      QuantityWithinTotal(items, q);
    }
  }

  lemma LeaveIsEnough(lines: seq<Line>, i: nat, j: nat, stock: int)
    requires StockLedger.Positive(lines) && i < j < |lines| && lines[i].productId == lines[j].productId
    requires stock >= 0 && forall l :: l in lines ==> l.quantity <= stock
    ensures var p := lines[i].productId;
            StockLedger.Peak(lines, p) <= Leave(lines, p, stock) <= stock && 0 <= Leave(lines, p, stock)
  {
    StockLedger.RepeatedExceedsPeak(lines, i, j);
    StockLedger.PeakCovers(lines, lines[i].productId, stock);
  }

  /** An unsafe cart oversells in some run whose other orders are all safe and in which no counter overflows. */
  lemma UnsafeOrderOversells(c: Config, dto: Orders.Dto) returns (steps: seq<Step>)
    requires 0 <= c.defaultStock < Totals.INT4_MAX
    requires Orders.ValidDto(dto) && Orders.FitsColumns(dto.items) && !SafeOrder(dto.items, c.defaultStock)
    ensures PostsOnly(c, steps, dto.items) && Oversells(c, steps) && InRange(c, INIT, steps)
  {
    var lines := LinesOf(dto.items);
    PositiveOrderLines(dto.items);
    SafeOrderIsSafeCart(dto.items, c.defaultStock);
    var i, j :| 0 <= i < j < |lines| && lines[i].productId == lines[j].productId;
    var p := lines[i].productId;
    assert forall l :: l in lines ==> l.quantity <= c.defaultStock;
    LeaveIsEnough(lines, i, j, c.defaultStock);
    var level := Leave(lines, p, c.defaultStock);
    hide Reachable, Run, After, SafeOrder, InRange, CountersFit, AfterReserve, Leave, StockLedger.Level,
         StockLedger.Peak;
    var first := FillUp(c, p, level);
    var s := After(c, INIT, first);
    CartLeavesCountersFit(s.inv.products, dto.items, p, c.defaultStock);
    hide Orders.ValidDto, Orders.FitsColumns;
    var second := Place(c, s, dto);
    InRangeEnds(c, INIT, first);
    steps := first + second;
    PostsOnlyThese(c, first, second, dto);
    hide PostsOnly;
    RunAppend(c, INIT, first, second);
    InRangeAppend(c, INIT, first, second);
  }

  lemma PostsOnlyThese(c: Config, first: seq<Step>, second: seq<Step>, dto: Orders.Dto)
    requires forall t :: t in first && t.Post? ==> SafeOrder(t.dto.items, c.defaultStock)
    requires forall t :: t in second && t.Post? ==> t.dto == dto
    ensures PostsOnly(c, first + second, dto.items)
  {
    hide SafeOrder;
    var steps := first + second;
    forall k | 0 <= k < |steps| && steps[k].Post?
      ensures steps[k].dto.items == dto.items || SafeOrder(steps[k].dto.items, c.defaultStock)
    {
      assert steps[k] in first || steps[k] in second;
    }
  }

  /** With the largest stock a column can hold, an oversell would overflow the other counter, so that its transaction
      aborts instead. */
  lemma FullStockNeverOversells(c: Config, steps: seq<Step>)
    requires c.defaultStock == Totals.INT4_MAX && Run(c, INIT, steps) && InRange(c, INIT, steps)
    ensures !Oversells(c, steps)
  {
    hide Reachable, Apply, Enabled;
    InitReachable(c);
    ReachableAfter(c, INIT, steps);
    InRangeEnds(c, INIT, steps);
    if p :| p in After(c, INIT, steps).inv.products && After(c, INIT, steps).inv.products[p].available < 0 {
      LedgerBalances(c, After(c, INIT, steps), p);
    }
  }

  /** An order can be taken, beside any number of safe ones and in any interleaving that overflows no counter, without
      ever overselling exactly when it is itself safe, or the default stock is the largest a column can hold. */
  lemma TakenSafelyExactlyWhen(c: Config, dto: Orders.Dto)
    requires c.defaultStock >= 0 && Totals.FitsInteger(c.defaultStock)
    requires Orders.ValidDto(dto) && Orders.FitsColumns(dto.items)
    ensures (forall steps :: PostsOnly(c, steps, dto.items) && Run(c, INIT, steps) && InRange(c, INIT, steps) ==>
              !Oversells(c, steps))
       <==> SafeOrder(dto.items, c.defaultStock) || c.defaultStock == Totals.INT4_MAX
  {
    hide Run, After, SafeOrder, Orders.ValidDto, Orders.FitsColumns, InRange;
    if SafeOrder(dto.items, c.defaultStock) {
      forall steps | PostsOnly(c, steps, dto.items) ensures !Oversells(c, steps) {
        if Oversells(c, steps) {
          var p :| p in After(c, INIT, steps).inv.products && After(c, INIT, steps).inv.products[p].available < 0;
          NeverOversold(c, steps, p);
        }
      }
    } else if c.defaultStock == Totals.INT4_MAX {
      forall steps | Run(c, INIT, steps) && InRange(c, INIT, steps) ensures !Oversells(c, steps) {
        FullStockNeverOversells(c, steps);
      }
    } else {
      var steps := UnsafeOrderOversells(c, dto);
    }
  }
}
