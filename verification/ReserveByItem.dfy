/** The first delivery of an order to the inventory, told item by item, and stock at rest counted from items sold. */
module ReserveByItem {
  import opened Events
  import opened Inventory
  import opened Checkout
  import opened CheckoutRest
  import Orders
  import Outbox
  import StockLedger

  /** What a product has before an order touches it. */
  function Before(db: Db, p: Uuid, stock: int): Product {
    if p in db.products then db.products[p] else Product(stock, 0)
  }

  lemma {:induction false} ShortfallsAreAll(products: map<Uuid, Product>, lines: seq<Line>)
    requires ProductsOf(lines) <= products.Keys
    ensures forall l :: l in lines && l.productId in products && products[l.productId].available < l.quantity ==>
              Shortfall(l.productId, l.quantity, products[l.productId].available) in Shortfalls(products, lines)
  {
    if lines != [] {
      var n := |lines| - 1;
      assert forall l :: l in lines <==> l in lines[..n] || l == lines[n];
      assert ProductsOf(lines[..n]) <= ProductsOf(lines);
      ShortfallsAreAll(products, lines[..n]);
    }
  }

  lemma NamedByItems(items: seq<Item>, p: Uuid)
    ensures p in ProductsOf(LinesOf(items)) <==> exists i :: 0 <= i < |items| && items[i].productId == p
  {
    var lines := LinesOf(items);
    if i :| 0 <= i < |items| && items[i].productId == p {
      assert lines[i] in lines;
    }
  }

  lemma StockedIsBefore(db: Db, items: seq<Item>, stock: int)
    ensures var stocked := Stocked(db.products, LinesOf(items), stock);
            && (forall p :: p in stocked <==>
                  p in db.products || exists i :: 0 <= i < |items| && items[i].productId == p)
            && (forall p :: p in stocked ==> stocked[p] == Before(db, p, stock))
            && (forall i :: 0 <= i < |items| ==> items[i].productId in stocked)
  {
    forall p { NamedByItems(items, p); }
  }

  /** No item asks for more than is there. */
  ghost predicate Fits(db: Db, items: seq<Item>, stock: int) {
    forall i :: 0 <= i < |items| ==> items[i].quantity <= Before(db, items[i].productId, stock).available
  }

  /** `f` is what item `i` asks for beyond what is there. */
  ghost predicate Short(db: Db, items: seq<Item>, stock: int, i: int, f: Shortfall) {
    && 0 <= i < |items| && f.productId == items[i].productId && f.requested == items[i].quantity
    && f.available == Before(db, items[i].productId, stock).available < f.requested
  }

  lemma FitsByItem(db: Db, items: seq<Item>, stock: int)
    ensures Shortfalls(Stocked(db.products, LinesOf(items), stock), LinesOf(items)) == []
       <==> Fits(db, items, stock)
  {
    var lines := LinesOf(items);
    var stocked := Stocked(db.products, lines, stock);
    StockedIsBefore(db, items, stock);
    hide Stocked, Before;
    NoShortfallMeansCovered(stocked, lines);
    hide Shortfalls;
    if forall l :: l in lines ==> l.quantity <= stocked[l.productId].available {
      forall i | 0 <= i < |items| ensures items[i].quantity <= stocked[items[i].productId].available {
        assert lines[i] in lines;
      }
    }
  }

  /** The rejection lists exactly the items that ask for more than is there. */
  lemma ShortByItem(db: Db, items: seq<Item>, stock: int, f: Shortfall)
    ensures f in Shortfalls(Stocked(db.products, LinesOf(items), stock), LinesOf(items))
       <==> exists i :: Short(db, items, stock, i, f)
  {
    var lines := LinesOf(items);
    var stocked := Stocked(db.products, lines, stock);
    StockedIsBefore(db, items, stock);
    hide Stocked, Before;
    ShortfallsAreAll(stocked, lines);
    ShortfallsAreShort(stocked, lines);
    hide Shortfalls;
    if i :| Short(db, items, stock, i, f) {
      assert lines[i] in lines;
    }
    if Line(f.productId, f.requested) in lines {
      var i :| 0 <= i < |lines| && lines[i] == Line(f.productId, f.requested);
      assert f.available == stocked[f.productId].available < f.requested ==> Short(db, items, stock, i, f);
    }
  }

  lemma ProductsByItem(db: Db, items: seq<Item>, stock: int)
    ensures var moved := Moved(Stocked(db.products, LinesOf(items), stock), LinesOf(items), 1);
            && moved.Keys == Stocked(db.products, LinesOf(items), stock).Keys
            && forall p :: p in moved ==>
                 && moved[p].available == Before(db, p, stock).available - Bought(items, p)
                 && moved[p].reserved == Before(db, p, stock).reserved + Bought(items, p)
  {
    forall p { QuantityIsBought(items, p); }
    StockedIsBefore(db, items, stock);
    hide Quantity, Bought, Before;
  }

  /** The same delivery in terms of lines. */
  lemma FirstDeliveryIs(db: Db, e: Event, r: Uuid, id: Uuid, stock: int)
    requires e.payload.OrderCreated? && e.eventId !in db.processed && e.orderId !in db.reservations
    ensures var lines, next := LinesOf(e.payload.items), Handle(db, e, r, id, stock);
            var stocked := Stocked(db.products, lines, stock);
            var short := Shortfalls(stocked, lines);
            && next.processed == db.processed + [e.eventId]
            && next.products == (if short == [] then Moved(stocked, lines, 1) else stocked)
            && next.reservations ==
                 (if short == [] then db.reservations[e.orderId := Reservation(r, false, lines)] else db.reservations)
            && next.outbox == db.outbox + [Outbox.Row(Event(id, e.correlationId, e.orderId,
                 if short == [] then InventoryReserved(r, lines) else InventoryRejected(short)), false)]
  {
    hide Stocked, Shortfalls, Moved;
  }

  /** The first delivery of an order, item by item. If no item asks for more than is there, every product moves by
      exactly what the order buys of it and the order is reserved. Otherwise nothing moves and nothing is reserved. */
  lemma FirstDeliveryByItem(db: Db, e: Event, r: Uuid, id: Uuid, stock: int)
    requires e.payload.OrderCreated? && e.eventId !in db.processed && e.orderId !in db.reservations
    ensures var items, next := e.payload.items, Handle(db, e, r, id, stock);
            var fits := Fits(db, items, stock);
            && next.processed == db.processed + [e.eventId]
            && (forall p :: p in next.products <==>
                  p in db.products || exists i :: 0 <= i < |items| && items[i].productId == p)
            && (forall p :: p in next.products ==>
                  && next.products[p].available
                       == Before(db, p, stock).available - (if fits then Bought(items, p) else 0)
                  && next.products[p].reserved
                       == Before(db, p, stock).reserved + (if fits then Bought(items, p) else 0))
            && (e.orderId in next.reservations <==> fits)
            && (forall o :: o != e.orderId ==>
                  (o in next.reservations <==> o in db.reservations)
                  && (o in db.reservations ==> next.reservations[o] == db.reservations[o]))
  {
    var items := e.payload.items;
    FirstDeliveryIs(db, e, r, id, stock);
    hide Handle;
    FitsByItem(db, items, stock);
    StockedIsBefore(db, items, stock);
    ProductsByItem(db, items, stock);
    hide Stocked, Shortfalls, Bought, Before, Moved, Fits;
  }

  /** And it is answered by one event: a reservation of one line per item, as it is recorded, or a rejection that lists
      exactly the items that ask for too much. */
  lemma FirstAnswerByItem(db: Db, e: Event, r: Uuid, id: Uuid, stock: int)
    requires e.payload.OrderCreated? && e.eventId !in db.processed && e.orderId !in db.reservations
    ensures var items, next := e.payload.items, Handle(db, e, r, id, stock);
            && |next.outbox| == |db.outbox| + 1 && next.outbox[..|db.outbox|] == db.outbox
            && var row := next.outbox[|db.outbox|];
            && !row.published && row.event.eventId == id && row.event.orderId == e.orderId
            && row.event.correlationId == e.correlationId
            && if Fits(db, items, stock) then
                 && row.event.payload.InventoryReserved? && e.orderId in next.reservations
                 && var held := next.reservations[e.orderId];
                 && held.id == r == row.event.payload.reservationId && !held.released
                 && |held.lines| == |items| && row.event.payload.lines == held.lines
                 && (forall i :: 0 <= i < |items| ==>
                       held.lines[i].productId == items[i].productId && held.lines[i].quantity == items[i].quantity)
               else
                 && row.event.payload.InventoryRejected? && e.orderId !in next.reservations
                 && forall f :: f in row.event.payload.shortfalls <==> exists i :: Short(db, items, stock, i, f)
  {
    var items := e.payload.items;
    FirstDeliveryIs(db, e, r, id, stock);
    hide Handle;
    FitsByItem(db, items, stock);
    forall f { ShortByItem(db, items, stock, f); }
    hide Stocked, Shortfalls, Moved, Fits, Short;
  }

  /** An order that is reserved already is not reserved again. If its items would fit once more the unique key stops the
      delivery, event and all; otherwise it is turned down a second time, and what is held stays held. */
  lemma SecondDeliveryByItem(db: Db, e: Event, r: Uuid, id: Uuid, stock: int)
    requires e.payload.OrderCreated? && e.eventId !in db.processed && e.orderId in db.reservations
    ensures var next := Handle(db, e, r, id, stock);
            && next.reservations == db.reservations
            && (Fits(db, e.payload.items, stock) ==> next == db)
            && (!Fits(db, e.payload.items, stock) ==>
                  && next.processed == db.processed + [e.eventId] && |next.outbox| == |db.outbox| + 1
                  && next.outbox[|db.outbox|].event.payload.InventoryRejected?
                  && forall p :: p in next.products ==> next.products[p] == Before(db, p, stock))
  {
    FitsByItem(db, e.payload.items, stock);
    StockedIsBefore(db, e.payload.items, stock);
    hide Stocked, Shortfalls, Before, Fits, Moved;
  }

  /** Releasing undoes reserving: every product is as it was before the order, and the reservation, marked released,
      still tells what was held. Another cancellation then changes nothing. */
  lemma ReleaseUndoesReserve(db: Db, e: Event, x: Event, y: Event, r: Uuid, id: Uuid, stock: int)
    requires e.payload.OrderCreated? && e.eventId !in db.processed && e.orderId !in db.reservations
    requires x.payload.OrderCancelled? && y.payload.OrderCancelled? && x.orderId == y.orderId == e.orderId
    requires {x.eventId, y.eventId} !! {e.eventId} && x.eventId != y.eventId
    requires x.eventId !in db.processed && y.eventId !in db.processed && Fits(db, e.payload.items, stock)
    ensures var held := Handle(db, e, r, id, stock);
            var freed := Handle(held, x, r, id, stock);
            && freed.products.Keys == held.products.Keys
            && (forall p :: p in freed.products ==> freed.products[p] == Before(db, p, stock))
            && e.orderId in held.reservations
            && freed.reservations == held.reservations[e.orderId := held.reservations[e.orderId].(released := true)]
            && freed.outbox == held.outbox && freed.processed == held.processed + [x.eventId]
            && Handle(freed, y, r, id, stock) == freed.(processed := freed.processed + [y.eventId])
  {
    var lines := LinesOf(e.payload.items);
    FirstDeliveryIs(db, e, r, id, stock);
    FitsByItem(db, e.payload.items, stock);
    StockedIsBefore(db, e.payload.items, stock);
    NamedAreStocked(db, lines, stock);
    var held := Handle(db, e, r, id, stock);
    ReleaseIs(held, x, r, id, stock);
    var freed := Handle(held, x, r, id, stock);
    ReleaseIs(freed, y, r, id, stock);
    hide Handle, Stocked, Shortfalls, Before, Fits, Quantity, ProductsOf;
  }

  lemma NamedAreStocked(db: Db, lines: seq<Line>, stock: int)
    ensures ProductsOf(lines) <= Stocked(db.products, lines, stock).Keys
  {
  }

  lemma ReleaseIs(db: Db, x: Event, r: Uuid, id: Uuid, stock: int)
    requires x.payload.OrderCancelled? && x.eventId !in db.processed && x.orderId in db.reservations
    requires ProductsOf(db.reservations[x.orderId].lines) <= db.products.Keys
    ensures var held, next := db.reservations[x.orderId], Handle(db, x, r, id, stock);
            && next.processed == db.processed + [x.eventId] && next.outbox == db.outbox
            && next.products == (if held.released then db.products else Moved(db.products, held.lines, -1))
            && next.reservations == db.reservations[x.orderId := held.(released := true)]
  {
    hide Moved, ProductsOf;
    if db.reservations[x.orderId].released {
      assert db.reservations[x.orderId := db.reservations[x.orderId].(released := true)] == db.reservations;
    }
  }

  // ---- at rest ---------------------------------------------------------------------

  /** What a family of orders buys of `p`. */
  ghost function Sold(carts: map<Uuid, seq<Item>>, p: Uuid): int
    decreases |carts|
  {
    if carts == map[] then 0
    else
      assert carts.Keys != {};
      var o := StockLedger.Pick(carts.Keys);
      assert |(carts - {o}).Keys| < |carts.Keys|;
      Bought(carts[o], p) + Sold(carts - {o}, p)
  }

  ghost function LinesIn(carts: map<Uuid, seq<Item>>): map<Uuid, seq<Line>> {
    map o | o in carts :: LinesOf(carts[o])
  }

  lemma {:induction false} SoldIsDemand(carts: map<Uuid, seq<Item>>, p: Uuid)
    ensures StockLedger.Demand(LinesIn(carts), p) == Sold(carts, p)
    decreases |carts|
  {
    if carts == map[] {
      assert LinesIn(carts) == map[];
    } else {
      assert carts.Keys != {};
      var o := StockLedger.Pick(carts.Keys);
      assert |(carts - {o}).Keys| < |carts.Keys|;
      SoldIsDemand(carts - {o}, p);
      assert LinesIn(carts) - {o} == LinesIn(carts - {o});
      StockLedger.DemandRemove(LinesIn(carts), o, p);
      QuantityIsBought(carts[o], p);
    }
  }

  /** The items of the confirmed orders. */
  ghost function ConfirmedCarts(s: System): map<Uuid, seq<Item>> {
    map o | o in s.ord.orders && s.ord.orders[o].status == Orders.Confirmed :: s.ord.orders[o].items
  }

  /** The items of the cancelled orders reserved after their cancellation had been handled. */
  ghost function StrandedCarts(s: System): map<Uuid, seq<Item>> {
    map o | o in s.ord.orders && s.ord.orders[o].status == Orders.Cancelled
          && o in s.inv.reservations && CancelledFirst(s, o) :: s.ord.orders[o].items
  }

  /** Conservation of stock at rest, counted in items sold: of every product, what is reserved is what the confirmed
      orders buy plus what is stranded by cancellations handled too early, and the rest of the default stock is
      available. If creation was always handled first, nothing is stranded. */
  lemma ItemsAtRest(c: Config, s: System, p: Uuid)
    requires Reachable(c, s) && Quiescent(s) && p in s.inv.products
    ensures s.inv.products[p].reserved == Sold(ConfirmedCarts(s), p) + Sold(StrandedCarts(s), p)
    ensures s.inv.products[p].available == c.defaultStock - s.inv.products[p].reserved
    ensures (forall o :: !CancelledFirst(s, o)) ==> s.inv.products[p].reserved == Sold(ConfirmedCarts(s), p)
  {
    hide Reachable, Quiescent, CancelledFirst;
    StockAtRest(c, s, p);
    assert LinesIn(ConfirmedCarts(s)) == ConfirmedLines(s);
    assert LinesIn(StrandedCarts(s)) == StrandedLines(s);
    SoldIsDemand(ConfirmedCarts(s), p);
    SoldIsDemand(StrandedCarts(s), p);
    if forall o :: !CancelledFirst(s, o) {
      assert StrandedCarts(s) == map[];
    }
  }
}
