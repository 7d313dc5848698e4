/** Stock and reservations: the inventory tables, the two event handlers, and the stock ledger. */
module Inventory {
  import opened Events
  import Outbox

  datatype Product = Product(available: int, reserved: int)

  datatype Reservation = Reservation(id: Uuid, released: bool, lines: seq<Line>)

  /** `reservations` is keyed by its unique `orderId`; `processed` is kept in `processedAt` order. */
  datatype Db = Db(
    products: map<Uuid, Product>,
    reservations: map<Uuid, Reservation>,
    outbox: seq<Outbox.Row>,
    processed: seq<Uuid>)

  const EMPTY := Db(map[], map[], [], [])

  // ---- arithmetic over order lines -------------------------------------------------

  /** Total quantity of product `p` over all lines, repeated products included. */
  function Quantity(lines: seq<Line>, p: Uuid): int {
    if lines == [] then 0
    else
      var last := lines[|lines| - 1];
      Quantity(lines[..|lines| - 1], p) + (if last.productId == p then last.quantity else 0)
  }

  /** What an order buys of product `p`, over all its items. */
  function Bought(items: seq<Item>, p: Uuid): int {
    if items == [] then 0
    else
      var last := items[|items| - 1];
      Bought(items[..|items| - 1], p) + (if last.productId == p then last.quantity else 0)
  }

  function ProductsOf(lines: seq<Line>): set<Uuid> {
    set l | l in lines :: l.productId
  }

  ghost predicate DistinctProducts(lines: seq<Line>) {
    forall i, j :: 0 <= i < j < |lines| ==> lines[i].productId != lines[j].productId
  }

  /** Unknown products start with the default stock; known ones are left alone. */
  function Stocked(products: map<Uuid, Product>, lines: seq<Line>, defaultStock: int): map<Uuid, Product> {
    map p | p in products.Keys + ProductsOf(lines) ::
      if p in products then products[p] else Product(defaultStock, 0)
  }

  /** Moves every line's quantity from available to reserved (`sign` 1) or back (`sign` -1). */
  function Moved(products: map<Uuid, Product>, lines: seq<Line>, sign: int): map<Uuid, Product> {
    map p | p in products ::
      Product(products[p].available - sign * Quantity(lines, p), products[p].reserved + sign * Quantity(lines, p))
  }

  /** The lines whose quantity exceeds what is available, each checked on its own, in order. */
  function Shortfalls(products: map<Uuid, Product>, lines: seq<Line>): seq<Shortfall>
    requires ProductsOf(lines) <= products.Keys
  {
    if lines == [] then []
    else
      var last := lines[|lines| - 1];
      assert last in lines;
      assert ProductsOf(lines[..|lines| - 1]) <= ProductsOf(lines);
      var rest := Shortfalls(products, lines[..|lines| - 1]);
      if products[last.productId].available < last.quantity
      then rest + [Shortfall(last.productId, last.quantity, products[last.productId].available)]
      else rest
  }

  // ---- the two transactions --------------------------------------------------------

  function Reserve(db: Db, orderId: Uuid, lines: seq<Line>, correlationId: Uuid,
                   reservationId: Uuid, eventId: Uuid, defaultStock: int): Work<Db>
  {
    var stocked := Stocked(db.products, lines, defaultStock);
    var short := Shortfalls(stocked, lines);
    if short != [] then
      Commit(db.(products := stocked,
                 outbox := Outbox.Enqueue(db.outbox,
                   Event(eventId, correlationId, orderId, InventoryRejected(short)))))
    else if orderId in db.reservations then
      UniqueViolation
    else
      Commit(db.(products := Moved(stocked, lines, 1),
                 reservations := db.reservations[orderId := Reservation(reservationId, false, lines)],
                 outbox := Outbox.Enqueue(db.outbox,
                   Event(eventId, correlationId, orderId, InventoryReserved(reservationId, lines)))))
  }

  function Release(db: Db, orderId: Uuid): Work<Db> {
    if orderId !in db.reservations || db.reservations[orderId].released then
      Commit(db)
    else
      var r := db.reservations[orderId];
      if !(ProductsOf(r.lines) <= db.products.Keys) then
        Throws
      else
        Commit(db.(products := Moved(db.products, r.lines, -1),
                   reservations := db.reservations[orderId := r.(released := true)]))
  }

  predicate Subscribed(p: Payload) {
    p.OrderCreated? || p.OrderCancelled?
  }

  /** One delivery's transaction: the dedup marker first, then the routed handler's work. */
  function Attempt(db: Db, e: Event, reservationId: Uuid, eventId: Uuid, defaultStock: int): Work<Db>
    requires Subscribed(e.payload)
  {
    if e.eventId in db.processed then
      UniqueViolation
    else
      var marked := db.(processed := db.processed + [e.eventId]);
      if e.payload.OrderCreated? then
        Reserve(marked, e.orderId, LinesOf(e.payload.items), e.correlationId, reservationId, eventId, defaultStock)
      else
        Release(marked, e.orderId)
  }

  /** The state after a delivery that is not aborted by the infrastructure. */
  function Handle(db: Db, e: Event, reservationId: Uuid, eventId: Uuid, defaultStock: int): Db {
    if !Subscribed(e.payload) then db
    else
      match Attempt(db, e, reservationId, eventId, defaultStock)
      case Commit(next) => next
      case _ => db
  }

  // ---- small facts about lines -----------------------------------------------------

  lemma QuantityStep(lines: seq<Line>, i: nat, p: Uuid)
    requires i < |lines|
    ensures Quantity(lines[..i + 1], p)
         == Quantity(lines[..i], p) + (if lines[i].productId == p then lines[i].quantity else 0)
  {
    assert lines[..i + 1][..i] == lines[..i];
  }

  lemma ProductsOfParts(a: seq<Line>, b: seq<Line>)
    ensures ProductsOf(a + b) == ProductsOf(a) + ProductsOf(b)
  {
    assert forall l :: l in a + b <==> l in a || l in b;
  }

  /** Which lines fall short, in terms of single lines: each once, and in order. */
  lemma {:induction false} ShortfallsAreInOrder(products: map<Uuid, Product>, a: seq<Line>, b: seq<Line>, l: Line)
    requires ProductsOf(a) <= products.Keys && ProductsOf(b) <= products.Keys && l.productId in products
    ensures ProductsOf(a + b) <= products.Keys && ProductsOf([l]) <= products.Keys
    ensures Shortfalls(products, a + b) == Shortfalls(products, a) + Shortfalls(products, b)
    ensures Shortfalls(products, [l]) ==
              if products[l.productId].available < l.quantity
              then [Shortfall(l.productId, l.quantity, products[l.productId].available)] else []
  {
    ProductsOfParts(a, b);
    assert [l][..0] == [];
    if b == [] {
      assert a + b == a;
    } else {
      var n := |b| - 1;
      ProductsOfParts(b[..n], [b[n]]);
      assert b[..n] + [b[n]] == b && (a + b)[..|a| + n] == a + b[..n];
      hide ProductsOf;
      ShortfallsAreInOrder(products, a, b[..n], l);
    }
  }

  /** The number bought, in terms of what it adds up. */
  lemma {:induction false} BoughtIsAdditive(a: seq<Item>, b: seq<Item>, i: Item, p: Uuid)
    ensures Bought([], p) == 0 && Bought([i], p) == if i.productId == p then i.quantity else 0
    ensures Bought(a + b, p) == Bought(a, p) + Bought(b, p)
  {
    assert [i][..0] == [];
    if b == [] {
      assert a + b == a;
    } else {
      var n := |b| - 1;
      assert (a + b)[..|a| + n] == a + b[..n];
      BoughtIsAdditive(a, b[..n], i, p);
    }
  }

  lemma {:induction false} QuantityIsBought(items: seq<Item>, p: Uuid)
    ensures Quantity(LinesOf(items), p) == Bought(items, p)
  {
    if items != [] {
      var n := |items| - 1;
      assert LinesOf(items)[..n] == LinesOf(items[..n]);
      QuantityIsBought(items[..n], p);
    }
  }

  lemma {:induction false} QuantityOutside(lines: seq<Line>, p: Uuid)
    requires p !in ProductsOf(lines)
    ensures Quantity(lines, p) == 0
  {
    if lines != [] {
      var n := |lines| - 1;
      assert lines[n] in lines;
      assert forall l :: l in lines[..n] ==> l in lines;
      QuantityOutside(lines[..n], p);
    }
  }

  /** With distinct products, a product's total is that of its only line. */
  lemma {:induction false} QuantityDistinct(lines: seq<Line>, i: nat)
    requires DistinctProducts(lines) && i < |lines|
    ensures Quantity(lines, lines[i].productId) == lines[i].quantity
  {
    var n := |lines| - 1;
    if i == n {
      assert forall l :: l in lines[..n] ==> l.productId != lines[n].productId;
      QuantityOutside(lines[..n], lines[n].productId);
    } else {
      QuantityDistinct(lines[..n], i);
    }
  }

  lemma {:induction false} NoShortfallMeansCovered(products: map<Uuid, Product>, lines: seq<Line>)
    requires ProductsOf(lines) <= products.Keys
    ensures Shortfalls(products, lines) == [] <==>
            forall l :: l in lines ==> l.quantity <= products[l.productId].available
  {
    if lines != [] {
      var n := |lines| - 1;
      assert forall l :: l in lines <==> l in lines[..n] || l == lines[n];
      assert ProductsOf(lines[..n]) <= ProductsOf(lines);
      NoShortfallMeansCovered(products, lines[..n]);
    }
  }

  /** Every shortfall is a line of the order that asks for more than is available. */
  lemma {:induction false} ShortfallsAreShort(products: map<Uuid, Product>, lines: seq<Line>)
    requires ProductsOf(lines) <= products.Keys
    ensures forall f :: f in Shortfalls(products, lines) ==>
              && Line(f.productId, f.requested) in lines && f.productId in products
              && f.available == products[f.productId].available < f.requested
  {
    if lines != [] {
      var n := |lines| - 1;
      assert forall l :: l in lines <==> l in lines[..n] || l == lines[n];
      assert ProductsOf(lines[..n]) <= ProductsOf(lines);
      ShortfallsAreShort(products, lines[..n]);
    }
  }

  lemma {:induction false} ShortfallsPrefix(products: map<Uuid, Product>, lines: seq<Line>, i: nat)
    requires i < |lines| && ProductsOf(lines) <= products.Keys
    ensures ProductsOf(lines[..i]) <= products.Keys && ProductsOf(lines[..i + 1]) <= products.Keys
    ensures lines[i].productId in products
    ensures Shortfalls(products, lines[..i + 1])
         == Shortfalls(products, lines[..i])
          + (if products[lines[i].productId].available < lines[i].quantity
             then [Shortfall(lines[i].productId, lines[i].quantity, products[lines[i].productId].available)]
             else [])
  {
    assert lines[i] in lines;
    assert forall l :: l in lines[..i + 1] ==> l in lines;
    assert forall l :: l in lines[..i] ==> l in lines;
    assert lines[..i + 1][..i] == lines[..i];
  }
}
