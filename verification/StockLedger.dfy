/** The stock ledger: the two counters of every product agree with the reservation records. */
module StockLedger {
  import opened Events
  import opened Inventory

  ghost function Pick(s: set<Uuid>): (x: Uuid)
    requires s != {}
    ensures x in s
  {
    var x :| x in s;
    x
  }

  /** Total quantity of `p` over a family of order lines, one entry per order. */
  ghost function Demand(held: map<Uuid, seq<Line>>, p: Uuid): int
    decreases |held|
  {
    if held == map[] then 0
    else
      assert held.Keys != {};
      var o := Pick(held.Keys);
      assert |(held - {o}).Keys| < |held.Keys|;
      Quantity(held[o], p) + Demand(held - {o}, p)
  }

  lemma {:induction false} DemandRemove(held: map<Uuid, seq<Line>>, o: Uuid, p: Uuid)
    requires o in held
    ensures Demand(held, p) == Quantity(held[o], p) + Demand(held - {o}, p)
    decreases |held|
  {
    assert held.Keys != {};
    var q := Pick(held.Keys);
    if q != o {
      var less := held - {q};
      assert |less.Keys| < |held.Keys|;
      DemandRemove(less, o, p);
      DemandRemove(held - {o}, q, p);
      assert less - {o} == held - {o} - {q};
    }
  }

  lemma DemandInsert(held: map<Uuid, seq<Line>>, o: Uuid, lines: seq<Line>, p: Uuid)
    requires o !in held
    ensures Demand(held[o := lines], p) == Demand(held, p) + Quantity(lines, p)
  {
    var more := held[o := lines];
    DemandRemove(more, o, p);
    assert more - {o} == held;
  }

  lemma SplitUnion(a: map<Uuid, seq<Line>>, b: map<Uuid, seq<Line>>, o: Uuid)
    requires a.Keys !! b.Keys && o in a
    ensures (a - {o}).Keys !! b.Keys
    ensures (a + b)[o] == a[o]
    ensures (a + b) - {o} == (a - {o}) + b
  {
  }

  lemma {:induction false} DemandUnion(a: map<Uuid, seq<Line>>, b: map<Uuid, seq<Line>>, p: Uuid)
    requires a.Keys !! b.Keys
    ensures Demand(a + b, p) == Demand(a, p) + Demand(b, p)
    decreases |a|
  {
    if a == map[] {
      assert a + b == b;
    } else {
      var o :| o in a;
      var rest := a - {o};
      SplitUnion(a, b, o);
      assert |rest.Keys| < |a.Keys|;
      DemandUnion(rest, b, p);
      DemandRemove(a, o, p);
      DemandRemove(a + b, o, p);
    }
  }

  lemma {:induction false} DemandOutside(held: map<Uuid, seq<Line>>, p: Uuid)
    requires forall o :: o in held ==> p !in ProductsOf(held[o])
    ensures Demand(held, p) == 0
    decreases |held|
  {
    if held != map[] {
      var o :| o in held;
      DemandRemove(held, o, p);
      assert |(held - {o}).Keys| < |held.Keys|;
      QuantityOutside(held[o], p);
      DemandOutside(held - {o}, p);
    }
  }

  /** The lines of every reservation still in RESERVED. */
  function ActiveLines(reservations: map<Uuid, Reservation>): map<Uuid, seq<Line>> {
    map o | o in reservations && !reservations[o].released :: reservations[o].lines
  }

  /** The ledger law, for every product: available + reserved is the default stock,
      and reserved is what the active reservations hold. */
  ghost predicate Balanced(products: map<Uuid, Product>, reservations: map<Uuid, Reservation>, defaultStock: int) {
    && (forall p :: p in products ==> products[p].available + products[p].reserved == defaultStock)
    && (forall p :: p in products ==> products[p].reserved == Demand(ActiveLines(reservations), p))
    && (forall o :: o in reservations ==> ProductsOf(reservations[o].lines) <= products.Keys)
  }

  ghost predicate DbBalanced(db: Db, defaultStock: int) {
    Balanced(db.products, db.reservations, defaultStock)
  }

  lemma StockingKeepsBalance(products: map<Uuid, Product>, reservations: map<Uuid, Reservation>,
                             lines: seq<Line>, stock: int)
    requires Balanced(products, reservations, stock)
    ensures Balanced(Stocked(products, lines, stock), reservations, stock)
  {
    var active := ActiveLines(reservations);
    forall p | p !in products ensures Demand(active, p) == 0 {
      DemandOutside(active, p);
    }
  }

  lemma HoldingKeepsBalance(products: map<Uuid, Product>, reservations: map<Uuid, Reservation>,
                            o: Uuid, r: Reservation, stock: int)
    requires Balanced(products, reservations, stock)
    requires o !in reservations && !r.released && ProductsOf(r.lines) <= products.Keys
    ensures Balanced(Moved(products, r.lines, 1), reservations[o := r], stock)
  {
    var active := ActiveLines(reservations);
    assert ActiveLines(reservations[o := r]) == active[o := r.lines];
    forall p { DemandInsert(active, o, r.lines, p); }
  }

  lemma ReserveKeepsBalance(db: Db, o: Uuid, lines: seq<Line>, c: Uuid, r: Uuid, e: Uuid, stock: int)
    requires DbBalanced(db, stock)
    requires Reserve(db, o, lines, c, r, e, stock).Commit?
    ensures DbBalanced(Reserve(db, o, lines, c, r, e, stock).db, stock)
  {
    StockingKeepsBalance(db.products, db.reservations, lines, stock);
    if Shortfalls(Stocked(db.products, lines, stock), lines) == [] {
      HoldingKeepsBalance(Stocked(db.products, lines, stock), db.reservations, o, Reservation(r, false, lines), stock);
    }
  }

  lemma ReleaseKeepsBalance(db: Db, o: Uuid, stock: int)
    requires DbBalanced(db, stock)
    ensures Release(db, o).Commit?
    ensures DbBalanced(Release(db, o).db, stock)
  {
    var next := Release(db, o).db;
    if o in db.reservations && !db.reservations[o].released {
      var active := ActiveLines(db.reservations);
      assert ActiveLines(next.reservations) == active - {o};
      forall p | p in next.products
        ensures next.products[p].available + next.products[p].reserved == stock
        ensures next.products[p].reserved == Demand(ActiveLines(next.reservations), p)
      {
        DemandRemove(active, o, p);
      }
    }
  }

  /** Whatever is delivered, in whatever order and however often, the ledger stays balanced. */
  lemma HandleKeepsBalance(db: Db, e: Event, r: Uuid, ev: Uuid, stock: int)
    requires DbBalanced(db, stock)
    ensures DbBalanced(Handle(db, e, r, ev, stock), stock)
  {
    if Subscribed(e.payload) && e.eventId !in db.processed {
      var marked := db.(processed := db.processed + [e.eventId]);
      assert DbBalanced(marked, stock);
      if e.payload.OrderCreated? {
        var lines := LinesOf(e.payload.items);
        if Reserve(marked, e.orderId, lines, e.correlationId, r, ev, stock).Commit? {
          ReserveKeepsBalance(marked, e.orderId, lines, e.correlationId, r, ev, stock);
        }
      } else {
        ReleaseKeepsBalance(marked, e.orderId, stock);
      }
    }
  }

  // ---- overselling -----------------------------------------------------------------

  ghost predicate NoneNegative(products: map<Uuid, Product>) {
    forall p :: p in products ==> products[p].available >= 0
  }

  ghost predicate Positive(lines: seq<Line>) {
    forall l :: l in lines ==> l.quantity > 0
  }

  /** What a caller of `reserve` can check: no product is asked for more than its stock in total. */
  ghost predicate Affordable(products: map<Uuid, Product>, lines: seq<Line>) {
    forall p :: p in products ==> Quantity(lines, p) <= products[p].available
  }

  /** On one table: `reserve` keeps stock non-negative exactly when it rejects the order, or every product's summed
      quantity (not just each line's) is available. */
  lemma ReserveOversellsExactlyWhen(db: Db, o: Uuid, lines: seq<Line>, c: Uuid, r: Uuid, e: Uuid, stock: int)
    requires NoneNegative(db.products) && stock >= 0
    requires Reserve(db, o, lines, c, r, e, stock).Commit?
    ensures var stocked := Stocked(db.products, lines, stock);
            NoneNegative(Reserve(db, o, lines, c, r, e, stock).db.products) <==>
            Shortfalls(stocked, lines) != [] || Affordable(stocked, lines)
  {
    var stocked := Stocked(db.products, lines, stock);
    var next := Reserve(db, o, lines, c, r, e, stock).db;
    if Shortfalls(stocked, lines) == [] {
      assert next.products == Moved(stocked, lines, 1);
      if NoneNegative(next.products) {
        forall p | p in stocked ensures Quantity(lines, p) <= stocked[p].available {
          assert next.products[p].available >= 0;
        }
      }
    }
  }

  /** Pairwise distinct products are enough: the per-line check then is the per-product check. */
  lemma DistinctIsAffordable(products: map<Uuid, Product>, lines: seq<Line>)
    requires DistinctProducts(lines) && ProductsOf(lines) <= products.Keys && NoneNegative(products)
    requires Shortfalls(products, lines) == []
    ensures Affordable(products, lines)
  {
    NoShortfallMeansCovered(products, lines);
    forall p | p in products ensures Quantity(lines, p) <= products[p].available {
      if p in ProductsOf(lines) {
        var i :| 0 <= i < |lines| && lines[i].productId == p;
        QuantityDistinct(lines, i);
      } else {
        QuantityOutside(lines, p);
      }
    }
  }

  // ---- carts that can be reserved safely -------------------------------------------

  /** What can be checked on the cart alone, before any table is read: no product is named twice, or some line asks for
      more than any product ever has. */
  ghost predicate SafeCart(lines: seq<Line>, stock: int) {
    DistinctProducts(lines) || exists l :: l in lines && l.quantity > stock
  }

  ghost predicate AtMostStock(products: map<Uuid, Product>, stock: int) {
    forall p :: p in products ==> products[p].available <= stock
  }

  /** From every stock level between nothing and the default stock, `reserve` leaves nothing below zero. */
  ghost predicate NeverOversells(lines: seq<Line>, stock: int) {
    forall db: Db, o, c, r, e |
      NoneNegative(db.products) && AtMostStock(db.products, stock) && Reserve(db, o, lines, c, r, e, stock).Commit? ::
      NoneNegative(Reserve(db, o, lines, c, r, e, stock).db.products)
  }

  /** The largest quantity on a line for `p`. */
  function Peak(lines: seq<Line>, p: Uuid): (q: int)
    ensures q >= 0
  {
    if lines == [] then 0
    else
      var last := lines[|lines| - 1];
      var q := Peak(lines[..|lines| - 1], p);
      if last.productId == p && last.quantity > q then last.quantity else q
  }

  lemma {:induction false} PeakCovers(lines: seq<Line>, p: Uuid, stock: int)
    requires stock >= 0 && forall l :: l in lines ==> l.quantity <= stock
    ensures forall l :: l in lines && l.productId == p ==> l.quantity <= Peak(lines, p)
    ensures Peak(lines, p) <= stock
  {
    if lines != [] {
      var n := |lines| - 1;
      assert lines[n] in lines;
      assert forall l :: l in lines <==> l in lines[..n] || l == lines[n];
      PeakCovers(lines[..n], p, stock);
    }
  }

  /** A product named twice is asked for more in total than on any one line. */
  lemma {:induction false} RepeatedExceedsPeak(lines: seq<Line>, i: nat, j: nat)
    requires Positive(lines) && i < j < |lines| && lines[i].productId == lines[j].productId
    ensures Quantity(lines, lines[i].productId) > Peak(lines, lines[i].productId)
  {
    var n, p := |lines| - 1, lines[i].productId;
    assert lines[n] in lines;
    assert forall l :: l in lines[..n] ==> l in lines;
    if j < n {
      RepeatedExceedsPeak(lines[..n], i, j);
    } else {
      NamedExceeds(lines[..n], i);
    }
  }

  lemma {:induction false} NamedExceeds(lines: seq<Line>, i: nat)
    requires Positive(lines) && i < |lines|
    ensures Quantity(lines, lines[i].productId) >= Peak(lines, lines[i].productId)
    ensures Quantity(lines, lines[i].productId) > 0
  {
    var n, p := |lines| - 1, lines[i].productId;
    assert lines[n] in lines;
    assert forall l :: l in lines[..n] ==> l in lines;
    if i < n {
      NamedExceeds(lines[..n], i);
    } else if k :| 0 <= k < n && lines[k].productId == p {
      NamedExceeds(lines[..n], k);
    } else {
      assert p !in ProductsOf(lines[..n]);
      QuantityOutside(lines[..n], p);
      PeakOutside(lines[..n], p);
    }
  }

  lemma {:induction false} PeakOutside(lines: seq<Line>, p: Uuid)
    requires p !in ProductsOf(lines)
    ensures Peak(lines, p) == 0
  {
    if lines != [] {
      var n := |lines| - 1;
      assert lines[n] in lines;
      assert forall l :: l in lines[..n] ==> l in lines;
      PeakOutside(lines[..n], p);
    }
  }

  /** A safe cart: with distinct products the check is right; with an oversized line it rejects. */
  lemma SafeCartNeverOversells(db: Db, o: Uuid, lines: seq<Line>, c: Uuid, r: Uuid, e: Uuid, stock: int)
    requires SafeCart(lines, stock) && NoneNegative(db.products) && AtMostStock(db.products, stock) && stock >= 0
    requires Reserve(db, o, lines, c, r, e, stock).Commit?
    ensures NoneNegative(Reserve(db, o, lines, c, r, e, stock).db.products)
  {
    var stocked := Stocked(db.products, lines, stock);
    NoShortfallMeansCovered(stocked, lines);
    if l :| l in lines && l.quantity > stock {
      assert l.productId in ProductsOf(lines);
      assert stocked[l.productId].available <= stock;
    } else if Shortfalls(stocked, lines) == [] {
      DistinctIsAffordable(stocked, lines);
    }
    ReserveOversellsExactlyWhen(db, o, lines, c, r, e, stock);
  }

  /** One product of which `level` is left. */
  function Level(p: Uuid, level: int, stock: int): map<Uuid, Product> {
    map[p := Product(level, stock - level)]
  }

  /** A cart oversells the product it repeats wherever there is enough for each line but not for all. */
  lemma UnsafeCartOversells(products: map<Uuid, Product>, lines: seq<Line>, p: Uuid, level: int, stock: int)
    requires stock >= 0 && forall l :: l in lines ==> l.quantity <= stock
    requires Peak(lines, p) <= level <= stock && level < Quantity(lines, p)
    requires products == Level(p, level, stock) || (level == stock && products == map[])
    ensures var stocked := Stocked(products, lines, stock);
            && Shortfalls(stocked, lines) == [] && p in Moved(stocked, lines, 1)
            && Moved(stocked, lines, 1)[p] == Product(level - Quantity(lines, p), stock - level + Quantity(lines, p))
            && forall q :: q in stocked && q != p ==> stocked[q] == Product(stock, 0)
  {
    var stocked := Stocked(products, lines, stock);
    if p !in ProductsOf(lines) { QuantityOutside(lines, p); }
    PeakCovers(lines, p, stock);
    assert stocked[p] == Product(level, stock - level);
    forall l | l in lines ensures l.productId in stocked && l.quantity <= stocked[l.productId].available {
      assert l.productId in ProductsOf(lines);
    }
    NoShortfallMeansCovered(stocked, lines);
  }

  /** `reserve` can be trusted with a cart of positive lines, at every level of stock, exactly when it is safe. */
  lemma ReserveSafeExactlyWhen(lines: seq<Line>, stock: int)
    requires Positive(lines) && stock >= 0
    ensures NeverOversells(lines, stock) <==> SafeCart(lines, stock)
  {
    if SafeCart(lines, stock) {
      forall db: Db, o, c, r, e | NoneNegative(db.products) && AtMostStock(db.products, stock)
                                  && Reserve(db, o, lines, c, r, e, stock).Commit?
        ensures NoneNegative(Reserve(db, o, lines, c, r, e, stock).db.products)
      {
        SafeCartNeverOversells(db, o, lines, c, r, e, stock);
      }
    } else {
      var i, j :| 0 <= i < j < |lines| && lines[i].productId == lines[j].productId;
      var p := lines[i].productId;
      var peak := Peak(lines, p);
      var db := EMPTY.(products := Level(p, peak, stock));
      PeakCovers(lines, p, stock);
      RepeatedExceedsPeak(lines, i, j);
      UnsafeCartOversells(db.products, lines, p, peak, stock);
      assert NoneNegative(db.products) && AtMostStock(db.products, stock);
      var next := Reserve(db, 0, lines, 0, 0, 0, stock);
      assert next.Commit? && !NoneNegative(next.db.products);
    }
  }

  /** The check is per line against the unchanged row, so one order that repeats a product oversells it. */
  lemma RepeatedProductOversells()
    ensures var lines := [Line(7, 60), Line(7, 60)];
            var next := Reserve(EMPTY, 1, lines, 2, 3, 4, 100);
            && next.Commit?
            && 7 in next.db.products
            && next.db.products[7] == Product(-20, 120)
            && next.db.outbox[0].event.payload.InventoryReserved?
  {
    var lines := [Line(7, 60), Line(7, 60)];
    var stocked := Stocked(map[], lines, 100);
    assert Line(7, 60) in lines;
    assert stocked[7] == Product(100, 0);
    NoShortfallMeansCovered(stocked, lines);
    assert lines[..1] == [Line(7, 60)];
    assert Quantity(lines[..1], 7) == 60;
    assert Quantity(lines, 7) == 120;
  }

  lemma {:induction false} QuantityNonNegative(lines: seq<Line>, p: Uuid)
    requires Positive(lines)
    ensures Quantity(lines, p) >= 0
  {
    if lines != [] {
      assert lines[|lines| - 1] in lines;
      assert forall l :: l in lines[..|lines| - 1] ==> l in lines;
      QuantityNonNegative(lines[..|lines| - 1], p);
    }
  }

  ghost predicate PositiveHoldings(reservations: map<Uuid, Reservation>) {
    forall o :: o in reservations ==> Positive(reservations[o].lines)
  }

  lemma {:induction false} DemandNonNegative(held: map<Uuid, seq<Line>>, p: Uuid)
    requires forall o :: o in held ==> Positive(held[o])
    ensures Demand(held, p) >= 0
    decreases |held|
  {
    if held != map[] {
      var o :| o in held;
      DemandRemove(held, o, p);
      QuantityNonNegative(held[o], p);
      assert |(held - {o}).Keys| < |held.Keys|;
      DemandNonNegative(held - {o}, p);
    }
  }

  /** Nothing reserved is negative, so nothing available exceeds the default stock. */
  lemma BalancedIsAtMostStock(db: Db, stock: int)
    requires DbBalanced(db, stock) && PositiveHoldings(db.reservations)
    ensures AtMostStock(db.products, stock)
  {
    forall p | p in db.products ensures db.products[p].available <= stock {
      DemandNonNegative(ActiveLines(db.reservations), p);
    }
  }

  /** No delivery of an order with a safe cart takes any counter below zero. */
  lemma HandleNeverOversells(db: Db, e: Event, r: Uuid, ev: Uuid, stock: int)
    requires NoneNegative(db.products) && AtMostStock(db.products, stock) && stock >= 0
    requires PositiveHoldings(db.reservations)
    requires e.payload.OrderCreated? ==> SafeCart(LinesOf(e.payload.items), stock)
    ensures NoneNegative(Handle(db, e, r, ev, stock).products)
  {
    hide SafeCart, AtMostStock;
    if Subscribed(e.payload) && e.eventId !in db.processed {
      var marked := db.(processed := db.processed + [e.eventId]);
      var o := e.orderId;
      if e.payload.OrderCreated? {
        var lines := LinesOf(e.payload.items);
        if Reserve(marked, o, lines, e.correlationId, r, ev, stock).Commit? {
          SafeCartNeverOversells(marked, o, lines, e.correlationId, r, ev, stock);
        }
      } else if o in db.reservations {
        forall p { QuantityNonNegative(db.reservations[o].lines, p); }
      }
    }
  }

  /** No line of a reservation exceeds the default stock. */
  ghost predicate HoldingsFit(reservations: map<Uuid, Reservation>, stock: int) {
    forall o, l :: o in reservations && l in reservations[o].lines ==> l.quantity <= stock
  }

  lemma HandleKeepsFit(db: Db, e: Event, r: Uuid, ev: Uuid, stock: int)
    requires AtMostStock(db.products, stock) && HoldingsFit(db.reservations, stock)
    ensures HoldingsFit(Handle(db, e, r, ev, stock).reservations, stock)
  {
    if e.payload.OrderCreated? {
      var lines := LinesOf(e.payload.items);
      var stocked := Stocked(db.products, lines, stock);
      NoShortfallMeansCovered(stocked, lines);
      forall l | l in lines ensures l.productId in stocked && stocked[l.productId].available <= stock {
        assert l.productId in ProductsOf(lines);
      }
    }
  }

  /** All or nothing: any shortfall leaves every counter and every reservation as it was (products first seen here get
      their default stock), and otherwise every product moves by exactly its total. */
  lemma ReserveIsAllOrNothing(db: Db, o: Uuid, lines: seq<Line>, c: Uuid, r: Uuid, e: Uuid, stock: int)
    requires Reserve(db, o, lines, c, r, e, stock).Commit?
    ensures var stocked := Stocked(db.products, lines, stock);
            var next := Reserve(db, o, lines, c, r, e, stock).db;
            && next.products.Keys == db.products.Keys + ProductsOf(lines)
            && (forall p :: p in stocked ==>
                  stocked[p] == if p in db.products then db.products[p] else Product(stock, 0))
            && if exists l :: l in lines && stocked[l.productId].available < l.quantity then
                 next.products == stocked && next.reservations == db.reservations
               else
                 && (forall p :: p in stocked ==>
                       && next.products[p].available == stocked[p].available - Quantity(lines, p)
                       && next.products[p].reserved == stocked[p].reserved + Quantity(lines, p))
                 && next.reservations == db.reservations[o := Reservation(r, false, lines)]
  {
    NoShortfallMeansCovered(Stocked(db.products, lines, stock), lines);
  }
}
