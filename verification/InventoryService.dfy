/** The inventory service as it runs: row-by-row updates inside a transaction that may roll back. */
module InventoryService {
  import opened Events
  import opened Inventory
  import Outbox
  import opened ProcessOnce

  class Service {
    const defaultStock: int
    var products: map<Uuid, Product>
    var reservations: map<Uuid, Reservation>
    var outbox: seq<Outbox.Row>
    var processed: seq<Uuid>

    constructor (defaultStock: int)
      ensures this.defaultStock == defaultStock && View() == EMPTY
    {
      this.defaultStock := defaultStock;
      products, reservations, outbox, processed := map[], map[], [], [];
    }

    function View(): Db
      reads this
    {
      Db(products, reservations, outbox, processed)
    }

    /** Upserts a row for every product of the order. */
    method EnsureProducts(lines: seq<Line>)
      modifies this`products
      ensures products == Stocked(old(products), lines, defaultStock)
    {
      for i := 0 to |lines|
        invariant products == Stocked(old(products), lines[..i], defaultStock)
      {
        var p := lines[i].productId;
        assert ProductsOf(lines[..i + 1]) == ProductsOf(lines[..i]) + {p} by { ProductsStep(lines, i); }
        if p !in products {
          products := products[p := Product(defaultStock, 0)];
        }
      }
      assert lines[..|lines|] == lines;
    }

    /** Compares every line with the stock, changing nothing. */
    method Check(lines: seq<Line>) returns (shortfalls: seq<Shortfall>)
      requires ProductsOf(lines) <= products.Keys
      ensures shortfalls == Shortfalls(products, lines)
    {
      shortfalls := [];
      for i := 0 to |lines|
        invariant ProductsOf(lines[..i]) <= products.Keys
        invariant shortfalls == Shortfalls(products, lines[..i])
      {
        ShortfallsPrefix(products, lines, i);
        var line := lines[i];
        var product := products[line.productId];
        if product.available < line.quantity {
          shortfalls := shortfalls + [Shortfall(line.productId, line.quantity, product.available)];
        }
      }
      assert lines[..|lines|] == lines;
    }

    /** Moves each line's quantity between the two counters; an update of a missing row throws. */
    method Move(lines: seq<Line>, sign: int) returns (found: bool)
      modifies this`products
      ensures found <==> ProductsOf(lines) <= old(products).Keys
      ensures found ==> products == Moved(old(products), lines, sign)
    {
      for i := 0 to |lines|
        invariant ProductsOf(lines[..i]) <= old(products).Keys
        invariant products == Moved(old(products), lines[..i], sign)
      {
        var line := lines[i];
        var p := line.productId;
        assert ProductsOf(lines[..i + 1]) == ProductsOf(lines[..i]) + {p} by { ProductsStep(lines, i); }
        if p !in products {
          assert line in lines && p in ProductsOf(lines);
          return false;
        }
        products := products[p := Product(products[p].available - sign * line.quantity,
                                          products[p].reserved + sign * line.quantity)];
        MovedStep(old(products), lines, i, sign);
      }
      assert lines[..|lines|] == lines;
      return true;
    }

    /** Reserves every line or none, and announces which. */
    method Reserve(orderId: Uuid, lines: seq<Line>, correlationId: Uuid, reservationId: Uuid, eventId: Uuid)
      returns (ending: Ending)
      modifies this
      ensures processed == old(processed)
      ensures EndsAs(
                Inventory.Reserve(old(View()), orderId, lines, correlationId, reservationId, eventId, defaultStock),
                ending, View())
    {
      EnsureProducts(lines);
      var shortfalls := Check(lines);
      if shortfalls != [] {
        outbox := Outbox.Enqueue(outbox, Event(eventId, correlationId, orderId, InventoryRejected(shortfalls)));
        return Finished;
      }
      var _ := Move(lines, 1);
      if orderId in reservations {
        return Violated;
      }
      reservations := reservations[orderId := Reservation(reservationId, false, lines)];
      outbox := Outbox.Enqueue(outbox, Event(eventId, correlationId, orderId, InventoryReserved(reservationId, lines)));
      return Finished;
    }

    /** Gives a cancelled order's stock back, once. */
    method Release(orderId: Uuid) returns (ending: Ending)
      modifies this
      ensures processed == old(processed)
      ensures EndsAs(Inventory.Release(old(View()), orderId), ending, View())
    {
      if orderId !in reservations || reservations[orderId].released {
        return Finished;
      }
      var found := Move(reservations[orderId].lines, -1);
      if !found {
        return Threw;
      }
      reservations := reservations[orderId := reservations[orderId].(released := true)];
      return Finished;
    }

    /** One delivery: marker and work in one transaction, rolled back unless it commits. */
    method Receive(e: Event, reservationId: Uuid, eventId: Uuid, fate: Fate) returns (threw: bool)
      requires Inventory.Subscribed(e.payload)
      modifies this
      ensures Delivered(View(), threw)
           == Call(old(View()), Attempt(old(View()), e, reservationId, eventId, defaultStock), fate)
      ensures fate != Aborts ==> View() == Inventory.Handle(old(View()), e, reservationId, eventId, defaultStock)
    {
      var before := View();
      var ending := Violated;
      if e.eventId !in processed {
        processed := processed + [e.eventId];
        if e.payload.OrderCreated? {
          ending := Reserve(e.orderId, LinesOf(e.payload.items), e.correlationId, reservationId, eventId);
        } else {
          ending := Release(e.orderId);
        }
      }
      if ending != Finished || fate == Aborts {
        products, reservations := before.products, before.reservations;
        outbox, processed := before.outbox, before.processed;
      }
      threw := fate == Aborts || ending == Threw || (ending == Finished && fate == AckLost);
    }
  }

  lemma ProductsStep(lines: seq<Line>, i: nat)
    requires i < |lines|
    ensures ProductsOf(lines[..i + 1]) == ProductsOf(lines[..i]) + {lines[i].productId}
  {
    assert forall l :: l in lines[..i + 1] <==> l in lines[..i] || l == lines[i];
  }

  lemma ScaledStep(lines: seq<Line>, i: nat, sign: int, p: Uuid)
    requires i < |lines|
    ensures sign * Quantity(lines[..i + 1], p)
         == sign * Quantity(lines[..i], p) + (if lines[i].productId == p then sign * lines[i].quantity else 0)
  {
    QuantityStep(lines, i, p);
    var q := if lines[i].productId == p then lines[i].quantity else 0;
    assert sign * (Quantity(lines[..i], p) + q) == sign * Quantity(lines[..i], p) + sign * q;
  }

  /** Moving one more line changes only that line's product, by that line's quantity. */
  lemma MovedStep(products: map<Uuid, Product>, lines: seq<Line>, i: nat, sign: int)
    requires i < |lines| && lines[i].productId in products
    ensures var p, q, m := lines[i].productId, sign * lines[i].quantity, Moved(products, lines[..i], sign);
            Moved(products, lines[..i + 1], sign) == m[p := Product(m[p].available - q, m[p].reserved + q)]
  {
    hide Quantity;
    var p, q, m := lines[i].productId, sign * lines[i].quantity, Moved(products, lines[..i], sign);
    var next := m[p := Product(m[p].available - q, m[p].reserved + q)];
    forall r | r in products ensures Moved(products, lines[..i + 1], sign)[r] == next[r] {
      ScaledStep(lines, i, sign, r);
    }
  }

  lemma AttemptMarks(db: Db, e: Event, reservationId: Uuid, eventId: Uuid, defaultStock: int)
    requires Inventory.Subscribed(e.payload)
    ensures var attempt := Attempt(db, e, reservationId, eventId, defaultStock);
            && (e.eventId in db.processed ==> attempt == UniqueViolation)
            && (attempt.Commit? ==> e.eventId in attempt.db.processed)
  {
  }

  /** The event's row in the processed table. */
  function Marked(e: Event): Db -> bool {
    (db: Db) => e.eventId in db.processed
  }

  /** Successive deliveries of one event, each drawing fresh identifiers. */
  function Deliveries(e: Event, reservationIds: nat -> Uuid, eventIds: nat -> Uuid, defaultStock: int)
    : (Db, nat) -> Work<Db>
    requires Inventory.Subscribed(e.payload)
  {
    (db: Db, i: nat) => Attempt(db, e, reservationIds(i), eventIds(i), defaultStock)
  }

  /** Once an event has moved the ledger, no delivery of it moves it again, whatever was committed since. */
  lemma ReceiveDeduplicates(e: Event, reservationIds: nat -> Uuid, eventIds: nat -> Uuid, defaultStock: int)
    requires Inventory.Subscribed(e.payload)
    ensures Deduplicates(Deliveries(e, reservationIds, eventIds, defaultStock), Marked(e))
  {
    hide Attempt;
    var work, marked := Deliveries(e, reservationIds, eventIds, defaultStock), Marked(e);
    forall db: Db, i: nat
      ensures marked(db) ==> work(db, i) == UniqueViolation
      ensures work(db, i).Commit? ==> marked(work(db, i).db)
    {
      assert work(db, i) == Attempt(db, e, reservationIds(i), eventIds(i), defaultStock);
      AttemptMarks(db, e, reservationIds(i), eventIds(i), defaultStock);
    }
  }
}
