/** The messages the services exchange, and the little vocabulary every module shares. */
module Events {

  /** UUIDs are natural numbers; `randomUUID` becomes a parameter that callers keep fresh. */
  type Uuid = nat

  datatype Option<+T> = None | Some(value: T)

  /** What a transaction body did: commit a new database state, hit a unique key (P2002), or throw otherwise. */
  datatype Work<+T> = Commit(db: T) | UniqueViolation | Throws

  /** What the infrastructure does to a transaction: it commits, aborts, or commits with the acknowledgement lost. */
  datatype Fate = Commits | Aborts | AckLost

  /** One line of an order as the client sent it. */
  datatype Item = Item(productId: Uuid, quantity: int, unitPriceCents: int)

  /** One line of a reservation. */
  datatype Line = Line(productId: Uuid, quantity: int)

  datatype Shortfall = Shortfall(productId: Uuid, requested: int, available: int)

  datatype CancelReason = PaymentFailure | OutOfStock

  /** The seven event payloads; the constructor stands for the topic. */
  datatype Payload =
    | OrderCreated(customerId: Uuid, items: seq<Item>, totalAmountCents: int, currency: string)
    | OrderConfirmed(customerId: Uuid, totalAmountCents: int)
    | OrderCancelled(customerId: Uuid, reason: CancelReason)
    | PaymentCompleted(customerId: Uuid, paymentId: Uuid, amountChargedCents: int)
    | PaymentFailed(customerId: Uuid)
    | InventoryReserved(reservationId: Uuid, lines: seq<Line>)
    | InventoryRejected(shortfalls: seq<Shortfall>)

  /** The envelope. Every payload repeats the order id that is also the aggregate id and the partition key;
      here it is one field. */
  datatype Event = Event(eventId: Uuid, correlationId: Uuid, orderId: Uuid, payload: Payload)

  /** The four moments of a checkout that are announced by an event. */
  datatype Kind = Created | Settled | PaymentOutcome | InventoryOutcome

  datatype Slot = Slot(orderId: Uuid, kind: Kind)

  function KindOf(p: Payload): Kind {
    if p.OrderCreated? then Created
    else if p.OrderConfirmed? || p.OrderCancelled? then Settled
    else if p.PaymentCompleted? || p.PaymentFailed? then PaymentOutcome
    else InventoryOutcome
  }

  function SlotOf(e: Event): Slot {
    Slot(e.orderId, KindOf(e.payload))
  }

  function LinesOf(items: seq<Item>): (lines: seq<Line>)
    ensures |lines| == |items|
    ensures forall i :: 0 <= i < |items| ==>
              lines[i].productId == items[i].productId && lines[i].quantity == items[i].quantity
  {
    seq(|items|, i requires 0 <= i < |items| => Line(items[i].productId, items[i].quantity))
  }

  /** `a` was appended to the table before `b`. */
  ghost predicate Before(ids: seq<Uuid>, a: Uuid, b: Uuid) {
    exists i, j :: 0 <= i < j < |ids| && ids[i] == a && ids[j] == b
  }

  ghost predicate NoDuplicates<T(!new)>(s: seq<T>) {
    forall i, j :: 0 <= i < j < |s| ==> s[i] != s[j]
  }

  lemma BeforeAppend(ids: seq<Uuid>, x: Uuid, a: Uuid, b: Uuid)
    requires x !in ids
    ensures Before(ids + [x], a, b) <==> Before(ids, a, b) || (a in ids && b == x)
  {
    var ext := ids + [x];
    if Before(ids, a, b) {
      var i, j :| 0 <= i < j < |ids| && ids[i] == a && ids[j] == b;
      assert ext[i] == a && ext[j] == b;
    } else if a in ids && b == x {
      var i :| 0 <= i < |ids| && ids[i] == a;
      assert ext[i] == a && ext[|ids|] == b;
    }
    if Before(ext, a, b) {
      var i, j :| 0 <= i < j < |ext| && ext[i] == a && ext[j] == b;
      if j < |ids| { assert ids[i] == a && ids[j] == b; } else { assert ids[i] == a; }
    }
  }

  /** A list without repetitions is no longer than any set that contains it. */
  lemma {:induction false} NoDuplicatesBound<T(!new)>(s: seq<T>, bound: set<T>)
    requires NoDuplicates(s)
    requires forall x :: x in s ==> x in bound
    ensures |s| <= |bound|
  {
    if s != [] {
      var n := |s| - 1;
      assert forall x :: x in s[..n] ==> x in s;
      NoDuplicatesBound(s[..n], bound - {s[n]});
    }
  }
}
