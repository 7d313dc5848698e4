/** The payment service as it runs. */
module PaymentService {
  import opened Events
  import opened Payments
  import opened ProcessOnce
  import Outbox

  class Service {
    const declineEndsIn: int
    var payments: map<Uuid, Payment>
    var outbox: seq<Outbox.Row>
    var processed: seq<Uuid>

    constructor (declineEndsIn: int)
      ensures this.declineEndsIn == declineEndsIn && View() == EMPTY
    {
      this.declineEndsIn := declineEndsIn;
      payments, outbox, processed := map[], [], [];
    }

    function View(): Db
      reads this
    {
      Db(payments, outbox, processed)
    }

    /** One payment row and one outcome event per order, declined or not. */
    method Charge(orderId: Uuid, customerId: Uuid, amount: int, correlationId: Uuid, paymentId: Uuid, eventId: Uuid)
      returns (ending: Ending)
      modifies this
      ensures EndsAs(
                Payments.Charge(old(View()), orderId, customerId, amount, correlationId, paymentId, eventId,
                  declineEndsIn),
                ending, View())
    {
      if orderId in payments {
        return Violated;
      }
      if Cents(amount) == declineEndsIn {
        payments := payments[orderId := Payment(paymentId, customerId, amount, false)];
        outbox := Outbox.Enqueue(outbox, Event(eventId, correlationId, orderId, PaymentFailed(customerId)));
      } else {
        payments := payments[orderId := Payment(paymentId, customerId, amount, true)];
        outbox := Outbox.Enqueue(outbox,
          Event(eventId, correlationId, orderId, PaymentCompleted(customerId, paymentId, amount)));
      }
      return Finished;
    }

    method Receive(e: Event, paymentId: Uuid, eventId: Uuid, fate: Fate) returns (threw: bool)
      requires Payments.Subscribed(e.payload)
      modifies this
      ensures Delivered(View(), threw)
           == Call(old(View()), Attempt(old(View()), e, paymentId, eventId, declineEndsIn), fate)
      ensures fate != Aborts ==> View() == Payments.Handle(old(View()), e, paymentId, eventId, declineEndsIn)
    {
      var before := View();
      var ending := Violated;
      if e.eventId !in processed {
        processed := processed + [e.eventId];
        ending := Charge(e.orderId, e.payload.customerId, e.payload.totalAmountCents, e.correlationId,
          paymentId, eventId);
      }
      if ending != Finished || fate == Aborts {
        payments, outbox, processed := before.payments, before.outbox, before.processed;
      }
      threw := fate == Aborts || ending == Threw || (ending == Finished && fate == AckLost);
    }
  }

  /** The event's row in the processed table. */
  function Marked(e: Event): Db -> bool {
    (db: Db) => e.eventId in db.processed
  }

  function Deliveries(e: Event, paymentIds: nat -> Uuid, eventIds: nat -> Uuid, declineEndsIn: int)
    : (Db, nat) -> Work<Db>
    requires Payments.Subscribed(e.payload)
  {
    (db: Db, i: nat) => Attempt(db, e, paymentIds(i), eventIds(i), declineEndsIn)
  }

  /** Once an order has been charged, no redelivery charges it again, whatever was committed since. */
  lemma ReceiveDeduplicates(e: Event, paymentIds: nat -> Uuid, eventIds: nat -> Uuid, declineEndsIn: int)
    requires Payments.Subscribed(e.payload)
    ensures Deduplicates(Deliveries(e, paymentIds, eventIds, declineEndsIn), Marked(e))
  {
    var work, marked := Deliveries(e, paymentIds, eventIds, declineEndsIn), Marked(e);
    forall db: Db, i: nat
      ensures marked(db) ==> work(db, i) == UniqueViolation
      ensures work(db, i).Commit? ==> marked(work(db, i).db)
    {
      assert work(db, i) == Attempt(db, e, paymentIds(i), eventIds(i), declineEndsIn);
    }
  }
}
