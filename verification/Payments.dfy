/** The payment service's tables and its one transaction. */
module Payments {
  import opened Events
  import Outbox

  /** `status` COMPLETED is `completed`; otherwise FAILED with CARD_DECLINED. */
  datatype Payment = Payment(id: Uuid, customerId: Uuid, amountCents: int, completed: bool)

  /** `payments` is keyed by its unique `orderId`. */
  datatype Db = Db(payments: map<Uuid, Payment>, outbox: seq<Outbox.Row>, processed: seq<Uuid>)

  const EMPTY := Db(map[], [], [])

  /** JavaScript's remainder by 100 takes the sign of the dividend. */
  function Cents(amount: int): int {
    if amount >= 0 then amount % 100 else -((-amount) % 100)
  }

  predicate Declined(amount: int, declineEndsIn: int) {
    Cents(amount) == declineEndsIn
  }

  function NewPayment(customerId: Uuid, amount: int, paymentId: Uuid, declineEndsIn: int): Payment {
    Payment(paymentId, customerId, amount, !Declined(amount, declineEndsIn))
  }

  function OutcomeEvent(orderId: Uuid, correlationId: Uuid, payment: Payment, eventId: Uuid): Event {
    Event(eventId, correlationId, orderId,
      if payment.completed then PaymentCompleted(payment.customerId, payment.id, payment.amountCents)
      else PaymentFailed(payment.customerId))
  }

  function Charge(db: Db, orderId: Uuid, customerId: Uuid, amount: int, correlationId: Uuid,
                  paymentId: Uuid, eventId: Uuid, declineEndsIn: int): Work<Db>
  {
    if orderId in db.payments then
      UniqueViolation
    else
      var payment := NewPayment(customerId, amount, paymentId, declineEndsIn);
      Commit(db.(payments := db.payments[orderId := payment],
                 outbox := Outbox.Enqueue(db.outbox, OutcomeEvent(orderId, correlationId, payment, eventId))))
  }

  /** A first charge of `100 * q + r` cents: the row, and the one event, say it went through exactly when `r` are not
      the declined cents; a second one changes nothing. */
  lemma ChargeDecides(db: Db, o: Uuid, customerId: Uuid, q: nat, r: nat, correlationId: Uuid, paymentId: Uuid,
                      eventId: Uuid, declineEndsIn: int)
    requires r < 100
    ensures var work := Charge(db, o, customerId, 100 * q + r, correlationId, paymentId, eventId, declineEndsIn);
            if o in db.payments then work == UniqueViolation
            else
              && work.Commit? && work.db.processed == db.processed
              && work.db.payments == db.payments[o := Payment(paymentId, customerId, 100 * q + r, r != declineEndsIn)]
              && |work.db.outbox| == |db.outbox| + 1 && work.db.outbox[..|db.outbox|] == db.outbox
              && var row := work.db.outbox[|db.outbox|];
              && !row.published && row.event.eventId == eventId && row.event.orderId == o
              && row.event.correlationId == correlationId
              && row.event.payload == if r != declineEndsIn then PaymentCompleted(customerId, paymentId, 100 * q + r)
                                      else PaymentFailed(customerId)
  {
    assert (100 * q + r) % 100 == r;
  }

  predicate Subscribed(p: Payload) {
    p.OrderCreated?
  }

  function Attempt(db: Db, e: Event, paymentId: Uuid, eventId: Uuid, declineEndsIn: int): Work<Db>
    requires Subscribed(e.payload)
  {
    if e.eventId in db.processed then
      UniqueViolation
    else
      Charge(db.(processed := db.processed + [e.eventId]),
        e.orderId, e.payload.customerId, e.payload.totalAmountCents, e.correlationId,
        paymentId, eventId, declineEndsIn)
  }

  function Handle(db: Db, e: Event, paymentId: Uuid, eventId: Uuid, declineEndsIn: int): Db {
    if !Subscribed(e.payload) then db
    else
      match Attempt(db, e, paymentId, eventId, declineEndsIn)
      case Commit(next) => next
      case _ => db
  }
}
