/** The notification service's tables: a terminal consumer without an outbox. */
module Notifications {
  import opened Events

  datatype NotificationKind = OrderConfirmedNotice | PaymentFailedNotice

  /** `notifications` maps its unique `(orderId, kind)` to the customer notified. */
  datatype Db = Db(notifications: map<(Uuid, NotificationKind), Uuid>, processed: seq<Uuid>)

  const EMPTY := Db(map[], [])

  predicate Subscribed(p: Payload) {
    p.OrderConfirmed? || p.PaymentFailed?
  }

  function NoticeOf(p: Payload): NotificationKind
    requires Subscribed(p)
  {
    if p.OrderConfirmed? then OrderConfirmedNotice else PaymentFailedNotice
  }

  function Send(db: Db, orderId: Uuid, kind: NotificationKind, customerId: Uuid): Work<Db> {
    if (orderId, kind) in db.notifications then UniqueViolation
    else Commit(db.(notifications := db.notifications[(orderId, kind) := customerId]))
  }

  function Attempt(db: Db, e: Event): Work<Db>
    requires Subscribed(e.payload)
  {
    if e.eventId in db.processed then UniqueViolation
    else Send(db.(processed := db.processed + [e.eventId]),
           e.orderId, NoticeOf(e.payload), e.payload.customerId)
  }

  function Handle(db: Db, e: Event): Db {
    if !Subscribed(e.payload) then db
    else
      match Attempt(db, e)
      case Commit(next) => next
      case _ => db
  }
}
