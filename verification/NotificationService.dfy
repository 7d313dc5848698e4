/** The notification service as it runs. */
module NotificationService {
  import opened Events
  import opened Notifications
  import opened ProcessOnce

  class Service {
    var notifications: map<(Uuid, NotificationKind), Uuid>
    var processed: seq<Uuid>

    constructor ()
      ensures View() == EMPTY
    {
      notifications, processed := map[], [];
    }

    function View(): Db
      reads this
    {
      Db(notifications, processed)
    }

    method Send(orderId: Uuid, kind: NotificationKind, customerId: Uuid) returns (ending: Ending)
      modifies this
      ensures EndsAs(Notifications.Send(old(View()), orderId, kind, customerId), ending, View())
    {
      if (orderId, kind) in notifications {
        return Violated;
      }
      notifications := notifications[(orderId, kind) := customerId];
      return Finished;
    }

    method Receive(e: Event, fate: Fate) returns (threw: bool)
      requires Notifications.Subscribed(e.payload)
      modifies this
      ensures Delivered(View(), threw) == Call(old(View()), Attempt(old(View()), e), fate)
      ensures fate != Aborts ==> View() == Notifications.Handle(old(View()), e)
    {
      var before := View();
      var ending := Violated;
      if e.eventId !in processed {
        processed := processed + [e.eventId];
        var kind := if e.payload.OrderConfirmed? then OrderConfirmedNotice else PaymentFailedNotice;
        ending := Send(e.orderId, kind, e.payload.customerId);
      }
      if ending != Finished || fate == Aborts {
        notifications, processed := before.notifications, before.processed;
      }
      threw := fate == Aborts || ending == Threw || (ending == Finished && fate == AckLost);
    }
  }

  /** The event's row in the processed table. */
  function Marked(e: Event): Db -> bool {
    (db: Db) => e.eventId in db.processed
  }

  function Deliveries(e: Event): (Db, nat) -> Work<Db>
    requires Notifications.Subscribed(e.payload)
  {
    (db: Db, _: nat) => Attempt(db, e)
  }

  /** Once an event has been notified, no redelivery notifies anybody again, whatever was committed since. */
  lemma ReceiveDeduplicates(e: Event)
    requires Notifications.Subscribed(e.payload)
    ensures Deduplicates(Deliveries(e), Marked(e))
  {
    var work, marked := Deliveries(e), Marked(e);
    forall db: Db, i: nat
      ensures marked(db) ==> work(db, i) == UniqueViolation
      ensures work(db, i).Commit? ==> marked(work(db, i).db)
    {
      assert work(db, i) == Attempt(db, e);
    }
  }
}
