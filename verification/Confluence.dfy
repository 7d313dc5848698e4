/** Saga confluence: whatever order, and however often, an order's outcomes are delivered, its status is the same. */
module Confluence {
  import opened Events
  import Orders

  /** The order service after handling the deliveries in order; `ids` are the fresh event ids drawn along the way. */
  function Fold(db: Orders.Db, deliveries: seq<Event>, ids: seq<Uuid>): Orders.Db
    requires |ids| == |deliveries|
  {
    if deliveries == [] then db
    else
      var n := |deliveries| - 1;
      Orders.Handle(Fold(db, deliveries[..n], ids[..n]), deliveries[n], ids[n])
  }

  /** The saga's verdict on what its two legs report. */
  function Verdict(payment: Orders.LegStatus, inventory: Orders.LegStatus): Orders.Status {
    if payment == Orders.Failed || inventory == Orders.Failed then Orders.Cancelled
    else if payment == Orders.Succeeded && inventory == Orders.Succeeded then Orders.Confirmed
    else Orders.Pending
  }

  function Reported(deliveries: seq<Event>, e: Event): Orders.LegStatus
    requires Orders.Subscribed(e.payload)
  {
    if e in deliveries then Orders.OutcomeOf(e.payload) else Orders.LegPending
  }

  /** A new order `o`, with `p` as its payment outcome and `q` as its inventory outcome. */
  ghost predicate Awaits(db: Orders.Db, o: Uuid, p: Event, q: Event) {
    && o in db.orders && db.orders[o].status == Orders.Pending
    && db.orders[o].payment == Orders.LegPending && db.orders[o].inventory == Orders.LegPending
    && p.orderId == o && KindOf(p.payload) == PaymentOutcome && p.eventId !in db.processed
    && q.orderId == o && KindOf(q.payload) == InventoryOutcome && q.eventId !in db.processed
    && p.eventId != q.eventId
  }

  /** Among the deliveries only `p` and `q` are outcomes of `o`; other orders' messages may be mixed in. */
  ghost predicate Deliveries(deliveries: seq<Event>, o: Uuid, p: Event, q: Event) {
    forall d :: d in deliveries ==>
      && (d.orderId == o && Orders.Subscribed(d.payload) ==> d == p || d == q)
      && (d.eventId == p.eventId ==> d == p)
      && (d.eventId == q.eventId ==> d == q)
  }

  /** What one delivery does to order `o`. */
  lemma HandleTouches(db: Orders.Db, d: Event, id: Uuid, o: Uuid)
    requires o in db.orders
    ensures o in Orders.Handle(db, d, id).orders
    ensures d.orderId != o || !Orders.Subscribed(d.payload) || d.eventId in db.processed ==>
              Orders.Handle(db, d, id).orders[o] == db.orders[o]
    ensures forall x :: x in Orders.Handle(db, d, id).processed <==>
              x in db.processed || (x == d.eventId && Orders.Subscribed(d.payload))
  {
  }

  /** The first position at which `e` is delivered. */
  function First(deliveries: seq<Event>, e: Event): (i: nat)
    requires e in deliveries
    ensures i < |deliveries| && deliveries[i] == e && e !in deliveries[..i]
  {
    var n := |deliveries| - 1;
    if e in deliveries[..n] then
      var i := First(deliveries[..n], e);
      assert deliveries[..n][..i] == deliveries[..i];
      i
    else
      n
  }

  lemma FirstExtends(deliveries: seq<Event>, e: Event, d: Event)
    requires e in deliveries
    ensures First(deliveries + [d], e) == First(deliveries, e)
  {
    assert (deliveries + [d])[..|deliveries|] == deliveries;
  }

  /** A failed inventory leg was reported before any report of the payment. */
  ghost predicate OutOfStockFirst(deliveries: seq<Event>, p: Event, q: Event)
    requires Orders.Subscribed(q.payload)
  {
    && q in deliveries && Orders.OutcomeOf(q.payload) == Orders.Failed
    && (p in deliveries ==> First(deliveries, q) < First(deliveries, p))
  }

  /** The whole row after any deliveries: the status is the verdict on the set delivered; only while it is pending do
      both legs show everything delivered; and a cancelled order blames its payment unless stock failed first. */
  ghost predicate RowIs(row: Orders.Order, deliveries: seq<Event>, p: Event, q: Event)
    requires Orders.Subscribed(p.payload) && Orders.Subscribed(q.payload)
  {
    && row.status == Verdict(Reported(deliveries, p), Reported(deliveries, q))
    && (row.status == Orders.Pending ==>
          row.payment == Reported(deliveries, p) && row.inventory == Reported(deliveries, q))
    && (row.status == Orders.Cancelled ==>
          (row.payment == Orders.Failed <==>
           p in deliveries && Orders.OutcomeOf(p.payload) == Orders.Failed && !OutOfStockFirst(deliveries, p, q)))
  }

  lemma RowAfterOther(row: Orders.Order, before: seq<Event>, d: Event, p: Event, q: Event)
    requires KindOf(p.payload) == PaymentOutcome && KindOf(q.payload) == InventoryOutcome
    requires RowIs(row, before, p, q)
    requires d in before || (d != p && d != q)
    ensures RowIs(row, before + [d], p, q)
  {
    if p in before { FirstExtends(before, p, d); }
    if q in before { FirstExtends(before, q, d); }
    assert p in before + [d] <==> p in before;
    assert q in before + [d] <==> q in before;
  }

  lemma RowAfterOutcome(db: Orders.Db, before: seq<Event>, d: Event, id: Uuid, o: Uuid, p: Event, q: Event)
    requires p.orderId == o && KindOf(p.payload) == PaymentOutcome
    requires q.orderId == o && KindOf(q.payload) == InventoryOutcome
    requires o in db.orders && RowIs(db.orders[o], before, p, q)
    requires (d == p || d == q) && d !in before && d.eventId !in db.processed
    ensures o in Orders.Handle(db, d, id).orders
    ensures RowIs(Orders.Handle(db, d, id).orders[o], before + [d], p, q)
  {
    var after := before + [d];
    var other := if d == p then q else p;
    assert d in after && (other in after <==> other in before);
    assert after[..|before|] == before;
    assert First(after, d) == |before|;
    if other in before { FirstExtends(before, other, d); }
  }

  lemma {:induction false} RowAfter(db: Orders.Db, deliveries: seq<Event>, ids: seq<Uuid>, o: Uuid, p: Event, q: Event)
    requires |ids| == |deliveries| && Awaits(db, o, p, q) && Deliveries(deliveries, o, p, q)
    ensures var after := Fold(db, deliveries, ids);
            && o in after.orders && RowIs(after.orders[o], deliveries, p, q)
            && (p.eventId in after.processed <==> p in deliveries)
            && (q.eventId in after.processed <==> q in deliveries)
  {
    if deliveries != [] {
      var n := |deliveries| - 1;
      var d := deliveries[n];
      assert d in deliveries;
      assert forall x :: x in deliveries[..n] ==> x in deliveries;
      assert deliveries == deliveries[..n] + [d];
      RowAfter(db, deliveries[..n], ids[..n], o, p, q);
      var mid := Fold(db, deliveries[..n], ids[..n]);
      hide RowIs;
      HandleTouches(mid, d, ids[n], o);
      if d in deliveries[..n] || (d != p && d != q) {
        RowAfterOther(mid.orders[o], deliveries[..n], d, p, q);
      } else {
        RowAfterOutcome(mid, deliveries[..n], d, ids[n], o, p, q);
      }
    }
  }

  /** Confluence: two delivery sequences that deliver the same outcomes settle the order the same way, and that way is
      the verdict on the outcomes. */
  lemma StatusDependsOnTheSetOnly(db: Orders.Db, o: Uuid, p: Event, q: Event,
                                  a: seq<Event>, aIds: seq<Uuid>, b: seq<Event>, bIds: seq<Uuid>)
    requires |aIds| == |a| && |bIds| == |b| && Awaits(db, o, p, q)
    requires Deliveries(a, o, p, q) && Deliveries(b, o, p, q)
    requires (p in a <==> p in b) && (q in a <==> q in b)
    ensures o in Fold(db, a, aIds).orders && o in Fold(db, b, bIds).orders
    ensures Fold(db, a, aIds).orders[o].status == Fold(db, b, bIds).orders[o].status
    ensures Fold(db, a, aIds).orders[o].status == Verdict(Reported(a, p), Reported(a, q))
  {
    RowAfter(db, a, aIds, o, p, q);
    RowAfter(db, b, bIds, o, p, q);
  }

  // ---- what is announced -----------------------------------------------------------

  /** The cancellations of `o` staged since the table had `from` rows. */
  ghost predicate Announces(db: Orders.Db, from: nat, o: Uuid, e: Event) {
    e.orderId == o && e.payload.OrderCancelled? && exists k :: from <= k < |db.outbox| && db.outbox[k].event == e
  }

  /** They name the leg that failed, and there is one exactly when the order is cancelled. */
  ghost predicate AnnouncedRight(db: Orders.Db, from: nat, o: Uuid) {
    && o in db.orders && from <= |db.outbox|
    && (forall e :: Announces(db, from, o, e) ==>
          && db.orders[o].status == Orders.Cancelled
          && (e.payload.reason == PaymentFailure <==> db.orders[o].payment == Orders.Failed))
    && (db.orders[o].status == Orders.Cancelled ==> exists e :: Announces(db, from, o, e))
  }

  /** A delivery stages at most one row, and about its own order only. */
  lemma HandleStages(db: Orders.Db, d: Event, id: Uuid, o: Uuid)
    requires o in db.orders
    ensures var next := Orders.Handle(db, d, id);
            && o in next.orders && |db.outbox| <= |next.outbox| <= |db.outbox| + 1
            && next.outbox[..|db.outbox|] == db.outbox
            && (next.outbox == db.outbox || d.orderId != o ==>
                  && (next.orders[o].status == Orders.Cancelled <==> db.orders[o].status == Orders.Cancelled)
                  && (db.orders[o].status == Orders.Cancelled ==> next.orders[o] == db.orders[o]))
            && (next.outbox != db.outbox ==> next.outbox[|db.outbox|].event.orderId == d.orderId)
            && (next.outbox != db.outbox && d.orderId == o ==>
                  var payload := next.outbox[|db.outbox|].event.payload;
                  && db.orders[o].status == Orders.Pending
                  && (payload.OrderCancelled? <==> next.orders[o].status == Orders.Cancelled)
                  && (payload.OrderCancelled? ==>
                        (payload.reason == PaymentFailure <==> next.orders[o].payment == Orders.Failed)))
  {
  }

  lemma HandleAnnouncesRight(db: Orders.Db, from: nat, d: Event, id: Uuid, o: Uuid)
    requires AnnouncedRight(db, from, o)
    ensures AnnouncedRight(Orders.Handle(db, d, id), from, o)
  {
    HandleStages(db, d, id, o);
    hide Orders.Handle;
    var next := Orders.Handle(db, d, id);
    if next.outbox == db.outbox {
      assert forall e :: Announces(next, from, o, e) <==> Announces(db, from, o, e);
    } else {
      var f := next.outbox[|db.outbox|].event;
      forall e ensures Announces(next, from, o, e) <==>
                       Announces(db, from, o, e) || (e == f && f.orderId == o && f.payload.OrderCancelled?)
      {
        if Announces(db, from, o, e) {
          var k :| from <= k < |db.outbox| && db.outbox[k].event == e;
          assert next.outbox[k].event == e;
        }
        assert next.outbox[|db.outbox|].event == f;
      }
    }
  }

  lemma {:induction false} FoldAnnouncesRight(db: Orders.Db, from: nat, deliveries: seq<Event>, ids: seq<Uuid>, o: Uuid)
    requires |ids| == |deliveries| && AnnouncedRight(db, from, o)
    ensures AnnouncedRight(Fold(db, deliveries, ids), from, o)
  {
    hide AnnouncedRight, Orders.Handle;
    if deliveries != [] {
      var n := |deliveries| - 1;
      FoldAnnouncesRight(db, from, deliveries[..n], ids[..n], o);
      HandleAnnouncesRight(Fold(db, deliveries[..n], ids[..n]), from, deliveries[n], ids[n], o);
    }
  }

  /** The cancel reason is not confluent: when both legs fail, the order's cancellation is announced, and it gives the
      payment as the reason exactly when its failure came first. */
  lemma ReasonFollowsArrival(db: Orders.Db, o: Uuid, p: Event, q: Event, deliveries: seq<Event>, ids: seq<Uuid>)
    requires |ids| == |deliveries| && Awaits(db, o, p, q) && Deliveries(deliveries, o, p, q)
    requires p.payload.PaymentFailed? && q.payload.InventoryRejected? && p in deliveries && q in deliveries
    ensures var after := Fold(db, deliveries, ids);
            && (exists e :: Announces(after, |db.outbox|, o, e))
            && forall e :: Announces(after, |db.outbox|, o, e) ==>
                 (e.payload.reason == PaymentFailure <==> First(deliveries, p) < First(deliveries, q))
  {
    RowAfter(db, deliveries, ids, o, p, q);
    assert First(deliveries, p) != First(deliveries, q);
    FoldAnnouncesRight(db, |db.outbox|, deliveries, ids, o);
    hide Fold, Announces;
  }
}
