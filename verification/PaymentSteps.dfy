/** A payment transaction keeps the tables in agreement. */
module PaymentSteps {
  import opened Events
  import opened Outbox
  import opened Checkout
  import opened Tables
  import Payments

  /** The tables after the payment service charges for the creation event `m`, announcing `f`. */
  ghost function Charged(pay: PaymentTables, m: Event, payment: Payments.Payment, f: Event): PaymentTables {
    PaymentTables(pay.payments[m.orderId := payment], pay.events + {f}, pay.processed + [m.eventId])
  }

  ghost predicate Announces(m: Event, payment: Payments.Payment, f: Event) {
    && f.orderId == m.orderId && f.correlationId == m.correlationId
    && KindOf(f.payload) == PaymentOutcome
    && f.payload.customerId == payment.customerId
    && payment.completed == f.payload.PaymentCompleted?
    && (f.payload.PaymentCompleted? ==>
          f.payload.paymentId == payment.id && f.payload.amountChargedCents == payment.amountCents)
  }

  lemma ChargedPaymentsOk(pay: PaymentTables, m: Event, payment: Payments.Payment, f: Event)
    requires PaymentsOk(pay) && m.orderId !in pay.payments && Announces(m, payment, f)
    ensures PaymentsOk(Charged(pay, m, payment, f))
  {
    var next := Charged(pay, m, payment, f);
    assert Slots(next.events) == Slots(pay.events) + {SlotOf(f)};
    forall e | e in next.events ensures PaymentEventOk(next.payments, e) {
      if e in pay.events { assert PaymentEventOk(pay.payments, e); }
    }
  }

  lemma ChargedPayLink(c: Config, ord: OrderTables, pay: PaymentTables, m: Event, payment: Payments.Payment, f: Event)
    requires PayLink(c, ord, pay) && IsCreated(ord, m) && OnePerSlot(ord.events)
    requires forall e :: e in ord.events && e.eventId == m.eventId ==> e == m
    requires OrderEventOk(ord.orders, m) && PaymentAgrees(c, ord.orders[m.orderId], payment)
    requires Announces(m, payment, f)
    ensures PayLink(c, ord, Charged(pay, m, payment, f))
  {
    var next := Charged(pay, m, payment, f);
    forall e | IsCreated(ord, e) ensures e.eventId in next.processed <==> e.orderId in next.payments {
      if e.orderId == m.orderId { assert SlotOf(e) == SlotOf(m); }
    }
  }

  lemma ChargedOrdLink(ord: OrderTables, pay: PaymentTables, inv: InventoryTables,
                       m: Event, payment: Payments.Payment, f: Event)
    requires OrdLink(ord, pay, inv) && m.orderId !in pay.payments && f.eventId !in ord.processed
    ensures OrdLink(ord, Charged(pay, m, payment, f), inv)
  {
    forall o | o in ord.orders ensures LegFacts(Charged(pay, m, payment, f), inv, o, ord.orders[o]) {
      assert LegFacts(pay, inv, o, ord.orders[o]);
    }
  }

  lemma ChargedAgree(c: Config, ord: OrderTables, pay: PaymentTables, inv: InventoryTables,
                     m: Event, payment: Payments.Payment, f: Event)
    requires Agree(c, ord, pay, inv) && IsCreated(ord, m) && OnePerSlot(ord.events)
    requires forall e :: e in ord.events && e.eventId == m.eventId ==> e == m
    requires m.eventId !in pay.processed && f.eventId !in ord.processed
    requires m.orderId in ord.orders && PaymentAgrees(c, ord.orders[m.orderId], payment)
    requires Announces(m, payment, f)
    ensures m.orderId !in pay.payments
    ensures Agree(c, ord, Charged(pay, m, payment, f), inv)
  {
    assert OrderEventOk(ord.orders, m);
    ChargedPaymentsOk(pay, m, payment, f);
    ChargedPayLink(c, ord, pay, m, payment, f);
    ChargedOrdLink(ord, pay, inv, m, payment, f);
  }
}
