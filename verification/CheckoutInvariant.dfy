/** The inductive invariant of the checkout protocol, and the bookkeeping all its steps share. */
module CheckoutInvariant {
  import opened Events
  import opened Outbox
  import opened Tables
  import opened Checkout
  import Notifications
  import StockLedger

  ghost function OrdT(s: System): OrderTables {
    OrderTables(s.ord.orders, Staged(s.ord.outbox), s.ord.processed)
  }

  ghost function PayT(s: System): PaymentTables {
    PaymentTables(s.pay.payments, Staged(s.pay.outbox), s.pay.processed)
  }

  ghost function InvT(s: System): InventoryTables {
    InventoryTables(s.inv.reservations, Staged(s.inv.outbox), s.inv.processed)
  }

  ghost function AllStaged(s: System): set<Event> {
    Staged(s.ord.outbox) + Staged(s.pay.outbox) + Staged(s.inv.outbox)
  }

  // ---- the log ---------------------------------------------------------------------

  /** A published or acknowledged row is in the log. */
  ghost predicate RelayOk(rows: seq<Row>, relay: Relay, log: seq<Event>) {
    && (forall r :: r in rows && r.published ==> r.event in log)
    && (relay.Acked? ==> relay.row < |rows| && rows[relay.row].event in log && !rows[relay.row].published)
  }

  ghost predicate RelaysOk(s: System) {
    && RelayOk(s.ord.outbox, s.ordRelay, s.log)
    && RelayOk(s.pay.outbox, s.payRelay, s.log)
    && RelayOk(s.inv.outbox, s.invRelay, s.log)
  }

  ghost predicate Mentions(log: seq<Event>, o: Uuid, kind: Kind) {
    exists e :: e in log && SlotOf(e) == Slot(o, kind)
  }

  /** What must be in the log before an event of this slot may be staged. */
  ghost predicate Caused(log: seq<Event>, slot: Slot) {
    match slot.kind
    case Created => true
    case PaymentOutcome => Mentions(log, slot.orderId, Created)
    case InventoryOutcome => Mentions(log, slot.orderId, Created)
    case Settled => Mentions(log, slot.orderId, PaymentOutcome) || Mentions(log, slot.orderId, InventoryOutcome)
  }

  ghost predicate CausalLog(log: seq<Event>) {
    forall i :: 0 <= i < |log| ==> Caused(log[..i], SlotOf(log[i]))
  }

  /** The log holds staged events only, and every event's cause is in the log before it. */
  ghost predicate LogOk(events: set<Event>, log: seq<Event>) {
    && (forall e :: e in log ==> e in events)
    && (forall e :: e in events ==> Caused(log, SlotOf(e)))
    && CausalLog(log)
  }

  // ---- the invariant ---------------------------------------------------------------

  ghost predicate RowsOk(s: System) {
    DistinctSlots(s.ord.outbox) && DistinctSlots(s.pay.outbox) && DistinctSlots(s.inv.outbox)
  }

  /** The processed tables, in the order of the services. */
  datatype Handled = Handled(ord: seq<Uuid>, pay: seq<Uuid>, inv: seq<Uuid>, ntf: seq<Uuid>)

  ghost function HandledBy(s: System): Handled {
    Handled(s.ord.processed, s.pay.processed, s.inv.processed, s.ntf.processed)
  }

  ghost predicate HandledOk(h: Handled, events: set<Event>) {
    && ProcessedOk(OrderService, h.ord, events)
    && ProcessedOk(PaymentService, h.pay, events)
    && ProcessedOk(InventoryService, h.inv, events)
    && ProcessedOk(NotificationService, h.ntf, events)
  }

  ghost predicate BooksOk(events: set<Event>, orders: set<Uuid>, used: set<Uuid>, h: Handled, log: seq<Event>) {
    && IdsOk(events, orders, used)
    && HandledOk(h, events)
    && LogOk(events, log)
  }

  ghost predicate Inv(c: Config, s: System) {
    && Agree(c, OrdT(s), PayT(s), InvT(s))
    && StockLedger.DbBalanced(s.inv, c.defaultStock)
    && NtfLink(AllStaged(s), s.ntf)
    && BooksOk(AllStaged(s), s.ord.orders.Keys, s.used, HandledBy(s), s.log)
    && RowsOk(s)
    && RelaysOk(s)
  }

  lemma InitAgree(c: Config)
    ensures Agree(c, OrdT(INIT), PayT(INIT), InvT(INIT))
  {
    assert AllStaged(INIT) == {};
  }

  lemma InitBooks()
    ensures BooksOk(AllStaged(INIT), INIT.ord.orders.Keys, INIT.used, HandledBy(INIT), INIT.log)
    ensures NtfLink(AllStaged(INIT), INIT.ntf)
  {
    assert AllStaged(INIT) == {};
  }

  lemma InitRelays()
    ensures RowsOk(INIT) && RelaysOk(INIT)
  {
  }

  lemma InitLedger(c: Config)
    ensures StockLedger.DbBalanced(INIT.inv, c.defaultStock)
  {
  }

  lemma InitHolds(c: Config)
    ensures Inv(c, INIT)
  {
    hide Agree, BooksOk, NtfLink, RowsOk, RelaysOk, StockLedger.DbBalanced, AllStaged;
    InitAgree(c);
    InitBooks();
    InitRelays();
    InitLedger(c);
  }

  // ---- where an event came from ----------------------------------------------------

  lemma Origin(c: Config, s: System, e: Event)
    requires Agree(c, OrdT(s), PayT(s), InvT(s)) && e in AllStaged(s)
    ensures KindOf(e.payload) in {Created, Settled} <==> e in Staged(s.ord.outbox)
    ensures KindOf(e.payload) == PaymentOutcome <==> e in Staged(s.pay.outbox)
    ensures KindOf(e.payload) == InventoryOutcome <==> e in Staged(s.inv.outbox)
    ensures e.orderId in s.ord.orders
  {
    hide PayLink, InvLink, OrdLink, ReleaseOk;
    if e in Staged(s.ord.outbox) { assert OrderEventOk(s.ord.orders, e); }
    if e in Staged(s.pay.outbox) { assert PaymentEventOk(s.pay.payments, e); PaymentOrderKnown(c, s, e); }
    if e in Staged(s.inv.outbox) { assert InventoryEventOk(s.inv.reservations, e); InventoryOrderKnown(s, e); }
  }

  lemma PaymentOrderKnown(c: Config, s: System, e: Event)
    requires PayLink(c, OrdT(s), PayT(s)) && e in Staged(s.pay.outbox)
    ensures e.orderId in s.ord.orders
  {
  }

  lemma InventoryOrderKnown(s: System, e: Event)
    requires InvLink(OrdT(s), InvT(s)) && e in Staged(s.inv.outbox)
    ensures e.orderId in s.ord.orders
  {
  }

  lemma RowsOnePerSlot(rows: seq<Row>)
    requires DistinctSlots(rows)
    ensures OnePerSlot(Staged(rows))
  {
    forall a, b | a in Staged(rows) && b in Staged(rows) && SlotOf(a) == SlotOf(b) ensures a == b {
      SameSlot(rows, a, b);
    }
  }

  // ---- bookkeeping -----------------------------------------------------------------

  lemma CausedLater(log: seq<Event>, more: seq<Event>, slot: Slot)
    requires Caused(log, slot) && log <= more
    ensures Caused(more, slot)
  {
  }

  lemma StagingKeepsLog(events: set<Event>, log: seq<Event>, f: Event)
    requires LogOk(events, log) && Caused(log, SlotOf(f))
    ensures LogOk(events + {f}, log)
  {
    hide CausalLog, Caused;
  }

  lemma StagingKeepsIds(events: set<Event>, orders: set<Uuid>, used: set<Uuid>, f: Event, ids: set<Uuid>)
    requires IdsOk(events, orders, used) && f.eventId !in used && f.eventId in ids
    ensures forall more | more <= orders + ids :: IdsOk(events + {f}, more, used + ids)
  {
  }

  lemma StagingKeepsProcessed(svc: Service, processed: seq<Uuid>, events: set<Event>, more: set<Event>)
    requires ProcessedOk(svc, processed, events) && events <= more
    ensures ProcessedOk(svc, processed, more)
  {
    hide NoDuplicates;
  }

  /** Staging one freshly identified, properly caused event keeps the books. */
  lemma StagingKeepsBooks(events: set<Event>, orders: set<Uuid>, used: set<Uuid>, h: Handled, log: seq<Event>,
                          f: Event, ids: set<Uuid>)
    requires BooksOk(events, orders, used, h, log)
    requires f.eventId !in used && f.eventId in ids && Caused(log, SlotOf(f))
    ensures forall more | more <= orders + ids :: BooksOk(events + {f}, more, used + ids, h, log)
  {
    hide ProcessedOk, LogOk, IdsOk, Caused;
    StagingKeepsIds(events, orders, used, f, ids);
    StagingKeepsLog(events, log, f);
    StagingKeepsProcessed(OrderService, h.ord, events, events + {f});
    StagingKeepsProcessed(PaymentService, h.pay, events, events + {f});
    StagingKeepsProcessed(InventoryService, h.inv, events, events + {f});
    StagingKeepsProcessed(NotificationService, h.ntf, events, events + {f});
  }

  /** Handling a staged event for the first time keeps a processed table honest. */
  lemma HandlingKeepsProcessed(svc: Service, processed: seq<Uuid>, events: set<Event>, m: Event)
    requires ProcessedOk(svc, processed, events)
    requires m in events && Subscribed(svc, m.payload) && m.eventId !in processed
    ensures ProcessedOk(svc, processed + [m.eventId], events)
  {
  }

  lemma DrawingKeepsBooks(events: set<Event>, orders: set<Uuid>, used: set<Uuid>, h: Handled, log: seq<Event>,
                          ids: set<Uuid>)
    requires BooksOk(events, orders, used, h, log)
    ensures BooksOk(events, orders, used + ids, h, log)
  {
    hide HandledOk, LogOk;
  }

  /** A processed id belongs to a staged event, so a fresh id is in no processed table. */
  lemma FreshIsUnprocessed(events: set<Event>, orders: set<Uuid>, used: set<Uuid>, h: Handled, log: seq<Event>,
                           id: Uuid)
    requires BooksOk(events, orders, used, h, log) && id !in used
    ensures id !in h.ord && id !in h.pay && id !in h.inv && id !in h.ntf
  {
    hide LogOk, NoDuplicates;
  }

  lemma RelayGrows(rows: seq<Row>, relay: Relay, log: seq<Event>, f: Event)
    requires RelayOk(rows, relay, log)
    ensures RelayOk(Enqueue(rows, f), relay, log)
  {
  }

  /** A newly announced moment has not been notified. */
  lemma StagingKeepsNtf(events: set<Event>, ntf: Notifications.Db, f: Event)
    requires NtfLink(events, ntf) && SlotOf(f) !in Slots(events) && f.eventId !in ntf.processed
    ensures NtfLink(events + {f}, ntf)
  {
    forall x | Notifies(events, x) && Notifications.Subscribed(f.payload) ensures NoticeKey(x) != NoticeKey(f) {
      assert SlotOf(x) in Slots(events);
    }
  }
}
