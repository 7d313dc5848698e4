/** The checkout protocol: four service databases, three outbox relays and the Kafka log, as one transition system.
    Each step is one committed transaction, one broker append, or a relay restart. A delivery that is aborted,
    retried or dead-lettered changes no table, so it is no step at all; any logged message may be delivered to any
    service at any time, any number of times. */
module Checkout {
  import opened Events
  import opened Outbox
  import Orders
  import Payments
  import Inventory
  import Notifications

  datatype Config = Config(defaultStock: int, declineEndsIn: int)

  datatype Service = OrderService | PaymentService | InventoryService | NotificationService

  /** Where a relay is inside its batch: the row is acknowledged by the broker but not yet marked, or neither. */
  datatype Relay = Idle | Acked(row: nat)

  datatype System = System(
    ord: Orders.Db,
    pay: Payments.Db,
    inv: Inventory.Db,
    ntf: Notifications.Db,
    ordRelay: Relay,
    payRelay: Relay,
    invRelay: Relay,
    log: seq<Event>,
    used: set<Uuid>)

  const INIT := System(Orders.EMPTY, Payments.EMPTY, Inventory.EMPTY, Notifications.EMPTY, Idle, Idle, Idle, [], {})

  datatype Step =
    | Post(key: Uuid, hash: string, dto: Orders.Dto, ids: Orders.Ids)
    | Publish(svc: Service, row: nat, acked: bool)
    | MarkRow(svc: Service)
    | Restart(svc: Service)
    | Deliver(svc: Service, message: nat, rowId: Uuid, eventId: Uuid)

  function Rows(s: System, svc: Service): seq<Row> {
    match svc
    case OrderService => s.ord.outbox
    case PaymentService => s.pay.outbox
    case InventoryService => s.inv.outbox
    case NotificationService => []
  }

  function RelayOf(s: System, svc: Service): Relay {
    match svc
    case OrderService => s.ordRelay
    case PaymentService => s.payRelay
    case InventoryService => s.invRelay
    case NotificationService => Idle
  }

  function WithRelay(s: System, svc: Service, r: Relay): System {
    match svc
    case OrderService => s.(ordRelay := r)
    case PaymentService => s.(payRelay := r)
    case InventoryService => s.(invRelay := r)
    case NotificationService => s
  }

  function WithRows(s: System, svc: Service, rows: seq<Row>): System {
    match svc
    case OrderService => s.(ord := s.ord.(outbox := rows))
    case PaymentService => s.(pay := s.pay.(outbox := rows))
    case InventoryService => s.(inv := s.inv.(outbox := rows))
    case NotificationService => s
  }

  function Processed(s: System, svc: Service): seq<Uuid> {
    match svc
    case OrderService => s.ord.processed
    case PaymentService => s.pay.processed
    case InventoryService => s.inv.processed
    case NotificationService => s.ntf.processed
  }

  /** The routes each service registers. */
  predicate Subscribed(svc: Service, p: Payload) {
    match svc
    case OrderService => Orders.Subscribed(p)
    case PaymentService => Payments.Subscribed(p)
    case InventoryService => Inventory.Subscribed(p)
    case NotificationService => Notifications.Subscribed(p)
  }

  function Receive(c: Config, s: System, svc: Service, e: Event, rowId: Uuid, eventId: Uuid): System {
    match svc
    case OrderService => s.(ord := Orders.Handle(s.ord, e, eventId))
    case PaymentService => s.(pay := Payments.Handle(s.pay, e, rowId, eventId, c.declineEndsIn))
    case InventoryService => s.(inv := Inventory.Handle(s.inv, e, rowId, eventId, c.defaultStock))
    case NotificationService => s.(ntf := Notifications.Handle(s.ntf, e))
  }

  ghost predicate Enabled(s: System, step: Step) {
    match step
    case Post(key, hash, dto, ids) =>
      && Orders.ValidDto(dto)
      && Orders.CreateOrder(s.ord, key, hash, dto, ids).Commit?
      && {ids.orderId, ids.correlationId, ids.eventId} !! s.used
    case Publish(svc, row, _) => RelayOf(s, svc) == Idle && row < |Rows(s, svc)| && !Rows(s, svc)[row].published
    case MarkRow(svc) => RelayOf(s, svc).Acked? && RelayOf(s, svc).row < |Rows(s, svc)|
    case Restart(_) => true
    case Deliver(_, message, rowId, eventId) => message < |s.log| && rowId !in s.used && eventId !in s.used
  }

  ghost function Apply(c: Config, s: System, step: Step): System
    requires Enabled(s, step)
  {
    match step
    case Post(key, hash, dto, ids) =>
      s.(ord := Orders.CreateOrder(s.ord, key, hash, dto, ids).db,
         used := s.used + {ids.orderId, ids.correlationId, ids.eventId})
    case Publish(svc, row, acked) =>
      WithRelay(s.(log := s.log + [Rows(s, svc)[row].event]), svc, if acked then Acked(row) else Idle)
    case MarkRow(svc) =>
      WithRelay(WithRows(s, svc, Mark(Rows(s, svc), RelayOf(s, svc).row)), svc, Idle)
    case Restart(svc) =>
      WithRelay(s, svc, Idle)
    case Deliver(svc, message, rowId, eventId) =>
      Receive(c, s, svc, s.log[message], rowId, eventId).(used := s.used + {rowId, eventId})
  }

  /** `steps` is a run of the system from `s`. */
  ghost predicate Run(c: Config, s: System, steps: seq<Step>)
    decreases |steps|
  {
    steps == [] || (Enabled(s, steps[0]) && Run(c, Apply(c, s, steps[0]), steps[1..]))
  }

  ghost function After(c: Config, s: System, steps: seq<Step>): System
    requires Run(c, s, steps)
    decreases |steps|
  {
    if steps == [] then s else After(c, Apply(c, s, steps[0]), steps[1..])
  }

  ghost predicate Reachable(c: Config, s: System) {
    exists steps :: Run(c, INIT, steps) && After(c, INIT, steps) == s
  }

  /** Every outbox is drained and every logged message has been handled by every subscriber
      (so nothing is left in a dead-letter topic). */
  ghost predicate Quiescent(s: System) {
    && (forall svc, r :: r in Rows(s, svc) ==> r.published)
    && (forall svc, e :: e in s.log && Subscribed(svc, e.payload) ==> e.eventId in Processed(s, svc))
  }

  lemma {:induction false} RunAppend(c: Config, s: System, a: seq<Step>, b: seq<Step>)
    requires Run(c, s, a) && Run(c, After(c, s, a), b)
    ensures Run(c, s, a + b) && After(c, s, a + b) == After(c, After(c, s, a), b)
    decreases |a|
  {
    if a == [] {
      assert a + b == b;
    } else {
      assert (a + b)[1..] == a[1..] + b;
      RunAppend(c, Apply(c, s, a[0]), a[1..], b);
    }
  }
}
