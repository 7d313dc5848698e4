/** Every step, hence every run, keeps the invariant. */
module CheckoutRuns {
  import opened Events
  import opened Outbox
  import opened Tables
  import opened Checkout
  import opened CheckoutInvariant
  import opened DeliverySteps
  import RelaySteps
  import InventoryDelivery
  import OrderDelivery
  import Orders
  import StockLedger

  lemma LoggedEvent(c: Config, s: System, i: nat)
    requires Inv(c, s) && i < |s.log|
    ensures s.log[i] in AllStaged(s) && s.log[i].orderId in s.ord.orders
  {
    hide Agree, BooksOk, NtfLink, RowsOk, RelaysOk, StockLedger.DbBalanced;
    LoggedIsStaged(AllStaged(s), s.ord.orders.Keys, s.used, HandledBy(s), s.log, i);
    Origin(c, s, s.log[i]);
  }

  /** Redelivered or unrouted messages change no table. */
  lemma RedeliveryChangesNothing(c: Config, s: System, svc: Service, m: Event, rowId: Uuid, eventId: Uuid)
    requires !Subscribed(svc, m.payload) || m.eventId in Processed(s, svc)
    ensures Receive(c, s, svc, m, rowId, eventId) == s
  {
  }

  lemma FirstDeliveryKeeps(c: Config, s: System, svc: Service, m: Event, rowId: Uuid, eventId: Uuid)
    requires Inv(c, s) && m in s.log && m in AllStaged(s) && m.orderId in s.ord.orders
    requires Subscribed(svc, m.payload) && m.eventId !in Processed(s, svc)
    requires rowId !in s.used && eventId !in s.used
    ensures Inv(c, Receive(c, s, svc, m, rowId, eventId).(used := s.used + {rowId, eventId}))
  {
    hide Inv;
    var ids := {rowId, eventId};
    var next := Receive(c, s, svc, m, rowId, eventId);
    match svc
    case OrderService =>
      if s.ord.orders[m.orderId].status == Orders.Pending {
        OrderDelivery.AdvanceKeeps(c, s, m, rowId, eventId);
      } else {
        OrderDelivery.IgnoreKeeps(c, s, m, eventId);
        NoChangeKeeps(c, next, ids);
      }
    case PaymentService =>
      PaymentKeeps(c, s, m, rowId, eventId);
    case InventoryService =>
      if m.payload.OrderCreated? {
        InventoryDelivery.ReserveKeeps(c, s, m, rowId, eventId);
      } else {
        InventoryDelivery.ReleaseKeeps(c, s, m, rowId, eventId);
        NoChangeKeeps(c, next, ids);
      }
    case NotificationService =>
      NotificationKeeps(c, s, m);
      NoChangeKeeps(c, next, ids);
  }

  lemma DeliverKeeps(c: Config, s: System, step: Step)
    requires Inv(c, s) && step.Deliver? && Enabled(s, step)
    ensures Inv(c, Apply(c, s, step))
  {
    hide Inv, Receive;
    var m := s.log[step.message];
    LoggedEvent(c, s, step.message);
    if !Subscribed(step.svc, m.payload) || m.eventId in Processed(s, step.svc) {
      RedeliveryChangesNothing(c, s, step.svc, m, step.rowId, step.eventId);
      NoChangeKeeps(c, s, {step.rowId, step.eventId});
    } else {
      FirstDeliveryKeeps(c, s, step.svc, m, step.rowId, step.eventId);
    }
  }

  lemma StepKeeps(c: Config, s: System, step: Step)
    requires Inv(c, s) && Enabled(s, step)
    ensures Inv(c, Apply(c, s, step))
  {
    hide Inv, Apply, Enabled;
    match step
    case Post(_, _, _, _) => OrderDelivery.PostKeeps(c, s, step);
    case Publish(_, _, _) => RelaySteps.PublishKeeps(c, s, step);
    case MarkRow(_) => RelaySteps.MarkKeeps(c, s, step);
    case Restart(_) => RelaySteps.RestartKeeps(c, s, step);
    case Deliver(_, _, _, _) => DeliverKeeps(c, s, step);
  }

  lemma {:induction false} RunKeeps(c: Config, s: System, steps: seq<Step>)
    requires Inv(c, s) && Run(c, s, steps)
    ensures Inv(c, After(c, s, steps))
    decreases |steps|
  {
    hide Inv, Apply, Enabled;
    if steps != [] {
      StepKeeps(c, s, steps[0]);
      RunKeeps(c, Apply(c, s, steps[0]), steps[1..]);
    }
  }

  /** The invariant holds in every reachable state. */
  lemma ReachableInv(c: Config, s: System)
    requires Reachable(c, s)
    ensures Inv(c, s)
  {
    InitHolds(c);
    hide Inv, Apply, Enabled;
    var steps :| Run(c, INIT, steps) && After(c, INIT, steps) == s;
    RunKeeps(c, INIT, steps);
  }

  lemma ReachableAgree(c: Config, s: System)
    requires Reachable(c, s)
    ensures Agree(c, OrdT(s), PayT(s), InvT(s))
  {
    ReachableInv(c, s);
    hide Agree, BooksOk, NtfLink, RowsOk, RelaysOk, StockLedger.DbBalanced;
  }

  lemma ReachableRows(c: Config, s: System)
    requires Reachable(c, s)
    ensures RowsOk(s) && RelaysOk(s)
  {
    ReachableInv(c, s);
    hide Agree, BooksOk, NtfLink, RowsOk, RelaysOk, StockLedger.DbBalanced;
  }

  lemma ReachableLog(c: Config, s: System)
    requires Reachable(c, s)
    ensures forall e :: e in s.log ==> e in AllStaged(s)
    ensures CausalLog(s.log)
  {
    ReachableInv(c, s);
    hide Agree, IdsOk, HandledOk, NtfLink, RowsOk, RelaysOk, StockLedger.DbBalanced, Caused, CausalLog;
  }

  lemma ReachableBooks(c: Config, s: System)
    requires Reachable(c, s)
    ensures BooksOk(AllStaged(s), s.ord.orders.Keys, s.used, HandledBy(s), s.log)
    ensures IdsOk(AllStaged(s), s.ord.orders.Keys, s.used) && HandledOk(HandledBy(s), AllStaged(s))
  {
    ReachableInv(c, s);
    hide Agree, IdsOk, HandledOk, LogOk, NtfLink, RowsOk, RelaysOk, StockLedger.DbBalanced;
  }
}
