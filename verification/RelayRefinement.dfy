/** One poll of a relay is a run of the checkout protocol's relay steps, whatever goes wrong inside the batch and
    whatever the rest of the system does while a row is in flight: what is proved of every reachable system holds
    with this relay in it. */
module RelayRefinement {
  import opened Events
  import opened Outbox
  import opened Checkout
  import R = OutboxRelay
  import Orders
  import Payments
  import Inventory

  predicate OfRelay(step: Step, svc: Service) {
    (step.Publish? || step.MarkRow? || step.Restart?) && step.svc == svc
  }

  /** What the rest of the system does while a row is in flight: any run, chosen with full knowledge of the state,
      in which this relay itself takes no step. */
  ghost predicate Legal(c: Config, svc: Service, between: (System, nat) -> seq<Step>) {
    forall s, i :: Run(c, s, between(s, i)) && forall step :: step in between(s, i) ==> !OfRelay(step, svc)
  }

  /** What this relay appends to the log along a run. */
  ghost function SentBy(c: Config, s: System, steps: seq<Step>, svc: Service): seq<Event>
    requires Run(c, s, steps)
    decreases |steps|
  {
    if steps == [] then []
    else
      var step := steps[0];
      (if step.Publish? && step.svc == svc then [Rows(s, svc)[step.row].event] else [])
      + SentBy(c, Apply(c, s, step), steps[1..], svc)
  }

  lemma {:induction false} SentByAppend(c: Config, s: System, a: seq<Step>, b: seq<Step>, svc: Service)
    requires Run(c, s, a) && Run(c, After(c, s, a), b)
    ensures Run(c, s, a + b) && After(c, s, a + b) == After(c, After(c, s, a), b)
    ensures SentBy(c, s, a + b, svc) == SentBy(c, s, a, svc) + SentBy(c, After(c, s, a), b, svc)
    decreases |a|
  {
    hide Enabled, Apply, Rows;
    if a == [] {
      assert a + b == b;
    } else {
      assert (a + b)[1..] == a[1..] + b;
      SentByAppend(c, Apply(c, s, a[0]), a[1..], b, svc);
    }
  }

  lemma One(c: Config, s: System, step: Step, svc: Service)
    requires Enabled(s, step)
    ensures Run(c, s, [step]) && After(c, s, [step]) == Apply(c, s, step)
    ensures SentBy(c, s, [step], svc) == if step.Publish? && step.svc == svc then [Rows(s, svc)[step.row].event] else []
  {
    hide Apply, Rows;
    assert [step][1..] == [] && Run(c, Apply(c, s, step), []);
  }

  // ---- everybody else --------------------------------------------------------------

  lemma OrderRows(db: Orders.Db, e: Event, id: Uuid) returns (staged: seq<Event>)
    ensures Orders.Handle(db, e, id).outbox == db.outbox + R.Fresh(staged)
  {
    var next := Orders.Handle(db, e, id);
    staged := if next.outbox == db.outbox then [] else [next.outbox[|db.outbox|].event];
  }

  lemma PaymentRows(db: Payments.Db, e: Event, r: Uuid, id: Uuid, cents: int) returns (staged: seq<Event>)
    ensures Payments.Handle(db, e, r, id, cents).outbox == db.outbox + R.Fresh(staged)
  {
    var next := Payments.Handle(db, e, r, id, cents);
    staged := if next.outbox == db.outbox then [] else [next.outbox[|db.outbox|].event];
  }

  lemma InventoryRows(db: Inventory.Db, e: Event, r: Uuid, id: Uuid, stock: int) returns (staged: seq<Event>)
    ensures Inventory.Handle(db, e, r, id, stock).outbox == db.outbox + R.Fresh(staged)
  {
    var next := Inventory.Handle(db, e, r, id, stock);
    staged := if next.outbox == db.outbox then [] else [next.outbox[|db.outbox|].event];
  }

  lemma DeliveryStages(c: Config, s: System, step: Step, svc: Service) returns (staged: seq<Event>)
    requires Enabled(s, step) && step.Deliver?
    ensures Rows(Apply(c, s, step), svc) == Rows(s, svc) + R.Fresh(staged)
    ensures RelayOf(Apply(c, s, step), svc) == RelayOf(s, svc)
  {
    hide Orders.Handle, Payments.Handle, Inventory.Handle;
    var e := s.log[step.message];
    staged := [];
    if svc == step.svc {
      match svc {
        case OrderService => staged := OrderRows(s.ord, e, step.eventId);
        case PaymentService => staged := PaymentRows(s.pay, e, step.rowId, step.eventId, c.declineEndsIn);
        case InventoryService => staged := InventoryRows(s.inv, e, step.rowId, step.eventId, c.defaultStock);
        case NotificationService =>
      }
    }
    if staged == [] { assert Rows(s, svc) + [] == Rows(s, svc); }
  }

  /** A step of anybody else may stage rows in this outbox, and does nothing else to it or its relay. */
  lemma OtherStages(c: Config, s: System, step: Step, svc: Service) returns (staged: seq<Event>)
    requires Enabled(s, step) && !OfRelay(step, svc)
    ensures Rows(Apply(c, s, step), svc) == Rows(s, svc) + R.Fresh(staged)
    ensures RelayOf(Apply(c, s, step), svc) == RelayOf(s, svc)
  {
    if step.Deliver? {
      staged := DeliveryStages(c, s, step, svc);
    } else if step.Post? && svc == OrderService {
      staged := [Orders.CreatedEvent(Orders.NewOrder(step.dto, step.ids), step.ids)];
    } else {
      staged := [];
      assert Rows(s, svc) + [] == Rows(s, svc);
    }
  }

  lemma {:induction false} OthersStage(c: Config, s: System, steps: seq<Step>, svc: Service)
    returns (staged: seq<Event>)
    requires Run(c, s, steps) && forall step :: step in steps ==> !OfRelay(step, svc)
    ensures Rows(After(c, s, steps), svc) == Rows(s, svc) + R.Fresh(staged)
    ensures RelayOf(After(c, s, steps), svc) == RelayOf(s, svc)
    ensures SentBy(c, s, steps, svc) == []
    decreases |steps|
  {
    hide Enabled, Apply, Rows, RelayOf;
    if steps == [] {
      staged := [];
      assert Rows(s, svc) + [] == Rows(s, svc);
    } else {
      assert steps[0] in steps;
      var a := OtherStages(c, s, steps[0], svc);
      var b := OthersStage(c, Apply(c, s, steps[0]), steps[1..], svc);
      staged := a + b;
      assert R.Fresh(a + b) == R.Fresh(a) + R.Fresh(b);
    }
  }

  // ---- one row ---------------------------------------------------------------------

  lemma PublishShape(c: Config, s: System, svc: Service, row: nat, acked: bool)
    requires svc != NotificationService && RelayOf(s, svc) == Idle
    requires row < |Rows(s, svc)| && !Rows(s, svc)[row].published
    ensures var step := Publish(svc, row, acked);
            && Enabled(s, step) && Rows(Apply(c, s, step), svc) == Rows(s, svc)
            && RelayOf(Apply(c, s, step), svc) == if acked then Acked(row) else Idle
  {
  }

  lemma MarkShape(c: Config, s: System, svc: Service, row: nat)
    requires svc != NotificationService && RelayOf(s, svc) == Acked(row) && row < |Rows(s, svc)|
    ensures Enabled(s, MarkRow(svc))
    ensures Rows(Apply(c, s, MarkRow(svc)), svc) == Mark(Rows(s, svc), row)
    ensures RelayOf(Apply(c, s, MarkRow(svc)), svc) == Idle
  {
  }

  /** A row that goes through: published, acknowledged and, after whatever happened meanwhile, marked. */
  lemma SendOne(c: Config, s: System, svc: Service, row: nat, i: nat, between: (System, nat) -> seq<Step>)
    returns (steps: seq<Step>, staged: seq<Event>)
    requires svc != NotificationService && RelayOf(s, svc) == Idle && Legal(c, svc, between)
    requires row < |Rows(s, svc)| && !Rows(s, svc)[row].published
    ensures Run(c, s, steps) && SentBy(c, s, steps, svc) == [Rows(s, svc)[row].event]
    ensures RelayOf(After(c, s, steps), svc) == Idle
    ensures Rows(After(c, s, steps), svc) == Mark(Rows(s, svc) + R.Fresh(staged), row)
  {
    hide Enabled, Apply, Rows, RelayOf, Mark, Run, After, SentBy;
    PublishShape(c, s, svc, row, true);
    One(c, s, Publish(svc, row, true), svc);
    var sent := After(c, s, [Publish(svc, row, true)]);
    var others := between(sent, i);
    staged := OthersStage(c, sent, others, svc);
    SentByAppend(c, s, [Publish(svc, row, true)], others, svc);
    var later := After(c, sent, others);
    MarkShape(c, later, svc, row);
    One(c, later, MarkRow(svc), svc);
    SentByAppend(c, s, [Publish(svc, row, true)] + others, [MarkRow(svc)], svc);
    steps := [Publish(svc, row, true)] + others + [MarkRow(svc)];
  }

  /** A row that does not: appended without an acknowledgement, or not even that. */
  lemma FailOne(c: Config, s: System, svc: Service, row: nat, i: nat, between: (System, nat) -> seq<Step>,
                appends: bool)
    returns (steps: seq<Step>, staged: seq<Event>)
    requires svc != NotificationService && RelayOf(s, svc) == Idle && Legal(c, svc, between)
    requires row < |Rows(s, svc)| && !Rows(s, svc)[row].published
    ensures Run(c, s, steps) && SentBy(c, s, steps, svc) == if appends then [Rows(s, svc)[row].event] else []
    ensures RelayOf(After(c, s, steps), svc) == Idle
    ensures Rows(After(c, s, steps), svc) == Rows(s, svc) + R.Fresh(staged)
  {
    hide Enabled, Apply, Rows, RelayOf, Run, After, SentBy;
    if appends {
      PublishShape(c, s, svc, row, false);
      One(c, s, Publish(svc, row, false), svc);
      var sent := After(c, s, [Publish(svc, row, false)]);
      var others := between(sent, i);
      staged := OthersStage(c, sent, others, svc);
      SentByAppend(c, s, [Publish(svc, row, false)], others, svc);
      steps := [Publish(svc, row, false)] + others;
    } else {
      steps := between(s, i);
      staged := OthersStage(c, s, steps, svc);
    }
  }

  // ---- the batch -------------------------------------------------------------------

  lemma {:induction false} PendingIsUnpublished(rows: seq<Row>, j: nat)
    requires j < |R.Pending(rows)|
    ensures !rows[R.Pending(rows)[j]].published
  {
    var n := |rows| - 1;
    if j < |R.Pending(rows[..n])| { PendingIsUnpublished(rows[..n], j); }
  }

  /** The next row of the batch is still unpublished when its turn comes. */
  lemma NextIsPending(rows: seq<Row>, k: nat)
    requires k < |R.Pending(rows)|
    ensures var p := R.Pending(rows);
            !R.MarkAll(rows, p[..k])[p[k]].published && R.MarkAll(rows, p[..k])[p[k]].event == rows[p[k]].event
  {
    R.MarkOne(rows, R.Pending(rows), k);
    hide R.Pending, R.MarkAll;
    R.PendingAfter(rows, k);
    PendingIsUnpublished(R.MarkAll(rows, R.Pending(rows)[..k]), 0);
  }

  /** Arrivals as they happened, row by row. */
  function Nth(arrived: seq<seq<Event>>): nat -> seq<Event> {
    (i: nat) => if i < |arrived| then arrived[i] else []
  }

  lemma {:induction false} ArrivedPrefix(a: seq<seq<Event>>, b: seq<seq<Event>>, n: nat)
    requires n <= |a| && a <= b
    ensures R.Arrived(Nth(a), n) == R.Arrived(Nth(b), n)
  {
    if n > 0 { ArrivedPrefix(a, b, n - 1); }
  }

  lemma ArrivedMore(a: seq<seq<Event>>, staged: seq<Event>)
    ensures R.Arrived(Nth(a + [staged]), |a| + 1) == R.Arrived(Nth(a), |a|) + R.Fresh(staged)
  {
    ArrivedPrefix(a, a + [staged], |a|);
    assert Nth(a + [staged])(|a|) == staged;
    R.ArrivedUnfolds(Nth(a + [staged]), |a|);
    hide R.Arrived, R.Fresh;
  }

  /** What a tick does, in terms of the pending rows. */
  lemma TickShape(rows: seq<Row>, batchSize: nat, course: R.Course)
    ensures var batch, p := R.Batch(rows, batchSize), R.Pending(rows);
            var k := R.Through(course.fates, |batch|);
            var tick := R.Tick(R.State(rows, [], false, false, 0), batchSize, course);
            && k <= |batch| <= |p| && batch[..k] == p[..k] && (k < |batch| ==> batch[k] == p[k])
            && tick.rows == R.MarkAll(rows, p[..k]) + R.Arrived(course.arrivals, if k < |batch| then k + 1 else k)
            && tick.log == R.EventsAt(rows, p[..k])
                 + (if k < |batch| && R.Appends(course.fates(k)) then [rows[p[k]].event] else [])
  {
    hide R.Pending, R.MarkAll, R.EventsAt, R.Batch, R.Through, R.Arrived;
    var batch, p := R.Batch(rows, batchSize), R.Pending(rows);
    var k := R.Through(course.fates, |batch|);
    assert batch[..k] == p[..k];
    assert [] + R.EventsAt(rows, batch[..k]) == R.EventsAt(rows, batch[..k]);
  }

  lemma StillPending(rows: seq<Row>, k: nat, arrived: seq<Row>)
    requires k < |R.Pending(rows)|
    ensures var p := R.Pending(rows); var now := R.MarkAll(rows, p[..k]) + arrived;
            p[k] < |now| && !now[p[k]].published && now[p[k]].event == rows[p[k]].event
  {
    NextIsPending(rows, k);
  }

  /** `k` rows go through. */
  lemma {:induction false} SendMany(c: Config, s: System, svc: Service, k: nat, between: (System, nat) -> seq<Step>)
    returns (steps: seq<Step>, arrived: seq<seq<Event>>)
    requires svc != NotificationService && RelayOf(s, svc) == Idle && k <= |R.Pending(Rows(s, svc))|
    requires Legal(c, svc, between)
    ensures Run(c, s, steps) && |arrived| == k && RelayOf(After(c, s, steps), svc) == Idle
    ensures var rows, p := Rows(s, svc), R.Pending(Rows(s, svc));
            && Rows(After(c, s, steps), svc) == R.MarkAll(rows, p[..k]) + R.Arrived(Nth(arrived), k)
            && SentBy(c, s, steps, svc) == R.EventsAt(rows, p[..k])
  {
    var rows, p := Rows(s, svc), R.Pending(Rows(s, svc));
    hide R.Pending, R.MarkAll, R.EventsAt, R.Arrived, R.Fresh, Run, After, Rows, RelayOf, Mark, PublishedCount, SentBy,
         Legal;
    if k == 0 {
      assert p[..0] == [];
      R.MarkNone(rows);
      steps, arrived := [], [];
      R.NoneArrived(Nth(arrived));
      NoSteps(c, s, svc);
      assert rows + [] == rows;
    } else {
      var done, earlier := SendMany(c, s, svc, k - 1, between);
      var mid := After(c, s, done);
      var marked := R.MarkAll(rows, p[..k - 1]);
      NextIsPending(rows, k - 1);
      R.MarkOne(rows, p, k - 1);
      var more, staged := SendOne(c, mid, svc, p[k - 1], k - 1, between);
      SentByAppend(c, s, done, more, svc);
      steps, arrived := done + more, earlier + [staged];
      ArrivedMore(earlier, staged);
      MarkBefore(marked, R.Arrived(Nth(earlier), k - 1), R.Fresh(staged), p[k - 1]);
    }
  }

  lemma MarkBefore(marked: seq<Row>, a: seq<Row>, b: seq<Row>, row: nat)
    requires row < |marked|
    ensures Mark((marked + a) + b, row) == Mark(marked, row) + (a + b)
  {
  }

  lemma NoSteps(c: Config, s: System, svc: Service)
    ensures Run(c, s, []) && After(c, s, []) == s && SentBy(c, s, [], svc) == []
  {
  }

  /** `k` rows go through, and of `n` the next one does not. */
  lemma SendBatch(c: Config, s: System, svc: Service, k: nat, n: nat, appends: bool,
                  between: (System, nat) -> seq<Step>) returns (steps: seq<Step>, arrived: seq<seq<Event>>)
    requires svc != NotificationService && RelayOf(s, svc) == Idle && k <= n <= |R.Pending(Rows(s, svc))|
    requires Legal(c, svc, between)
    ensures Run(c, s, steps) && |arrived| == (if k < n then k + 1 else k) && RelayOf(After(c, s, steps), svc) == Idle
    ensures var rows, p := Rows(s, svc), R.Pending(Rows(s, svc));
            && Rows(After(c, s, steps), svc) == R.MarkAll(rows, p[..k]) + R.Arrived(Nth(arrived), |arrived|)
            && SentBy(c, s, steps, svc)
                 == R.EventsAt(rows, p[..k]) + (if k < n && appends then [rows[p[k]].event] else [])
  {
    var rows, p := Rows(s, svc), R.Pending(Rows(s, svc));
    hide R.Pending, R.MarkAll, R.EventsAt, R.Arrived, R.Fresh, Run, After, Rows, RelayOf, PublishedCount, SentBy, Legal,
         Nth;
    steps, arrived := SendMany(c, s, svc, k, between);
    if k < n {
      var mid, earlier := After(c, s, steps), arrived;
      StillPending(rows, k, R.Arrived(Nth(earlier), k));
      var more, staged := FailOne(c, mid, svc, p[k], k, between, appends);
      SentByAppend(c, s, steps, more, svc);
      steps, arrived := steps + more, earlier + [staged];
      ArrivedMore(earlier, staged);
      assert R.MarkAll(rows, p[..k]) + R.Arrived(Nth(earlier), k) + R.Fresh(staged)
          == R.MarkAll(rows, p[..k]) + (R.Arrived(Nth(earlier), k) + R.Fresh(staged));
    }
  }

  /** Every poll of an idle relay, failures and crashes included, and with the rest of the system doing anything
      whatever while its rows are in flight, is a run of the protocol: with the rows that arrived on the way, its
      outbox and what it sent are those of the tick. */
  lemma TickIsARun(c: Config, s: System, svc: Service, batchSize: nat, fates: nat -> R.RowFate,
                   between: (System, nat) -> seq<Step>) returns (steps: seq<Step>, arrived: seq<seq<Event>>)
    requires svc != NotificationService && RelayOf(s, svc) == Idle && Legal(c, svc, between)
    ensures Run(c, s, steps) && RelayOf(After(c, s, steps), svc) == Idle
    ensures var tick := R.Tick(R.State(Rows(s, svc), [], false, false, 0), batchSize, R.Course(fates, Nth(arrived)));
            Rows(After(c, s, steps), svc) == tick.rows && SentBy(c, s, steps, svc) == tick.log
  {
    hide *;
    var rows := Rows(s, svc);
    var n := |R.Batch(rows, batchSize)|;
    var k := R.Through(fates, n);
    TickShape(rows, batchSize, R.Course(fates, Nth([])));
    steps, arrived := SendBatch(c, s, svc, k, n, R.Appends(fates(k)), between);
    TickShape(rows, batchSize, R.Course(fates, Nth(arrived)));
  }
}
