/** The relays' steps keep the invariant. */
module RelaySteps {
  import opened Events
  import opened Outbox
  import opened Checkout
  import opened CheckoutInvariant
  import opened Tables
  import StockLedger

  lemma RelayLater(rows: seq<Row>, relay: Relay, log: seq<Event>, e: Event)
    requires RelayOk(rows, relay, log)
    ensures RelayOk(rows, relay, log + [e])
    ensures RelayOk(rows, Idle, log + [e])
  {
  }

  lemma LogGrows(events: set<Event>, log: seq<Event>, e: Event)
    requires LogOk(events, log) && e in events
    ensures LogOk(events, log + [e])
  {
    var more := log + [e];
    forall x | x in events ensures Caused(more, SlotOf(x)) {
      CausedLater(log, more, SlotOf(x));
    }
    forall i | 0 <= i < |more| ensures Caused(more[..i], SlotOf(more[i])) {
      if i < |log| {
        assert more[..i] == log[..i];
      } else {
        assert more[..i] == log;
      }
    }
  }

  lemma StagedByRow(s: System, svc: Service, i: nat)
    requires i < |Rows(s, svc)|
    ensures Rows(s, svc)[i].event in AllStaged(s)
  {
    var r := Rows(s, svc)[i];
    assert r in Rows(s, svc);
  }

  lemma PublishKeeps(c: Config, s: System, step: Step)
    requires Inv(c, s) && step.Publish? && Enabled(s, step)
    ensures Inv(c, Apply(c, s, step))
  {
    hide Agree, HandledOk, LogOk, IdsOk, NtfLink, StockLedger.DbBalanced, RelayOk, DistinctSlots;
    var next := Apply(c, s, step);
    var e := Rows(s, step.svc)[step.row].event;
    StagedByRow(s, step.svc, step.row);
    LogGrows(AllStaged(s), s.log, e);
    RelayLater(s.ord.outbox, s.ordRelay, s.log, e);
    RelayLater(s.pay.outbox, s.payRelay, s.log, e);
    RelayLater(s.inv.outbox, s.invRelay, s.log, e);
    NewlyAcked(Rows(s, step.svc), step.row, RelayOf(s, step.svc), s.log);
    assert next.ord == s.ord && next.pay == s.pay && next.inv == s.inv && next.ntf == s.ntf && next.used == s.used;
    assert next.log == s.log + [e];
    assert RelaysOk(next);
  }

  lemma NewlyAcked(rows: seq<Row>, i: nat, relay: Relay, log: seq<Event>)
    requires i < |rows| && !rows[i].published && RelayOk(rows, relay, log)
    ensures RelayOk(rows, Acked(i), log + [rows[i].event])
  {
  }

  lemma Restarted(rows: seq<Row>, relay: Relay, log: seq<Event>)
    requires RelayOk(rows, relay, log)
    ensures RelayOk(rows, Idle, log)
  {
  }

  lemma RestartKeeps(c: Config, s: System, step: Step)
    requires Inv(c, s) && step.Restart? && Enabled(s, step)
    ensures Inv(c, Apply(c, s, step))
  {
    hide Agree, HandledOk, LogOk, IdsOk, NtfLink, StockLedger.DbBalanced, RelayOk, DistinctSlots;
    Restarted(s.ord.outbox, s.ordRelay, s.log);
    Restarted(s.pay.outbox, s.payRelay, s.log);
    Restarted(s.inv.outbox, s.invRelay, s.log);
  }

  lemma MarkedRelay(rows: seq<Row>, i: nat, log: seq<Event>)
    requires RelayOk(rows, Acked(i), log)
    ensures i < |rows| && RelayOk(Mark(rows, i), Idle, log)
  {
    forall r | r in Mark(rows, i) && r.published ensures r.event in log {
      assert r in rows || r == rows[i].(published := true);
    }
  }

  lemma MarkKeeps(c: Config, s: System, step: Step)
    requires Inv(c, s) && step.MarkRow? && Enabled(s, step)
    ensures Inv(c, Apply(c, s, step))
  {
    hide Agree, HandledOk, LogOk, IdsOk, NtfLink, StockLedger.DbBalanced, RelayOk, DistinctSlots;
    var rows := Rows(s, step.svc);
    var i := RelayOf(s, step.svc).row;
    MarkFacts(rows, i);
    MarkedRelay(rows, i, s.log);
    StockLedgerFrame(s, Mark(rows, i), c.defaultStock);
  }

  lemma StockLedgerFrame(s: System, rows: seq<Row>, stock: int)
    ensures StockLedger.DbBalanced(s.inv, stock) ==> StockLedger.DbBalanced(s.inv.(outbox := rows), stock)
  {
  }
}
