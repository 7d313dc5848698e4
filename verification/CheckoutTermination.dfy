/** Runs do a bounded amount of work per order, and every reachable state can be brought to rest. */
module CheckoutTermination {
  import opened Events
  import opened Checkout
  import opened CheckoutInvariant
  import opened CheckoutProgress

  lemma ReachableStep(c: Config, s: System, step: Step)
    requires Reachable(c, s) && Enabled(s, step)
    ensures Reachable(c, Apply(c, s, step))
  {
    hide Enabled, Apply;
    var steps :| Run(c, INIT, steps) && After(c, INIT, steps) == s;
    OneStep(c, s, step);
    RunAppend(c, INIT, steps, [step]);
  }

  lemma OneStep(c: Config, s: System, step: Step)
    requires Enabled(s, step)
    ensures Run(c, s, [step]) && After(c, s, [step]) == Apply(c, s, step)
  {
    hide Enabled, Apply;
    assert [step][1..] == [];
    assert Run(c, Apply(c, s, step), []);
  }

  lemma {:induction false} ReachableAfter(c: Config, s: System, steps: seq<Step>)
    requires Reachable(c, s) && Run(c, s, steps)
    ensures Reachable(c, After(c, s, steps))
    decreases |steps|
  {
    hide Reachable, Enabled, Apply;
    if steps != [] {
      ReachableStep(c, s, steps[0]);
      ReachableAfter(c, Apply(c, s, steps[0]), steps[1..]);
    }
  }

  // ---- a bound on the work of any run ----------------------------------------------

  /** The marks and first-time handlings of a run. */
  ghost function WorkIn(c: Config, s: System, steps: seq<Step>): nat
    requires Run(c, s, steps)
    decreases |steps|
  {
    if steps == [] then 0
    else (if Works(s, steps[0]) then 1 else 0) + WorkIn(c, Apply(c, s, steps[0]), steps[1..])
  }

  /** The orders a run creates. */
  ghost function PostsIn(steps: seq<Step>): nat {
    if steps == [] then 0 else Posted(steps[0]) + PostsIn(steps[1..])
  }

  lemma {:induction false} RunCounts(c: Config, s: System, steps: seq<Step>)
    requires Reachable(c, s) && Run(c, s, steps)
    ensures Done(After(c, s, steps)) == Done(s) + WorkIn(c, s, steps)
    ensures |After(c, s, steps).ord.orders| == |s.ord.orders| + PostsIn(steps)
    decreases |steps|
  {
    hide Reachable, Enabled, Apply, Done, Works, Posted;
    if steps != [] {
      StepCounts(c, s, steps[0]);
      StepOrders(c, s, steps[0]);
      ReachableStep(c, s, steps[0]);
      RunCounts(c, Apply(c, s, steps[0]), steps[1..]);
    }
  }

  lemma InitReachable(c: Config)
    ensures Reachable(c, INIT)
  {
    assert Run(c, INIT, []) && After(c, INIT, []) == INIT;
  }

  /** No event chain goes on for ever: whatever the interleaving, a run performs at most ten marks and
      first-time handlings per order it creates. */
  lemma WorkPerOrderIsBounded(c: Config, steps: seq<Step>)
    requires Run(c, INIT, steps)
    ensures WorkIn(c, INIT, steps) <= 10 * PostsIn(steps)
  {
    InitReachable(c);
    RunCounts(c, INIT, steps);
    ReachableAfter(c, INIT, steps);
    WorkIsBounded(c, After(c, INIT, steps));
  }

  // ---- coming to rest --------------------------------------------------------------

  lemma {:induction false} FreshId(used: set<Uuid>) returns (id: Uuid)
    ensures id !in used && forall u :: u in used ==> u < id
  {
    if used == {} {
      id := 0;
    } else {
      var u :| u in used;
      var above := FreshId(used - {u});
      id := if u < above then above else u + 1;
      forall x | x in used ensures x < id {
        assert x == u || x in used - {u};
      }
    }
  }

  lemma StillUnpublished(c: Config, s: System, svc: Service, i: nat)
    requires i < |Rows(s, svc)| && !Rows(s, svc)[i].published
    ensures Enabled(s, Restart(svc))
    ensures Enabled(Apply(c, s, Restart(svc)), Publish(svc, i, true))
    ensures Enabled(Apply(c, Apply(c, s, Restart(svc)), Publish(svc, i, true)), MarkRow(svc))
  {
    var idle := Apply(c, s, Restart(svc));
    assert Rows(idle, svc) == Rows(s, svc) && RelayOf(idle, svc) == Idle;
    var sent := Apply(c, idle, Publish(svc, i, true));
    assert Rows(sent, svc) == Rows(s, svc) && RelayOf(sent, svc) == Acked(i);
  }

  /** An unpublished row can be published and marked. */
  lemma RelayProgress(c: Config, s: System, svc: Service, i: nat) returns (steps: seq<Step>)
    requires Reachable(c, s) && i < |Rows(s, svc)| && !Rows(s, svc)[i].published
    ensures Run(c, s, steps) && PostsIn(steps) == 0 && WorkIn(c, s, steps) >= 1
  {
    StillUnpublished(c, s, svc, i);
    var a, b, d := Restart(svc), Publish(svc, i, true), MarkRow(svc);
    steps := [a, b, d];
    var s1 := Apply(c, s, a);
    var s2 := Apply(c, s1, b);
    hide Enabled, Apply;
    OneStep(c, s2, d);
    assert steps[1..] == [b, d] && [b, d][1..] == [d] && [d][1..] == [];
    assert Run(c, s1, [b, d]);
    assert WorkIn(c, s2, [d]) >= 1;
    assert WorkIn(c, s1, [b, d]) >= 1;
    assert PostsIn([d]) == 0 && PostsIn([b, d]) == 0;
  }

  /** An unhandled message can be delivered. */
  lemma DeliveryProgress(c: Config, s: System, svc: Service, i: nat) returns (steps: seq<Step>)
    requires Reachable(c, s) && i < |s.log|
    requires Subscribed(svc, s.log[i].payload) && s.log[i].eventId !in Processed(s, svc)
    ensures Run(c, s, steps) && PostsIn(steps) == 0 && WorkIn(c, s, steps) >= 1
  {
    var id := FreshId(s.used);
    var step := Deliver(svc, i, id, id);
    assert Enabled(s, step) && Works(s, step);
    hide Enabled, Apply, Works;
    steps := [step];
    OneStep(c, s, step);
  }

  /** From every reachable state there is a continuation, without any new request, that comes to rest. */
  lemma {:induction false} CanComeToRest(c: Config, s: System) returns (steps: seq<Step>)
    requires Reachable(c, s)
    ensures Run(c, s, steps) && PostsIn(steps) == 0 && Quiescent(After(c, s, steps))
    decreases 10 * |s.ord.orders| - Done(s)
  {
    if Quiescent(s) {
      steps := [];
    } else {
      WorkIsBounded(c, s);
      var first := Progress(c, s);
      var next := After(c, s, first);
      RunCounts(c, s, first);
      ReachableAfter(c, s, first);
      WorkIsBounded(c, next);
      hide Reachable, Enabled, Apply, Done, Quiescent;
      var rest := CanComeToRest(c, next);
      RunAppend(c, s, first, rest);
      PostsAppend(first, rest);
      steps := first + rest;
    }
  }

  lemma {:induction false} PostsAppend(a: seq<Step>, b: seq<Step>)
    ensures PostsIn(a + b) == PostsIn(a) + PostsIn(b)
  {
    if a == [] {
      assert a + b == b;
    } else {
      assert (a + b)[1..] == a[1..] + b;
      PostsAppend(a[1..], b);
    }
  }

  lemma Progress(c: Config, s: System) returns (steps: seq<Step>)
    requires Reachable(c, s) && !Quiescent(s)
    ensures Run(c, s, steps) && PostsIn(steps) == 0 && WorkIn(c, s, steps) >= 1
  {
    hide Reachable;
    if svc, r :| r in Rows(s, svc) && !r.published {
      var i :| 0 <= i < |Rows(s, svc)| && Rows(s, svc)[i] == r;
      steps := RelayProgress(c, s, svc, i);
    } else {
      var svc, e :| e in s.log && Subscribed(svc, e.payload) && e.eventId !in Processed(s, svc);
      var i :| 0 <= i < |s.log| && s.log[i] == e;
      steps := DeliveryProgress(c, s, svc, i);
    }
  }
}
