/** Liveness: every fair infinite run with finitely many requests comes to rest, and stays there. */
module CheckoutFairness {
  import opened Checkout
  import opened CheckoutRuns
  import opened CheckoutProgress
  import opened CheckoutTermination
  import RelayRefinement

  /** The state after `n` steps of the infinite run `steps`. */
  ghost function StateAt(c: Config, s: System, steps: nat -> Step, n: nat): System {
    if n == 0 then s
    else
      var before := StateAt(c, s, steps, n - 1);
      if Enabled(before, steps(n - 1)) then Apply(c, before, steps(n - 1)) else before
  }

  ghost predicate InfiniteRun(c: Config, s: System, steps: nat -> Step) {
    forall n :: Enabled(StateAt(c, s, steps, n), steps(n))
  }

  ghost predicate HasRows(s: System, svc: Service) {
    exists r :: r in Rows(s, svc) && !r.published
  }

  ghost predicate Unhandled(s: System, svc: Service, i: nat) {
    && i < |s.log| && Subscribed(svc, s.log[i].payload)
    && s.log[i].eventId !in Processed(s, svc)
  }

  ghost predicate Delivers(step: Step, svc: Service, i: nat) {
    step.Deliver? && step.svc == svc && step.message == i
  }

  ghost predicate RowsFrom(c: Config, s: System, steps: nat -> Step, n: nat, svc: Service) {
    forall m :: m >= n ==> HasRows(StateAt(c, s, steps, m), svc)
  }

  ghost predicate MarksFrom(steps: nat -> Step, n: nat, svc: Service) {
    exists m :: m >= n && steps(m) == MarkRow(svc)
  }

  ghost predicate UnhandledFrom(c: Config, s: System, steps: nat -> Step, n: nat, svc: Service, i: nat) {
    forall m :: m >= n ==> Unhandled(StateAt(c, s, steps, m), svc, i)
  }

  ghost predicate DeliversFrom(steps: nat -> Step, n: nat, svc: Service, i: nat) {
    exists m :: m >= n && Delivers(steps(m), svc, i)
  }

  /** A relay that always has unpublished rows gets to mark one again. */
  ghost predicate RelaysAreFair(c: Config, s: System, steps: nat -> Step) {
    forall svc, n :: RowsFrom(c, s, steps, n, svc) ==> MarksFrom(steps, n, svc)
  }

  /** A message that stays unhandled is delivered again, by a delivery that is not aborted. */
  ghost predicate DeliveryIsFair(c: Config, s: System, steps: nat -> Step) {
    forall svc, i, n :: UnhandledFrom(c, s, steps, n, svc, i) ==> DeliversFrom(steps, n, svc, i)
  }

  /** No request from step `n` on. */
  ghost predicate NoPostsFrom(steps: nat -> Step, n: nat) {
    forall m :: m >= n ==> !steps(m).Post?
  }

  ghost predicate WorksAt(c: Config, s: System, steps: nat -> Step, n: nat)
    requires InfiniteRun(c, s, steps)
  {
    assert Enabled(StateAt(c, s, steps, n), steps(n));
    Works(StateAt(c, s, steps, n), steps(n))
  }

  lemma Unfolds(c: Config, s: System, steps: nat -> Step, n: nat)
    requires InfiniteRun(c, s, steps)
    ensures var here := StateAt(c, s, steps, n);
            && Enabled(here, steps(n)) && StateAt(c, s, steps, n + 1) == Apply(c, here, steps(n))
            && WorksAt(c, s, steps, n) == Works(here, steps(n))
  {
    hide Enabled, Apply, Works;
    assert Enabled(StateAt(c, s, steps, n), steps(n));
  }

  lemma StartsAt(c: Config, s: System, steps: nat -> Step)
    ensures StateAt(c, s, steps, 0) == s
  {
  }

  lemma {:induction false} ReachableAt(c: Config, s: System, steps: nat -> Step, n: nat)
    requires Reachable(c, s) && InfiniteRun(c, s, steps)
    ensures Reachable(c, StateAt(c, s, steps, n))
  {
    hide *;
    if n == 0 {
      StartsAt(c, s, steps);
    } else {
      ReachableAt(c, s, steps, n - 1);
      Unfolds(c, s, steps, n - 1);
      ReachableStep(c, StateAt(c, s, steps, n - 1), steps(n - 1));
    }
  }

  lemma StepAt(c: Config, s: System, steps: nat -> Step, n: nat)
    requires Reachable(c, s) && InfiniteRun(c, s, steps)
    ensures var here, next := StateAt(c, s, steps, n), StateAt(c, s, steps, n + 1);
            && Enabled(here, steps(n)) && next == Apply(c, here, steps(n)) && Reachable(c, here)
            && Done(next) == Done(here) + (if WorksAt(c, s, steps, n) then 1 else 0)
            && |next.ord.orders| == |here.ord.orders| + Posted(steps(n))
  {
    hide *;
    ReachableAt(c, s, steps, n);
    Unfolds(c, s, steps, n);
    var here := StateAt(c, s, steps, n);
    StepCounts(c, here, steps(n));
    StepOrders(c, here, steps(n));
  }

  // ---- work comes to an end --------------------------------------------------------

  /** The work done by step `m` and the number of orders, compared with step `n`. */
  lemma {:induction false} Between(c: Config, s: System, steps: nat -> Step, n: nat, m: nat)
    requires Reachable(c, s) && InfiniteRun(c, s, steps) && NoPostsFrom(steps, n) && n <= m
    ensures Done(StateAt(c, s, steps, m)) >= Done(StateAt(c, s, steps, n))
    ensures |StateAt(c, s, steps, m).ord.orders| == |StateAt(c, s, steps, n).ord.orders|
    decreases m - n
  {
    hide Reachable, InfiniteRun, StateAt, Done, WorksAt, Enabled, Apply;
    if n < m {
      Between(c, s, steps, n, m - 1);
      StepAt(c, s, steps, m - 1);
      assert !steps(m - 1).Post?;
    }
  }

  /** After the last request only finitely many steps do any work, so there is a last one. */
  lemma {:induction false} WorkEnds(c: Config, s: System, steps: nat -> Step, n: nat) returns (last: nat)
    requires Reachable(c, s) && InfiniteRun(c, s, steps) && NoPostsFrom(steps, n)
    ensures last >= n && IdleFrom(c, s, steps, last)
    decreases 10 * |StateAt(c, s, steps, n).ord.orders| - Done(StateAt(c, s, steps, n))
  {
    if m :| m >= n && WorksAt(c, s, steps, m) {
      hide Reachable, InfiniteRun, StateAt, Done, WorksAt, Enabled, Apply;
      Between(c, s, steps, n, m);
      StepAt(c, s, steps, m);
      assert !steps(m).Post?;
      assert NoPostsFrom(steps, m + 1);
      ReachableAt(c, s, steps, m + 1);
      WorkIsBounded(c, StateAt(c, s, steps, m + 1));
      last := WorkEnds(c, s, steps, m + 1);
    } else {
      last := n;
    }
  }

  // ---- what is left to do stays left -----------------------------------------------

  lemma StepLeavesRows(c: Config, s: System, step: Step, svc: Service)
    requires Enabled(s, step) && !step.MarkRow?
    ensures Rows(s, svc) <= Rows(Apply(c, s, step), svc)
  {
    if !RelayRefinement.OfRelay(step, svc) {
      var _ := RelayRefinement.OtherStages(c, s, step, svc);
      hide Apply;
    }
  }

  lemma StepLeavesMessage(c: Config, s: System, step: Step, svc: Service, i: nat)
    requires Enabled(s, step) && !Works(s, step) && Unhandled(s, svc, i)
    ensures Unhandled(Apply(c, s, step), svc, i)
  {
    if step.Deliver? {
      RedeliveryChangesNothing(c, s, step.svc, s.log[step.message], step.rowId, step.eventId);
      hide Receive;
    }
  }

  lemma GrownRows(a: System, b: System, svc: Service)
    requires HasRows(a, svc) && Rows(a, svc) <= Rows(b, svc)
    ensures HasRows(b, svc)
  {
    hide Rows;
    var r :| r in Rows(a, svc) && !r.published;
    var i :| 0 <= i < |Rows(a, svc)| && Rows(a, svc)[i] == r;
    assert Rows(b, svc)[i] == r;
  }

  lemma MarksWork(s: System, svc: Service)
    requires Enabled(s, MarkRow(svc))
    ensures Works(s, MarkRow(svc))
  {
    hide Enabled;
  }

  lemma DeliveriesWork(s: System, step: Step, svc: Service, i: nat)
    requires Enabled(s, step) && Delivers(step, svc, i) && Unhandled(s, svc, i)
    ensures Works(s, step)
  {
    hide Enabled;
  }

  ghost predicate IdleFrom(c: Config, s: System, steps: nat -> Step, n: nat)
    requires InfiniteRun(c, s, steps)
  {
    forall m :: m >= n ==> !WorksAt(c, s, steps, m)
  }

  lemma IdleAt(c: Config, s: System, steps: nat -> Step, n: nat, m: nat)
    requires InfiniteRun(c, s, steps) && IdleFrom(c, s, steps, n) && m >= n
    ensures Enabled(StateAt(c, s, steps, m), steps(m)) && !Works(StateAt(c, s, steps, m), steps(m))
    ensures StateAt(c, s, steps, m + 1) == Apply(c, StateAt(c, s, steps, m), steps(m))
  {
    hide InfiniteRun, WorksAt, StateAt, Works, Enabled, Apply;
    Unfolds(c, s, steps, m);
  }

  lemma {:induction false} RowsStay(c: Config, s: System, steps: nat -> Step, n: nat, m: nat, svc: Service)
    requires InfiniteRun(c, s, steps) && IdleFrom(c, s, steps, n)
    requires n <= m && HasRows(StateAt(c, s, steps, n), svc)
    ensures HasRows(StateAt(c, s, steps, m), svc)
    decreases m - n
  {
    hide *;
    if n < m {
      RowsStay(c, s, steps, n, m - 1, svc);
      IdleAt(c, s, steps, n, m - 1);
      var here := StateAt(c, s, steps, m - 1);
      if steps(m - 1).MarkRow? { MarksWork(here, steps(m - 1).svc); }
      StepLeavesRows(c, here, steps(m - 1), svc);
      GrownRows(here, StateAt(c, s, steps, m), svc);
    }
  }

  lemma {:induction false} MessageStays(c: Config, s: System, steps: nat -> Step, n: nat, m: nat, svc: Service,
                                        i: nat)
    requires InfiniteRun(c, s, steps) && IdleFrom(c, s, steps, n)
    requires n <= m && Unhandled(StateAt(c, s, steps, n), svc, i)
    ensures Unhandled(StateAt(c, s, steps, m), svc, i)
    decreases m - n
  {
    hide *;
    if n < m {
      MessageStays(c, s, steps, n, m - 1, svc, i);
      IdleAt(c, s, steps, n, m - 1);
      StepLeavesMessage(c, StateAt(c, s, steps, m - 1), steps(m - 1), svc, i);
    }
  }

  // ---- rest ------------------------------------------------------------------------

  lemma NoRowsLeft(c: Config, s: System, steps: nat -> Step, n: nat, svc: Service)
    requires InfiniteRun(c, s, steps) && RelaysAreFair(c, s, steps) && IdleFrom(c, s, steps, n)
    ensures !HasRows(StateAt(c, s, steps, n), svc)
  {
    hide InfiniteRun, StateAt, IdleFrom, HasRows, Enabled, Works;
    if HasRows(StateAt(c, s, steps, n), svc) {
      forall m | m >= n ensures HasRows(StateAt(c, s, steps, m), svc) { RowsStay(c, s, steps, n, m, svc); }
      assert RowsFrom(c, s, steps, n, svc) && MarksFrom(steps, n, svc);
      var m :| m >= n && steps(m) == MarkRow(svc);
      IdleAt(c, s, steps, n, m);
      MarksWork(StateAt(c, s, steps, m), svc);
    }
  }

  lemma NoMessageLeft(c: Config, s: System, steps: nat -> Step, n: nat, svc: Service, i: nat)
    requires InfiniteRun(c, s, steps) && DeliveryIsFair(c, s, steps) && IdleFrom(c, s, steps, n)
    ensures !Unhandled(StateAt(c, s, steps, n), svc, i)
  {
    hide InfiniteRun, StateAt, IdleFrom, Unhandled, Enabled, Works, Delivers;
    if Unhandled(StateAt(c, s, steps, n), svc, i) {
      forall m | m >= n ensures Unhandled(StateAt(c, s, steps, m), svc, i) { MessageStays(c, s, steps, n, m, svc, i); }
      assert UnhandledFrom(c, s, steps, n, svc, i) && DeliversFrom(steps, n, svc, i);
      var m :| m >= n && Delivers(steps(m), svc, i);
      IdleAt(c, s, steps, n, m);
      DeliveriesWork(StateAt(c, s, steps, m), steps(m), svc, i);
    }
  }

  lemma RestWhenWorkIsOver(c: Config, s: System, steps: nat -> Step, n: nat)
    requires InfiniteRun(c, s, steps) && IdleFrom(c, s, steps, n)
    requires RelaysAreFair(c, s, steps) && DeliveryIsFair(c, s, steps)
    ensures Quiescent(StateAt(c, s, steps, n))
  {
    hide InfiniteRun, StateAt, IdleFrom, RelaysAreFair, DeliveryIsFair, Rows, Processed, Subscribed;
    var here := StateAt(c, s, steps, n);
    forall svc, r | r in Rows(here, svc) ensures r.published {
      NoRowsLeft(c, s, steps, n, svc);
    }
    forall svc, e | e in here.log && Subscribed(svc, e.payload) ensures e.eventId in Processed(here, svc) {
      var i :| 0 <= i < |here.log| && here.log[i] == e;
      NoMessageLeft(c, s, steps, n, svc, i);
    }
  }

  /** Every infinite run from a reachable state in which requests stop, relays with rows to publish keep marking, and
      unhandled messages keep being delivered, is at rest from some step on. */
  lemma FairRunsComeToRest(c: Config, s: System, steps: nat -> Step, n: nat) returns (rest: nat)
    requires Reachable(c, s) && InfiniteRun(c, s, steps) && NoPostsFrom(steps, n)
    requires RelaysAreFair(c, s, steps) && DeliveryIsFair(c, s, steps)
    ensures rest >= n && forall m :: m >= rest ==> Quiescent(StateAt(c, s, steps, m))
  {
    hide Reachable, InfiniteRun, RelaysAreFair, DeliveryIsFair, Quiescent, StateAt, WorksAt;
    rest := WorkEnds(c, s, steps, n);
    forall m | m >= rest ensures Quiescent(StateAt(c, s, steps, m)) {
      assert IdleFrom(c, s, steps, m);
      RestWhenWorkIsOver(c, s, steps, m);
    }
  }
}
