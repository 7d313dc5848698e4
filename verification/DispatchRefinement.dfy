/** Dispatching a logged message to the order service is a run of the checkout protocol: one delivery step per call
    that is not aborted, and between the calls whatever the rest of the system does. */
module DispatchRefinement {
  import opened Events
  import opened Checkout
  import K = KafkaConsumer
  import P = ProcessOnce
  import Orders

  /** What the rest of the system does during each backoff: any run, chosen with full knowledge of the state. */
  ghost predicate Legal(c: Config, between: (System, nat) -> seq<Step>) {
    forall s, j :: Run(c, s, between(s, j))
  }

  /** The delivery steps of call `j`. */
  function Own(i: nat, w: K.Weather, j: nat): seq<Step> {
    if w.fates(j) == Aborts then [] else [Deliver(OrderService, i, w.eventIds(j), w.eventIds(j))]
  }

  ghost function Calling(c: Config, s: System, i: nat, w: K.Weather, j: nat): System {
    if Run(c, s, Own(i, w, j)) then After(c, s, Own(i, w, j)) else s
  }

  /** The system call `j` meets. */
  ghost function Met(c: Config, s: System, i: nat, w: K.Weather, between: (System, nat) -> seq<Step>, j: nat): System
    requires Legal(c, between)
  {
    if j == 0 then s
    else
      var called := Calling(c, Met(c, s, i, w, between, j - 1), i, w, j - 1);
      After(c, called, between(called, j - 1))
  }

  /** The steps up to then: own deliveries and everybody else's steps in turn. */
  ghost function Woven(c: Config, s: System, i: nat, w: K.Weather, between: (System, nat) -> seq<Step>, j: nat)
    : seq<Step>
    requires Legal(c, between)
  {
    if j == 0 then []
    else
      Woven(c, s, i, w, between, j - 1) + Own(i, w, j - 1)
      + between(Calling(c, Met(c, s, i, w, between, j - 1), i, w, j - 1), j - 1)
  }

  /** The identifiers the calls draw are fresh when they draw them, and what the tables see during the backoffs is what
      the rest of the system does to them. */
  ghost predicate Follows(c: Config, s: System, i: nat, w: K.Weather, between: (System, nat) -> seq<Step>, n: nat)
    requires Legal(c, between)
  {
    && (forall j | 0 <= j <= n :: w.eventIds(j) !in Met(c, s, i, w, between, j).used)
    && (forall db, j | 0 <= j < n :: w.others(db, j) == Met(c, s, i, w, between, j + 1).ord)
  }

  // ---- the log grows ---------------------------------------------------------------

  lemma StepLogGrows(c: Config, s: System, step: Step)
    requires Enabled(s, step)
    ensures s.log <= Apply(c, s, step).log
  {
  }

  lemma {:induction false} LogGrows(c: Config, s: System, steps: seq<Step>)
    requires Run(c, s, steps)
    ensures s.log <= After(c, s, steps).log
    decreases |steps|
  {
    hide Enabled, Apply;
    if steps != [] {
      StepLogGrows(c, s, steps[0]);
      LogGrows(c, Apply(c, s, steps[0]), steps[1..]);
    }
  }

  // ---- one call --------------------------------------------------------------------

  /** At any state of the system, whatever happened since the last one, a call of the handler is a delivery step or,
      if it aborts, no step at all. */
  lemma CallIsAStep(c: Config, s: System, i: nat, w: K.Weather, j: nat)
    requires i < |s.log| && Orders.Subscribed(s.log[i].payload) && w.eventIds(j) !in s.used
    ensures var e := s.log[i];
            var call := P.Call(s.ord, K.WorkOf(K.TopicOf(e.payload), K.Carries(e), w.eventIds)(s.ord, j), w.fates(j));
            var step := Deliver(OrderService, i, w.eventIds(j), w.eventIds(j));
            && Enabled(s, step)
            && (if w.fates(j) == Aborts then call.db == s.ord
                else Apply(c, s, step) == s.(ord := call.db, used := s.used + {w.eventIds(j)}))
  {
    var e := s.log[i];
    K.WorkIs(K.TopicOf(e.payload), K.Carries(e), w.eventIds, s.ord, j);
    assert {w.eventIds(j), w.eventIds(j)} == {w.eventIds(j)};
    hide Orders.ApplyLegOutcome, K.WorkOf;
  }

  lemma OneStep(c: Config, s: System, step: Step)
    requires Enabled(s, step)
    ensures Run(c, s, [step]) && After(c, s, [step]) == Apply(c, s, step)
  {
    hide Enabled, Apply;
    assert [step][1..] == [] && Run(c, Apply(c, s, step), []);
  }

  lemma CallRuns(c: Config, s: System, i: nat, w: K.Weather, j: nat)
    requires i < |s.log| && Orders.Subscribed(s.log[i].payload) && w.eventIds(j) !in s.used
    ensures Run(c, s, Own(i, w, j)) && s.log <= Calling(c, s, i, w, j).log
    ensures var e := s.log[i];
            Calling(c, s, i, w, j).ord
              == P.Call(s.ord, K.WorkOf(K.TopicOf(e.payload), K.Carries(e), w.eventIds)(s.ord, j), w.fates(j)).db
  {
    hide P.Call, K.WorkOf, Enabled, Apply;
    CallIsAStep(c, s, i, w, j);
    if w.fates(j) != Aborts {
      OneStep(c, s, Deliver(OrderService, i, w.eventIds(j), w.eventIds(j)));
    }
  }

  // ---- a series of calls -----------------------------------------------------------

  lemma {:induction false} CallsAreSteps(c: Config, s: System, i: nat, w: K.Weather,
                                         between: (System, nat) -> seq<Step>, n: nat, j: nat)
    requires i < |s.log| && Orders.Subscribed(s.log[i].payload) && j <= n
    requires Legal(c, between) && Follows(c, s, i, w, between, n)
    ensures Run(c, s, Woven(c, s, i, w, between, j))
    ensures After(c, s, Woven(c, s, i, w, between, j)) == Met(c, s, i, w, between, j)
    ensures s.log <= Met(c, s, i, w, between, j).log
    ensures var e := s.log[i];
            Met(c, s, i, w, between, j).ord == P.At(K.SeriesOf(s.ord, K.TopicOf(e.payload), K.Carries(e), w), j)
  {
    hide K.WorkOf, P.Call, Run, After, Own, Calling;
    if j == 0 {
      NoSteps(c, s);
    } else {
      CallsAreSteps(c, s, i, w, between, n, j - 1);
      var before := Met(c, s, i, w, between, j - 1);
      var called := Calling(c, before, i, w, j - 1);
      CallRuns(c, before, i, w, j - 1);
      CallingIs(c, before, i, w, j - 1);
      var so, rest := Woven(c, s, i, w, between, j - 1), between(called, j - 1);
      assert Run(c, called, rest);
      RunAppend(c, s, so, Own(i, w, j - 1));
      RunAppend(c, s, so + Own(i, w, j - 1), rest);
      LogGrows(c, called, rest);
    }
  }

  lemma CallingIs(c: Config, s: System, i: nat, w: K.Weather, j: nat)
    requires Run(c, s, Own(i, w, j))
    ensures Calling(c, s, i, w, j) == After(c, s, Own(i, w, j))
  {
  }

  lemma NoSteps(c: Config, s: System)
    ensures Run(c, s, []) && After(c, s, []) == s
  {
  }

  /** A dispatch of a logged message, with all its retries and with the rest of the system doing anything whatever in
      between, is a run of the protocol: of its calls, at most `maxRetries + 1`, each is one delivery of the message or
      none, and at the end the tables are those the dispatch leaves. */
  lemma DispatchIsARun(c: Config, s: System, i: nat, p: K.Policy, consumer: K.State, w: K.Weather,
                       between: (System, nat) -> seq<Step>) returns (k: nat, steps: seq<Step>)
    requires i < |s.log| && Orders.Subscribed(s.log[i].payload) && consumer.db == s.ord
    requires Legal(c, between) && Follows(c, s, i, w, between, p.maxRetries)
    ensures k <= p.maxRetries && steps == Woven(c, s, i, w, between, k) + Own(i, w, k)
    ensures Run(c, s, steps)
    ensures var m := K.Message(K.TopicOf(s.log[i].payload), K.Carries(s.log[i]));
            After(c, s, steps).ord == K.Dispatched(p, K.SAGA_TOPICS, consumer, m, w).state.db
  {
    var e := s.log[i];
    var series := K.SeriesOf(s.ord, K.TopicOf(e.payload), K.Carries(e), w);
    k := K.Retries(series, p.maxRetries);
    steps := Woven(c, s, i, w, between, k) + Own(i, w, k);
    hide K.WorkOf, P.Call, P.CallThrows, Run, After, Woven, Met, Own, Calling, K.Retries;
    CallsAreSteps(c, s, i, w, between, p.maxRetries, k);
    var met := Met(c, s, i, w, between, k);
    CallRuns(c, met, i, w, k);
    CallingIs(c, met, i, w, k);
    RunAppend(c, s, Woven(c, s, i, w, between, k), Own(i, w, k));
  }
}
