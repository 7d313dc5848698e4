/** The order service's Kafka consumer: routes, bounded retry with linear backoff, dead letters, offsets. */
module KafkaConsumer {
  import opened Events
  import opened ProcessOnce
  import Orders
  import OrderService
  import opened Json

  datatype Topic =
    | OrdersCreated | OrdersConfirmed | OrdersCancelled
    | PaymentsCompleted | PaymentsFailed | InventoryReserved | InventoryRejected

  /** A message's value: missing, not JSON, an event as an outbox staged it, or any other JSON. */
  datatype Body = Absent | Garbled | Carries(event: Event) | Parsed(json: Json)

  datatype Message = Message(topic: Topic, body: Body)

  datatype DeadLetter = DeadLetter(topic: Topic, attempts: nat, original: Body)

  function TopicOf(p: Payload): Topic {
    match p
    case OrderCreated(_, _, _, _) => OrdersCreated
    case OrderConfirmed(_, _) => OrdersConfirmed
    case OrderCancelled(_, _) => OrdersCancelled
    case PaymentCompleted(_, _, _) => PaymentsCompleted
    case PaymentFailed(_) => PaymentsFailed
    case InventoryReserved(_, _) => Topic.InventoryReserved
    case InventoryRejected(_) => Topic.InventoryRejected
  }

  const SAGA_TOPICS: set<Topic> :=
    {PaymentsCompleted, PaymentsFailed, Topic.InventoryReserved, Topic.InventoryRejected}

  /** Producers put every event on its own topic. */
  predicate OnItsTopic(m: Message) {
    m.body.Carries? ==> TopicOf(m.body.event.payload) == m.topic
  }

  /** What the saga's handlers may be called with. */
  predicate Callable(topic: Topic, body: Body) {
    topic in SAGA_TOPICS && (body.Parsed? || (body.Carries? && TopicOf(body.event.payload) == topic))
  }

  function LegOfTopic(topic: Topic): Orders.Leg {
    if topic == PaymentsCompleted || topic == PaymentsFailed then Orders.PaymentLeg else Orders.InventoryLeg
  }

  function OutcomeOfTopic(topic: Topic): Orders.LegStatus {
    if topic == PaymentsCompleted || topic == Topic.InventoryReserved then Orders.Succeeded else Orders.Failed
  }

  /** The event id a message is recorded under. */
  function IdOf(body: Body): Option<Uuid> {
    match body
    case Carries(e) => Some(e.eventId)
    case Parsed(json) => EventIdOf(json)
    case _ => None
  }

  /** `depth` is how deeply nested an array the host can still turn into a string. */
  datatype Policy = Policy(maxRetries: nat, retryBackoffMs: nat, depth: nat)

  /** How the surroundings treat the calls for one message: each call's fate, the identifiers it draws, what other
      transactions do to the tables during each backoff, and whether a dead letter for it can be written and is taken by
      the broker. */
  datatype Weather =
    Weather(fates: nat -> Fate, eventIds: nat -> Uuid, others: (Orders.Db, nat) -> Orders.Db, accepted: bool)

  /** Other transactions only ever add to the processed table. */
  ghost predicate OnlyGrows(others: (Orders.Db, nat) -> Orders.Db) {
    forall db: Orders.Db, i: nat :: db.processed <= others(db, i).processed
  }

  /** `db` are the service's tables; `calls` and `slept` count handler calls and milliseconds of backoff. */
  datatype State = State(db: Orders.Db, parked: seq<DeadLetter>, calls: nat, slept: nat, offset: nat)

  /** A state, and whether an exception left it. */
  datatype Handled = Handled(state: State, threw: bool)

  // ---- one message -----------------------------------------------------------------

  /** The handlers read ids only; the topic says which leg and outcome. */
  function JsonAttempt(db: Orders.Db, topic: Topic, json: Json, eventId: Uuid): Work<Orders.Db> {
    if !HasPayload(json) then Throws
    else
      Orders.AttemptIds(db, EventIdOf(json), OrderIdOf(json), LegOfTopic(topic), OutcomeOfTopic(topic), eventId)
  }

  function WorkOf(topic: Topic, body: Body, eventIds: nat -> Uuid): (Orders.Db, nat) -> Work<Orders.Db>
    requires Callable(topic, body)
  {
    if body.Carries? then OrderService.Deliveries(body.event, eventIds)
    else (db: Orders.Db, i: nat) => JsonAttempt(db, topic, body.json, eventIds(i))
  }

  function SeriesOf(before: Orders.Db, topic: Topic, body: Body, w: Weather): Series<Orders.Db>
    requires Callable(topic, body)
  {
    Series(WorkOf(topic, body, w.eventIds), w.fates, w.others, before)
  }

  /** The log line before the dead letter prints the event's id; if that throws, nothing is parked. */
  predicate LogLineThrows(body: Body, depth: nat) {
    body.Parsed? && Unloggable(body.json, depth)
  }

  /** The number of retries: up to the first call that returns, and at most `max`. */
  function Retries(s: Series<Orders.Db>, max: nat): (k: nat)
    ensures k <= max && (k < max ==> !CallThrows(s, k)) && forall i | 0 <= i < k :: CallThrows(s, i)
  {
    if max == 0 then 0
    else
      var k := Retries(s, max - 1);
      if k < max - 1 || !CallThrows(s, k) then k else max
  }

  /** Linear backoff, summed. */
  function Backoff(ms: nat, retries: nat): nat {
    if retries == 0 then 0 else Backoff(ms, retries - 1) + ms * retries
  }

  function Retried(p: Policy, s: State, topic: Topic, body: Body, w: Weather): Handled
    requires Callable(topic, body)
  {
    var series := SeriesOf(s.db, topic, body, w);
    var k := Retries(series, p.maxRetries);
    var exhausted := CallThrows(series, k);
    var parks := exhausted && w.accepted && !LogLineThrows(body, p.depth);
    Handled(s.(db := Left(series, k),
               parked := if parks then s.parked + [DeadLetter(topic, p.maxRetries + 1, body)] else s.parked,
               calls := s.calls + k + 1,
               slept := s.slept + Backoff(p.retryBackoffMs, k)),
            exhausted && !parks)
  }

  function Dispatched(p: Policy, routes: set<Topic>, s: State, m: Message, w: Weather): Handled
    requires OnItsTopic(m) && routes <= SAGA_TOPICS
  {
    if m.topic !in routes || m.body.Absent? then Handled(s, false)
    else if m.body.Garbled? then
      Handled(if w.accepted then s.(parked := s.parked + [DeadLetter(m.topic, 0, Garbled)]) else s, !w.accepted)
    else Retried(p, s, m.topic, m.body, w)
  }

  /** One turn of `eachMessage`: an exception keeps the offset where it is. */
  function Polled(p: Policy, routes: set<Topic>, s: State, partition: seq<Message>, w: Weather): State
    requires routes <= SAGA_TOPICS && forall m :: m in partition ==> OnItsTopic(m)
  {
    if s.offset >= |partition| then s
    else
      var handled := Dispatched(p, routes, s, partition[s.offset], w);
      if handled.threw then handled.state else handled.state.(offset := s.offset + 1)
  }

  class Consumer {
    const policy: Policy
    const orders: OrderService.Service
    var routes: set<Topic>
    var offset: nat
    var parked: seq<DeadLetter>
    var calls: nat
    var slept: nat

    constructor (policy: Policy, orders: OrderService.Service)
      ensures this.policy == policy && this.orders == orders && routes == {}
      ensures View() == State(orders.View(), [], 0, 0, 0)
    {
      this.policy, this.orders := policy, orders;
      routes, offset, parked, calls, slept := {}, 0, [], 0, 0;
    }

    function View(): State
      reads this, orders
    {
      State(orders.View(), parked, calls, slept, offset)
    }

    method SubscribeHandler(topic: Topic)
      modifies this`routes
      ensures routes == old(routes) + {topic}
    {
      routes := routes + {topic};
    }

    /** What `SagaConsumer` registers. */
    method SubscribeSaga()
      modifies this`routes
      ensures routes == old(routes) + SAGA_TOPICS
    {
      SubscribeHandler(PaymentsCompleted);
      SubscribeHandler(PaymentsFailed);
      SubscribeHandler(Topic.InventoryReserved);
      SubscribeHandler(Topic.InventoryRejected);
    }

    method ToDlq(topic: Topic, attempts: nat, original: Body, accepted: bool) returns (threw: bool)
      modifies this`parked
      ensures threw == !accepted
      ensures parked == if accepted then old(parked) + [DeadLetter(topic, attempts, original)] else old(parked)
    {
      if accepted {
        parked := parked + [DeadLetter(topic, attempts, original)];
      }
      threw := !accepted;
    }

    /** The routed handler. */
    method Handle(topic: Topic, body: Body, i: nat, w: Weather) returns (threw: bool)
      requires Callable(topic, body)
      modifies orders
      ensures Delivered(orders.View(), threw)
           == Call(old(orders.View()), WorkOf(topic, body, w.eventIds)(old(orders.View()), i), w.fates(i))
    {
      WorkIs(topic, body, w.eventIds, orders.View(), i);
      hide WorkOf, Orders.Attempt, Orders.AttemptIds, Call;
      if body.Carries? {
        threw := orders.Receive(body.event, w.eventIds(i), w.fates(i));
      } else if !HasPayload(body.json) {
        ThrowingCall(orders.View(), w.fates(i));
        threw := true;
      } else {
        threw := orders.Process(EventIdOf(body.json), OrderIdOf(body.json), LegOfTopic(topic), OutcomeOfTopic(topic),
          w.eventIds(i), w.fates(i));
      }
    }

    /** Time passes, and with it whatever other transactions commit. */
    method Sleep(ms: nat, i: nat, w: Weather)
      modifies this`slept, orders
      ensures slept == old(slept) + ms && orders.View() == w.others(old(orders.View()), i)
    {
      slept := slept + ms;
      orders.OthersCommit(w.others(orders.View(), i));
    }

    /** Calls the handler until it returns or has thrown `maxRetries + 1` times; then parks the message. */
    method HandleWithRetry(topic: Topic, body: Body, w: Weather) returns (threw: bool)
      requires Callable(topic, body)
      modifies this`parked, this`calls, this`slept, orders
      ensures Handled(View(), threw) == Retried(policy, old(View()), topic, body, w)
    {
      hide Orders.Attempt, Call, WorkOf, Trying, Called, Retried, SeriesOf, Retries, At, Left, CallThrows;
      ghost var s := View();
      ghost var series := SeriesOf(s.db, topic, body, w);
      BeforeFirst(policy, s, topic, body, w);
      var attempt := 0;
      while true
        invariant 0 <= attempt <= policy.maxRetries && attempt == Retries(series, attempt)
        invariant View() == Trying(policy, s, series, attempt)
        decreases policy.maxRetries - attempt
      {
        CallIs(policy, s, topic, body, w, attempt);
        var failed := Handle(topic, body, attempt, w);
        calls := calls + 1;
        assert View() == Called(policy, s, series, attempt) && failed == CallThrows(series, attempt);
        CalledThen(policy, s, topic, body, w, attempt);
        if !failed {
          return false;
        }
        attempt := attempt + 1;
        if attempt > policy.maxRetries {
          if LogLineThrows(body, policy.depth) {
            return true;
          }
          threw := ToDlq(topic, attempt, body, w.accepted);
          return;
        }
        Sleep(policy.retryBackoffMs * attempt, attempt - 1, w);
      }
    }

    method Dispatch(m: Message, w: Weather) returns (threw: bool)
      requires OnItsTopic(m) && routes <= SAGA_TOPICS
      modifies this`parked, this`calls, this`slept, orders
      ensures Handled(View(), threw) == Dispatched(policy, routes, old(View()), m, w)
    {
      hide Retried;
      if m.topic !in routes || m.body.Absent? {
        return false;
      }
      if m.body.Garbled? {
        threw := ToDlq(m.topic, 0, Garbled, w.accepted);
        return;
      }
      threw := HandleWithRetry(m.topic, m.body, w);
    }

    method Poll(partition: seq<Message>, w: Weather)
      requires routes <= SAGA_TOPICS && forall m :: m in partition ==> OnItsTopic(m)
      modifies this`parked, this`calls, this`slept, this`offset, orders
      ensures View() == Polled(policy, routes, old(View()), partition, w)
    {
      hide Dispatched;
      if offset < |partition| {
        var threw := Dispatch(partition[offset], w);
        if !threw {
          offset := offset + 1;
        }
      }
    }

    /** A restart or a rebalance resumes at an earlier offset. */
    method Rewind(committed: nat)
      requires committed <= offset
      modifies this`offset
      ensures offset == committed
    {
      offset := committed;
    }
  }

  lemma WorkIs(topic: Topic, body: Body, ids: nat -> Uuid, db: Orders.Db, i: nat)
    requires Callable(topic, body)
    ensures WorkOf(topic, body, ids)(db, i)
         == if body.Carries? then Orders.Attempt(db, body.event, ids(i)) else JsonAttempt(db, topic, body.json, ids(i))
  {
    hide Orders.Attempt, JsonAttempt;
  }

  /** A call that throws before it reaches the database. */
  lemma ThrowingCall(db: Orders.Db, fate: Fate)
    ensures Call(db, Throws, fate) == Delivered(db, true)
  {
  }

  // ---- the loop, step by step ------------------------------------------------------

  /** Before call `i`, all earlier ones having thrown. */
  function Trying(p: Policy, s: State, series: Series<Orders.Db>, i: nat): State {
    s.(db := At(series, i), calls := s.calls + i, slept := s.slept + Backoff(p.retryBackoffMs, i))
  }

  /** After call `i`. */
  function Called(p: Policy, s: State, series: Series<Orders.Db>, i: nat): State {
    Trying(p, s, series, i).(db := Left(series, i), calls := s.calls + i + 1)
  }

  lemma BeforeFirst(p: Policy, s: State, topic: Topic, body: Body, w: Weather)
    requires Callable(topic, body)
    ensures var series := SeriesOf(s.db, topic, body, w);
            Trying(p, s, series, 0) == s && Retries(series, 0) == 0
  {
  }

  lemma CallIs(p: Policy, s: State, topic: Topic, body: Body, w: Weather, i: nat)
    requires Callable(topic, body)
    ensures var series := SeriesOf(s.db, topic, body, w); var before := Trying(p, s, series, i);
            var call := Call(before.db, WorkOf(topic, body, w.eventIds)(before.db, i), w.fates(i));
            Called(p, s, series, i) == before.(db := call.db, calls := before.calls + 1)
            && CallThrows(series, i) == call.threw
  {
    hide Call, WorkOf;
  }

  /** After a call: return, give up, or sleep and try again. */
  lemma CalledThen(p: Policy, s: State, topic: Topic, body: Body, w: Weather, i: nat)
    requires Callable(topic, body) && i <= p.maxRetries && Retries(SeriesOf(s.db, topic, body, w), i) == i
    ensures var series, after := SeriesOf(s.db, topic, body, w), Retried(p, s, topic, body, w);
            var called := Called(p, s, series, i);
            if !CallThrows(series, i) then after == Handled(called, false)
            else if i == p.maxRetries then
              var parks := w.accepted && !LogLineThrows(body, p.depth);
              after == Handled(
                if parks then called.(parked := called.parked + [DeadLetter(topic, i + 1, body)]) else called, !parks)
            else
              && Retries(series, i + 1) == i + 1
              && Trying(p, s, series, i + 1)
                   == called.(db := w.others(called.db, i), slept := called.slept + p.retryBackoffMs * (i + 1))
  {
    hide Call, WorkOf, CallThrows;
    var series := SeriesOf(s.db, topic, body, w);
    var k := Retries(series, p.maxRetries);
    assert CallThrows(series, i) || k == i;
    if i == p.maxRetries { assert k == i; }
  }

  // ---- bounds ----------------------------------------------------------------------

  lemma {:induction false} BackoffIsTriangular(ms: nat, k: nat)
    ensures 2 * Backoff(ms, k) == ms * (k * (k + 1))
  {
    if k > 0 {
      BackoffIsTriangular(ms, k - 1);
      assert (k - 1) * k + 2 * k == k * (k + 1);
      assert ms * ((k - 1) * k + 2 * k) == ms * ((k - 1) * k) + ms * (2 * k);
      assert ms * (2 * k) == 2 * (ms * k);
    }
  }

  /** At most `maxRetries + 1` calls, all but the last having thrown; the total backoff; and one dead letter exactly
      when every allowed call threw, the dead letter is accepted and the event's id can be printed. */
  lemma RetryIsBounded(p: Policy, s: State, topic: Topic, body: Body, w: Weather)
    requires Callable(topic, body)
    ensures var after, series := Retried(p, s, topic, body, w), SeriesOf(s.db, topic, body, w);
            var k := after.state.calls - s.calls - 1;
            var exhausted := forall i | 0 <= i <= p.maxRetries :: CallThrows(series, i);
            && 0 <= k <= p.maxRetries && after.state.db == Left(series, k)
            && (forall i | 0 <= i < k :: CallThrows(series, i))
            && 2 * (after.state.slept - s.slept) == p.retryBackoffMs * (k * (k + 1))
            && (exhausted ==> k == p.maxRetries) && (!exhausted ==> !CallThrows(series, k))
            && after.state.parked ==
                 (if exhausted && w.accepted && !LogLineThrows(body, p.depth)
                  then s.parked + [DeadLetter(topic, p.maxRetries + 1, body)] else s.parked)
            && (after.threw <==> exhausted && (!w.accepted || LogLineThrows(body, p.depth)))
  {
    hide SeriesOf, WorkOf, At, Left, CallThrows;
    var series := SeriesOf(s.db, topic, body, w);
    var k := Retries(series, p.maxRetries);
    BackoffIsTriangular(p.retryBackoffMs, k);
    if CallThrows(series, k) {
      assert k == p.maxRetries;
      forall i | 0 <= i <= p.maxRetries ensures CallThrows(series, i) {}
    }
  }

  /** The handler is not called for a topic without a route, a missing value or one that is no JSON, and only then. A
      dispatch parks its own message at most once, with the number of calls it made; what is no JSON is parked at
      once, unless the dead letter is refused. */
  lemma DeadLetterTellsTheCalls(p: Policy, routes: set<Topic>, s: State, m: Message, w: Weather)
    requires OnItsTopic(m) && routes <= SAGA_TOPICS
    ensures var after := Dispatched(p, routes, s, m, w);
            var calls := after.state.calls - s.calls;
            && 0 <= calls <= p.maxRetries + 1 && after.state.offset == s.offset
            && (calls == 0 <==> m.topic !in routes || m.body in {Absent, Garbled})
            && (calls == 0 ==> after.state.db == s.db && after.state.slept == s.slept)
            && (after.state.parked == s.parked || after.state.parked == s.parked + [DeadLetter(m.topic, calls, m.body)])
            && (m.topic !in routes || m.body == Absent ==> after.state.parked == s.parked && !after.threw)
            && (m.topic in routes && m.body == Garbled ==>
                  (|after.state.parked| == |s.parked| + 1 <==> w.accepted) && (after.threw <==> !w.accepted))
  {
    if m.topic in routes && m.body !in {Absent, Garbled} {
      RetryIsBounded(p, s, m.topic, m.body, w);
      hide Retried, CallThrows, SeriesOf, LogLineThrows;
    }
  }

  // ---- read from JSON --------------------------------------------------------------

  /** JSON that bears an event's ids, on that event's topic, is handled as the event, whatever else it says. */
  lemma JsonIsHandledAsItsEvent(db: Orders.Db, e: Event, json: Json, payload: Json, eventId: Uuid)
    requires Orders.Subscribed(e.payload)
    requires json.Obj? && "eventId" in json.fields && "payload" in json.fields && payload == json.fields["payload"]
    requires json.fields["eventId"] == Id(e.eventId)
    requires payload.Obj? && "orderId" in payload.fields && payload.fields["orderId"] == Id(e.orderId)
    ensures JsonAttempt(db, TopicOf(e.payload), json, eventId) == Orders.Attempt(db, e, eventId)
  {
    hide Orders.ApplyLegOutcome;
  }

  /** Any other JSON changes nothing, and passes for a redelivery only if it has a payload and a processed event id. */
  lemma JsonNeedsBothIds(db: Orders.Db, topic: Topic, json: Json, eventId: Uuid)
    ensures JsonAttempt(db, topic, json, eventId) == UniqueViolation <==>
              && json.Obj? && "eventId" in json.fields && json.fields["eventId"].Id?
              && json.fields["eventId"].uuid in db.processed
              && "payload" in json.fields && json.fields["payload"] != Null
    ensures JsonAttempt(db, topic, json, eventId).Commit? <==>
              && json.Obj? && "eventId" in json.fields && json.fields["eventId"].Id?
              && json.fields["eventId"].uuid !in db.processed
              && "payload" in json.fields && json.fields["payload"].Obj?
              && "orderId" in json.fields["payload"].fields && json.fields["payload"].fields["orderId"].Id?
  {
    hide Orders.ApplyLegOutcome;
  }

  // ---- at most once ----------------------------------------------------------------

  lemma MarkerIsKept(e: Event, w: Weather)
    requires OnlyGrows(w.others)
    ensures Keeps(w.others, OrderService.Marked(e))
  {
    forall db: Orders.Db, i: nat | OrderService.Marked(e)(db) ensures OrderService.Marked(e)(w.others(db, i)) {
      assert db.processed <= w.others(db, i).processed;
      var j :| 0 <= j < |db.processed| && db.processed[j] == e.eventId;
      assert w.others(db, i).processed[j] == e.eventId;
    }
  }

  /** Retries included, and whatever else commits during the backoffs, one call at most advances the saga: if one does,
      no other call of the series changes anything. */
  lemma AppliedAtMostOnce(before: Orders.Db, e: Event, w: Weather, i: nat, j: nat)
    requires Orders.Subscribed(e.payload) && OnlyGrows(w.others)
    requires CallCommits(SeriesOf(before, TopicOf(e.payload), Carries(e), w), i) && i != j
    ensures var series := SeriesOf(before, TopicOf(e.payload), Carries(e), w);
            !CallCommits(series, j) && Left(series, j) == At(series, j)
  {
    MarkerIsKept(e, w);
    OrderService.ReceiveDeduplicates(e, w.eventIds);
    hide CallCommits, At, Left, Deduplicates, Keeps, OnlyGrows;
    AtMostOnce(SeriesOf(before, TopicOf(e.payload), Carries(e), w), OrderService.Marked(e), i, j);
  }

  /** An event whose every call threw is dead-lettered exactly when all calls aborted, or it was not processed before
      and one call lost its acknowledgement while all others aborted. And a dead-lettered event has been processed
      nonetheless exactly when it was before, or that is what happened. */
  lemma ParkedYetProcessed(p: Policy, s: State, e: Event, w: Weather)
    requires Orders.Subscribed(e.payload)
    requires forall db: Orders.Db, i: nat :: e.eventId in w.others(db, i).processed <==> e.eventId in db.processed
    ensures var after := Retried(p, s, TopicOf(e.payload), Carries(e), w).state;
            && (after.parked != s.parked <==>
                  w.accepted && (AllAbort(w.fates, p.maxRetries) ||
                                 (e.eventId !in s.db.processed && OnlyOneAckLost(w.fates, p.maxRetries))))
            && (after.parked != s.parked ==>
                  (e.eventId in after.db.processed <==>
                   e.eventId in s.db.processed || OnlyOneAckLost(w.fates, p.maxRetries)))
  {
    var series, marked := SeriesOf(s.db, TopicOf(e.payload), Carries(e), w), OrderService.Marked(e);
    OrderService.ReceiveDeduplicates(e, w.eventIds);
    assert OnlyTheMarkerStops(series, marked) by { hide Deduplicates; }
    assert series.before == s.db && series.fates == w.fates;
    hide OrderService.Deliveries, SeriesOf, OnlyTheMarkerStops, Deduplicates, Retried, CallThrows, At, Left, AllAbort,
         OnlyOneAckLost;
    RetryIsBounded(p, s, TopicOf(e.payload), Carries(e), w);
    AllThrewYetApplied(series, marked, p.maxRetries);
  }

  // ---- the partition ---------------------------------------------------------------

  /** Nothing is left to do for a message. */
  predicate HandledOrParked(m: Message, routes: set<Topic>, s: State) {
    || m.topic !in routes
    || m.body.Absent?
    || (IdOf(m.body).Some? && IdOf(m.body).value in s.db.processed)
    || (exists d :: d in s.parked && d.topic == m.topic && d.original == m.body)
  }

  /** JSON on a routed topic whose event id cannot be read or printed. */
  predicate Wedges(m: Message, routes: set<Topic>, depth: nat) {
    m.topic in routes && LogLineThrows(m.body, depth)
  }
}
