/** A consumer on its partition, over whole runs: what the offset has passed, and when it gets to the end. */
module PartitionRuns {
  import opened Events
  import opened Json
  import opened KafkaConsumer
  import P = ProcessOnce
  import Orders
  import OrderService

  datatype Setup = Setup(policy: Policy, routes: set<Topic>, partition: seq<Message>)

  predicate SagaSetup(u: Setup) {
    u.routes <= SAGA_TOPICS && forall m :: m in u.partition ==> OnItsTopic(m)
  }

  /** Polls, restarts and rebalances, and other transactions in between. */
  datatype Turn = Polls(w: Weather) | Rewinds(committed: nat) | Meanwhile(later: Orders.Db)

  ghost predicate Allowed(s: State, turn: Turn) {
    match turn
    case Polls(w) => OnlyGrows(w.others)
    case Rewinds(committed) => committed <= s.offset
    case Meanwhile(later) => s.db.processed <= later.processed
  }

  function Take(u: Setup, s: State, turn: Turn): State
    requires SagaSetup(u)
  {
    match turn
    case Polls(w) => Polled(u.policy, u.routes, s, u.partition, w)
    case Rewinds(committed) => s.(offset := committed)
    case Meanwhile(later) => s.(db := later)
  }

  ghost predicate Run(u: Setup, s: State, turns: seq<Turn>)
    requires SagaSetup(u)
    decreases |turns|
  {
    |turns| == 0 || (Allowed(s, turns[0]) && Run(u, Take(u, s, turns[0]), turns[1..]))
  }

  function After(u: Setup, s: State, turns: seq<Turn>): State
    requires SagaSetup(u)
    decreases |turns|
  {
    if |turns| == 0 then s else After(u, Take(u, s, turns[0]), turns[1..])
  }

  // ---- one message -----------------------------------------------------------------

  /** What one call of the work does to the processed table. */
  lemma WorkMarks(topic: Topic, body: Body, ids: nat -> Uuid, db: Orders.Db, i: nat)
    requires Callable(topic, body)
    ensures var work := WorkOf(topic, body, ids)(db, i);
            && (work == UniqueViolation ==> IdOf(body).Some? && IdOf(body).value in db.processed)
            && (work.Commit? ==> IdOf(body).Some? && work.db.processed == db.processed + [IdOf(body).value])
  {
    WorkIs(topic, body, ids, db, i);
    if body.Carries? {
      OrderService.AttemptMarks(db, body.event, ids(i));
      hide WorkOf, Orders.Attempt;
    } else {
      hide WorkOf;
    }
  }

  lemma {:induction false} SeriesGrows(before: Orders.Db, topic: Topic, body: Body, w: Weather, i: nat)
    requires Callable(topic, body) && OnlyGrows(w.others)
    ensures var series := SeriesOf(before, topic, body, w);
            before.processed <= P.At(series, i).processed <= P.Left(series, i).processed
  {
    var series := SeriesOf(before, topic, body, w);
    if i > 0 {
      SeriesGrows(before, topic, body, w, i - 1);
      assert P.Left(series, i - 1).processed <= w.others(P.Left(series, i - 1), i - 1).processed;
    }
    hide WorkOf;
    WorkMarks(topic, body, w.eventIds, P.At(series, i), i);
  }

  /** The message is recorded as processed. */
  function Recorded(body: Body): Orders.Db -> bool {
    (db: Orders.Db) => IdOf(body).Some? && IdOf(body).value in db.processed
  }

  lemma ReturnedMeansProcessed(before: Orders.Db, topic: Topic, body: Body, w: Weather, i: nat)
    requires Callable(topic, body) && !P.CallThrows(SeriesOf(before, topic, body, w), i)
    ensures Recorded(body)(P.Left(SeriesOf(before, topic, body, w), i))
  {
    var series, marked := SeriesOf(before, topic, body, w), Recorded(body);
    hide WorkOf, P.CallThrows, P.Left, IdOf;
    forall db: Orders.Db, j: nat
      ensures series.work(db, j) == UniqueViolation ==> marked(db)
      ensures forall next :: series.work(db, j) == Commit(next) ==> marked(next)
    {
      WorkMarks(topic, body, w.eventIds, db, j);
    }
    P.ReturnedMeansHandled(series, marked, i);
  }

  /** Nothing whose id cannot be printed gets past the database, let alone a `null`. */
  lemma UnloggableThrows(before: Orders.Db, topic: Topic, body: Body, w: Weather, depth: nat)
    requires Callable(topic, body) && LogLineThrows(body, depth)
    ensures forall i :: P.CallThrows(SeriesOf(before, topic, body, w), i)
  {
    var series := SeriesOf(before, topic, body, w);
    assert !HasPayload(body.json) || EventIdOf(body.json).None?;
    forall i ensures P.CallThrows(series, i) {
      WorkIs(topic, body, w.eventIds, P.At(series, i), i);
    }
  }

  /** What later states keep. */
  predicate Grows(s: State, later: State) {
    s.db.processed <= later.db.processed && s.parked <= later.parked
  }

  /** Of the dead letters only those with an id that can be printed. */
  predicate ParksOnlyLoggable(s: State, later: State, depth: nat) {
    forall d :: d in later.parked && LogLineThrows(d.original, depth) ==> d in s.parked
  }

  lemma RetrySettles(p: Policy, routes: set<Topic>, s: State, m: Message, w: Weather)
    requires routes <= SAGA_TOPICS && m.topic in routes && Callable(m.topic, m.body) && OnlyGrows(w.others)
    ensures var h := Retried(p, s, m.topic, m.body, w);
            && Grows(s, h.state) && h.state.offset == s.offset
            && (!h.threw ==> HandledOrParked(m, routes, h.state))
            && (Wedges(m, routes, p.depth) ==> h.threw)
            && (w.accepted ==> (h.threw <==> Wedges(m, routes, p.depth)))
            && ParksOnlyLoggable(s, h.state, p.depth)
  {
    var h := Retried(p, s, m.topic, m.body, w);
    var series := SeriesOf(s.db, m.topic, m.body, w);
    var k := Retries(series, p.maxRetries);
    SeriesGrows(s.db, m.topic, m.body, w, k);
    if !P.CallThrows(series, k) { ReturnedMeansProcessed(s.db, m.topic, m.body, w, k); }
    if LogLineThrows(m.body, p.depth) { UnloggableThrows(s.db, m.topic, m.body, w, p.depth); }
    hide P.At, P.Left, P.CallThrows, SeriesOf, Retries, OnlyGrows, LogLineThrows;
    if P.CallThrows(series, k) && !h.threw {
      assert h.state.parked[|s.parked|] == DeadLetter(m.topic, p.maxRetries + 1, m.body);
    }
  }

  lemma DispatchSettles(p: Policy, routes: set<Topic>, s: State, m: Message, w: Weather)
    requires OnItsTopic(m) && routes <= SAGA_TOPICS && OnlyGrows(w.others)
    ensures var h := Dispatched(p, routes, s, m, w);
            && Grows(s, h.state) && h.state.offset == s.offset
            && (!h.threw ==> HandledOrParked(m, routes, h.state))
            && (Wedges(m, routes, p.depth) ==> h.threw)
            && (w.accepted ==> (h.threw <==> Wedges(m, routes, p.depth)))
            && ParksOnlyLoggable(s, h.state, p.depth)
  {
    hide OnlyGrows, Retried;
    if m.topic in routes && !m.body.Absent? {
      if m.body.Garbled? {
        var h := Dispatched(p, routes, s, m, w);
        if w.accepted { assert h.state.parked[|s.parked|] == DeadLetter(m.topic, 0, Garbled); }
      } else {
        RetrySettles(p, routes, s, m, w);
      }
    }
  }

  lemma HandledStays(m: Message, routes: set<Topic>, s: State, later: State)
    requires HandledOrParked(m, routes, s) && Grows(s, later)
    ensures HandledOrParked(m, routes, later)
  {
    if d :| d in s.parked && d.topic == m.topic && d.original == m.body {
      var i :| 0 <= i < |s.parked| && s.parked[i] == d;
      assert later.parked[i] == d;
    }
  }

  /** One poll, if a dead letter would be accepted: the offset moves exactly when the message's event id can be read and
      printed, or its topic is not routed. If it would not, the offset moves only past a message that is done with; and
      past one that wedges it never moves. */
  lemma PollMovesExactlyWhen(u: Setup, s: State, w: Weather)
    requires SagaSetup(u) && OnlyGrows(w.others) && s.offset < |u.partition|
    ensures var m, next := u.partition[s.offset], Take(u, s, Polls(w));
            && (next.offset == s.offset || next.offset == s.offset + 1) && Grows(s, next)
            && (w.accepted ==> (next.offset == s.offset + 1 <==> !Wedges(m, u.routes, u.policy.depth)))
            && (next.offset == s.offset + 1 ==>
                  HandledOrParked(m, u.routes, next) && !Wedges(m, u.routes, u.policy.depth))
  {
    hide Dispatched, OnlyGrows, HandledOrParked, Wedges;
    var m := u.partition[s.offset];
    var h := Dispatched(u.policy, u.routes, s, m, w);
    DispatchSettles(u.policy, u.routes, s, m, w);
    if !h.threw { HandledStays(m, u.routes, h.state, h.state.(offset := s.offset + 1)); }
  }

  // ---- runs ------------------------------------------------------------------------

  predicate PastIsHandled(u: Setup, s: State) {
    forall i | 0 <= i < s.offset && i < |u.partition| :: HandledOrParked(u.partition[i], u.routes, s)
  }

  lemma TurnPassesOnlyHandled(u: Setup, s: State, turn: Turn)
    requires SagaSetup(u) && Allowed(s, turn) && PastIsHandled(u, s)
    ensures PastIsHandled(u, Take(u, s, turn))
  {
    var next := Take(u, s, turn);
    if turn.Polls? && s.offset < |u.partition| { PollMovesExactlyWhen(u, s, turn.w); }
    hide Polled, HandledOrParked;
    assert Grows(s, next);
    forall i | 0 <= i < next.offset && i < |u.partition| ensures HandledOrParked(u.partition[i], u.routes, next) {
      if i < s.offset { HandledStays(u.partition[i], u.routes, s, next); }
    }
  }

  /** Over any run of polls, restarts, rebalances and other transactions, every message the offset has passed was
      processed, parked, or not for this consumer. */
  lemma {:induction false} OnlyHandledIsPassed(u: Setup, s: State, turns: seq<Turn>)
    requires SagaSetup(u) && Run(u, s, turns) && PastIsHandled(u, s)
    ensures PastIsHandled(u, After(u, s, turns))
    decreases |turns|
  {
    hide Take, Allowed, PastIsHandled;
    if |turns| > 0 {
      TurnPassesOnlyHandled(u, s, turns[0]);
      OnlyHandledIsPassed(u, Take(u, s, turns[0]), turns[1..]);
    }
  }

  predicate WedgesAt(u: Setup, i: nat) {
    i < |u.partition| && Wedges(u.partition[i], u.routes, u.policy.depth)
  }

  lemma TurnKeepsWedge(u: Setup, s: State, turn: Turn, i: nat)
    requires SagaSetup(u) && Allowed(s, turn) && WedgesAt(u, i) && s.offset <= i
    ensures Take(u, s, turn).offset <= i && ParksOnlyLoggable(s, Take(u, s, turn), u.policy.depth)
  {
    if turn.Polls? {
      PollMovesExactlyWhen(u, s, turn.w);
      DispatchSettles(u.policy, u.routes, s, u.partition[s.offset], turn.w);
    }
  }

  /** A JSON value on a routed topic whose event id cannot be read or printed wedges its partition for ever: in no run
      does the offset pass it, whatever becomes of dead letters, and none like it is ever parked. */
  lemma {:induction false} WedgeIsNeverPassed(u: Setup, s: State, turns: seq<Turn>, i: nat)
    requires SagaSetup(u) && Run(u, s, turns) && WedgesAt(u, i) && s.offset <= i
    ensures After(u, s, turns).offset <= i && ParksOnlyLoggable(s, After(u, s, turns), u.policy.depth)
    decreases |turns|
  {
    hide Take, Allowed, WedgesAt;
    if |turns| > 0 {
      TurnKeepsWedge(u, s, turns[0], i);
      WedgeIsNeverPassed(u, Take(u, s, turns[0]), turns[1..], i);
    }
  }

  /** The first message at or after `from` that wedges, or the end. */
  function FirstWedge(u: Setup, from: nat): (i: nat)
    requires from <= |u.partition|
    ensures from <= i <= |u.partition| && (i < |u.partition| ==> WedgesAt(u, i))
    ensures forall j | from <= j < i :: !WedgesAt(u, j)
    decreases |u.partition| - from
  {
    if from == |u.partition| || WedgesAt(u, from) then from else FirstWedge(u, from + 1)
  }

  predicate PollsAccepted(turn: Turn) {
    turn.Polls? && turn.w.accepted
  }

  /** While dead letters are accepted, every poll moves on by one message until the first wedge. */
  lemma {:induction false} PollsReach(u: Setup, s: State, turns: seq<Turn>)
    requires SagaSetup(u) && Run(u, s, turns) && s.offset <= |u.partition|
    requires forall t :: t in turns ==> PollsAccepted(t)
    ensures var stop := FirstWedge(u, s.offset);
            After(u, s, turns).offset == if s.offset + |turns| <= stop then s.offset + |turns| else stop
    decreases |turns|
  {
    hide Wedges, OnlyGrows, Polled;
    if |turns| > 0 {
      assert turns[0] in turns;
      var next := Take(u, s, turns[0]);
      assert next.offset == if s.offset == FirstWedge(u, s.offset) then s.offset else s.offset + 1 by {
        if s.offset < |u.partition| { PollMovesExactlyWhen(u, s, turns[0].w); } else { PollAtTheEnd(u, s, turns[0].w); }
      }
      hide Take, Allowed;
      PollsReach(u, next, turns[1..]);
    }
  }

  lemma PollAtTheEnd(u: Setup, s: State, w: Weather)
    requires SagaSetup(u) && s.offset >= |u.partition|
    ensures Take(u, s, Polls(w)) == s
  {
  }

  /** So while dead letters are accepted a partition is consumed to its end exactly when no wedge lies ahead. */
  lemma PartitionStaysLiveExactlyWhen(u: Setup, s: State, turns: seq<Turn>)
    requires SagaSetup(u) && Run(u, s, turns) && s.offset <= |u.partition|
    requires (forall t :: t in turns ==> PollsAccepted(t)) && s.offset + |turns| >= |u.partition|
    ensures After(u, s, turns).offset == |u.partition|
       <==> forall i | s.offset <= i < |u.partition| :: !WedgesAt(u, i)
  {
    hide Wedges;
    PollsReach(u, s, turns);
    var stop := FirstWedge(u, s.offset);
    if stop < |u.partition| { assert WedgesAt(u, stop); }
  }

  // ---- witnesses -------------------------------------------------------------------

  /** `null`, {"eventId": {"toString": null}} and {"eventId": [{"toString": 1}]}. */
  const POISON: seq<Json> :=
    [Null,
     Obj(map["eventId" := Obj(map["toString" := Null])]),
     Obj(map["eventId" := Arr([Obj(map["toString" := Num(1.0)])])])]

  lemma PoisonIsUnloggable(i: nat, depth: nat)
    requires i < |POISON| && depth > 0
    ensures Unloggable(POISON[i], depth)
  {
    var inner := Obj(map["toString" := Num(1.0)]);
    assert inner in [inner] && Unprintable(inner, depth - 1);
    assert Unprintable(Arr([inner]), depth);
    if i == 2 { assert Field(POISON[2], "eventId") == Some(Arr([inner])); }
    if i == 1 { assert Field(POISON[1], "eventId") == Some(Obj(map["toString" := Null])); }
  }

  /** Three messages that wedge although their dead letters would be accepted: after one poll the offset is where it was
      and nothing is parked, for all the calls made. */
  lemma PoisonWedges(p: Policy, s: State, w: Weather, i: nat)
    requires w.accepted && OnlyGrows(w.others) && s.offset == 0 && i < |POISON| && p.depth > 0
    ensures var u := Setup(p, SAGA_TOPICS, [Message(PaymentsFailed, Parsed(POISON[i]))]);
            var after := Take(u, s, Polls(w));
            after.offset == 0 && after.parked == s.parked && after.calls == s.calls + p.maxRetries + 1
  {
    var body := Parsed(POISON[i]);
    PoisonIsUnloggable(i, p.depth);
    UnloggableThrows(s.db, PaymentsFailed, body, w, p.depth);
    hide P.CallThrows, P.At, P.Left, SeriesOf, OnlyGrows, Unloggable;
    RetryIsBounded(p, s, PaymentsFailed, body, w);
  }

  /** An empty object is no event either, but is parked and passed. */
  lemma EmptyObjectIsParked(p: Policy, s: State, w: Weather)
    requires w.accepted && OnlyGrows(w.others) && s.offset == 0
    ensures var u := Setup(p, SAGA_TOPICS, [Message(PaymentsFailed, Parsed(Obj(map[])))]);
            var after := Take(u, s, Polls(w));
            && after.offset == 1
            && after.parked == s.parked + [DeadLetter(PaymentsFailed, p.maxRetries + 1, Parsed(Obj(map[])))]
  {
    var body := Parsed(Obj(map[]));
    var series := SeriesOf(s.db, PaymentsFailed, body, w);
    forall i ensures P.CallThrows(series, i) {
      WorkIs(PaymentsFailed, body, w.eventIds, P.At(series, i), i);
    }
    hide P.CallThrows, P.At, P.Left, SeriesOf, OnlyGrows;
    RetryIsBounded(p, s, PaymentsFailed, body, w);
  }

  /** JSON that is no event of ours but bears the id of a processed one is swallowed: one call, no dead letter. */
  lemma BorrowedIdIsSwallowed(p: Policy, s: State, w: Weather, id: Uuid)
    requires id in s.db.processed && w.fates(0) == Commits && s.offset == 0
    ensures var json := Obj(map["eventId" := Id(id), "payload" := Obj(map[])]);
            var u := Setup(p, SAGA_TOPICS, [Message(PaymentsFailed, Parsed(json))]);
            Take(u, s, Polls(w)) == s.(calls := s.calls + 1, offset := 1)
  {
    var json := Obj(map["eventId" := Id(id), "payload" := Obj(map[])]);
    var series := SeriesOf(s.db, PaymentsFailed, Parsed(json), w);
    WorkIs(PaymentsFailed, Parsed(json), w.eventIds, s.db, 0);
    assert series.work(s.db, 0) == UniqueViolation;
    assert !P.CallThrows(series, 0) && P.Left(series, 0) == s.db;
    assert Retries(series, p.maxRetries) == 0 by { RetriesZero(series, p.maxRetries); }
  }

  lemma RetriesZero(series: P.Series<Orders.Db>, max: nat)
    requires !P.CallThrows(series, 0)
    ensures Retries(series, max) == 0
  {
  }
}
