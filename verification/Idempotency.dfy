/** HTTP idempotency: any number of concurrent and later requests, each in its own phase of `execute`, against one
    Postgres database and one Redis cache that may miss, fail or expire at any time. A key's uncommitted insert
    blocks other inserts of that key until it commits or aborts, as a unique index does. */
module Idempotency {
  import opened Events
  import Outbox
  import Orders

  datatype CacheEntry = CacheEntry(hash: string, response: Orders.Response, statusCode: int)

  /** What a client gets: a reply, 422, 409, or an error that says nothing about the request. */
  datatype Outcome =
    | Replied(response: Option<Orders.Response>, statusCode: int, replayed: bool)
    | Unprocessable
    | Conflict
    | Failed

  datatype Phase =
    | Start
    | Missed
    | Claiming
    | Working
    | Caching(response: Orders.Response, statusCode: int)
    | Rereading
    | Done(outcome: Outcome)

  datatype Request = Request(key: Uuid, hash: string, dto: Orders.Dto, phase: Phase)

  /** `made` is history: which request's transaction created which order. */
  datatype Host = Host(
    db: Orders.Db,
    cache: map<Uuid, CacheEntry>,
    claims: map<Uuid, nat>,
    requests: map<nat, Request>,
    made: map<Uuid, nat>)

  const INIT := Host(Orders.EMPTY, map[], map[], map[], map[])

  /** The fast path: a cached entry decides. */
  function FromCache(entry: CacheEntry, hash: string): Outcome {
    if entry.hash != hash then Unprocessable
    else Replied(Some(entry.response), entry.statusCode, true)
  }

  /** The source of truth: `handleExisting`. */
  function FromRow(row: Orders.KeyRow, hash: string): Outcome {
    if row.requestHash != hash then Unprocessable
    else if row.status == Orders.Completed then
      Replied(row.response, if row.statusCode.Some? then row.statusCode.value else 200, true)
    else Conflict
  }

  datatype Step =
    | Arrive(rid: nat, key: Uuid, hash: string, dto: Orders.Dto)
    | LookInCache(rid: nat, up: bool)
    | LookInTable(rid: nat)
    | Claim(rid: nat)
    | Commit(rid: nat, ids: Orders.Ids, acked: bool)
    | Abort(rid: nat)
    | Fill(rid: nat, up: bool)
    | Reread(rid: nat)
    | GiveUp(rid: nat)
    | Expire(key: Uuid)
    | Saga(event: Event, eventId: Uuid)

  function PhaseOf(h: Host, rid: nat): Phase {
    if rid in h.requests then h.requests[rid].phase else Done(Failed)
  }

  predicate Enabled(h: Host, step: Step) {
    match step
    case Arrive(rid, _, _, _) => rid !in h.requests
    case LookInCache(rid, _) => PhaseOf(h, rid) == Start
    case LookInTable(rid) => PhaseOf(h, rid) == Missed
    case Claim(rid) => PhaseOf(h, rid) == Claiming && h.requests[rid].key !in h.claims
    case Commit(rid, ids, _) =>
      && PhaseOf(h, rid) == Working
      && var r := h.requests[rid];
         Orders.CreateOrder(h.db, r.key, r.hash, r.dto, ids).Commit?
    case Abort(rid) => PhaseOf(h, rid) == Working
    case Fill(rid, _) => PhaseOf(h, rid).Caching?
    case Reread(rid) => PhaseOf(h, rid) == Rereading
    case GiveUp(rid) => rid in h.requests && PhaseOf(h, rid) != Working && !PhaseOf(h, rid).Done?
    case Expire(_) => true
    case Saga(_, _) => true
  }

  function Moved(h: Host, rid: nat, phase: Phase): Host
    requires rid in h.requests
  {
    h.(requests := h.requests[rid := h.requests[rid].(phase := phase)])
  }

  function Apply(h: Host, step: Step): Host
    requires Enabled(h, step)
  {
    match step
    case Arrive(rid, key, hash, dto) => h.(requests := h.requests[rid := Request(key, hash, dto, Start)])
    case LookInCache(rid, up) =>
      var r := h.requests[rid];
      Moved(h, rid, if up && r.key in h.cache then Done(FromCache(h.cache[r.key], r.hash)) else Missed)
    case LookInTable(rid) =>
      var r := h.requests[rid];
      Moved(h, rid, if r.key in h.db.keys then Done(FromRow(h.db.keys[r.key], r.hash)) else Claiming)
    case Claim(rid) =>
      var r := h.requests[rid];
      if r.key in h.db.keys then Moved(h, rid, Rereading)
      else Moved(h, rid, Working).(claims := h.claims[r.key := rid])
    case Commit(rid, ids, acked) =>
      var r := h.requests[rid];
      var db := Orders.CreateOrder(h.db, r.key, r.hash, r.dto, ids).db;
      var response := Orders.Response(ids.orderId, db.orders[ids.orderId]);
      Moved(h, rid, if acked then Caching(response, 201) else Done(Failed))
        .(db := db, claims := h.claims - {r.key}, made := h.made[ids.orderId := rid])
    case Abort(rid) =>
      Moved(h, rid, Done(Failed)).(claims := h.claims - {h.requests[rid].key})
    case Fill(rid, up) =>
      var r := h.requests[rid];
      var entry := CacheEntry(r.hash, r.phase.response, r.phase.statusCode);
      Moved(h, rid, Done(Replied(Some(r.phase.response), r.phase.statusCode, false)))
        .(cache := if up then h.cache[r.key := entry] else h.cache)
    case Reread(rid) =>
      var r := h.requests[rid];
      Moved(h, rid, Done(if r.key in h.db.keys then FromRow(h.db.keys[r.key], r.hash) else Failed))
    case GiveUp(rid) => Moved(h, rid, Done(Failed))
    case Expire(key) => h.(cache := h.cache - {key})
    case Saga(event, eventId) => h.(db := Orders.Handle(h.db, event, eventId))
  }

  ghost predicate Run(h: Host, steps: seq<Step>)
    decreases |steps|
  {
    steps == [] || (Enabled(h, steps[0]) && Run(Apply(h, steps[0]), steps[1..]))
  }

  ghost function After(h: Host, steps: seq<Step>): Host
    requires Run(h, steps)
    decreases |steps|
  {
    if steps == [] then h else After(Apply(h, steps[0]), steps[1..])
  }

  ghost predicate Reachable(h: Host) {
    exists steps :: Run(INIT, steps) && After(INIT, steps) == h
  }

  // ---- the invariant ---------------------------------------------------------------

  /** Every committed row is completed, and belongs to the request that made its order. */
  ghost predicate KeyOk(row: Orders.KeyRow, k: Uuid, made: map<Uuid, nat>, requests: map<nat, Request>) {
    && row.status == Orders.Completed && row.response.Some? && row.statusCode == Some(201)
    && var o := row.response.value.id;
    && o in made && made[o] in requests
    && requests[made[o]].key == k && requests[made[o]].hash == row.requestHash
  }

  ghost predicate KeysOk(keys: map<Uuid, Orders.KeyRow>, made: map<Uuid, nat>, requests: map<nat, Request>) {
    forall k :: k in keys ==> KeyOk(keys[k], k, made, requests)
  }

  /** Every order was made by a request whose key replays it. */
  ghost predicate MadeOk(keys: map<Uuid, Orders.KeyRow>, made: map<Uuid, nat>, requests: map<nat, Request>) {
    forall o :: o in made ==>
      && made[o] in requests && requests[made[o]].key in keys
      && var response := keys[requests[made[o]].key].response;
      && response.Some? && response.value.id == o
  }

  ghost predicate ClaimsOk(keys: map<Uuid, Orders.KeyRow>, claims: map<Uuid, nat>, requests: map<nat, Request>) {
    && (forall k :: k in claims ==>
          k !in keys && claims[k] in requests && requests[claims[k]].key == k && requests[claims[k]].phase == Working)
    && (forall rid :: rid in requests && requests[rid].phase == Working ==>
          requests[rid].key in claims && claims[requests[rid].key] == rid)
  }

  ghost predicate EntryAgrees(entry: CacheEntry, row: Orders.KeyRow) {
    && row.status == Orders.Completed
    && row.requestHash == entry.hash && row.response == Some(entry.response) && row.statusCode == Some(entry.statusCode)
  }

  ghost predicate CacheOk(keys: map<Uuid, Orders.KeyRow>, cache: map<Uuid, CacheEntry>) {
    forall k :: k in cache ==> k in keys && EntryAgrees(cache[k], keys[k])
  }

  /** A request's phase tells the truth about its key's committed row. */
  ghost predicate PhaseOk(r: Request, keys: map<Uuid, Orders.KeyRow>) {
    match r.phase
    case Caching(response, code) =>
      r.key in keys && EntryAgrees(CacheEntry(r.hash, response, code), keys[r.key])
    case Done(Replied(response, code, _)) =>
      && r.key in keys && keys[r.key].requestHash == r.hash
      && keys[r.key].response == response && keys[r.key].statusCode == Some(code)
    case Done(Unprocessable) => r.key in keys && keys[r.key].requestHash != r.hash
    case Done(Conflict) => false
    case _ => true
  }

  ghost predicate PhasesOk(keys: map<Uuid, Orders.KeyRow>, requests: map<nat, Request>) {
    forall rid :: rid in requests ==> PhaseOk(requests[rid], keys)
  }

  /** No two rows announce the creation of the same order, and only made orders are announced. */
  ghost predicate CreatedRowsOk(rows: seq<Outbox.Row>, orders: set<Uuid>) {
    && (forall r :: r in rows && r.event.payload.OrderCreated? ==> r.event.orderId in orders)
    && (forall i, j :: 0 <= i < j < |rows| && rows[i].event.payload.OrderCreated? && rows[j].event.payload.OrderCreated?
          ==> rows[i].event.orderId != rows[j].event.orderId)
  }

  /** The order as it was inserted, whatever the saga did to it since. */
  function AsCreated(order: Orders.Order): Orders.Order {
    order.(status := Orders.Pending, payment := Orders.LegPending, inventory := Orders.LegPending)
  }

  /** A row replays an order that exists, exactly as it was created. */
  ghost predicate ReplaysOk(keys: map<Uuid, Orders.KeyRow>, orders: map<Uuid, Orders.Order>) {
    forall k :: k in keys && keys[k].response.Some? ==>
      var response := keys[k].response.value;
      response.id in orders && AsCreated(orders[response.id]) == response.order
  }

  ghost predicate Inv(h: Host) {
    && KeysOk(h.db.keys, h.made, h.requests)
    && MadeOk(h.db.keys, h.made, h.requests)
    && ClaimsOk(h.db.keys, h.claims, h.requests)
    && CacheOk(h.db.keys, h.cache)
    && PhasesOk(h.db.keys, h.requests)
    && CreatedRowsOk(h.db.outbox, h.db.orders.Keys)
    && ReplaysOk(h.db.keys, h.db.orders)
    && h.made.Keys == h.db.orders.Keys
  }

  /** A row never changes once it is committed. */
  ghost predicate KeysGrow(before: map<Uuid, Orders.KeyRow>, after: map<Uuid, Orders.KeyRow>) {
    forall k :: k in before ==> k in after && after[k] == before[k]
  }

  /** Identity of requests: who asked what under which key. */
  ghost predicate SameRequests(a: map<nat, Request>, b: map<nat, Request>) {
    forall rid :: rid in a ==> rid in b && b[rid].key == a[rid].key && b[rid].hash == a[rid].hash
  }

  /** Everything but the claims survives replacing (or adding) one request that keeps its key and body. */
  lemma WithRequest(keys: map<Uuid, Orders.KeyRow>, made: map<Uuid, nat>, requests: map<nat, Request>,
                    rid: nat, r: Request)
    requires KeysOk(keys, made, requests) && MadeOk(keys, made, requests) && PhasesOk(keys, requests)
    requires rid in requests ==> r.key == requests[rid].key && r.hash == requests[rid].hash
    requires PhaseOk(r, keys)
    ensures var next := requests[rid := r];
            KeysOk(keys, made, next) && MadeOk(keys, made, next) && PhasesOk(keys, next)
  {
    hide PhaseOk;
    Owners(keys, made, requests, requests[rid := r]);
  }

  lemma Owners(keys: map<Uuid, Orders.KeyRow>, made: map<Uuid, nat>, a: map<nat, Request>, b: map<nat, Request>)
    requires KeysOk(keys, made, a) && MadeOk(keys, made, a) && SameRequests(a, b)
    ensures KeysOk(keys, made, b) && MadeOk(keys, made, b)
  {
    forall k | k in keys ensures KeyOk(keys[k], k, made, b) {
      assert KeyOk(keys[k], k, made, a);
    }
  }

  /** A request that holds no claim, before or after. */
  lemma ClaimsUnmoved(keys: map<Uuid, Orders.KeyRow>, claims: map<Uuid, nat>, requests: map<nat, Request>,
                      rid: nat, r: Request)
    requires ClaimsOk(keys, claims, requests) && r.phase != Working
    requires rid in requests ==> requests[rid].phase != Working
    ensures ClaimsOk(keys, claims, requests[rid := r])
  {
  }

  lemma ClaimsTaken(keys: map<Uuid, Orders.KeyRow>, claims: map<Uuid, nat>, requests: map<nat, Request>, rid: nat)
    requires ClaimsOk(keys, claims, requests) && rid in requests && requests[rid].phase != Working
    requires requests[rid].key !in claims && requests[rid].key !in keys
    ensures ClaimsOk(keys, claims[requests[rid].key := rid], requests[rid := requests[rid].(phase := Working)])
  {
  }

  /** Commit and abort both give the claim back; only a commit leaves a row behind. */
  lemma ClaimsReturned(keys: map<Uuid, Orders.KeyRow>, claims: map<Uuid, nat>, requests: map<nat, Request>,
                       rid: nat, phase: Phase, later: map<Uuid, Orders.KeyRow>)
    requires ClaimsOk(keys, claims, requests) && rid in requests && requests[rid].phase == Working
    requires phase != Working && later.Keys <= keys.Keys + {requests[rid].key}
    ensures ClaimsOk(later, claims - {requests[rid].key}, requests[rid := requests[rid].(phase := phase)])
  {
    forall k | k in claims - {requests[rid].key} ensures k !in later {
      assert k !in keys && k != requests[rid].key;
    }
  }

  /** Moving a request between phases in which it holds no claim, or starting it. */
  lemma MovedKeeps(h: Host, rid: nat, r: Request)
    requires Inv(h) && r.phase != Working && PhaseOk(r, h.db.keys)
    requires rid in h.requests ==>
               h.requests[rid].phase != Working && r.key == h.requests[rid].key && r.hash == h.requests[rid].hash
    ensures Inv(h.(requests := h.requests[rid := r]))
  {
    hide KeysOk, MadeOk, ClaimsOk, CacheOk, PhasesOk, CreatedRowsOk, ReplaysOk, PhaseOk;
    WithRequest(h.db.keys, h.made, h.requests, rid, r);
    ClaimsUnmoved(h.db.keys, h.claims, h.requests, rid, r);
  }

  lemma FromRowTrue(r: Request, h: Host)
    requires KeysOk(h.db.keys, h.made, h.requests) && r.key in h.db.keys
    ensures PhaseOk(r.(phase := Done(FromRow(h.db.keys[r.key], r.hash))), h.db.keys)
  {
    assert KeyOk(h.db.keys[r.key], r.key, h.made, h.requests);
  }

  lemma FromCacheTrue(r: Request, keys: map<Uuid, Orders.KeyRow>, cache: map<Uuid, CacheEntry>)
    requires CacheOk(keys, cache) && r.key in cache
    ensures PhaseOk(r.(phase := Done(FromCache(cache[r.key], r.hash))), keys)
  {
  }

  /** Phases that claim nothing about the row. */
  lemma NeutralPhases(r: Request, keys: map<Uuid, Orders.KeyRow>)
    ensures PhaseOk(r.(phase := Missed), keys) && PhaseOk(r.(phase := Claiming), keys)
    ensures PhaseOk(r.(phase := Rereading), keys) && PhaseOk(r.(phase := Working), keys)
    ensures PhaseOk(r.(phase := Done(Failed)), keys) && PhaseOk(r.(phase := Start), keys)
  {
  }

  /** The read-only phases. */
  lemma ReadingKeeps(h: Host, step: Step)
    requires Inv(h) && Enabled(h, step) && (step.LookInCache? || step.LookInTable? || step.Reread? || step.GiveUp?)
    ensures Inv(Apply(h, step)) && Apply(h, step).db == h.db
  {
    hide KeysOk, MadeOk, ClaimsOk, CacheOk, PhasesOk, CreatedRowsOk, ReplaysOk, PhaseOk;
    var r := h.requests[step.rid];
    NeutralPhases(r, h.db.keys);
    if r.key in h.db.keys { FromRowTrue(r, h); }
    if r.key in h.cache { FromCacheTrue(r, h.db.keys, h.cache); }
    hide Inv, FromRow, FromCache;
    MovedKeeps(h, step.rid, Apply(h, step).requests[step.rid]);
  }

  lemma ClaimKeeps(h: Host, step: Step)
    requires Inv(h) && Enabled(h, step) && step.Claim?
    ensures Inv(Apply(h, step))
  {
    hide KeysOk, MadeOk, ClaimsOk, CacheOk, PhasesOk, CreatedRowsOk, ReplaysOk, PhaseOk;
    var r := h.requests[step.rid];
    NeutralPhases(r, h.db.keys);
    if r.key in h.db.keys {
      MovedKeeps(h, step.rid, r.(phase := Rereading));
    } else {
      WithRequest(h.db.keys, h.made, h.requests, step.rid, r.(phase := Working));
      ClaimsTaken(h.db.keys, h.claims, h.requests, step.rid);
    }
  }

  lemma AbortKeeps(h: Host, step: Step)
    requires Inv(h) && Enabled(h, step) && step.Abort?
    ensures Inv(Apply(h, step))
  {
    hide KeysOk, MadeOk, ClaimsOk, CacheOk, PhasesOk, CreatedRowsOk, ReplaysOk, PhaseOk;
    var r := h.requests[step.rid];
    NeutralPhases(r, h.db.keys);
    WithRequest(h.db.keys, h.made, h.requests, step.rid, r.(phase := Done(Failed)));
    ClaimsReturned(h.db.keys, h.claims, h.requests, step.rid, Done(Failed), h.db.keys);
  }

  lemma FilledPhase(r: Request, keys: map<Uuid, Orders.KeyRow>, cache: map<Uuid, CacheEntry>)
    requires r.phase.Caching? && PhaseOk(r, keys) && CacheOk(keys, cache)
    ensures PhaseOk(r.(phase := Done(Replied(Some(r.phase.response), r.phase.statusCode, false))), keys)
    ensures CacheOk(keys, cache[r.key := CacheEntry(r.hash, r.phase.response, r.phase.statusCode)])
  {
  }

  lemma FillKeeps(h: Host, step: Step)
    requires Inv(h) && Enabled(h, step) && step.Fill?
    ensures Inv(Apply(h, step))
  {
    var r := h.requests[step.rid];
    assert PhaseOk(r, h.db.keys) by { hide KeysOk, MadeOk, ClaimsOk, CacheOk, CreatedRowsOk, ReplaysOk, PhaseOk; }
    hide KeysOk, MadeOk, ClaimsOk, CacheOk, PhasesOk, CreatedRowsOk, ReplaysOk, PhaseOk;
    FilledPhase(r, h.db.keys, h.cache);
    MovedKeeps(h, step.rid, r.(phase := Done(Replied(Some(r.phase.response), r.phase.statusCode, false))));
  }

  lemma ArriveKeeps(h: Host, step: Step)
    requires Inv(h) && Enabled(h, step) && step.Arrive?
    ensures Inv(Apply(h, step))
  {
    hide KeysOk, MadeOk, ClaimsOk, CacheOk, PhasesOk, CreatedRowsOk, ReplaysOk, PhaseOk;
    var r := Request(step.key, step.hash, step.dto, Start);
    NeutralPhases(r, h.db.keys);
    MovedKeeps(h, step.rid, r);
  }

  lemma SagaTouches(db: Orders.Db, e: Event, id: Uuid)
    ensures var next := Orders.Handle(db, e, id);
            && next.keys == db.keys && next.orders.Keys == db.orders.Keys
            && (CreatedRowsOk(db.outbox, db.orders.Keys) ==> CreatedRowsOk(next.outbox, next.orders.Keys))
  {
  }

  lemma SagaKeepsIdentity(db: Orders.Db, e: Event, id: Uuid)
    requires ReplaysOk(db.keys, db.orders)
    ensures ReplaysOk(Orders.Handle(db, e, id).keys, Orders.Handle(db, e, id).orders)
  {
  }

  // ---- the commit ------------------------------------------------------------------

  lemma CommitRows(rows: seq<Outbox.Row>, orders: set<Uuid>, o: Uuid, f: Event)
    requires CreatedRowsOk(rows, orders) && o !in orders && f.orderId == o
    ensures CreatedRowsOk(Outbox.Enqueue(rows, f), orders + {o})
  {
    forall i | 0 <= i < |rows| && rows[i].event.payload.OrderCreated? ensures rows[i].event.orderId != o {
      assert rows[i] in rows;
    }
  }

  /** A new row for an unused key, replaying a new order made by `rid`. */
  lemma CommitOwners(keys: map<Uuid, Orders.KeyRow>, made: map<Uuid, nat>, requests: map<nat, Request>,
                     rid: nat, row: Orders.KeyRow, o: Uuid)
    requires KeysOk(keys, made, requests) && MadeOk(keys, made, requests) && rid in requests && o !in made
    requires requests[rid].key !in keys && KeyOk(row, requests[rid].key, made[o := rid], requests)
    requires row.response.value.id == o
    ensures KeysOk(keys[requests[rid].key := row], made[o := rid], requests)
    ensures MadeOk(keys[requests[rid].key := row], made[o := rid], requests)
  {
    forall k | k in keys ensures KeyOk(keys[k], k, made[o := rid], requests) {
      assert KeyOk(keys[k], k, made, requests);
    }
  }

  lemma CommitPhases(keys: map<Uuid, Orders.KeyRow>, requests: map<nat, Request>, k: Uuid, row: Orders.KeyRow)
    requires PhasesOk(keys, requests) && k !in keys
    ensures PhasesOk(keys[k := row], requests)
  {
    forall rid | rid in requests ensures PhaseOk(requests[rid], keys[k := row]) {
      assert PhaseOk(requests[rid], keys);
    }
  }

  lemma CacheGrows(keys: map<Uuid, Orders.KeyRow>, cache: map<Uuid, CacheEntry>, k: Uuid, row: Orders.KeyRow)
    requires CacheOk(keys, cache) && k !in keys
    ensures CacheOk(keys[k := row], cache)
  {
  }

  function RowFor(r: Request, ids: Orders.Ids): Orders.KeyRow {
    Orders.KeyRow(r.hash, Orders.Completed, Some(Orders.Response(ids.orderId, Orders.NewOrder(r.dto, ids))), Some(201))
  }

  function PhaseFor(r: Request, ids: Orders.Ids, acked: bool): Phase {
    if acked then Caching(Orders.Response(ids.orderId, Orders.NewOrder(r.dto, ids)), 201) else Done(Failed)
  }

  /** What a commit changes, table by table. */
  lemma CommitShape(h: Host, step: Step)
    requires Enabled(h, step) && step.Commit?
    ensures var next, r, o := Apply(h, step), h.requests[step.rid], step.ids.orderId;
            && r.phase == Working && r.key !in h.db.keys && o !in h.db.orders
            && next.db.keys == h.db.keys[r.key := RowFor(r, step.ids)] && next.made == h.made[o := step.rid]
            && next.requests == h.requests[step.rid := r.(phase := PhaseFor(r, step.ids, step.acked))]
            && next.db.orders == h.db.orders[o := Orders.NewOrder(r.dto, step.ids)] 
            && next.cache == h.cache && next.claims == h.claims - {r.key}
            && next.db.outbox == Outbox.Enqueue(h.db.outbox,
                                   Orders.CreatedEvent(Orders.NewOrder(r.dto, step.ids), step.ids))
  {
  }

  lemma CommitReplays(keys: map<Uuid, Orders.KeyRow>, orders: map<Uuid, Orders.Order>, r: Request, ids: Orders.Ids)
    requires ReplaysOk(keys, orders) && ids.orderId !in orders
    ensures ReplaysOk(keys[r.key := RowFor(r, ids)], orders[ids.orderId := Orders.NewOrder(r.dto, ids)])
  {
  }

  lemma CommitPhase(r: Request, ids: Orders.Ids, acked: bool, keys: map<Uuid, Orders.KeyRow>)
    requires r.key in keys && keys[r.key] == RowFor(r, ids)
    ensures PhaseOk(r.(phase := PhaseFor(r, ids, acked)), keys)
  {
  }

  lemma CommitKeeps(h: Host, step: Step)
    requires Inv(h) && Enabled(h, step) && step.Commit?
    ensures Inv(Apply(h, step)) && KeysGrow(h.db.keys, Apply(h, step).db.keys)
  {
    hide KeysOk, MadeOk, ClaimsOk, CacheOk, PhasesOk, CreatedRowsOk, ReplaysOk, PhaseOk;
    CommitShape(h, step);
    hide Apply, Enabled;
    var next := Apply(h, step);
    var rid, o, r, keys := step.rid, step.ids.orderId, h.requests[step.rid], h.db.keys;
    var row, phase := RowFor(r, step.ids), PhaseFor(r, step.ids, step.acked);
    CommitRows(h.db.outbox, h.db.orders.Keys, o, Orders.CreatedEvent(Orders.NewOrder(r.dto, step.ids), step.ids));
    CommitOwners(keys, h.made, h.requests, rid, row, o);
    CommitPhases(keys, h.requests, r.key, row);
    CommitPhase(r, step.ids, step.acked, keys[r.key := row]);
    WithRequest(keys[r.key := row], next.made, h.requests, rid, r.(phase := phase));
    ClaimsReturned(keys, h.claims, h.requests, rid, phase, keys[r.key := row]);
    CacheGrows(keys, h.cache, r.key, row);
    CommitReplays(keys, h.db.orders, r, step.ids);
    assert next.db.orders.Keys == h.db.orders.Keys + {o};
  }

  lemma CacheShrinks(keys: map<Uuid, Orders.KeyRow>, cache: map<Uuid, CacheEntry>, k: Uuid)
    requires CacheOk(keys, cache)
    ensures CacheOk(keys, cache - {k})
  {
  }

  lemma StepKeeps(h: Host, step: Step)
    requires Inv(h) && Enabled(h, step)
    ensures Inv(Apply(h, step)) && KeysGrow(h.db.keys, Apply(h, step).db.keys)
  {
    hide KeysOk, MadeOk, ClaimsOk, CacheOk, CreatedRowsOk, ReplaysOk, PhasesOk;
    match step
    case Arrive(_, _, _, _) => ArriveKeeps(h, step);
    case LookInCache(_, _) => ReadingKeeps(h, step);
    case LookInTable(_) => ReadingKeeps(h, step);
    case Claim(_) => ClaimKeeps(h, step);
    case Commit(_, _, _) => CommitKeeps(h, step);
    case Abort(_) => AbortKeeps(h, step);
    case Fill(_, _) => FillKeeps(h, step);
    case Reread(_) => ReadingKeeps(h, step);
    case GiveUp(_) => ReadingKeeps(h, step);
    case Expire(key) => CacheShrinks(h.db.keys, h.cache, key);
    case Saga(e, id) => SagaTouches(h.db, e, id); SagaKeepsIdentity(h.db, e, id);
  }

  lemma {:induction false} RunKeeps(h: Host, steps: seq<Step>)
    requires Inv(h) && Run(h, steps)
    ensures Inv(After(h, steps)) && KeysGrow(h.db.keys, After(h, steps).db.keys)
    decreases |steps|
  {
    hide Inv, Apply, Enabled;
    if steps != [] {
      StepKeeps(h, steps[0]);
      RunKeeps(Apply(h, steps[0]), steps[1..]);
    }
  }

  lemma ReachableInv(h: Host)
    requires Reachable(h)
    ensures Inv(h)
  {
    var steps :| Run(INIT, steps) && After(INIT, steps) == h;
    assert Inv(INIT);
    RunKeeps(INIT, steps);
  }

  // ---- what clients can rely on ----------------------------------------------------

  /** At most one order ever exists per key, whoever raced whom; and at most one `orders.created` row for it. */
  lemma OneOrderPerKey(h: Host, a: Uuid, b: Uuid)
    requires Reachable(h) && a in h.made && b in h.made
    ensures h.made[a] in h.requests && h.made[b] in h.requests
    ensures h.requests[h.made[a]].key == h.requests[h.made[b]].key ==> a == b
    ensures forall i, j :: 0 <= i < j < |h.db.outbox|
              && h.db.outbox[i].event.payload.OrderCreated? && h.db.outbox[j].event.payload.OrderCreated?
              ==> h.db.outbox[i].event.orderId != h.db.outbox[j].event.orderId
    ensures h.made.Keys == h.db.orders.Keys
  {
    ReachableInv(h);
  }

  /** All successful replies to one key are equal as values, first reply and replays alike, and answer the same body. */
  lemma RepliesAreEqual(h: Host, a: nat, b: nat)
    requires Reachable(h) && a in h.requests && b in h.requests && h.requests[a].key == h.requests[b].key
    requires PhaseOf(h, a).Done? && PhaseOf(h, a).outcome.Replied?
    requires PhaseOf(h, b).Done? && PhaseOf(h, b).outcome.Replied?
    ensures PhaseOf(h, a).outcome.response == PhaseOf(h, b).outcome.response
    ensures PhaseOf(h, a).outcome.statusCode == PhaseOf(h, b).outcome.statusCode == 201
    ensures h.requests[a].hash == h.requests[b].hash
  {
    ReachableInv(h);
    assert PhaseOk(h.requests[a], h.db.keys) && PhaseOk(h.requests[b], h.db.keys);
    var k := h.requests[a].key;
    assert KeyOk(h.db.keys[k], k, h.made, h.requests);
  }

  /** What is replied, now or later, is the order as it was created: only its saga state may have moved on. */
  lemma ReplyIsTheOrder(h: Host, rid: nat)
    requires Reachable(h) && PhaseOf(h, rid).Done? && PhaseOf(h, rid).outcome.Replied?
    ensures var response := PhaseOf(h, rid).outcome.response;
            && response.Some? && response.value.id in h.db.orders
            && AsCreated(h.db.orders[response.value.id]) == response.value.order
  {
    hide Reachable, MadeOk, ClaimsOk, CacheOk, CreatedRowsOk;
    ReachableInv(h);
    assert PhaseOk(h.requests[rid], h.db.keys);
    var k := h.requests[rid].key;
    assert KeyOk(h.db.keys[k], k, h.made, h.requests);
  }

  /** No committed row is ever IN_PROGRESS, so 409 is never answered. */
  lemma NeverConflict(h: Host, rid: nat, k: Uuid)
    requires Reachable(h)
    ensures PhaseOf(h, rid) != Done(Conflict)
    ensures k in h.db.keys ==> h.db.keys[k].status == Orders.Completed
  {
    ReachableInv(h);
    if rid in h.requests { assert PhaseOk(h.requests[rid], h.db.keys); }
    if k in h.db.keys { assert KeyOk(h.db.keys[k], k, h.made, h.requests); }
  }

  /** Once a key is committed, every answered request with it is judged by its hash alone: a reply for the
      same hash and 422 for any other. */
  lemma HashDecides(h: Host, rid: nat)
    requires Reachable(h) && rid in h.requests
    requires PhaseOf(h, rid).Done? && PhaseOf(h, rid).outcome != Failed
    ensures h.requests[rid].key in h.db.keys
    ensures PhaseOf(h, rid).outcome.Replied?
       <==> h.db.keys[h.requests[rid].key].requestHash == h.requests[rid].hash
    ensures PhaseOf(h, rid).outcome.Unprocessable?
       <==> h.db.keys[h.requests[rid].key].requestHash != h.requests[rid].hash
  {
    ReachableInv(h);
    assert PhaseOk(h.requests[rid], h.db.keys);
  }

  function RequestOf(step: Step): Option<nat> {
    match step
    case LookInCache(rid, _) => Some(rid)
    case LookInTable(rid) => Some(rid)
    case Claim(rid) => Some(rid)
    case Commit(rid, _, _) => Some(rid)
    case Abort(rid) => Some(rid)
    case Fill(rid, _) => Some(rid)
    case Reread(rid) => Some(rid)
    case GiveUp(rid) => Some(rid)
    case _ => None
  }

  /** The step is taken by a request with this key. */
  predicate StepOf(h: Host, step: Step, k: Uuid) {
    var rid := RequestOf(step);
    rid.Some? && rid.value in h.requests && h.requests[rid.value].key == k
  }

  /** The orders ever made under a key. */
  ghost function OrdersOf(h: Host, k: Uuid): set<Uuid> {
    set o | o in h.made && h.made[o] in h.requests && h.requests[h.made[o]].key == k
  }

  /** Along the run, no step of a request with this key changes the database. */
  ghost predicate Quiet(h: Host, steps: seq<Step>, k: Uuid)
    requires Run(h, steps)
    decreases |steps|
  {
    steps == [] ||
    ((StepOf(h, steps[0], k) ==> Apply(h, steps[0]).db == h.db) && Quiet(Apply(h, steps[0]), steps[1..], k))
  }

  lemma StepIsQuiet(h: Host, step: Step, k: Uuid)
    requires Inv(h) && Enabled(h, step) && k in h.db.keys && StepOf(h, step, k)
    ensures Apply(h, step).db == h.db
  {
    hide Inv;
  }

  lemma {:induction false} RunIsQuiet(h: Host, steps: seq<Step>, k: Uuid)
    requires Inv(h) && k in h.db.keys && Run(h, steps)
    ensures Quiet(h, steps, k)
    decreases |steps|
  {
    hide Inv, Apply, Enabled, StepOf;
    if steps != [] {
      if StepOf(h, steps[0], k) { StepIsQuiet(h, steps[0], k); }
      StepKeeps(h, steps[0]);
      RunIsQuiet(Apply(h, steps[0]), steps[1..], k);
    }
  }

  lemma OneOrderMade(h: Host, k: Uuid)
    requires Inv(h) && k in h.db.keys
    ensures h.db.keys[k].response.Some? && OrdersOf(h, k) == {h.db.keys[k].response.value.id}
  {
    hide ClaimsOk, CacheOk, PhasesOk, CreatedRowsOk, ReplaysOk;
    assert KeyOk(h.db.keys[k], k, h.made, h.requests);
  }

  /** Once a key is committed, then in every run from there, with any number of retries, of new requests with the same
      or another body, of crashes and cache failures, no request with that key changes the database again, and the one
      order made under the key stays the only one. */
  lemma CommittedKeyChangesNothing(h: Host, steps: seq<Step>, k: Uuid)
    requires Reachable(h) && k in h.db.keys && Run(h, steps)
    ensures Quiet(h, steps, k)
    ensures |OrdersOf(h, k)| == 1 && OrdersOf(After(h, steps), k) == OrdersOf(h, k)
  {
    hide Reachable, Inv, OrdersOf, Quiet;
    ReachableInv(h);
    RunIsQuiet(h, steps, k);
    RunKeeps(h, steps);
    OneOrderMade(h, k);
    OneOrderMade(After(h, steps), k);
  }

  /** Along any run, a committed key row, with the response it replays, never changes. */
  lemma CommittedKeyIsFinal(h: Host, steps: seq<Step>, k: Uuid)
    requires Reachable(h) && Run(h, steps) && k in h.db.keys
    ensures k in After(h, steps).db.keys && After(h, steps).db.keys[k] == h.db.keys[k]
  {
    ReachableInv(h);
    RunKeeps(h, steps);
  }

  /** The Redis fast path refines plain Postgres: whatever is cached, for whatever body, the cached entry and the
      committed row give the same outcome. */
  lemma FastPathRefines(h: Host, k: Uuid, hash: string)
    requires Reachable(h) && k in h.cache
    ensures k in h.db.keys && FromCache(h.cache[k], hash) == FromRow(h.db.keys[k], hash)
  {
    ReachableInv(h);
  }

  /** So for a committed key, looking in the cache and looking in the table end the same way, Redis up or down. */
  lemma EitherPathSameOutcome(h: Host, rid: nat)
    requires Reachable(h) && PhaseOf(h, rid) == Start && h.requests[rid].key in h.db.keys
    ensures var viaTable := Apply(Apply(h, LookInCache(rid, false)), LookInTable(rid));
            h.requests[rid].key in h.cache ==> Apply(h, LookInCache(rid, true)) == viaTable
  {
    var key := h.requests[rid].key;
    if key in h.cache {
      FastPathRefines(h, key, h.requests[rid].hash);
      hide Reachable, FromCache, FromRow;
      var viaTable := Apply(Apply(h, LookInCache(rid, false)), LookInTable(rid));
      assert viaTable.requests == Apply(h, LookInCache(rid, true)).requests;
    }
  }
}
