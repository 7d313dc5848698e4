/** The order service as it runs: POST /orders behind the idempotency key, and the saga's consumers. */
module OrderService {
  import opened Events
  import opened Orders
  import opened ProcessOnce
  import opened Totals
  import Outbox
  import I = Idempotency

  /** Redis, best effort: `healthy` follows the connection's events, and any single command may still fail. */
  class RedisCache {
    var healthy: bool
    var entries: map<Uuid, I.CacheEntry>

    constructor ()
      ensures !healthy && entries == map[]
    {
      healthy, entries := false, map[];
    }

    /** The client's `ready` and `error` events. */
    method ConnectionChanges(up: bool)
      modifies this`healthy
      ensures healthy == up
    {
      healthy := up;
    }

    /** A key's time to live runs out. */
    method Expires(key: Uuid)
      modifies this`entries
      ensures entries == old(entries) - {key}
    {
      entries := entries - {key};
    }

    method Get(key: Uuid, commandFails: bool) returns (found: Option<I.CacheEntry>)
      ensures found.Some? <==> healthy && !commandFails && key in entries
      ensures found.Some? ==> found.value == entries[key]
    {
      if !healthy || commandFails || key !in entries {
        return None;
      }
      return Some(entries[key]);
    }

    method SetEx(key: Uuid, entry: I.CacheEntry, commandFails: bool)
      modifies this`entries
      ensures entries == if healthy && !commandFails then old(entries)[key := entry] else old(entries)
    {
      if healthy && !commandFails {
        entries := entries[key := entry];
      }
    }
  }

  /** Another request for the same key whose transaction gets in first. */
  datatype Rival = Rival(hash: string, dto: Dto, ids: Ids)

  /** What the surroundings do to one `execute`. */
  datatype Weather = Weather(getFails: bool, rival: Option<Rival>, fate: Fate, setFails: bool)

  function AfterRival(db: Db, key: Uuid, rival: Option<Rival>): Db {
    if rival.None? then db
    else
      match CreateOrder(db, key, rival.value.hash, rival.value.dto, rival.value.ids)
      case Commit(next) => next
      case _ => db
  }

  /** Whether a request for an unused key commits: its order id is unused and its total fits an INTEGER. */
  predicate WouldCommit(orders: map<Uuid, Order>, request: Option<Rival>) {
    && request.Some? && request.value.ids.orderId !in orders
    && ExactTotal(request.value.dto.items) <= 2147483647
  }

  class Service {
    const round: int -> int
    const redis: RedisCache
    var keys: map<Uuid, KeyRow>
    var orders: map<Uuid, Order>
    var outbox: seq<Outbox.Row>
    var processed: seq<Uuid>

    constructor (round: int -> int, redis: RedisCache)
      ensures this.round == round && this.redis == redis && View() == EMPTY
    {
      this.round, this.redis := round, redis;
      keys, orders, outbox, processed := map[], map[], [], [];
    }

    function View(): Db
      reads this
    {
      Db(keys, orders, outbox, processed)
    }

    /** What `createOrder` does inside the transaction: total, order row, staged event, response. */
    method InsertOrder(dto: Dto, ids: Ids) returns (ending: Ending, response: Response)
      requires Rounding(round) && ValidDto(dto)
      modifies this
      ensures keys == old(keys) && processed == old(processed) && ending ==
                (if ids.orderId in old(orders) then Violated else if FitsColumns(dto.items) then Finished else Threw)
      ensures ending == Finished ==>
                && response == Response(ids.orderId, NewOrder(dto, ids))
                && orders == old(orders)[ids.orderId := NewOrder(dto, ids)]
                && outbox == Outbox.Enqueue(old(outbox), CreatedEvent(NewOrder(dto, ids), ids))
    {
      var currency := if dto.currency.Some? then dto.currency.value else "USD";
      var total := Sum(round, dto.items);
      assert ColumnsTake(total, dto.items) == FitsColumns(dto.items)
          && (FitsColumns(dto.items) ==> total == ExactTotal(dto.items)) by { StoredTotalIsExact(round, dto.items); }
      hide ExactTotal, NumberTotal, Rounding, PositiveItems, ColumnsTake, FitsColumns;
      var order :=
        Order(dto.customerId, Pending, LegPending, LegPending, total, currency, ids.correlationId, dto.items);
      response := Response(ids.orderId, order);
      if ids.orderId in orders {
        return Violated, response;
      }
      if !ColumnsTake(total, dto.items) {
        return Threw, response;
      }
      orders := orders[ids.orderId := order];
      outbox := Outbox.Enqueue(outbox,
        Event(ids.eventId, ids.correlationId, ids.orderId, OrderCreated(dto.customerId, dto.items, total, currency)));
      return Finished, response;
    }

    /** The body of the POST transaction: an IN_PROGRESS key, the work, the completed key. */
    method PlaceOrder(key: Uuid, hash: string, dto: Dto, ids: Ids) returns (ending: Ending)
      requires Rounding(round) && ValidDto(dto)
      modifies this
      ensures EndsAs(CreateOrder(old(View()), key, hash, dto, ids), ending, View())
    {
      hide ExactTotal, NumberTotal, Rounding, PositiveItems, FitsColumns;
      if key in keys {
        return Violated;
      }
      keys := keys[key := KeyRow(hash, InProgress, None, None)];
      var response;
      ending, response := InsertOrder(dto, ids);
      if ending == Finished {
        var row := KeyRow(hash, Completed, Some(response), Some(201));
        keys := keys[key := row];
        assert keys == old(keys)[key := row];
      }
    }

    /** The same body as a transaction. */
    method Transact(key: Uuid, hash: string, dto: Dto, ids: Ids, fate: Fate) returns (ending: Ending)
      requires Rounding(round) && ValidDto(dto)
      modifies this
      ensures var work := CreateOrder(old(View()), key, hash, dto, ids);
              && View() == (if work.Commit? && fate != Aborts then work.db else old(View()))
              && (ending == Finished <==> work.Commit? && fate == Commits)
              && (ending == Violated <==> work.UniqueViolation? && fate != Aborts)
    {
      var before := View();
      ending := PlaceOrder(key, hash, dto, ids);
      if ending != Finished || fate == Aborts {
        keys, orders, outbox, processed := before.keys, before.orders, before.outbox, before.processed;
      }
      if fate == Aborts || (ending == Finished && fate == AckLost) {
        ending := Threw;
      }
    }

    /** `execute`: the cache, then the table, then the transaction, then the cache again. A first request that commits
        is answered with its order unless the acknowledgement is lost; the client gets an error only then, on an abort,
        or if the request cannot commit and no rival has. */
    method Execute(key: Uuid, hash: string, dto: Dto, ids: Ids, weather: Weather) returns (outcome: I.Outcome)
      requires Rounding(round) && ValidDto(dto)
      requires weather.rival.Some? ==> ValidDto(weather.rival.value.dto)
      modifies this, redis`entries
      ensures Executed(outcome, View(), redis.entries) ==
              ExecutedFrom(old(View()), old(redis.entries), old(redis.healthy), key, hash, dto, ids, weather)
      ensures
        if old(redis.healthy) && !weather.getFails && key in old(redis.entries) then
          var entry := old(redis.entries)[key];
          && View() == old(View()) && redis.entries == old(redis.entries)
          && outcome == if hash == entry.hash then I.Replied(Some(entry.response), entry.statusCode, true)
                        else I.Unprocessable
        else if key in old(keys) then
          var row := old(keys)[key];
          && View() == old(View()) && redis.entries == old(redis.entries)
          && (outcome == I.Unprocessable <==> hash != row.requestHash)
          && (outcome == I.Conflict <==> hash == row.requestHash && row.status == InProgress)
          && (hash == row.requestHash && row.status == Completed ==>
                outcome == I.Replied(row.response, if row.statusCode == None then 200 else row.statusCode.value, true))
        else if WouldCommit(old(orders), weather.rival) && weather.fate != Aborts then
          var r := weather.rival.value;
          && Placed(old(View()), View(), key, r.hash, r.dto, r.ids) && redis.entries == old(redis.entries)
          && var response := Response(r.ids.orderId, orders[r.ids.orderId]);
          && outcome == if hash == r.hash then I.Replied(Some(response), 201, true) else I.Unprocessable
        else if WouldCommit(old(orders), Some(Rival(hash, dto, ids))) && weather.fate != Aborts then
          && Placed(old(View()), View(), key, hash, dto, ids)
          && var response := Response(ids.orderId, orders[ids.orderId]);
          && outcome == (if weather.fate == AckLost then I.Failed else I.Replied(Some(response), 201, false))
          && redis.entries == if old(redis.healthy) && !weather.setFails && outcome != I.Failed
                              then old(redis.entries)[key := I.CacheEntry(hash, response, 201)]
                              else old(redis.entries)
        else
          && outcome == I.Failed && redis.entries == old(redis.entries)
          && if WouldCommit(old(orders), weather.rival)
             then var r := weather.rival.value; Placed(old(View()), View(), key, r.hash, r.dto, r.ids)
             else View() == old(View())
    {
      var cached := redis.Get(key, weather.getFails);
      if cached.Some? {
        return I.FromCache(cached.value, hash);
      }
      if key in keys {
        return I.FromRow(keys[key], hash);
      }
      CreatedAsRequested(View(), key, hash, dto, ids);
      if weather.rival.Some? {
        CreatedAsRequested(View(), key, weather.rival.value.hash, weather.rival.value.dto, weather.rival.value.ids);
        var _ := Transact(key, weather.rival.value.hash, weather.rival.value.dto, weather.rival.value.ids, Commits);
      }
      var ending := Transact(key, hash, dto, ids, weather.fate);
      match ending
      case Finished =>
        var row := keys[key];
        redis.SetEx(key, I.CacheEntry(hash, row.response.value, 201), weather.setFails);
        return I.Replied(row.response, 201, false);
      case Violated =>
        return if key in keys then I.FromRow(keys[key], hash) else I.Failed;
      case Threw =>
        return I.Failed;
    }

    /** Whatever other transactions of this service commit. */
    method OthersCommit(later: Db)
      modifies this
      ensures View() == later
    {
      keys, orders, outbox, processed := later.keys, later.orders, later.outbox, later.processed;
    }

    // ---- the saga ------------------------------------------------------------------

    method ApplyLegOutcome(orderId: Uuid, leg: Leg, outcome: LegStatus, eventId: Uuid)
      modifies this
      ensures View() == Orders.ApplyLegOutcome(old(View()), orderId, leg, outcome, eventId)
    {
      if orderId !in orders || orders[orderId].status != Pending {
        return;
      }
      match leg {
        case PaymentLeg => orders := orders[orderId := orders[orderId].(payment := outcome)];
        case InventoryLeg => orders := orders[orderId := orders[orderId].(inventory := outcome)];
      }
      var updated := orders[orderId];
      if updated.payment == Failed || updated.inventory == Failed {
        SettleCancelled(orderId, eventId);
      } else if updated.payment == Succeeded && updated.inventory == Succeeded {
        SettleConfirmed(orderId, eventId);
      }
    }

    method SettleConfirmed(orderId: Uuid, eventId: Uuid)
      requires orderId in orders
      modifies this
      ensures keys == old(keys) && processed == old(processed)
      ensures orders == old(orders)[orderId := old(orders)[orderId].(status := Confirmed)]
      ensures outbox == Outbox.Enqueue(old(outbox), Event(eventId, old(orders)[orderId].correlationId, orderId,
                          OrderConfirmed(old(orders)[orderId].customerId, old(orders)[orderId].totalAmountCents)))
    {
      orders := orders[orderId := orders[orderId].(status := Confirmed)];
      var order := orders[orderId];
      outbox := Outbox.Enqueue(outbox, Event(eventId, order.correlationId, orderId,
        OrderConfirmed(order.customerId, order.totalAmountCents)));
    }

    method SettleCancelled(orderId: Uuid, eventId: Uuid)
      requires orderId in orders
      modifies this
      ensures keys == old(keys) && processed == old(processed)
      ensures orders == old(orders)[orderId := old(orders)[orderId].(status := Cancelled)]
      ensures outbox == Outbox.Enqueue(old(outbox), Event(eventId, old(orders)[orderId].correlationId, orderId,
                          OrderCancelled(old(orders)[orderId].customerId,
                            if old(orders)[orderId].payment == Failed then PaymentFailure else OutOfStock)))
    {
      orders := orders[orderId := orders[orderId].(status := Cancelled)];
      var order := orders[orderId];
      var reason := if order.payment == Failed then PaymentFailure else OutOfStock;
      outbox := Outbox.Enqueue(outbox, Event(eventId, order.correlationId, orderId,
        OrderCancelled(order.customerId, reason)));
    }

    /** `processOnce` around one leg's outcome. */
    method Process(id: Option<Uuid>, orderId: Option<Uuid>, leg: Leg, outcome: LegStatus, eventId: Uuid, fate: Fate)
      returns (threw: bool)
      modifies this
      ensures Delivered(View(), threw)
           == Call(old(View()), AttemptIds(old(View()), id, orderId, leg, outcome, eventId), fate)
    {
      var before := View();
      if id.None? {
        return true;
      }
      if id.value in processed {
        return fate == Aborts;
      }
      processed := processed + [id.value];
      if orderId.Some? {
        ApplyLegOutcome(orderId.value, leg, outcome, eventId);
      }
      if orderId.None? || fate == Aborts {
        keys, orders, outbox, processed := before.keys, before.orders, before.outbox, before.processed;
      }
      threw := orderId.None? || fate != Commits;
    }

    /** The four saga handlers. */
    method Receive(e: Event, eventId: Uuid, fate: Fate) returns (threw: bool)
      requires Orders.Subscribed(e.payload)
      modifies this
      ensures Delivered(View(), threw) == Call(old(View()), Attempt(old(View()), e, eventId), fate)
      ensures fate != Aborts ==> View() == Orders.Handle(old(View()), e, eventId)
    {
      match e.payload {
        case PaymentCompleted(_, _, _) =>
          threw := Process(Some(e.eventId), Some(e.orderId), PaymentLeg, Succeeded, eventId, fate);
        case PaymentFailed(_) =>
          threw := Process(Some(e.eventId), Some(e.orderId), PaymentLeg, Failed, eventId, fate);
        case InventoryReserved(_, _) =>
          threw := Process(Some(e.eventId), Some(e.orderId), InventoryLeg, Succeeded, eventId, fate);
        case InventoryRejected(_) =>
          threw := Process(Some(e.eventId), Some(e.orderId), InventoryLeg, Failed, eventId, fate);
      }
    }
  }

  // ---- what one `execute` does -----------------------------------------------------

  datatype Executed = Executed(outcome: I.Outcome, db: Db, cache: map<Uuid, I.CacheEntry>)

  /** The transaction and what follows it. */
  function Transacted(db: Db, cache: map<Uuid, I.CacheEntry>, up: bool, key: Uuid, hash: string, dto: Dto, ids: Ids,
                      weather: Weather): Executed
  {
    if weather.fate == Aborts then
      Executed(I.Failed, db, cache)
    else
      match CreateOrder(db, key, hash, dto, ids)
      case UniqueViolation =>
        Executed(if key in db.keys then I.FromRow(db.keys[key], hash) else I.Failed, db, cache)
      case Throws =>
        Executed(I.Failed, db, cache)
      case Commit(next) =>
        if weather.fate == AckLost then Executed(I.Failed, next, cache)
        else
          var response := Response(ids.orderId, NewOrder(dto, ids));
          Executed(I.Replied(Some(response), 201, false), next,
            if up && !weather.setFails then cache[key := I.CacheEntry(hash, response, 201)] else cache)
  }

  function ExecutedFrom(db: Db, cache: map<Uuid, I.CacheEntry>, up: bool, key: Uuid, hash: string, dto: Dto, ids: Ids,
                        weather: Weather): Executed
  {
    if up && !weather.getFails && key in cache then
      Executed(I.FromCache(cache[key], hash), db, cache)
    else if key in db.keys then
      Executed(I.FromRow(db.keys[key], hash), db, cache)
    else
      Transacted(AfterRival(db, key, weather.rival), cache, up, key, hash, dto, ids, weather)
  }

  /** The event's row in the processed table. */
  function Marked(e: Event): Db -> bool {
    (db: Db) => e.eventId in db.processed
  }

  function Deliveries(e: Event, eventIds: nat -> Uuid): (Db, nat) -> Work<Db>
    requires Orders.Subscribed(e.payload)
  {
    (db: Db, i: nat) => Attempt(db, e, eventIds(i))
  }

  lemma AttemptMarks(db: Db, e: Event, eventId: Uuid)
    requires Orders.Subscribed(e.payload)
    ensures var attempt := Attempt(db, e, eventId);
            if e.eventId in db.processed then attempt == UniqueViolation
            else attempt.Commit? && attempt.db.processed == db.processed + [e.eventId]
  {
  }

  /** Once an outcome has advanced the saga, no redelivery advances it again, whatever was committed since; and nothing
      but its own marker ever stops it. */
  lemma ReceiveDeduplicates(e: Event, eventIds: nat -> Uuid)
    requires Orders.Subscribed(e.payload)
    ensures Deduplicates(Deliveries(e, eventIds), Marked(e))
    ensures forall db, i :: !Marked(e)(db) ==> Deliveries(e, eventIds)(db, i).Commit?
  {
    hide Attempt;
    var work, marked := Deliveries(e, eventIds), Marked(e);
    forall db: Db, i: nat
      ensures if marked(db) then work(db, i) == UniqueViolation
              else work(db, i).Commit? && marked(work(db, i).db)
    {
      assert work(db, i) == Attempt(db, e, eventIds(i));
      AttemptMarks(db, e, eventIds(i));
    }
  }
}
