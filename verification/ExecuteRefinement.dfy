/** One call of the service's `Execute` is a run of the concurrent protocol: what `Idempotency` proves about every
    reachable host therefore holds of the code's own method. */
module ExecuteRefinement {
  import opened Events
  import opened Idempotency
  import opened OrderService
  import Orders

  lemma {:induction false} Extend(h: Host, steps: seq<Step>, step: Step)
    requires Run(h, steps) && Enabled(After(h, steps), step)
    ensures Run(h, steps + [step]) && After(h, steps + [step]) == Apply(After(h, steps), step)
    decreases |steps|
  {
    hide Apply, Enabled;
    if steps == [] {
      assert steps + [step] == [step];
      assert [step][1..] == [];
    } else {
      assert (steps + [step])[1..] == steps[1..] + [step];
      Extend(Apply(h, steps[0]), steps[1..], step);
    }
  }

  lemma {:induction false} Concat(h: Host, a: seq<Step>, b: seq<Step>)
    requires Run(h, a) && Run(After(h, a), b)
    ensures Run(h, a + b) && After(h, a + b) == After(After(h, a), b)
    decreases |a|
  {
    hide Apply, Enabled;
    if a == [] {
      assert a + b == b;
    } else {
      assert (a + b)[1..] == a[1..] + b;
      Concat(Apply(h, a[0]), a[1..], b);
    }
  }

  /** A request as it stands in a given phase. */
  function In(h: Host, rid: nat, r: Request): Host {
    h.(requests := h.requests[rid := r])
  }

  /** Arriving and missing the cache. */
  lemma Arrives(h: Host, rid: nat, r: Request, up: bool) returns (steps: seq<Step>)
    requires rid !in h.requests && r.phase == Start && !(up && r.key in h.cache)
    ensures Run(h, steps) && After(h, steps) == In(h, rid, r.(phase := Missed))
  {
    var arrive, look := Arrive(rid, r.key, r.hash, r.dto), LookInCache(rid, up);
    Extend(h, [], arrive);
    Extend(h, [arrive], look);
    assert [arrive] + [look] == [arrive, look] && [] + [arrive] == [arrive];
    assert After(h, [arrive, look]).requests == h.requests[rid := r.(phase := Missed)];
    steps := [arrive, look];
  }

  lemma One(h: Host, step: Step)
    requires Enabled(h, step)
    ensures Run(h, [step]) && After(h, [step]) == Apply(h, step)
  {
    hide Apply, Enabled;
    assert [step][1..] == [];
  }

  lemma Claims(h: Host, rid: nat, r: Request)
    requires rid in h.requests && h.requests[rid] == r && r.phase == Claiming
    requires r.key !in h.db.keys && r.key !in h.claims
    ensures Run(h, [Claim(rid)])
    ensures After(h, [Claim(rid)]) == In(h, rid, r.(phase := Working)).(claims := h.claims[r.key := rid])
  {
    One(h, Claim(rid));
  }

  lemma CommitsClaim(h: Host, rid: nat, r: Request, ids: Orders.Ids, acked: bool)
    requires rid in h.requests && h.requests[rid] == r && r.phase == Working
    requires Orders.CreateOrder(h.db, r.key, r.hash, r.dto, ids).Commit?
    ensures Run(h, [Step.Commit(rid, ids, acked)])
    ensures var next := After(h, [Step.Commit(rid, ids, acked)]);
            && next.db == Orders.CreateOrder(h.db, r.key, r.hash, r.dto, ids).db && next.cache == h.cache
            && next.claims == h.claims - {r.key}
            && next.requests == h.requests[rid := r.(phase := PhaseFor(r, ids, acked))]
  {
    One(h, Step.Commit(rid, ids, acked));
  }

  /** A request that goes on to claim an unused key and commits at once. */
  lemma Commits(h: Host, rid: nat, r: Request, ids: Orders.Ids) returns (steps: seq<Step>)
    requires rid !in h.requests && r.phase == Start && r.key !in h.db.keys && r.key !in h.claims
    requires Orders.CreateOrder(h.db, r.key, r.hash, r.dto, ids).Commit?
    ensures Run(h, steps)
    ensures var next := After(h, steps);
            && next.db == Orders.CreateOrder(h.db, r.key, r.hash, r.dto, ids).db && next.cache == h.cache
            && next.claims == h.claims && next.requests.Keys == h.requests.Keys + {rid}
            && forall i :: i in h.requests ==> next.requests[i] == h.requests[i]
  {
    hide Orders.CreateOrder;
    steps := Arrives(h, rid, r, false);
    Extend(h, steps, LookInTable(rid));
    steps := steps + [LookInTable(rid)];
    var looked := After(h, steps);
    hide Apply, Enabled, Run, After;
    Claims(looked, rid, r.(phase := Claiming));
    Concat(h, steps, [Claim(rid)]);
    steps := steps + [Claim(rid)];
    CommitsClaim(After(h, steps), rid, r.(phase := Working), ids, false);
    Concat(h, steps, [Step.Commit(rid, ids, false)]);
    steps := steps + [Step.Commit(rid, ids, false)];
    assert After(h, steps).claims == h.claims;
  }

  lemma RivalRuns(h: Host, rid: nat, key: Uuid, rival: Option<Rival>) returns (steps: seq<Step>)
    requires rid !in h.requests && key !in h.db.keys && key !in h.claims
    ensures Run(h, steps)
    ensures var next := After(h, steps);
            && next.db == AfterRival(h.db, key, rival) && next.cache == h.cache && next.claims == h.claims
            && forall i :: i in h.requests ==> i in next.requests && next.requests[i] == h.requests[i]
  {
    hide Apply, Enabled, Orders.CreateOrder;
    if rival.Some? && Orders.CreateOrder(h.db, key, rival.value.hash, rival.value.dto, rival.value.ids).Commit? {
      steps := Commits(h, rid, Request(key, rival.value.hash, rival.value.dto, Start), rival.value.ids);
    } else {
      steps := [];
    }
  }

  /** From the claim on, when the key is free and the work can commit. */
  lemma FinishesCommitted(h: Host, rid: nat, r: Request, ids: Orders.Ids, up: bool, weather: Weather)
    returns (steps: seq<Step>)
    requires rid in h.requests && h.requests[rid] == r && r.phase == Claiming && r.key !in h.claims
    requires r.key !in h.db.keys && weather.fate != Aborts
    requires Orders.CreateOrder(h.db, r.key, r.hash, r.dto, ids).Commit?
    ensures Run(h, steps)
    ensures var x, next := Transacted(h.db, h.cache, up, r.key, r.hash, r.dto, ids, weather), After(h, steps);
            next.db == x.db && next.cache == x.cache && PhaseOf(next, rid) == Done(x.outcome)
  {
    hide Orders.CreateOrder, Orders.NewOrder, Run, After;
    var acked := weather.fate == Fate.Commits;
    Claims(h, rid, r);
    CommitsClaim(After(h, [Claim(rid)]), rid, r.(phase := Working), ids, acked);
    Concat(h, [Claim(rid)], [Step.Commit(rid, ids, acked)]);
    steps := [Claim(rid)] + [Step.Commit(rid, ids, acked)];
    if acked {
      var fill := Fill(rid, up && !weather.setFails);
      Extend(h, steps, fill);
      steps := steps + [fill];
    }
  }

  /** From the claim on, when the transaction does not commit. */
  lemma FinishesUncommitted(h: Host, rid: nat, r: Request, ids: Orders.Ids, up: bool, weather: Weather)
    returns (steps: seq<Step>)
    requires rid in h.requests && h.requests[rid] == r && r.phase == Claiming && r.key !in h.claims
    requires weather.fate == Aborts || !Orders.CreateOrder(h.db, r.key, r.hash, r.dto, ids).Commit?
    ensures Run(h, steps)
    ensures var x, next := Transacted(h.db, h.cache, up, r.key, r.hash, r.dto, ids, weather), After(h, steps);
            next.db == x.db && next.cache == x.cache && PhaseOf(next, rid) == Done(x.outcome)
  {
    if r.key in h.db.keys {
      One(h, Claim(rid));
      var last := if weather.fate == Aborts then GiveUp(rid) else Reread(rid);
      Extend(h, [Claim(rid)], last);
      steps := [Claim(rid)] + [last];
    } else {
      Claims(h, rid, r);
      Extend(h, [Claim(rid)], Abort(rid));
      steps := [Claim(rid)] + [Abort(rid)];
    }
  }

  /** From the claim on. */
  lemma Finishes(h: Host, rid: nat, r: Request, ids: Orders.Ids, up: bool, weather: Weather) returns (steps: seq<Step>)
    requires rid in h.requests && h.requests[rid] == r && r.phase == Claiming && r.key !in h.claims
    ensures Run(h, steps)
    ensures var x, next := Transacted(h.db, h.cache, up, r.key, r.hash, r.dto, ids, weather), After(h, steps);
            next.db == x.db && next.cache == x.cache && PhaseOf(next, rid) == Done(x.outcome)
  {
    hide Transacted, Run, After, PhaseOf;
    if weather.fate == Aborts || !Orders.CreateOrder(h.db, r.key, r.hash, r.dto, ids).Commit? {
      steps := FinishesUncommitted(h, rid, r, ids, up, weather);
    } else {
      steps := FinishesCommitted(h, rid, r, ids, up, weather);
    }
  }

  // ---- a key that is already claimed -----------------------------------------------

  /** What becomes of a transaction that holds the key when the call starts. */
  datatype Holder = NoHolder | HolderCommits(ids: Orders.Ids) | HolderAborts | HolderKeeps

  /** A holder that commits is the rival that gets in first; one that keeps the key has the call time out on it. */
  predicate Fits(h: Host, key: Uuid, holder: Holder, weather: Weather) {
    if key !in h.claims then holder == NoHolder
    else
      match holder
      case NoHolder => false
      case HolderCommits(ids) =>
        h.claims[key] in h.requests &&
        weather.rival == Some(Rival(h.requests[h.claims[key]].hash, h.requests[h.claims[key]].dto, ids))
      case HolderAborts => true
      case HolderKeeps => weather.fate == Aborts && weather.rival == None
  }

  predicate Holds(h: Host, key: Uuid, rid: nat) {
    && key in h.claims && h.claims[key] == rid && rid in h.requests
    && h.requests[rid].key == key && h.requests[rid].phase == Working
  }

  lemma HolderGivesUp(h: Host, key: Uuid, rid: nat)
    requires Holds(h, key, rid)
    ensures Run(h, [Abort(rid)])
    ensures After(h, [Abort(rid)])
         == In(h, rid, h.requests[rid].(phase := Done(Failed))).(claims := h.claims - {key})
  {
    One(h, Abort(rid));
  }

  /** The key comes free, by a commit, an abort, or because nobody held it; `me` is only waiting. */
  lemma KeyComesFree(h: Host, me: nat, rivalId: nat, key: Uuid, holder: Holder, weather: Weather)
    returns (steps: seq<Step>)
    requires me in h.requests && rivalId !in h.requests && key !in h.db.keys
    requires Fits(h, key, holder, weather) && !holder.HolderKeeps?
    requires key in h.claims ==> Holds(h, key, h.claims[key]) && h.claims[key] != me
    ensures Run(h, steps)
    ensures var next := After(h, steps);
            && next.db == AfterRival(h.db, key, weather.rival) && next.cache == h.cache && key !in next.claims
            && me in next.requests && next.requests[me] == h.requests[me]
  {
    hide Apply, Enabled, Orders.CreateOrder, Run, After;
    if holder == NoHolder {
      steps := RivalRuns(h, rivalId, key, weather.rival);
    } else {
      var rid := h.claims[key];
      var r := h.requests[rid];
      if holder.HolderCommits? && Orders.CreateOrder(h.db, key, r.hash, r.dto, holder.ids).Commit? {
        steps := [Step.Commit(rid, holder.ids, false)];
        CommitsClaim(h, rid, r, holder.ids, false);
      } else {
        HolderGivesUp(h, key, rid);
        var rivals := RivalRuns(After(h, [Abort(rid)]), rivalId, key,
          if holder.HolderCommits? then None else weather.rival);
        steps := [Abort(rid)] + rivals;
        Concat(h, [Abort(rid)], rivals);
      }
    }
  }

  // ---- the whole call --------------------------------------------------------------

  lemma HitsCache(h: Host, rid: nat, r: Request) returns (steps: seq<Step>)
    requires rid !in h.requests && r.phase == Start && r.key in h.cache
    ensures Run(h, steps)
    ensures After(h, steps) == In(h, rid, r.(phase := Done(FromCache(h.cache[r.key], r.hash))))
  {
    hide FromCache;
    var arrive, look := Arrive(rid, r.key, r.hash, r.dto), LookInCache(rid, true);
    One(h, arrive);
    Extend(h, [arrive], look);
    steps := [arrive] + [look];
    assert After(h, steps).requests == h.requests[rid := r.(phase := Done(FromCache(h.cache[r.key], r.hash)))];
  }

  /** Missing the cache and looking in the table. */
  lemma Looks(h: Host, rid: nat, r: Request, up: bool) returns (steps: seq<Step>)
    requires rid !in h.requests && r.phase == Start && !(up && r.key in h.cache)
    ensures Run(h, steps)
    ensures After(h, steps) == In(h, rid, r.(phase :=
              if r.key in h.db.keys then Done(FromRow(h.db.keys[r.key], r.hash)) else Claiming))
  {
    hide FromRow;
    steps := Arrives(h, rid, r, up);
    Extend(h, steps, LookInTable(rid));
    steps := steps + [LookInTable(rid)];
    assert After(h, steps).requests == h.requests[rid := r.(phase :=
             if r.key in h.db.keys then Done(FromRow(h.db.keys[r.key], r.hash)) else Claiming)];
  }

  /** From a table without the key on. */
  lemma Proceeds(h: Host, rid: nat, rivalId: nat, r: Request, ids: Orders.Ids, up: bool, weather: Weather,
                 holder: Holder) returns (steps: seq<Step>)
    requires rid in h.requests && h.requests[rid] == r && r.phase == Claiming && r.key !in h.db.keys
    requires rivalId !in h.requests && Fits(h, r.key, holder, weather)
    requires r.key in h.claims ==> Holds(h, r.key, h.claims[r.key]) && h.claims[r.key] != rid
    ensures Run(h, steps)
    ensures var x, next := Transacted(AfterRival(h.db, r.key, weather.rival), h.cache, up, r.key, r.hash, r.dto, ids,
                             weather), After(h, steps);
            next.db == x.db && next.cache == x.cache && PhaseOf(next, rid) == Done(x.outcome)
  {
    if holder.HolderKeeps? {
      steps := [GiveUp(rid)];
      One(h, GiveUp(rid));
      TimesOut(h.db, h.cache, up, r.key, r.hash, r.dto, ids, weather);
    } else {
      hide Apply, Enabled, Run, After, Transacted, AfterRival, Fits, Holds, PhaseOf;
      var others := KeyComesFree(h, rid, rivalId, r.key, holder, weather);
      var rest := Finishes(After(h, others), rid, r, ids, up, weather);
      Concat(h, others, rest);
      steps := others + rest;
    }
  }

  /** A newcomer leaves the holder as it is. */
  lemma StillFits(h: Host, rid: nat, r: Request, holder: Holder, weather: Weather)
    requires Inv(h) && rid !in h.requests && Fits(h, r.key, holder, weather)
    ensures var next := In(h, rid, r);
            && Fits(next, r.key, holder, weather)
            && (r.key in next.claims ==> Holds(next, r.key, next.claims[r.key]) && next.claims[r.key] != rid)
  {
    if r.key in h.claims { HolderHolds(h, r.key); }
    hide Inv;
  }

  /** Every call of `Execute`, whatever its weather and even if another request's transaction holds the key when it
      starts, is a run of the protocol with the same effect on the database and the cache and the same outcome for the
      client. */
  lemma ExecuteIsARun(h: Host, rid: nat, rivalId: nat, key: Uuid, hash: string, dto: Orders.Dto, ids: Orders.Ids,
                      up: bool, weather: Weather, holder: Holder) returns (steps: seq<Step>)
    requires Inv(h) && rid !in h.requests && rivalId !in h.requests && rid != rivalId
    requires Fits(h, key, holder, weather)
    ensures Run(h, steps)
    ensures var x, next := ExecutedFrom(h.db, h.cache, up, key, hash, dto, ids, weather), After(h, steps);
            next.db == x.db && next.cache == x.cache && PhaseOf(next, rid) == Done(x.outcome)
  {
    var r := Request(key, hash, dto, Start);
    StillFits(h, rid, r.(phase := Claiming), holder, weather);
    hide Inv, Apply, Enabled, Run, After, FromCache, FromRow, Transacted, AfterRival, Fits, Holds;
    if up && !weather.getFails && key in h.cache {
      steps := HitsCache(h, rid, r);
    } else {
      steps := Looks(h, rid, r, up && !weather.getFails);
      if key !in h.db.keys {
        var rest := Proceeds(After(h, steps), rid, rivalId, r.(phase := Claiming), ids, up, weather, holder);
        Concat(h, steps, rest);
        steps := steps + rest;
      }
    }
  }

  lemma HolderHolds(h: Host, key: Uuid)
    requires Inv(h) && key in h.claims
    ensures Holds(h, key, h.claims[key])
  {
    hide KeysOk, MadeOk, CacheOk, PhasesOk, CreatedRowsOk, ReplaysOk;
  }

  lemma TimesOut(db: Orders.Db, cache: map<Uuid, CacheEntry>, up: bool, key: Uuid, hash: string, dto: Orders.Dto,
                 ids: Orders.Ids, weather: Weather)
    requires weather.fate == Aborts && weather.rival == None
    ensures Transacted(AfterRival(db, key, weather.rival), cache, up, key, hash, dto, ids, weather)
         == Executed(Failed, db, cache)
  {
  }

  /** Once a key is committed, by whichever request and even if its client was never told, `Execute` changes no table,
      replays the committed response for the committed body and answers 422 for any other, Redis up or down. */
  lemma ExecuteReplays(h: Host, key: Uuid, hash: string, dto: Orders.Dto, ids: Orders.Ids, up: bool, weather: Weather)
    requires Reachable(h) && key in h.db.keys
    ensures var x, row := ExecutedFrom(h.db, h.cache, up, key, hash, dto, ids, weather), h.db.keys[key];
            && x.db == h.db && x.cache == h.cache && row.response.Some?
            && x.outcome == if hash == row.requestHash then Replied(row.response, 201, true) else Unprocessable
  {
    hide Reachable, MadeOk, ClaimsOk, PhasesOk, CreatedRowsOk, ReplaysOk;
    ReachableInv(h);
    assert KeyOk(h.db.keys[key], key, h.made, h.requests);
    if key in h.cache {
      FastPathRefines(h, key, hash);
    }
  }

  /** So a client that calls `Execute` and gets a reply is told what every other successful call with that key is
      told; and the tables hold one order for it. */
  lemma ExecuteReplies(h: Host, other: nat, key: Uuid, hash: string, dto: Orders.Dto, ids: Orders.Ids, up: bool,
                       weather: Weather)
    requires Reachable(h) && other in h.requests && h.requests[other].key == key
    requires PhaseOf(h, other).Done? && PhaseOf(h, other).outcome.Replied?
    ensures var x := ExecutedFrom(h.db, h.cache, up, key, hash, dto, ids, weather);
            x.db == h.db && x.outcome ==
              if hash == h.requests[other].hash then Replied(PhaseOf(h, other).outcome.response, 201, true)
              else Unprocessable
  {
    hide Reachable, KeysOk, MadeOk, ClaimsOk, PhasesOk, CacheOk, CreatedRowsOk, ReplaysOk, ExecutedFrom;
    ReachableInv(h);
    PhasesHold(h, other);
    ExecuteReplays(h, key, hash, dto, ids, up, weather);
  }

  lemma PhasesHold(h: Host, rid: nat)
    requires Inv(h) && rid in h.requests
    ensures PhaseOk(h.requests[rid], h.db.keys)
  {
  }
}
