/** The gateway's fixed-window rate limiter: one Redis counter per identity, started by the first hit of a window. Times
    are in milliseconds, as Redis keeps them; the configured window and the reported time left are in seconds. */
module RateLimit {
  import opened Events

  /** A counter that lives until `expires`. */
  datatype Counter = Counter(count: nat, expires: int)

  /** What one response says: the three headers, and Retry-After on a 429. */
  datatype Headers = Headers(limit: nat, remaining: nat, reset: int, retryAfter: Option<int>)

  datatype Verdict = Verdict(allowed: bool, headers: Option<Headers>)

  /** What a command meets: it works, fails before Redis runs it, or fails after. */
  datatype Command = Works | Fails(ran: bool)

  /** INCR, EXPIRE NX and TTL in one MULTI; an expired key is an absent one. */
  function Hit(counters: map<string, Counter>, key: string, window: nat, now: int): map<string, Counter> {
    counters[key :=
      if key in counters && now < counters[key].expires
      then Counter(counters[key].count + 1, counters[key].expires)
      else Counter(1, now + window)]
  }

  /** TTL reports the time left rounded to the nearest second. */
  function Seconds(ms: nat): (s: nat)
    ensures 1000 * s - 500 <= ms < 1000 * s + 500
  {
    (ms + 500) / 1000
  }

  class Redis {
    var healthy: bool
    var counters: map<string, Counter>

    constructor ()
      ensures !healthy && counters == map[]
    {
      healthy, counters := false, map[];
    }

    /** The client's `ready` and `error` events. */
    method ConnectionChanges(up: bool)
      modifies this`healthy
      ensures healthy == up
    {
      healthy := up;
    }

    method IncrementWindow(key: string, windowSeconds: nat, now: int) returns (count: nat, ttl: int)
      modifies this`counters
      ensures counters == Hit(old(counters), key, 1000 * windowSeconds, now)
      ensures now <= counters[key].expires
      ensures count == counters[key].count && ttl == Seconds(counters[key].expires - now)
    {
      if key in counters && counters[key].expires <= now {
        counters := counters - {key};
      }
      count := if key in counters then counters[key].count + 1 else 1;
      var expires := if key in counters then counters[key].expires else now + 1000 * windowSeconds;
      counters := counters[key := Counter(count, expires)];
      assert counters == Hit(old(counters), key, 1000 * windowSeconds, now);
      ttl := Seconds(expires - now);
      if ttl < 0 {
        ttl := windowSeconds;
      }
    }
  }

  /** One hit of `key`, which no other counter notices. */
  ghost predicate OneHit(key: string, before: map<string, Counter>, after: map<string, Counter>, window: nat,
                         now: int)
  {
    && after == Hit(before, key, window, now)
    && key in after
    && (if key in before && now < before[key].expires
        then after[key] == Counter(before[key].count + 1, before[key].expires)
        else after[key] == Counter(1, now + window))
    && forall k :: k != key ==> (k in after <==> k in before) && (k in before ==> after[k] == before[k])
  }

  /** What the guard answers on a counter: the first `max` hits of a window pass, and the headers say how many are left
      and for how long. */
  ghost predicate Judged(c: Counter, max: nat, now: int, verdict: Verdict) {
    && (verdict.allowed <==> c.count <= max)
    && verdict.headers.Some?
    && var h := verdict.headers.value;
    && h.limit == max && (h.remaining == max - c.count || (h.remaining == 0 && c.count > max))
    && 1000 * h.reset - 500 <= c.expires - now < 1000 * h.reset + 500
    && h.retryAfter == if verdict.allowed then None else Some(h.reset)
  }

  class Guard {
    const max: nat
    const windowSeconds: nat
    const redis: Redis

    constructor (max: nat, windowSeconds: nat, redis: Redis)
      ensures this.max == max && this.windowSeconds == windowSeconds && this.redis == redis
    {
      this.max, this.windowSeconds, this.redis := max, windowSeconds, redis;
    }

    /** Admits up to `max` requests per window and identity: the customer if there is one, else the address. Without
        Redis, everything. */
    method CanActivate(customerId: Option<string>, ip: Option<string>, now: int, command: Command)
      returns (verdict: Verdict)
      modifies redis`counters
      ensures !redis.healthy || command == Fails(false) ==>
                redis.counters == old(redis.counters) && verdict == Verdict(true, None)
      ensures redis.healthy && command == Fails(true) ==> verdict == Verdict(true, None)
      ensures redis.healthy && command != Fails(false) ==>
                && (forall c :: customerId == Some(c) ==>
                      OneHit(c, old(redis.counters), redis.counters, 1000 * windowSeconds, now))
                && (forall i :: customerId == None && ip == Some(i) ==>
                      OneHit(i, old(redis.counters), redis.counters, 1000 * windowSeconds, now))
                && (customerId == None && ip == None ==>
                      OneHit("anonymous", old(redis.counters), redis.counters, 1000 * windowSeconds, now))
      ensures redis.healthy && command == Works ==>
                && (forall c :: customerId == Some(c) ==> Judged(redis.counters[c], max, now, verdict))
                && (forall i :: customerId == None && ip == Some(i) ==>
                      Judged(redis.counters[i], max, now, verdict))
                && (customerId == None && ip == None ==> Judged(redis.counters["anonymous"], max, now, verdict))
    {
      if !redis.healthy || command == Fails(false) {
        return Verdict(true, None);
      }
      var key := if customerId.Some? then customerId.value else if ip.Some? then ip.value else "anonymous";
      var count, ttl := redis.IncrementWindow(key, windowSeconds, now);
      if command != Works {
        return Verdict(true, None);
      }
      var remaining := if max >= count then max - count else 0;
      if count > max {
        return Verdict(false, Some(Headers(max, remaining, ttl, Some(ttl))));
      }
      return Verdict(true, Some(Headers(max, remaining, ttl, None)));
    }
  }

  // ---- histories while Redis is healthy --------------------------------------------

  datatype Request = Request(key: string, time: int)

  ghost predicate InOrder(history: seq<Request>) {
    forall i, j :: 0 <= i < j < |history| ==> history[i].time <= history[j].time
  }

  function Counters(window: nat, history: seq<Request>): map<string, Counter> {
    if history == [] then map[]
    else
      var last := history[|history| - 1];
      Hit(Counters(window, history[..|history| - 1]), last.key, window, last.time)
  }

  /** Whether the guard admits the last request of a history. */
  predicate AdmitsLast(max: nat, window: nat, history: seq<Request>)
    requires history != []
  {
    Counters(window, history)[history[|history| - 1].key].count <= max
  }

  /** Admitted requests of `key` at or after `a`. */
  function AdmittedFrom(max: nat, window: nat, history: seq<Request>, key: string, a: int): nat {
    if history == [] then 0
    else
      var last := history[|history| - 1];
      AdmittedFrom(max, window, history[..|history| - 1], key, a)
      + (if last.key == key && a <= last.time && AdmitsLast(max, window, history) then 1 else 0)
  }

  /** Admitted requests of `key` in the half-open interval [a, b). */
  function AdmittedIn(max: nat, window: nat, history: seq<Request>, key: string, a: int, b: int): nat {
    if history == [] then 0
    else
      var last := history[|history| - 1];
      AdmittedIn(max, window, history[..|history| - 1], key, a, b)
      + (if last.key == key && a <= last.time < b && AdmitsLast(max, window, history) then 1 else 0)
  }

  lemma {:induction false} FromSplits(max: nat, window: nat, history: seq<Request>, key: string, a: int, b: int)
    requires a <= b
    ensures AdmittedFrom(max, window, history, key, a)
         == AdmittedIn(max, window, history, key, a, b) + AdmittedFrom(max, window, history, key, b)
  {
    if history != [] { FromSplits(max, window, history[..|history| - 1], key, a, b); }
  }

  lemma {:induction false} NoneLater(max: nat, window: nat, history: seq<Request>, key: string, a: int)
    requires InOrder(history) && (history != [] ==> history[|history| - 1].time < a)
    ensures AdmittedFrom(max, window, history, key, a) == 0
  {
    if history != [] { NoneLater(max, window, history[..|history| - 1], key, a); }
  }

  lemma {:induction false} NeverSeen(max: nat, window: nat, history: seq<Request>, key: string, a: int)
    requires key !in Counters(window, history)
    ensures AdmittedFrom(max, window, history, key, a) == 0
  {
    if history != [] { NeverSeen(max, window, history[..|history| - 1], key, a); }
  }

  /** What a key's counter knows about its history: its window's hits are all those since the window's start, the
      first of them admitted, and what any earlier point has seen since is less than a window's worth more. */
  ghost predicate CounterTells(max: nat, window: nat, history: seq<Request>, key: string, a: int) {
    var counters := Counters(window, history);
    key in counters ==>
      var c := counters[key];
      var start := c.expires - window;
      var inWindow := if c.count <= max then c.count else max;
      && c.count >= 1 && history != [] && start <= history[|history| - 1].time
      && AdmittedFrom(max, window, history, key, start) == inWindow
      && AdmittedFrom(max, window, history, key, c.expires) == 0
      && (start < a ==> AdmittedFrom(max, window, history, key, a) < inWindow)
      && (start - window < a <= start ==> AdmittedFrom(max, window, history, key, a) < inWindow + max)
  }

  lemma {:induction false} CounterIsRight(max: nat, window: nat, history: seq<Request>, key: string, a: int)
    requires max > 0 && window > 0 && InOrder(history)
    ensures CounterTells(max, window, history, key, a)
  {
    if history != [] {
      CounterIsRight(max, window, history[..|history| - 1], key, a);
      CounterStep(max, window, history, key, a);
    }
  }

  lemma CounterStep(max: nat, window: nat, history: seq<Request>, key: string, a: int)
    requires max > 0 && window > 0 && InOrder(history) && history != []
    requires CounterTells(max, window, history[..|history| - 1], key, a)
    ensures CounterTells(max, window, history, key, a)
  {
    var n := |history| - 1;
    var before, last := history[..n], history[n];
    var counters := Counters(window, before);
    if last.key == key {
      if key in counters && last.time < counters[key].expires {
        // the window goes on
      } else {
        // a new window
        if key in counters {
          FromSplits(max, window, before, key, counters[key].expires, last.time);
        } else {
          NeverSeen(max, window, before, key, last.time);
          NeverSeen(max, window, before, key, a);
        }
        NoneLater(max, window, history, key, last.time + window);
        if last.time < a { NoneLater(max, window, history, key, a); }
      }
    }
  }

  // ---- the bounds ------------------------------------------------------------------

  /** Requests of `key` in the half-open interval [a, b), admitted or not. */
  function HitsIn(history: seq<Request>, key: string, a: int, b: int): nat {
    if history == [] then 0
    else
      var last := history[|history| - 1];
      HitsIn(history[..|history| - 1], key, a, b) + (if last.key == key && a <= last.time < b then 1 else 0)
  }

  lemma {:induction false} NoHits(history: seq<Request>, key: string, a: int, b: int)
    requires forall i :: 0 <= i < |history| && history[i].key == key ==> history[i].time < a
    ensures HitsIn(history, key, a, b) == 0
  {
    if history != [] { NoHits(history[..|history| - 1], key, a, b); }
  }

  /** The counter counts exactly the requests since its window began, and there are none beyond the window. */
  lemma {:induction false} CounterCounts(window: nat, history: seq<Request>, key: string)
    requires window > 0 && InOrder(history)
    ensures key !in Counters(window, history) ==> forall i :: 0 <= i < |history| ==> history[i].key != key
    ensures key in Counters(window, history) ==>
              var c := Counters(window, history)[key];
              && (forall i :: 0 <= i < |history| && history[i].key == key ==> history[i].time < c.expires)
              && c.count == HitsIn(history, key, c.expires - window, c.expires)
              && history != [] && c.expires - window <= history[|history| - 1].time
  {
    if history != [] {
      var n := |history| - 1;
      var before, last := history[..n], history[n];
      CounterCounts(window, before, key);
      if last.key == key && !(key in Counters(window, before) && last.time < Counters(window, before)[key].expires) {
        NoHits(before, key, last.time, last.time + window);
      }
    }
  }

  /** Until it expires, a window stays the current one. */
  lemma {:induction false} WindowStays(window: nat, history: seq<Request>, n: nat, key: string)
    requires InOrder(history) && n <= |history| && key in Counters(window, history[..n])
    requires n < |history| ==> history[|history| - 1].time < Counters(window, history[..n])[key].expires
    ensures key in Counters(window, history)
    ensures Counters(window, history)[key].expires == Counters(window, history[..n])[key].expires
  {
    if n < |history| {
      var before := history[..|history| - 1];
      assert before[..n] == history[..n];
      WindowStays(window, before, n, key);
    } else {
      assert history[..n] == history;
    }
  }

  lemma CurrentWindowBound(max: nat, window: nat, history: seq<Request>, key: string)
    requires max > 0 && window > 0 && InOrder(history) && key in Counters(window, history)
    ensures var c := Counters(window, history)[key];
            var hits := HitsIn(history, key, c.expires - window, c.expires);
            AdmittedIn(max, window, history, key, c.expires - window, c.expires) == if hits <= max then hits else max
  {
    var c := Counters(window, history)[key];
    CounterIsRight(max, window, history, key, c.expires);
    CounterCounts(window, history, key);
    FromSplits(max, window, history, key, c.expires - window, c.expires);
  }

  /** Every window that ever began, whatever came after it: of the requests that fall into it, `max` are admitted, or
      all if there are fewer. */
  lemma {:induction false} WindowBound(max: nat, window: nat, history: seq<Request>, n: nat, key: string)
    requires max > 0 && window > 0 && InOrder(history) && n <= |history| && key in Counters(window, history[..n])
    ensures var c := Counters(window, history[..n])[key];
            var hits := HitsIn(history, key, c.expires - window, c.expires);
            AdmittedIn(max, window, history, key, c.expires - window, c.expires) == if hits <= max then hits else max
  {
    var c := Counters(window, history[..n])[key];
    if n == |history| || history[|history| - 1].time < c.expires {
      WindowStays(window, history, n, key);
      CurrentWindowBound(max, window, history, key);
    } else {
      var before := history[..|history| - 1];
      assert before[..n] == history[..n];
      WindowBound(max, window, before, n, key);
    }
  }

  /** Any half-open interval of one window's length holds fewer than 2 * max admitted requests per identity. */
  lemma {:induction false} IntervalBound(max: nat, window: nat, history: seq<Request>, key: string, a: int)
    requires max > 0 && window > 0 && InOrder(history)
    ensures AdmittedIn(max, window, history, key, a, a + window) < 2 * max
  {
    if history != [] {
      var last := history[|history| - 1];
      IntervalBound(max, window, history[..|history| - 1], key, a);
      if last.key == key && a <= last.time < a + window {
        CounterIsRight(max, window, history, key, a);
        FromSplits(max, window, history, key, a, a + window);
      }
    }
  }

  /** With max 0 nothing is ever admitted. */
  lemma {:induction false} NothingAdmitted(window: nat, history: seq<Request>, key: string, a: int, b: int)
    ensures AdmittedIn(0, window, history, key, a, b) == 0
  {
    if history != [] { NothingAdmitted(window, history[..|history| - 1], key, a, b); }
  }

  function Burst(key: string, time: int, n: nat): seq<Request> {
    seq(n, _ => Request(key, time))
  }

  function AtMost(n: nat, max: nat): nat {
    if n <= max then n else max
  }

  lemma OneMore(max: nat, window: nat, history: seq<Request>, r: Request, a: int, b: int)
    ensures var all := history + [r];
            && Counters(window, all) == Hit(Counters(window, history), r.key, window, r.time)
            && AdmittedIn(max, window, all, r.key, a, b) == AdmittedIn(max, window, history, r.key, a, b)
                 + (if a <= r.time < b && Counters(window, all)[r.key].count <= max then 1 else 0)
  {
    assert (history + [r])[..|history|] == history;
  }

  /** A burst of hits within the current window. */
  lemma {:induction false} BurstGoesOn(max: nat, window: nat, history: seq<Request>, key: string, time: int, n: nat,
                                       a: int, b: int)
    requires key in Counters(window, history) && time < Counters(window, history)[key].expires
    ensures var c, all := Counters(window, history)[key], history + Burst(key, time, n);
            && key in Counters(window, all) && Counters(window, all)[key] == Counter(c.count + n, c.expires)
            && AdmittedIn(max, window, all, key, a, b) == AdmittedIn(max, window, history, key, a, b)
                 + (if a <= time < b then AtMost(c.count + n, max) - AtMost(c.count, max) else 0)
  {
    hide Counters, AdmittedIn;
    var all := history + Burst(key, time, n);
    if n == 0 {
      assert all == history;
    } else {
      var before := history + Burst(key, time, n - 1);
      BurstGoesOn(max, window, history, key, time, n - 1, a, b);
      assert all == before + [Request(key, time)];
      OneMore(max, window, before, Request(key, time), a, b);
    }
  }

  /** One hit at 0, the rest of the first window's allowance just before its end, and all of the next one's at once. */
  function Worst(max: nat, window: nat): seq<Request>
    requires max > 0
  {
    ([Request("a", 0)] + Burst("a", window - 1, max - 1) + [Request("a", window)]) + Burst("a", window, max - 1)
  }

  /** The bound is met, for every limit and every window of two milliseconds or more. */
  lemma IntervalBoundIsTight(max: nat, window: nat)
    requires max > 0 && window > 1
    ensures InOrder(Worst(max, window))
    ensures AdmittedIn(max, window, Worst(max, window), "a", window - 1, window - 1 + window) == 2 * max - 1
  {
    var a, b := window - 1, window - 1 + window;
    WorstIsInOrder(max, window);
    FirstHit(max, window, a, b);
    hide Counters, AdmittedIn, Burst, InOrder;
    var h1 := [Request("a", 0)];
    var h2 := h1 + Burst("a", window - 1, max - 1);
    BurstGoesOn(max, window, h1, "a", window - 1, max - 1, a, b);
    OneMore(max, window, h2, Request("a", window), a, b);
    var h3 := h2 + [Request("a", window)];
    assert Counters(window, h3)["a"] == Counter(1, window + window);
    assert AdmittedIn(max, window, h3, "a", a, b) == max;
    hide Hit;
    BurstGoesOn(max, window, h3, "a", window, max - 1, a, b);
  }

  lemma FirstHit(max: nat, window: nat, a: int, b: int)
    requires a > 0
    ensures Counters(window, [Request("a", 0)]) == map["a" := Counter(1, window)]
    ensures AdmittedIn(max, window, [Request("a", 0)], "a", a, b) == 0
  {
    assert [Request("a", 0)][..0] == [];
  }

  lemma WorstIsInOrder(max: nat, window: nat)
    requires max > 0 && window > 1
    ensures InOrder(Worst(max, window))
  {
  }

  /** One identity's requests never count against another. */
  lemma {:induction false} IdentitiesAreSeparate(max: nat, window: nat, history: seq<Request>, key: string,
                                                 a: int, b: int)
    ensures var own := Own(history, key);
            AdmittedIn(max, window, history, key, a, b) == AdmittedIn(max, window, own, key, a, b)
    ensures var own := Own(history, key);
            (key in Counters(window, history) <==> key in Counters(window, own))
            && (key in Counters(window, own) ==> Counters(window, history)[key] == Counters(window, own)[key])
  {
    if history != [] {
      var n := |history| - 1;
      IdentitiesAreSeparate(max, window, history[..n], key, a, b);
      var own, before := Own(history, key), Own(history[..n], key);
      if history[n].key == key {
        assert own == before + [history[n]] && own[..|own| - 1] == before;
      } else {
        assert own == before;
      }
    }
  }

  function Own(history: seq<Request>, key: string): seq<Request> {
    if history == [] then []
    else
      var n := |history| - 1;
      Own(history[..n], key) + (if history[n].key == key then [history[n]] else [])
  }
}
