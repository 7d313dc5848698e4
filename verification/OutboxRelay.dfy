/** The polling outbox relay: publish a row, wait for the acknowledgement, mark it, one batch per tick. */
module OutboxRelay {
  import opened Events
  import opened Outbox

  /** What happens to one row of a batch. Only `Sent` lets the loop go on; `Dies` takes the process with it. */
  datatype RowFate = Sent | NotSent | AppendedUnacked | MarkFailed | Dies(appended: bool)

  predicate Appends(f: RowFate) {
    f == Sent || f == AppendedUnacked || f == MarkFailed || f == Dies(true)
  }

  /** `failures` counts the ticks that did not finish. */
  datatype State = State(rows: seq<Row>, log: seq<Event>, running: bool, stopped: bool, failures: nat)

  /** `p` lists rows of the table. */
  ghost predicate RowsOf(p: seq<nat>, rows: seq<Row>) {
    forall j :: 0 <= j < |p| ==> p[j] < |rows|
  }

  /** The unpublished rows, oldest first. */
  function Pending(rows: seq<Row>): (p: seq<nat>)
    ensures RowsOf(p, rows)
    ensures |p| + PublishedCount(rows) == |rows|
  {
    if rows == [] then []
    else
      var n := |rows| - 1;
      Pending(rows[..n]) + (if rows[n].published then [] else [n])
  }

  function Batch(rows: seq<Row>, size: nat): (b: seq<nat>)
    ensures b <= Pending(rows) && |b| <= size && RowsOf(b, rows)
    ensures |b| < size ==> b == Pending(rows)
  {
    var p := Pending(rows);
    if |p| <= size then p else p[..size]
  }

  function MarkAll(rows: seq<Row>, which: seq<nat>): (marked: seq<Row>)
    ensures |marked| == |rows|
  {
    seq(|rows|, i requires 0 <= i < |rows| => if i in which then rows[i].(published := true) else rows[i])
  }

  function EventsAt(rows: seq<Row>, which: seq<nat>): seq<Event>
    requires RowsOf(which, rows)
  {
    seq(|which|, i requires 0 <= i < |which| => rows[which[i]].event)
  }

  /** How many of `n` rows get through before the first that does not. */
  function Through(fates: nat -> RowFate, n: nat): (k: nat)
    ensures k <= n && (k < n ==> fates(k) != Sent) && forall i | 0 <= i < k :: fates(i) == Sent
  {
    if n == 0 then 0
    else
      var k := Through(fates, n - 1);
      if k < n - 1 then k else if fates(k) == Sent then n else k
  }

  /** What happens to the rows of a batch, and what other transactions stage while each of them is in flight. */
  datatype Course = Course(fates: nat -> RowFate, arrivals: nat -> seq<Event>)

  function Fresh(events: seq<Event>): seq<Row> {
    seq(|events|, i requires 0 <= i < |events| => Row(events[i], false))
  }

  /** The rows staged while the first `n` of a batch were in flight. */
  function Arrived(arrivals: nat -> seq<Event>, n: nat): seq<Row> {
    if n == 0 then [] else Arrived(arrivals, n - 1) + Fresh(arrivals(n - 1))
  }

  /** One poll cycle. The batch is read once; what arrives meanwhile is for a later one. */
  function Tick(s: State, batchSize: nat, course: Course): State {
    if s.running || s.stopped then s
    else
      var batch := Batch(s.rows, batchSize);
      var k := Through(course.fates, |batch|);
      var failed := k < |batch|;
      State(MarkAll(s.rows, batch[..k]) + Arrived(course.arrivals, if failed then k + 1 else k),
            s.log + EventsAt(s.rows, batch[..k])
              + (if failed && Appends(course.fates(k)) then [s.rows[batch[k]].event] else []),
            failed && course.fates(k).Dies?, false, s.failures + (if failed then 1 else 0))
  }

  /** Neither at work nor stopped. */
  predicate Free(s: State) {
    !s.running && !s.stopped
  }

  class Relay {
    const batchSize: nat
    var rows: seq<Row>
    var log: seq<Event>
    var running: bool
    var stopped: bool
    var failures: nat

    constructor (batchSize: nat)
      ensures this.batchSize == batchSize && View() == State([], [], false, false, 0)
    {
      this.batchSize := batchSize;
      rows, log, running, stopped, failures := [], [], false, false, 0;
    }

    function View(): State
      reads this
    {
      State(rows, log, running, stopped, failures)
    }

    /** Publishes and marks row by row, while other transactions stage rows; returns at the first failure. */
    method DrainBatch(course: Course) returns (failed: bool, died: bool)
      modifies this`rows, this`log
      ensures var batch := Batch(old(rows), batchSize);
              var k := Through(course.fates, |batch|);
              && failed == (k < |batch|) && died == (failed && course.fates(k).Dies?)
              && rows == MarkAll(old(rows), batch[..k]) + Arrived(course.arrivals, if failed then k + 1 else k)
              && log == old(log) + EventsAt(old(rows), batch[..k])
                        + (if failed && Appends(course.fates(k)) then [old(rows)[batch[k]].event] else [])
    {
      var batch := Batch(rows, batchSize);
      ghost var k, rows0, log0 := Through(course.fates, |batch|), rows, log;
      hide Pending, Batch, MarkAll, EventsAt, Through, PublishedCount, Mark, Arrived, Fresh, Drained;
      NothingDrained(rows, log, batch, course);
      for i := 0 to |batch|
        invariant i <= k && Drained(rows0, log0, batch, course, i, rows, log)
      {
        DrainOne(rows0, log0, batch, course, i, rows, log);
        var row := rows[batch[i]];
        rows := rows + Fresh(course.arrivals(i));
        if Appends(course.fates(i)) {
          log := log + [row.event];
        }
        if course.fates(i) != Sent {
          return true, course.fates(i).Dies?;
        }
        rows := Mark(rows, batch[i]);
      }
      AllDrained(rows0, log0, batch, course, rows, log);
      return false, false;
    }

    method Poll(course: Course)
      modifies this
      ensures View() == Tick(old(View()), batchSize, course)
    {
      hide Pending, Batch, MarkAll, EventsAt, Through, PublishedCount, Arrived, Fresh;
      if running || stopped {
        return;
      }
      running := true;
      var failed, died := DrainBatch(course);
      if failed {
        failures := failures + 1;
      }
      if !died {
        running := false;
      }
    }

    method Stop()
      modifies this`stopped
      ensures stopped
    {
      stopped := true;
    }

    /** A new process: the flags start over, the tables and the log remain. */
    method Restart()
      modifies this`running, this`stopped
      ensures !running && !stopped
    {
      running, stopped := false, false;
    }
  }

  lemma MarkNone(rows: seq<Row>)
    ensures MarkAll(rows, []) == rows && EventsAt(rows, []) == []
  {
  }

  /** Where the loop stands after `i` rows went through. */
  ghost predicate Drained(rows0: seq<Row>, log0: seq<Event>, batch: seq<nat>, course: Course, i: nat,
                          rows: seq<Row>, log: seq<Event>)
    requires i <= |batch| && RowsOf(batch, rows0)
  {
    && rows == MarkAll(rows0, batch[..i]) + Arrived(course.arrivals, i)
    && log == log0 + EventsAt(rows0, batch[..i])
  }

  lemma NothingDrained(rows: seq<Row>, log: seq<Event>, batch: seq<nat>, course: Course)
    requires RowsOf(batch, rows)
    ensures Drained(rows, log, batch, course, 0, rows, log)
  {
    MarkNone(rows);
    assert batch[..0] == [];
  }

  lemma AllDrained(rows0: seq<Row>, log0: seq<Event>, batch: seq<nat>, course: Course, rows: seq<Row>, log: seq<Event>)
    requires RowsOf(batch, rows0) && Drained(rows0, log0, batch, course, |batch|, rows, log)
    ensures rows == MarkAll(rows0, batch[..|batch|]) + Arrived(course.arrivals, |batch|)
    ensures log == log0 + EventsAt(rows0, batch[..|batch|])
  {
  }

  lemma DrainOne(rows0: seq<Row>, log0: seq<Event>, batch: seq<nat>, course: Course, i: nat,
                 rows: seq<Row>, log: seq<Event>)
    requires i < |batch| && RowsOf(batch, rows0) && Drained(rows0, log0, batch, course, i, rows, log)
    ensures batch[i] < |rows| && rows[batch[i]].event == rows0[batch[i]].event
    ensures log == log0 + EventsAt(rows0, batch[..i])
    ensures var more := rows + Fresh(course.arrivals(i));
            && batch[i] < |more| && more == MarkAll(rows0, batch[..i]) + Arrived(course.arrivals, i + 1)
            && Drained(rows0, log0, batch, course, i + 1, Mark(more, batch[i]), log + [rows[batch[i]].event])
  {
    MarkOne(rows0, batch, i);
    ArrivedStep(MarkAll(rows0, batch[..i]), course.arrivals, i, batch[i]);
    hide MarkAll, EventsAt, Arrived, Fresh, Mark;
  }

  lemma NoneArrived(arrivals: nat -> seq<Event>)
    ensures Arrived(arrivals, 0) == []
  {
  }

  lemma ArrivedUnfolds(arrivals: nat -> seq<Event>, i: nat)
    ensures Arrived(arrivals, i + 1) == Arrived(arrivals, i) + Fresh(arrivals(i))
  {
  }

  /** New rows come after the marked ones and disturb no index. */
  lemma ArrivedStep(marked: seq<Row>, arrivals: nat -> seq<Event>, i: nat, row: nat)
    requires row < |marked|
    ensures marked + Arrived(arrivals, i) + Fresh(arrivals(i)) == marked + Arrived(arrivals, i + 1)
    ensures Mark(marked + Arrived(arrivals, i + 1), row) == Mark(marked, row) + Arrived(arrivals, i + 1)
  {
  }

  lemma MarkOne(rows: seq<Row>, batch: seq<nat>, i: nat)
    requires i < |batch| && RowsOf(batch, rows)
    ensures batch[i] < |rows| && RowsOf(batch[..i], rows) && RowsOf(batch[..i + 1], rows)
    ensures MarkAll(rows, batch[..i])[batch[i]].event == rows[batch[i]].event
    ensures MarkAll(rows, batch[..i + 1]) == Mark(MarkAll(rows, batch[..i]), batch[i])
    ensures EventsAt(rows, batch[..i + 1]) == EventsAt(rows, batch[..i]) + [rows[batch[i]].event]
  {
    var a, b := MarkAll(rows, batch[..i + 1]), Mark(MarkAll(rows, batch[..i]), batch[i]);
    forall j | 0 <= j < |rows| ensures a[j] == b[j] {
      assert j in batch[..i + 1] <==> j in batch[..i] || j == batch[i];
    }
  }

  lemma MarkSplit(rows: seq<Row>, which: seq<nat>, front: seq<nat>)
    requires rows != [] && forall i | 0 <= i < |rows| - 1 :: i in which <==> i in front
    ensures var n, marked := |rows| - 1, MarkAll(rows, which);
            && marked[..n] == MarkAll(rows[..n], front)
            && marked[n].published == (rows[n].published || n in which)
  {
  }

  /** Marking a prefix of the pending rows leaves the rest pending, in the same order. */
  lemma {:induction false} PendingAfter(rows: seq<Row>, k: nat)
    requires k <= |Pending(rows)|
    ensures Pending(MarkAll(rows, Pending(rows)[..k])) == Pending(rows)[k..]
  {
    hide MarkAll, PublishedCount, Pending;
    PendingUnfolds(rows);
    if rows != [] {
      var n := |rows| - 1;
      var p, q := Pending(rows), Pending(rows[..n]);
      var j := if k <= |q| then k else |q|;
      PendingAfter(rows[..n], j);
      if k <= |q| {
        assert p[..k] == q[..k];
      } else {
        assert p[..k] == q + [n] && q[..j] == q;
      }
      MarkSplit(rows, p[..k], q[..j]);
      PendingUnfolds(MarkAll(rows, p[..k]));
    }
  }

  lemma PendingUnfolds(rows: seq<Row>)
    ensures rows == [] ==> Pending(rows) == []
    ensures rows != [] ==>
              var n, q := |rows| - 1, Pending(rows[..|rows| - 1]);
              Pending(rows) == q + (if rows[n].published then [] else [n]) && n !in q
  {
    if rows != [] { assert RowsOf(Pending(rows[..|rows| - 1]), rows[..|rows| - 1]); }
  }

  function Range(from: nat, n: nat): seq<nat> {
    seq(n, i requires 0 <= i < n => from + i)
  }

  /** Rows nobody has published yet are pending, after all that were. */
  lemma {:induction false} PendingArrived(rows: seq<Row>, added: seq<Row>)
    requires forall r :: r in added ==> !r.published
    ensures Pending(rows + added) == Pending(rows) + Range(|rows|, |added|)
    ensures PublishedCount(rows + added) == PublishedCount(rows)
  {
    hide Pending, PublishedCount;
    if added == [] {
      assert rows + added == rows;
    } else {
      var n := |added| - 1;
      assert added[n] in added;
      assert forall r :: r in added[..n] ==> r in added;
      PendingArrived(rows, added[..n]);
      OnePending(rows + added[..n], added[n]);
      assert rows + added == rows + added[..n] + [added[n]];
      assert Range(|rows|, |added|) == Range(|rows|, n) + [|rows| + n];
    }
  }

  lemma OnePending(rows: seq<Row>, r: Row)
    requires !r.published
    ensures Pending(rows + [r]) == Pending(rows) + [|rows|] && PublishedCount(rows + [r]) == PublishedCount(rows)
  {
    assert (rows + [r])[..|rows|] == rows;
  }

  lemma {:induction false} ArrivedAreFresh(arrivals: nat -> seq<Event>, n: nat)
    ensures forall r :: r in Arrived(arrivals, n) ==> !r.published
  {
    if n > 0 { ArrivedAreFresh(arrivals, n - 1); }
  }

  /** What one poll does, counted in marked rows, besides letting new ones in. */
  lemma TickMarks(s: State, batchSize: nat, course: Course) returns (marked: nat, added: seq<Row>)
    ensures var next, p := Tick(s, batchSize, course), Pending(s.rows);
            && marked <= |p| && marked <= batchSize && (forall r :: r in added ==> !r.published)
            && next.rows == MarkAll(s.rows, p[..marked]) + added
            && Pending(MarkAll(s.rows, p[..marked])) == p[marked..]
            && s.log <= next.log && s.failures <= next.failures
            && |next.log| - |s.log| <= marked + next.failures - s.failures
            && ((forall i :: course.arrivals(i) == []) ==> added == [])
            && (Free(s) && next.failures == s.failures ==>
                  && marked == |Batch(s.rows, batchSize)| && Free(next)
                  && next.log == s.log + EventsAt(s.rows, p[..marked]))
  {
    hide Pending, Through, MarkAll;
    if s.running || s.stopped {
      MarkNone(s.rows);
      marked, added := 0, [];
      assert Pending(s.rows)[..0] == [];
      assert s.rows + [] == s.rows;
    } else {
      var batch := Batch(s.rows, batchSize);
      var k := Through(course.fates, |batch|);
      assert batch[..k] == Pending(s.rows)[..k];
      PendingAfter(s.rows, k);
      var tried := if k < |batch| then k + 1 else k;
      marked, added := k, Arrived(course.arrivals, tried);
      ArrivedAreFresh(course.arrivals, tried);
      if forall i :: course.arrivals(i) == [] { NothingArrives(course.arrivals, tried); }
    }
  }

  lemma {:induction false} NothingArrives(arrivals: nat -> seq<Event>, n: nat)
    requires forall i :: arrivals(i) == []
    ensures Arrived(arrivals, n) == []
  {
    if n > 0 { NothingArrives(arrivals, n - 1); }
  }

  /** The rows a poll marks are the oldest pending ones, a prefix of its batch; what stays pending is the rest, and then
      what arrived meanwhile. */
  lemma TickMarksAPrefix(s: State, batchSize: nat, course: Course)
    ensures var next := Tick(s, batchSize, course);
            var marked := PublishedCount(next.rows) - PublishedCount(s.rows);
            && 0 <= marked <= |Batch(s.rows, batchSize)| && |s.rows| <= |next.rows|
            && next.rows[..|s.rows|] == MarkAll(s.rows, Batch(s.rows, batchSize)[..marked])
            && Pending(next.rows)
                 == Pending(s.rows)[marked..] + Range(|s.rows|, |next.rows| - |s.rows|)
            && |next.log| - |s.log| <= marked + next.failures - s.failures
  {
    var marked, added := TickMarks(s, batchSize, course);
    hide MarkAll, Tick;
    PendingArrived(MarkAll(s.rows, Pending(s.rows)[..marked]), added);
    assert Pending(s.rows)[..marked] == Batch(s.rows, batchSize)[..marked];
    hide Pending;
  }

  /** Pending rows are the unpublished ones, oldest first. */
  lemma {:induction false} PendingMeans(rows: seq<Row>)
    ensures forall i :: i in Pending(rows) <==> 0 <= i < |rows| && !rows[i].published
    ensures forall i, j :: 0 <= i < j < |Pending(rows)| ==> Pending(rows)[i] < Pending(rows)[j]
  {
    if rows != [] {
      var n := |rows| - 1;
      PendingMeans(rows[..n]);
      forall i ensures i in Pending(rows) <==> 0 <= i < |rows| && !rows[i].published {
        if 0 <= i < n { assert rows[..n][i] == rows[i]; }
      }
    }
  }

  /** Whether row `j` of the batch is reached, all before it having got through. */
  ghost predicate Reached(fates: nat -> RowFate, j: nat) {
    forall i :: 0 <= i < j ==> fates(i) == Sent
  }

  lemma ReachedMeans(fates: nat -> RowFate, n: nat, j: nat)
    requires j < n
    ensures Reached(fates, j) <==> j <= Through(fates, n)
    ensures Reached(fates, j + 1) <==> j < Through(fates, n)
  {
  }

  /** A tick changes nothing while another runs or after stop. The guard is kept only by a row that is reached and kills
      the process; any other failure is counted, and frees it. */
  lemma TickGuard(s: State, batchSize: nat, course: Course)
    ensures var next, n := Tick(s, batchSize, course), |Batch(s.rows, batchSize)|;
            && (s.running || s.stopped ==> next == s)
            && next.stopped == s.stopped
            && (next.running <==>
                  s.running
                  || (!s.stopped && exists j :: 0 <= j < n && Reached(course.fates, j) && course.fates(j).Dies?))
            && next.failures == s.failures +
                 (if Free(s) && exists j :: 0 <= j < n && course.fates(j) != Sent then 1 else 0)
  {
    var n := |Batch(s.rows, batchSize)|;
    var k := Through(course.fates, n);
    forall j | 0 <= j < n
      ensures Reached(course.fates, j) && course.fates(j) != Sent <==> j == k
    {
      ReachedMeans(course.fates, n, j);
    }
    hide Batch, MarkAll, EventsAt, Through, Arrived;
  }

  /** Row by row: a row of the batch is published if it and all before it got through. Every other row is as it was. */
  lemma TickMarksThrough(s: State, batchSize: nat, course: Course)
    requires Free(s)
    ensures var next, batch := Tick(s, batchSize, course), Batch(s.rows, batchSize);
            && |s.rows| <= |next.rows|
            && (forall j :: 0 <= j < |batch| ==>
                  next.rows[batch[j]] == s.rows[batch[j]].(published := Reached(course.fates, j + 1)))
            && (forall i :: 0 <= i < |s.rows| && i !in batch ==> next.rows[i] == s.rows[i])
  {
    var next, batch := Tick(s, batchSize, course), Batch(s.rows, batchSize);
    var k := Through(course.fates, |batch|);
    assert |MarkAll(s.rows, batch[..k])| == |s.rows|;
    assert next.rows[..|s.rows|] == MarkAll(s.rows, batch[..k]);
    PendingMeans(s.rows);
    forall j | 0 <= j < |batch|
      ensures next.rows[batch[j]] == s.rows[batch[j]].(published := Reached(course.fates, j + 1))
    {
      ReachedMeans(course.fates, |batch|, j);
      assert batch[j] == Pending(s.rows)[j];
      hide Pending, Batch, Through, Arrived, Tick, EventsAt, Reached;
      assert batch[j] in Pending(s.rows);
      assert j < k ==> batch[..k][j] == batch[j];
      assert j >= k ==> forall i :: 0 <= i < k ==> batch[i] < batch[j];
    }
    forall i | 0 <= i < |s.rows| && i !in batch ensures next.rows[i] == s.rows[i] {
      assert next.rows[..|s.rows|][i] == next.rows[i];
      assert forall x :: x in batch[..k] ==> x in batch;
    }
  }

  /** Message by message: row `j` of the batch is on the log, at place `j`, if it was reached and the broker took it. */
  lemma TickSends(s: State, batchSize: nat, course: Course, j: nat)
    requires Free(s)
    ensures var next, batch := Tick(s, batchSize, course), Batch(s.rows, batchSize);
            && s.log <= next.log
            && (|s.log| + j < |next.log| <==>
                  && j < |batch| && Reached(course.fates, j)
                  && course.fates(j) != NotSent && course.fates(j) != Dies(false))
            && (|s.log| + j < |next.log| ==> next.log[|s.log| + j] == s.rows[batch[j]].event)
  {
    var batch := Batch(s.rows, batchSize);
    var k := Through(course.fates, |batch|);
    if j < |batch| { ReachedMeans(course.fates, |batch|, j); }
    hide Pending, Batch, Through, Arrived, MarkAll, Reached;
    assert |EventsAt(s.rows, batch[..k])| == k;
  }

  /** The rows before `m` are the older ones, and marking the oldest pending rows marks them first. */
  lemma {:induction false} PendingPrefix(rows: seq<Row>, m: nat)
    requires m <= |rows|
    ensures var older, all := Pending(rows[..m]), Pending(rows);
            older <= all && forall j :: |older| <= j < |all| ==> all[j] >= m
  {
    if m == |rows| {
      assert rows[..m] == rows;
    } else {
      assert rows[..|rows| - 1][..m] == rows[..m];
      PendingPrefix(rows[..|rows| - 1], m);
    }
  }

  lemma OlderAreMarkedFirst(rows: seq<Row>, m: nat, k: nat)
    requires m <= |rows| && k <= |Pending(rows)|
    ensures |Pending(rows[..m])| <= |Pending(rows)|
    ensures var n := |Pending(rows[..m])|;
            |Pending(MarkAll(rows, Pending(rows)[..k])[..m])| == n - (if k <= n then k else n)
  {
    var older, all := Pending(rows[..m]), Pending(rows);
    PendingPrefix(rows, m);
    var j := if k <= |older| then k else |older|;
    hide Pending, PublishedCount;
    forall i | 0 <= i < m ensures i in all[..k] <==> i in older[..j] {
      if i in all[..k] {
        var x :| 0 <= x < k && all[x] == i;
        assert x < |older| && older[..j][x] == i;
      }
      if i in older[..j] {
        var x :| 0 <= x < j && older[x] == i;
        assert all[..k][x] == i;
      }
    }
    MarkAllOf(rows, m, all[..k], older[..j]);
    PendingAfter(rows[..m], j);
  }

  lemma MarkAllOf(rows: seq<Row>, m: nat, which: seq<nat>, front: seq<nat>)
    requires m <= |rows| && forall i | 0 <= i < m :: i in which <==> i in front
    ensures MarkAll(rows, which)[..m] == MarkAll(rows[..m], front)
  {
  }

  // ---- runs of one relay -----------------------------------------------------------

  datatype Act = Arrives(e: Event) | Ticks(course: Course) | Stops | Restarts

  function Do(s: State, batchSize: nat, act: Act): State {
    match act
    case Arrives(e) => s.(rows := Enqueue(s.rows, e))
    case Ticks(course) => Tick(s, batchSize, course)
    case Stops => s.(stopped := true)
    case Restarts => s.(running := false, stopped := false)
  }

  function DoAll(s: State, batchSize: nat, acts: seq<Act>): State
    decreases |acts|
  {
    if |acts| == 0 then s else DoAll(Do(s, batchSize, acts[0]), batchSize, acts[1..])
  }

  /** Over any run, with crashes anywhere inside the loop and rows arriving at any time, the log grows by at most one
      message per marked row and one per failed tick. */
  lemma {:induction false} Accounting(s: State, batchSize: nat, acts: seq<Act>)
    ensures var end := DoAll(s, batchSize, acts);
            && s.log <= end.log && s.failures <= end.failures && PublishedCount(s.rows) <= PublishedCount(end.rows)
            && |end.log| - |s.log| <= PublishedCount(end.rows) - PublishedCount(s.rows) + end.failures - s.failures
    decreases |acts|
  {
    if |acts| > 0 {
      var next := Do(s, batchSize, acts[0]);
      match acts[0] {
        case Arrives(e) => EnqueueFacts(s.rows, e);
        case Ticks(course) => var _, _ := TickMarks(s, batchSize, course); TickMarksAPrefix(s, batchSize, course);
        case _ =>
      }
      hide Do, Tick;
      Accounting(next, batchSize, acts[1..]);
    }
  }

  /** The ticks of a run that went through without a failure. */
  function CleanTicks(s: State, batchSize: nat, acts: seq<Act>): nat
    decreases |acts|
  {
    if |acts| == 0 then 0
    else
      var next := Do(s, batchSize, acts[0]);
      (if acts[0].Ticks? && Free(s) && next.failures == s.failures then 1 else 0)
      + CleanTicks(next, batchSize, acts[1..])
  }

  /** How many rows `ticks` clean ticks can take. */
  function Capacity(batchSize: nat, ticks: nat): nat {
    batchSize * ticks
  }

  function Less(n: int, done: int): int {
    if n < done then 0 else n - done
  }

  lemma LessTwice(n: int, m: int, b: nat, c: nat, more: nat)
    requires more <= 1 && m <= n && (more == 1 ==> m <= Less(n, b))
    ensures Less(m, Capacity(b, c)) <= Less(n, Capacity(b, more + c))
  {
    assert b * (1 + c) == b + b * c && b * c >= 0;
  }

  /** Oldest first: whatever arrives and whatever else goes wrong in between, every clean tick takes a full batch
      off the rows that were there before, until none of them is left. */
  lemma {:induction false} Progress(s: State, batchSize: nat, acts: seq<Act>, m: nat)
    requires m <= |s.rows|
    ensures m <= |DoAll(s, batchSize, acts).rows|
    ensures |Pending(DoAll(s, batchSize, acts).rows[..m])|
         <= Less(|Pending(s.rows[..m])|, Capacity(batchSize, CleanTicks(s, batchSize, acts)))
    decreases |acts|
  {
    hide Do, Tick, Pending, Less, Capacity;
    if |acts| > 0 {
      PendingShrinks(s, batchSize, acts[0], m);
      var next := Do(s, batchSize, acts[0]);
      var c := CleanTicks(next, batchSize, acts[1..]);
      var more := CleanTicks(s, batchSize, acts) - c;
      assert DoAll(s, batchSize, acts) == DoAll(next, batchSize, acts[1..]);
      hide DoAll, CleanTicks;
      LessTwice(|Pending(s.rows[..m])|, |Pending(next.rows[..m])|, batchSize, c, more);
      Progress(next, batchSize, acts[1..], m);
    } else {
      NothingTaken(|Pending(s.rows[..m])|, batchSize);
    }
  }

  lemma NothingTaken(n: nat, b: nat)
    ensures Less(n, Capacity(b, 0)) == n
  {
  }

  lemma TickShrinks(s: State, batchSize: nat, course: Course, m: nat)
    requires m <= |s.rows|
    ensures var next := Tick(s, batchSize, course);
            && m <= |next.rows| && |Pending(next.rows[..m])| <= |Pending(s.rows[..m])|
            && (Free(s) && next.failures == s.failures ==>
                  |Pending(next.rows[..m])| <= Less(|Pending(s.rows[..m])|, batchSize))
  {
    var marked, added := TickMarks(s, batchSize, course);
    hide Tick, MarkAll, Pending, PublishedCount, EventsAt;
    OlderAreMarkedFirst(s.rows, m, marked);
    assert Tick(s, batchSize, course).rows[..m] == MarkAll(s.rows, Pending(s.rows)[..marked])[..m];
  }

  lemma PendingShrinks(s: State, batchSize: nat, act: Act, m: nat)
    requires m <= |s.rows|
    ensures var next := Do(s, batchSize, act);
            && m <= |next.rows| && |Pending(next.rows[..m])| <= |Pending(s.rows[..m])|
            && (act.Ticks? && Free(s) && next.failures == s.failures ==>
                  |Pending(next.rows[..m])| <= Less(|Pending(s.rows[..m])|, batchSize))
  {
    hide Tick, Pending, PublishedCount;
    if act.Ticks? {
      TickShrinks(s, batchSize, act.course, m);
    } else if act.Arrives? {
      assert Do(s, batchSize, act).rows[..m] == s.rows[..m];
    }
  }

  /** Rounding up. */
  function Ceil(n: nat, d: nat): nat
    requires d > 0
  {
    (n + d - 1) / d
  }

  lemma CeilCovers(n: nat, d: nat, k: nat)
    requires d > 0
    ensures k >= Ceil(n, d) <==> d * k >= n
  {
    var q, r := (n + d - 1) / d, (n + d - 1) % d;
    assert n + d - 1 == d * q + r;
    if k >= q {
      assert d * k >= d * q;
    } else {
      assert d * k <= d * (q - 1) == d * q - d;
    }
  }

  // ---- counted over what befalls the relay, not over its flags -----------------------

  /** Every row a tick can reach gets through. */
  ghost predicate AllSent(course: Course, batchSize: nat) {
    forall i :: 0 <= i < batchSize ==> course.fates(i) == Sent
  }

  /** Rows may fail in any way that leaves the process alive. */
  ghost predicate NoneDies(course: Course, batchSize: nat) {
    forall i :: 0 <= i < batchSize ==> !course.fates(i).Dies?
  }

  /** Whether the process is sure to be up after an act, if it was sure to be before. */
  ghost predicate UpAfter(act: Act, batchSize: nat, up: bool) {
    match act
    case Arrives(_) => up
    case Ticks(course) => up && NoneDies(course, batchSize)
    case Stops => false
    case Restarts => true
  }

  /** No stop, and no tick that could kill the process. */
  ghost predicate Survives(acts: seq<Act>, batchSize: nat) {
    forall i :: 0 <= i < |acts| ==> UpAfter(acts[i], batchSize, true)
  }

  /** Free again after whatever failed: a tick keeps the guard only by dying. */
  lemma StaysFree(s: State, batchSize: nat, act: Act, up: bool)
    requires up ==> Free(s)
    ensures UpAfter(act, batchSize, up) ==> Free(Do(s, batchSize, act))
  {
    if act.Ticks? { TickGuard(s, batchSize, act.course); }
    hide Tick;
  }

  /** Along any run of arrivals, restarts and ticks in which no row kills the process, the relay is free after every
      act, whatever failed. */
  lemma {:induction false} FreeAfterEveryTick(s: State, batchSize: nat, acts: seq<Act>, n: nat)
    requires Free(s) && Survives(acts, batchSize) && n <= |acts|
    ensures Free(DoAll(s, batchSize, acts[..n]))
    decreases n
  {
    hide Do, UpAfter, Free;
    if n > 0 {
      assert UpAfter(acts[0], batchSize, true);
      StaysFree(s, batchSize, acts[0], true);
      var rest := acts[1..];
      assert forall i :: 0 <= i < |rest| ==> rest[i] == acts[i + 1];
      FreeAfterEveryTick(Do(s, batchSize, acts[0]), batchSize, rest, n - 1);
      assert acts[..n][1..] == rest[..n - 1];
    }
  }

  /** How often the relay ticked with every row getting through, while its process was sure to be up. */
  ghost function SentTicks(acts: seq<Act>, batchSize: nat, up: bool): nat
    decreases |acts|
  {
    if acts == [] then 0
    else
      (if up && acts[0].Ticks? && AllSent(acts[0].course, batchSize) then 1 else 0)
      + SentTicks(acts[1..], batchSize, UpAfter(acts[0], batchSize, up))
  }

  lemma {:induction false} SentTicksAreClean(s: State, batchSize: nat, acts: seq<Act>, up: bool)
    requires up ==> Free(s)
    ensures SentTicks(acts, batchSize, up) <= CleanTicks(s, batchSize, acts)
    decreases |acts|
  {
    hide Do, UpAfter, AllSent;
    if acts != [] {
      StaysFree(s, batchSize, acts[0], up);
      SentTicksAreClean(Do(s, batchSize, acts[0]), batchSize, acts[1..], UpAfter(acts[0], batchSize, up));
      if up && acts[0].Ticks? && AllSent(acts[0].course, batchSize) { SentIsClean(s, batchSize, acts[0]); }
    }
  }

  lemma SentIsClean(s: State, batchSize: nat, act: Act)
    requires act.Ticks? && AllSent(act.course, batchSize)
    ensures Do(s, batchSize, act).failures == s.failures
  {
    TickGuard(s, batchSize, act.course);
    hide Tick;
  }

  /** So `n` pending rows are all published once ceil(n / batchSize) ticks met no failure, however many others failed in
      between, died and were restarted, and however many rows have arrived by then. */
  lemma AllPublishedAfter(s: State, batchSize: nat, acts: seq<Act>)
    requires batchSize > 0 && Free(s)
    requires SentTicks(acts, batchSize, true) >= Ceil(|Pending(s.rows)|, batchSize)
    ensures |s.rows| <= |DoAll(s, batchSize, acts).rows|
    ensures forall i :: 0 <= i < |s.rows| ==>
              DoAll(s, batchSize, acts).rows[i] == s.rows[i].(published := true)
  {
    hide SentTicks, CleanTicks, Pending, Do;
    var end := DoAll(s, batchSize, acts);
    assert s.rows[..|s.rows|] == s.rows;
    SentTicksAreClean(s, batchSize, acts, true);
    Progress(s, batchSize, acts, |s.rows|);
    CeilCovers(|Pending(s.rows)|, batchSize, CleanTicks(s, batchSize, acts));
    EventsStay(s, batchSize, acts);
    PendingMeans(end.rows[..|s.rows|]);
    hide DoAll;
    forall i | 0 <= i < |s.rows| ensures end.rows[i] == s.rows[i].(published := true) {
      assert end.rows[..|s.rows|][i].published;
    }
  }

  /** No act changes what a row says. */
  lemma {:induction false} EventsStay(s: State, batchSize: nat, acts: seq<Act>)
    ensures var end := DoAll(s, batchSize, acts);
            |s.rows| <= |end.rows| && forall i :: 0 <= i < |s.rows| ==> end.rows[i].event == s.rows[i].event
    decreases |acts|
  {
    if |acts| > 0 {
      EventsStay(Do(s, batchSize, acts[0]), batchSize, acts[1..]);
      hide Batch, Through, DoAll;
    }
  }

  /** A relay that only ticks, and is never disturbed. */
  function Undisturbed(k: nat): seq<Act> {
    seq(k, _ => Ticks(Course(_ => Sent, _ => [])))
  }

  function Min(a: int, b: int): int {
    if a <= b then a else b
  }

  /** Between `s` and `end` exactly the `n` oldest pending rows were published, once each and in order. */
  ghost predicate Published(s: State, end: State, n: nat) {
    var p := Pending(s.rows);
    && n <= |p| && end.rows == MarkAll(s.rows, p[..n]) && end.log == s.log + EventsAt(s.rows, p[..n])
    && Pending(end.rows) == p[n..]
  }

  lemma PublishedTwice(s: State, mid: State, end: State, a: nat, b: nat)
    requires Published(s, mid, a) && Published(mid, end, b)
    ensures Published(s, end, a + b)
  {
    hide Pending, MarkAll, EventsAt;
    var p := Pending(s.rows);
    MarkMore(s.rows, p, a, b);
    assert p[a..][b..] == p[a + b..];
    assert end.log == s.log + (EventsAt(s.rows, p[..a]) + EventsAt(mid.rows, p[a..][..b]));
  }

  /** Left alone, `k` ticks publish exactly the `k * batchSize` oldest rows, once each and in order: everything,
      and not before, when k reaches ceil(n / batchSize). */
  lemma {:induction false} LeftAlone(s: State, batchSize: nat, k: nat)
    requires Free(s)
    ensures Published(s, DoAll(s, batchSize, Undisturbed(k)), Min(Capacity(batchSize, k), |Pending(s.rows)|))
    decreases k
  {
    hide Tick, Pending, Min, Capacity, Published, Do, MarkAll, EventsAt;
    if k == 0 {
      NothingPublished(s, batchSize);
    } else {
      var next := LeftAloneTick(s, batchSize, k);
      hide DoAll, Undisturbed;
      var n := |Pending(s.rows)|;
      LeftAlone(next, batchSize, k - 1);
      MinTwice(batchSize, k, n);
      PublishedTwice(s, next, DoAll(s, batchSize, Undisturbed(k)), Min(batchSize, n),
        Min(Capacity(batchSize, k - 1), n - Min(batchSize, n)));
    }
  }

  lemma NothingPublished(s: State, batchSize: nat)
    ensures Published(s, s, Min(Capacity(batchSize, 0), |Pending(s.rows)|))
  {
    MarkNone(s.rows);
    assert Pending(s.rows)[..0] == [];
  }

  lemma MinTwice(b: nat, k: nat, n: nat)
    requires k > 0
    ensures 0 <= Min(b, n) <= n && 0 <= Min(Capacity(b, k - 1), n - Min(b, n))
    ensures Min(b, n) + Min(Capacity(b, k - 1), n - Min(b, n)) == Min(Capacity(b, k), n)
  {
    assert b * k == b + b * (k - 1) && b * (k - 1) >= 0;
  }

  lemma LeftAloneTick(s: State, batchSize: nat, k: nat) returns (next: State)
    requires Free(s) && k > 0
    ensures DoAll(s, batchSize, Undisturbed(k)) == DoAll(next, batchSize, Undisturbed(k - 1))
    ensures Published(s, next, Min(batchSize, |Pending(s.rows)|)) && Free(next)
    ensures |Pending(next.rows)| == |Pending(s.rows)| - Min(batchSize, |Pending(s.rows)|)
  {
    var acts := Undisturbed(k);
    assert acts[1..] == Undisturbed(k - 1);
    next := Do(s, batchSize, acts[0]);
    CleanQuietTick(s, batchSize, acts[0].course);
    hide Tick, Pending, MarkAll, EventsAt, Min, Published;
  }

  lemma CleanQuietTick(s: State, batchSize: nat, course: Course)
    requires Free(s)
    requires (forall i :: course.fates(i) == Sent) && forall i :: course.arrivals(i) == []
    ensures var next := Tick(s, batchSize, course);
            && Published(s, next, Min(batchSize, |Pending(s.rows)|)) && Free(next)
            && |Pending(next.rows)| == |Pending(s.rows)| - Min(batchSize, |Pending(s.rows)|)
  {
    var marked, added := TickMarks(s, batchSize, course);
    assert Tick(s, batchSize, course).failures == s.failures;
    hide Tick, Pending, MarkAll, EventsAt, Through;
    assert MarkAll(s.rows, Pending(s.rows)[..marked]) + [] == MarkAll(s.rows, Pending(s.rows)[..marked]);
  }

  lemma MarkMore(rows: seq<Row>, p: seq<nat>, b: nat, more: nat)
    requires b + more <= |p| && RowsOf(p, rows)
    ensures MarkAll(MarkAll(rows, p[..b]), p[b..][..more]) == MarkAll(rows, p[..b + more])
    ensures EventsAt(rows, p[..b]) + EventsAt(MarkAll(rows, p[..b]), p[b..][..more]) == EventsAt(rows, p[..b + more])
  {
    assert p[..b + more] == p[..b] + p[b..][..more];
  }
}
