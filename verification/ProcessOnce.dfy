/** `processOnce`: the dedup marker and the work in one transaction, and what repeated calls of it add up to while other
    transactions commit in between. A transaction body is a function of the tables and of a supply of identifiers that
    differs per call. */
module ProcessOnce {
  import opened Events

  /** The tables after one call, and whether the call threw to its caller. */
  datatype Delivered<+T> = Delivered(db: T, threw: bool)

  /** A unique violation is swallowed. A lost acknowledgement throws although the transaction committed. */
  function Call<T>(before: T, attempt: Work<T>, fate: Fate): Delivered<T> {
    match attempt
    case UniqueViolation => Delivered(before, fate == Aborts)
    case Throws => Delivered(before, true)
    case Commit(next) => Delivered(if fate == Aborts then before else next, fate != Commits)
  }

  /** How a transaction body ended: normally, on a unique key, or by any other exception. */
  datatype Ending = Finished | Violated | Threw

  /** The tables `db` a body leaves behind, and how it ended, are those of `work`. */
  ghost predicate EndsAs<T>(work: Work<T>, ending: Ending, db: T) {
    match work
    case Commit(next) => ending == Finished && db == next
    case UniqueViolation => ending == Violated
    case Throws => ending == Threw
  }

  // ---- a series of calls -----------------------------------------------------------

  /** Calls for one event: call `i` meets `fates(i)`, and `others(_, i)` is what other transactions make of the tables
      between it and the next. */
  datatype Series<!T> = Series(work: (T, nat) -> Work<T>, fates: nat -> Fate, others: (T, nat) -> T, before: T)

  /** The tables call `i` meets. */
  function At<T>(s: Series<T>, i: nat): T
    decreases i, 0
  {
    if i == 0 then s.before else s.others(Left(s, i - 1), i - 1)
  }

  /** The tables call `i` leaves. */
  function Left<T>(s: Series<T>, i: nat): T
    decreases i, 1
  {
    Call(At(s, i), s.work(At(s, i), i), s.fates(i)).db
  }

  predicate CallThrows<T>(s: Series<T>, i: nat) {
    Call(At(s, i), s.work(At(s, i), i), s.fates(i)).threw
  }

  predicate CallCommits<T>(s: Series<T>, i: nat) {
    s.fates(i) != Aborts && s.work(At(s, i), i).Commit?
  }

  /** The work leaves its marker, and never takes effect on any tables that hold it, however they came about. */
  ghost predicate Deduplicates<T(!new)>(work: (T, nat) -> Work<T>, marked: T -> bool) {
    && (forall db, i :: marked(db) ==> work(db, i) == UniqueViolation)
    && (forall db, i, next :: work(db, i) == Commit(next) ==> marked(next))
  }

  ghost predicate Keeps<T(!new)>(others: (T, nat) -> T, marked: T -> bool) {
    forall db, i :: marked(db) ==> marked(others(db, i))
  }

  lemma {:induction false} MarkStays<T(!new)>(s: Series<T>, marked: T -> bool, i: nat, j: nat)
    requires Deduplicates(s.work, marked) && Keeps(s.others, marked) && marked(Left(s, i)) && i < j
    ensures marked(At(s, j)) && marked(Left(s, j))
  {
    if i < j - 1 { MarkStays(s, marked, i, j - 1); }
    assert marked(s.others(Left(s, j - 1), j - 1));
  }

  /** However many calls, whatever their fates and whatever else commits meanwhile: if one call's work takes effect,
      no other call of the series changes anything. */
  lemma AtMostOnce<T(!new)>(s: Series<T>, marked: T -> bool, i: nat, j: nat)
    requires Deduplicates(s.work, marked) && Keeps(s.others, marked)
    requires CallCommits(s, i) && i != j
    ensures !CallCommits(s, j) && Left(s, j) == At(s, j)
  {
    if i < j {
      MarkStays(s, marked, i, j);
    } else if CallCommits(s, j) {
      MarkStays(s, marked, j, i);
    }
  }

  /** A call that returns leaves nothing undone: its own commit left the marker, or unique keys say it was there. */
  lemma ReturnedMeansHandled<T(!new)>(s: Series<T>, marked: T -> bool, i: nat)
    requires forall db, j, next :: s.work(db, j) == Commit(next) ==> marked(next)
    requires forall db, j :: s.work(db, j) == UniqueViolation ==> marked(db)
    requires !CallThrows(s, i)
    ensures marked(Left(s, i))
  {
  }

  // ---- series that give up ---------------------------------------------------------

  /** Nothing but the marker stops the work, and nobody else handles the event meanwhile. */
  ghost predicate OnlyTheMarkerStops<T(!new)>(s: Series<T>, marked: T -> bool) {
    && Deduplicates(s.work, marked)
    && (forall db, i :: !marked(db) ==> s.work(db, i).Commit?)
    && (forall db, i :: marked(s.others(db, i)) <==> marked(db))
  }

  predicate AllAbort(fates: nat -> Fate, n: nat) {
    forall i | 0 <= i <= n :: fates(i) == Aborts
  }

  /** One acknowledgement was lost, and every other call aborted. */
  predicate OnlyOneAckLost(fates: nat -> Fate, n: nat) {
    exists i | 0 <= i <= n :: fates(i) == AckLost && forall j | 0 <= j <= n && j != i :: fates(j) == Aborts
  }

  lemma {:induction false} MarkedAt<T(!new)>(s: Series<T>, marked: T -> bool, n: nat)
    requires OnlyTheMarkerStops(s, marked)
    ensures marked(At(s, n)) <==> marked(s.before) || exists i | 0 <= i < n :: s.fates(i) != Aborts
    ensures marked(Left(s, n)) <==> marked(At(s, n)) || s.fates(n) != Aborts
    ensures CallThrows(s, n) <==> if marked(At(s, n)) then s.fates(n) == Aborts else s.fates(n) != Commits
  {
    if n > 0 {
      MarkedAt(s, marked, n - 1);
      assert marked(s.others(Left(s, n - 1), n - 1)) <==> marked(Left(s, n - 1));
    }
  }

  /** When every call of a series threw, its work has taken effect nonetheless exactly when it had before, or when
      one call lost its acknowledgement and all others aborted. And that, or nothing but aborts, is when every call
      throws. */
  lemma AllThrewYetApplied<T(!new)>(s: Series<T>, marked: T -> bool, n: nat)
    requires OnlyTheMarkerStops(s, marked)
    ensures (forall i | 0 <= i <= n :: CallThrows(s, i))
       <==> AllAbort(s.fates, n) || (!marked(s.before) && OnlyOneAckLost(s.fates, n))
    ensures (forall i | 0 <= i <= n :: CallThrows(s, i)) ==>
              (marked(Left(s, n)) <==> marked(s.before) || OnlyOneAckLost(s.fates, n))
  {
    hide Deduplicates, OnlyTheMarkerStops, At, Left, CallThrows;
    forall i | 0 <= i <= n
      ensures marked(At(s, i)) <==> marked(s.before) || exists j | 0 <= j < i :: s.fates(j) != Aborts
      ensures CallThrows(s, i) <==> if marked(At(s, i)) then s.fates(i) == Aborts else s.fates(i) != Commits
      ensures marked(Left(s, i)) <==> marked(At(s, i)) || s.fates(i) != Aborts
    {
      MarkedAt(s, marked, i);
    }
    if forall i | 0 <= i <= n :: CallThrows(s, i) {
      if i :| 0 <= i <= n && s.fates(i) != Aborts {
        assert CallThrows(s, i) && s.fates(i) == AckLost;
        forall j | 0 <= j <= n && j != i ensures s.fates(j) == Aborts {
          assert CallThrows(s, j);
        }
      }
    }
  }
}
