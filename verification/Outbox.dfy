/** The transactional outbox table: rows in the order they were inserted. */
module Outbox {
  import opened Events

  /** `published` stands for a non-null `publishedAt`. */
  datatype Row = Row(event: Event, published: bool)

  function Enqueue(rows: seq<Row>, e: Event): seq<Row> {
    rows + [Row(e, false)]
  }

  function Mark(rows: seq<Row>, i: nat): seq<Row>
    requires i < |rows|
  {
    rows[i := rows[i].(published := true)]
  }

  ghost function Staged(rows: seq<Row>): set<Event> {
    set r | r in rows :: r.event
  }

  ghost function Slots(events: set<Event>): set<Slot> {
    set e | e in events :: SlotOf(e)
  }

  /** No two rows announce the same moment of the same order. */
  ghost predicate DistinctSlots(rows: seq<Row>) {
    forall i, j :: 0 <= i < j < |rows| ==> SlotOf(rows[i].event) != SlotOf(rows[j].event)
  }

  function PublishedCount(rows: seq<Row>): (n: nat)
    ensures n <= |rows|
  {
    if rows == [] then 0
    else PublishedCount(rows[..|rows| - 1]) + (if rows[|rows| - 1].published then 1 else 0)
  }

  lemma EnqueueFacts(rows: seq<Row>, e: Event)
    ensures Staged(Enqueue(rows, e)) == Staged(rows) + {e}
    ensures PublishedCount(Enqueue(rows, e)) == PublishedCount(rows)
  {
    var ext := Enqueue(rows, e);
    assert ext[..|ext| - 1] == rows;
    assert Row(e, false) in ext;
    forall x | x in Staged(rows) ensures x in Staged(ext) {
      var r :| r in rows && r.event == x;
      assert r in ext;
    }
  }

  lemma EnqueueDistinct(rows: seq<Row>, e: Event)
    requires DistinctSlots(rows) && SlotOf(e) !in Slots(Staged(rows))
    ensures DistinctSlots(Enqueue(rows, e))
  {
    forall i | 0 <= i < |rows| ensures SlotOf(rows[i].event) != SlotOf(e) {
      assert rows[i] in rows;
      assert rows[i].event in Staged(rows);
    }
  }

  lemma {:induction false} MarkCount(rows: seq<Row>, i: nat)
    requires i < |rows|
    ensures PublishedCount(Mark(rows, i)) == PublishedCount(rows) + (if rows[i].published then 0 else 1)
  {
    var n := |rows| - 1;
    var marked := Mark(rows, i);
    if i == n {
      assert marked[..n] == rows[..n];
    } else {
      assert marked[..n] == Mark(rows[..n], i);
      MarkCount(rows[..n], i);
    }
  }

  lemma MarkFacts(rows: seq<Row>, i: nat)
    requires i < |rows|
    ensures Staged(Mark(rows, i)) == Staged(rows)
    ensures DistinctSlots(rows) ==> DistinctSlots(Mark(rows, i))
  {
    var marked := Mark(rows, i);
    forall e ensures e in Staged(marked) <==> e in Staged(rows) {
      if e in Staged(rows) {
        var k :| 0 <= k < |rows| && rows[k].event == e;
        assert marked[k] in marked;
      }
      if e in Staged(marked) {
        var k :| 0 <= k < |marked| && marked[k].event == e;
        assert rows[k] in rows;
      }
    }
  }

  lemma SameSlot(rows: seq<Row>, a: Event, b: Event)
    requires DistinctSlots(rows)
    requires a in Staged(rows) && b in Staged(rows) && SlotOf(a) == SlotOf(b)
    ensures a == b
  {
    var i :| 0 <= i < |rows| && rows[i].event == a;
    var j :| 0 <= j < |rows| && rows[j].event == b;
  }
}
