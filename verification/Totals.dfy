/** Order totals computed with JavaScript numbers and stored in an INTEGER column. */
module Totals {
  import opened Events

  const EXACT_LIMIT: int := 0x20_0000_0000_0000 // 2^53
  const INT4_MAX: int := 0x7FFF_FFFF

  predicate FitsInteger(x: int) {
    -INT4_MAX - 1 <= x <= INT4_MAX
  }

  /** What is known about rounding to a double: monotone, and exact up to 2^53. */
  ghost predicate Rounding(round: int -> int) {
    && (forall x, y :: x <= y ==> round(x) <= round(y))
    && (forall x :: -EXACT_LIMIT <= x <= EXACT_LIMIT ==> round(x) == x)
  }

  ghost predicate PositiveItems(items: seq<Item>) {
    forall i :: i in items ==> i.quantity > 0 && i.unitPriceCents > 0
  }

  function ExactTotal(items: seq<Item>): int {
    if items == [] then 0
    else
      var last := items[|items| - 1];
      ExactTotal(items[..|items| - 1]) + last.quantity * last.unitPriceCents
  }

  /** The same sum with every addition and multiplication rounded. */
  function NumberTotal(round: int -> int, items: seq<Item>): int {
    if items == [] then 0
    else
      var last := items[|items| - 1];
      round(NumberTotal(round, items[..|items| - 1]) + round(last.quantity * last.unitPriceCents))
  }

  /** The reduce loop of `createOrder`. */
  method Sum(round: int -> int, items: seq<Item>) returns (total: int)
    ensures total == NumberTotal(round, items)
  {
    total := 0;
    for i := 0 to |items|
      invariant total == NumberTotal(round, items[..i])
    {
      assert items[..i + 1][..i] == items[..i];
      total := round(total + round(items[i].quantity * items[i].unitPriceCents));
    }
    assert items[..|items|] == items;
  }

  lemma ProductPositive(a: int, b: int)
    requires a > 0 && b > 0
    ensures a * b > 0
  {
  }

  /** Up to 2^53 the rounded sum is the exact one; beyond it, it can never come back below. */
  lemma {:induction false} RoundedSum(round: int -> int, items: seq<Item>)
    requires Rounding(round) && PositiveItems(items)
    ensures ExactTotal(items) >= 0
    ensures ExactTotal(items) <= EXACT_LIMIT ==> NumberTotal(round, items) == ExactTotal(items)
    ensures ExactTotal(items) > EXACT_LIMIT ==> NumberTotal(round, items) >= EXACT_LIMIT
  {
    if items != [] {
      var n := |items| - 1;
      var last := items[n];
      assert last in items;
      assert forall i :: i in items[..n] ==> i in items;
      RoundedSum(round, items[..n]);
      ProductPositive(last.quantity, last.unitPriceCents);
      var term := last.quantity * last.unitPriceCents;
      assert round(1) == 1 && round(EXACT_LIMIT) == EXACT_LIMIT;
      assert round(term) >= 1;
      if term > EXACT_LIMIT {
        assert round(term) >= EXACT_LIMIT;
      } else {
        assert round(term) == term;
      }
      var sum := NumberTotal(round, items[..n]) + round(term);
      if sum > EXACT_LIMIT {
        assert round(sum) >= EXACT_LIMIT;
      } else {
        assert round(sum) == sum;
      }
    }
  }

  /** The sum in terms of what it adds up. */
  lemma {:induction false} TotalIsAdditive(a: seq<Item>, b: seq<Item>, i: Item)
    ensures ExactTotal([]) == 0 && ExactTotal([i]) == i.quantity * i.unitPriceCents
    ensures ExactTotal(a + b) == ExactTotal(a) + ExactTotal(b)
  {
    assert [i][..0] == [];
    if b == [] {
      assert a + b == a;
    } else {
      var n := |b| - 1;
      assert (a + b)[..|a| + n] == a + b[..n];
      TotalIsAdditive(a, b[..n], i);
    }
  }

  lemma {:induction false} TotalIsPositive(items: seq<Item>)
    requires items != [] && PositiveItems(items)
    ensures ExactTotal(items) > 0
  {
    var n := |items| - 1;
    assert items[n] in items;
    ProductPositive(items[n].quantity, items[n].unitPriceCents);
    if n > 0 {
      assert forall i :: i in items[..n] ==> i in items;
      TotalIsPositive(items[..n]);
    } else {
      assert items[..0] == [];
    }
  }

  /** No quantity or price of an order exceeds its total. */
  lemma {:induction false} WithinTotal(items: seq<Item>, i: nat)
    requires PositiveItems(items) && i < |items|
    ensures 0 < items[i].quantity <= ExactTotal(items) && 0 < items[i].unitPriceCents <= ExactTotal(items)
  {
    var n := |items| - 1;
    assert items[i] in items && items[n] in items;
    assert forall x :: x in items[..n] ==> x in items;
    ProductPositive(items[n].quantity, items[n].unitPriceCents);
    ProductCovers(items[n].quantity, items[n].unitPriceCents);
    if i < n {
      WithinTotal(items[..n], i);
    } else if n > 0 {
      TotalIsPositive(items[..n]);
    }
  }

  lemma ProductCovers(a: int, b: int)
    requires a > 0 && b > 0
    ensures a * b >= a && a * b >= b
  {
    assert a * b - a == a * (b - 1) && a * b - b == b * (a - 1);
  }

  /** A total fits its column when rounded exactly when the true sum fits, and then the two are equal. */
  lemma StoredTotalIsExact(round: int -> int, items: seq<Item>)
    requires Rounding(round) && PositiveItems(items)
    ensures FitsInteger(NumberTotal(round, items)) <==> FitsInteger(ExactTotal(items))
    ensures FitsInteger(NumberTotal(round, items)) ==> NumberTotal(round, items) == ExactTotal(items)
  {
    RoundedSum(round, items);
  }
}
