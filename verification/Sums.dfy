/** Sums over rows, as the SQL aggregates of the services compute them. */
module Sums {
  function Sum<T>(rows: seq<T>, weight: T -> int): int {
    if rows == [] then 0 else Sum(rows[..|rows| - 1], weight) + weight(rows[|rows| - 1])
  }

  lemma SumAppend<T>(rows: seq<T>, row: T, weight: T -> int)
    ensures Sum(rows + [row], weight) == Sum(rows, weight) + weight(row)
  {
    assert (rows + [row])[..|rows|] == rows;
  }

  lemma {:induction false} SumUpdate<T>(rows: seq<T>, i: nat, row: T, weight: T -> int)
    requires i < |rows|
    ensures Sum(rows[i := row], weight) == Sum(rows, weight) - weight(rows[i]) + weight(row)
  {
    var last := |rows| - 1;
    var updated := rows[i := row];
    if i == last {
      assert updated[..last] == rows[..last];
    } else {
      assert updated[..last] == rows[..last][i := row];
      SumUpdate(rows[..last], i, row, weight);
    }
  }

  lemma {:induction false} SumAgrees<T>(rows: seq<T>, weight: T -> int, other: T -> int)
    requires forall row :: row in rows ==> weight(row) == other(row)
    ensures Sum(rows, weight) == Sum(rows, other)
  {
    if rows != [] {
      SumAgrees(rows[..|rows| - 1], weight, other);
    }
  }

  lemma {:induction false} SumAtMost<T>(rows: seq<T>, weight: T -> int, other: T -> int)
    requires forall row :: row in rows ==> weight(row) <= other(row)
    ensures Sum(rows, weight) <= Sum(rows, other)
  {
    if rows != [] {
      SumAtMost(rows[..|rows| - 1], weight, other);
    }
  }
}
