/** `sort_values(column)` on a date column: ascending dates, with NaT (and any
    non-date cell) placed last. */
module Ordering {
  import opened Tables

  /** The sort order on date cells: a non-date cell sorts after every date. */
  predicate DateLE(a: Value, b: Value)
  {
    !b.Date? || (a.Date? && a.day <= b.day)
  }

  /** Any two cells are ordered one way or the other, and the order chains. */
  lemma DateOrderIsTotalPreorder(a: Value, b: Value, c: Value)
    ensures DateLE(a, a)
    ensures DateLE(a, b) || DateLE(b, a)
    ensures DateLE(a, b) && DateLE(b, c) ==> DateLE(a, c)
  {
  }

  predicate SortedBy(rows: seq<Row>, c: string)
  {
    forall i, j :: 0 <= i < j < |rows| ==> DateLE(Cell(rows[i], c), Cell(rows[j], c))
  }

  /** Places `x` before the first row that does not sort before it. */
  function InsertBy(x: Row, rows: seq<Row>, c: string): (r: seq<Row>)
    requires SortedBy(rows, c)
    ensures SortedBy(r, c)
    ensures multiset(r) == multiset(rows) + multiset{x}
  {
    if rows == [] then [x]
    else if DateLE(Cell(x, c), Cell(rows[0], c)) then [x] + rows
    else
      var tail := InsertBy(x, rows[1..], c);
      assert rows == [rows[0]] + rows[1..];
      assert forall k :: 0 <= k < |tail| ==> DateLE(Cell(rows[0], c), Cell(tail[k], c)) by {
        forall k | 0 <= k < |tail| ensures DateLE(Cell(rows[0], c), Cell(tail[k], c)) {
          assert tail[k] in multiset(rows[1..]) + multiset{x};
          DateOrderIsTotalPreorder(Cell(x, c), Cell(rows[0], c), Cell(tail[k], c));
        }
      }
      [rows[0]] + tail
  }

  /** An insertion sort: ascending by column `c`, a permutation of `rows`. */
  function SortBy(rows: seq<Row>, c: string): (r: seq<Row>)
    ensures SortedBy(r, c)
    ensures multiset(r) == multiset(rows)
    ensures |r| == |rows|
  {
    if rows == [] then []
    else
      assert rows == [rows[0]] + rows[1..];
      InsertBy(rows[0], SortBy(rows[1..], c), c)
  }
}
