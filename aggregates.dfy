/** The dashboard's key indicators over the filtered rows (app.py:283-298):
    distinct days, exact-equality advice counts and the mean of the first
    `tavg` column. */
module Aggregates {
  import opened Wrappers
  import opened Sequences
  import opened Tables
  import opened Schema

  const WATER_NOW := "WATER_NOW"
  const DELAY := "DELAY"

  /** The distinct non-null dates of column `c` (the values `nunique` counts). */
  function DaysOf(rows: seq<Row>, c: string): (days: set<int>)
    ensures |days| <= |rows|
    ensures forall d :: d in days <==> exists r :: r in rows && Cell(r, c) == Date(d)
  {
    if rows == [] then {}
    else
      var rest := DaysOf(rows[1..], c);
      assert forall r :: r in rows <==> r == rows[0] || r in rows[1..] by {
        assert rows == [rows[0]] + rows[1..];
      }
      match Cell(rows[0], c)
      case Date(d) => rest + {d}
      case _ => rest
  }

  /** `filtered_df["date"].nunique()`. */
  function DistinctDays(rows: seq<Row>, c: string): nat
  {
    |DaysOf(rows, c)|
  }

  function EqualsTest(c: string, v: Value): Row -> bool
  {
    r => Cell(r, c) == v
  }

  /** `(rows[c] == wanted).sum()` over the advice column, and 0 without one. */
  function AdviceCount(rows: seq<Row>, adviceColumn: Option<string>, wanted: string): nat
  {
    match adviceColumn
    case None => 0
    case Some(c) => |Where(rows, EqualsTest(c, Str(wanted)))|
  }

  /** Each advice count is bounded by the rows, and the WATER_NOW and DELAY
      counts together never exceed them; both are 0 without an advice column. */
  lemma AdviceCountsBounded(rows: seq<Row>, adviceColumn: Option<string>)
    ensures AdviceCount(rows, adviceColumn, WATER_NOW) + AdviceCount(rows, adviceColumn, DELAY) <= |rows|
    ensures adviceColumn.None? ==> AdviceCount(rows, adviceColumn, WATER_NOW) == 0 && AdviceCount(rows, adviceColumn, DELAY) == 0
  {
    if adviceColumn.Some? {
      var c := adviceColumn.value;
      DisjointCounts(rows, EqualsTest(c, Str(WATER_NOW)), EqualsTest(c, Str(DELAY)));
    }
  }

  /** An advice count counts exactly the rows whose advice cell equals the
      wanted, each as often as it occurs. */
  lemma AdviceCountExact(rows: seq<Row>, c: string, wanted: string, r: Row)
    ensures multiset(Where(rows, EqualsTest(c, Str(wanted))))[r] ==
              if Cell(r, c) == Str(wanted) then multiset(rows)[r] else 0
  {
    WhereMultiplicity(rows, EqualsTest(c, Str(wanted)), r);
  }

  /** The non-null numbers of column `c`, in row order (`mean` skips NaN). */
  function NumbersOf(rows: seq<Row>, c: string): (xs: seq<real>)
    ensures |xs| <= |rows|
  {
    if rows == [] then []
    else
      (match Cell(rows[0], c) case Num(x) => [x] case _ => []) + NumbersOf(rows[1..], c)
  }

  function Sum(xs: seq<real>): real
  {
    if xs == [] then 0.0 else xs[0] + Sum(xs[1..])
  }

  function Mean(xs: seq<real>): real
    requires |xs| > 0
  {
    Sum(xs) / |xs| as real
  }

  function MinIndex(xs: seq<real>): (k: nat)
    requires |xs| > 0
    ensures k < |xs| && forall i :: 0 <= i < |xs| ==> xs[k] <= xs[i]
  {
    if |xs| == 1 then 0
    else
      var k := MinIndex(xs[1..]) + 1;
      if xs[0] <= xs[k] then 0 else k
  }

  function MaxIndex(xs: seq<real>): (k: nat)
    requires |xs| > 0
    ensures k < |xs| && forall i :: 0 <= i < |xs| ==> xs[i] <= xs[k]
  {
    if |xs| == 1 then 0
    else
      var k := MaxIndex(xs[1..]) + 1;
      if xs[k] <= xs[0] then 0 else k
  }

  lemma {:induction false} SumBounds(xs: seq<real>, lo: real, hi: real)
    requires forall i :: 0 <= i < |xs| ==> lo <= xs[i] <= hi
    ensures |xs| as real * lo <= Sum(xs) <= |xs| as real * hi
  {
    if xs != [] {
      SumBounds(xs[1..], lo, hi);
    }
  }

  /** The mean of values that all lie in `[lo, hi]` lies there too. */
  lemma MeanWithin(xs: seq<real>, lo: real, hi: real)
    requires |xs| > 0
    requires forall i :: 0 <= i < |xs| ==> lo <= xs[i] <= hi
    ensures lo <= Mean(xs) <= hi
  {
    SumBounds(xs, lo, hi);
    DivideBounds(Sum(xs), |xs| as real, lo, hi);
  }

  lemma DivideBounds(s: real, n: real, lo: real, hi: real)
    requires n > 0.0 && n * lo <= s <= n * hi
    ensures lo <= s / n <= hi
  {
    var m := s / n;
    assert m * n == s;
    assert n * (m - lo) >= 0.0;
    assert n * (hi - m) >= 0.0;
  }

  /** The temperature indicator: no `tavg` column, a column without numbers
      (a NaN mean), or the mean of the first `tavg` column. */
  datatype Temperature = NoTemperatureColumn | NoTemperatureValues | Average(celsius: real)

  function AverageTemperature(rows: seq<Row>, columns: seq<string>): Temperature
  {
    var tavg := TemperatureColumns(columns);
    if |tavg| == 0 then NoTemperatureColumn
    else
      var xs := NumbersOf(rows, tavg[0]);
      if |xs| == 0 then NoTemperatureValues else Average(Mean(xs))
  }

  /** The reported average is unavailable exactly when no column is named
      `tavg`, and otherwise lies between the extreme values of the first one. */
  lemma AverageTemperatureBounds(rows: seq<Row>, columns: seq<string>)
    ensures AverageTemperature(rows, columns).NoTemperatureColumn? <==>
              forall i :: 0 <= i < |columns| ==> !NamesTemperature(columns[i])
    ensures AverageTemperature(rows, columns).Average? ==>
      var xs := NumbersOf(rows, TemperatureColumns(columns)[0]);
      |xs| > 0 && xs[MinIndex(xs)] <= AverageTemperature(rows, columns).celsius <= xs[MaxIndex(xs)]
  {
    var tavg := TemperatureColumns(columns);
    if |tavg| > 0 {
      var xs := NumbersOf(rows, tavg[0]);
      if |xs| > 0 {
        MeanWithin(xs, xs[MinIndex(xs)], xs[MaxIndex(xs)]);
      }
    }
  }
}
