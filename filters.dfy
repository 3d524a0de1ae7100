/** The dashboard's filter chain (app.py:259-269): an inclusive date range that
    always applies, then a region filter and an advice filter that apply only
    when their column was inferred and the selection is non-empty. */
module Filters {
  import opened Wrappers
  import opened Sequences
  import opened Tables

  const DATE := "date"

  /** The sidebar selections, taken as plain inputs. */
  datatype Selection = Selection(start: int, end: int, regions: seq<Value>, advice: seq<Value>)

  /** `start <= date <= end`; a NaT date compares false and is dropped. */
  predicate InDateRange(r: Row, start: int, end: int)
  {
    var v := Cell(r, DATE);
    v.Date? && start <= v.day && v.day <= end
  }

  function DateRangeTest(start: int, end: int): Row -> bool
  {
    r => InDateRange(r, start, end)
  }

  /** `isin(chosen)` on one column. */
  function MemberTest(column: string, chosen: seq<Value>): Row -> bool
  {
    r => Cell(r, column) in chosen
  }

  function DateFilter(rows: seq<Row>, start: int, end: int): seq<Row>
  {
    Where(rows, DateRangeTest(start, end))
  }

  /** `if col and chosen: rows = rows[rows[col].isin(chosen)]`. */
  function SelectionFilter(rows: seq<Row>, column: Option<string>, chosen: seq<Value>): seq<Row>
  {
    if column.Some? && |chosen| > 0 then Where(rows, MemberTest(column.value, chosen)) else rows
  }

  function FilterRows(rows: seq<Row>, regionColumn: Option<string>, adviceColumn: Option<string>, sel: Selection): seq<Row>
  {
    var dated := DateFilter(rows, sel.start, sel.end);
    SelectionFilter(SelectionFilter(dated, regionColumn, sel.regions), adviceColumn, sel.advice)
  }

  /** A row passes a selection filter when the filter is skipped or its value is chosen. */
  predicate Passes(r: Row, column: Option<string>, chosen: seq<Value>)
  {
    column.None? || |chosen| == 0 || Cell(r, column.value) in chosen
  }

  function PassesTest(column: Option<string>, chosen: seq<Value>): Row -> bool
  {
    r => Passes(r, column, chosen)
  }

  /** The row-level condition that the whole chain applies. */
  predicate Keep(r: Row, regionColumn: Option<string>, adviceColumn: Option<string>, sel: Selection)
  {
    InDateRange(r, sel.start, sel.end) && Passes(r, regionColumn, sel.regions) && Passes(r, adviceColumn, sel.advice)
  }

  function KeepTest(regionColumn: Option<string>, adviceColumn: Option<string>, sel: Selection): Row -> bool
  {
    r => Keep(r, regionColumn, adviceColumn, sel)
  }

  /** A selection filter is a no-op when its column is absent or nothing is
      chosen, and otherwise keeps exactly the rows whose value is chosen. */
  lemma SelectionFilterExact(rows: seq<Row>, column: Option<string>, chosen: seq<Value>)
    ensures SelectionFilter(rows, column, chosen) == Where(rows, PassesTest(column, chosen))
    ensures column.None? || |chosen| == 0 ==> SelectionFilter(rows, column, chosen) == rows
  {
    if column.Some? && |chosen| > 0 {
      WhereWhere(rows, MemberTest(column.value, chosen), _ => true, PassesTest(column, chosen));
      WhereKeepsAll(Where(rows, MemberTest(column.value, chosen)), _ => true);
    } else {
      WhereKeepsAll(rows, PassesTest(column, chosen));
    }
  }

  /** The chain is one order-preserving selection by `Keep`. */
  lemma FilterRowsIsWhere(rows: seq<Row>, regionColumn: Option<string>, adviceColumn: Option<string>, sel: Selection)
    ensures FilterRows(rows, regionColumn, adviceColumn, sel) == Where(rows, KeepTest(regionColumn, adviceColumn, sel))
  {
    var dated := DateFilter(rows, sel.start, sel.end);
    SelectionFilterExact(dated, regionColumn, sel.regions);
    var regional := SelectionFilter(dated, regionColumn, sel.regions);
    SelectionFilterExact(regional, adviceColumn, sel.advice);
    var dateAndRegion := (r: Row) => InDateRange(r, sel.start, sel.end) && Passes(r, regionColumn, sel.regions);
    WhereWhere(rows, DateRangeTest(sel.start, sel.end), PassesTest(regionColumn, sel.regions), dateAndRegion);
    WhereWhere(rows, dateAndRegion, PassesTest(adviceColumn, sel.advice), KeepTest(regionColumn, adviceColumn, sel));
  }

  /** The filtered rows are a subsequence of the input in the original order,
      holding exactly the rows that satisfy `Keep`, each as often as in the input. */
  lemma FilterRowsKeepsExactly(rows: seq<Row>, regionColumn: Option<string>, adviceColumn: Option<string>, sel: Selection)
    ensures IsSubsequence(FilterRows(rows, regionColumn, adviceColumn, sel), rows)
    ensures forall i :: 0 <= i < |FilterRows(rows, regionColumn, adviceColumn, sel)| ==>
      Keep(FilterRows(rows, regionColumn, adviceColumn, sel)[i], regionColumn, adviceColumn, sel)
    ensures forall r :: multiset(FilterRows(rows, regionColumn, adviceColumn, sel))[r] ==
                         if Keep(r, regionColumn, adviceColumn, sel) then multiset(rows)[r] else 0
  {
    var keep := KeepTest(regionColumn, adviceColumn, sel);
    FilterRowsIsWhere(rows, regionColumn, adviceColumn, sel);
    WhereIsSubsequence(rows, keep);
    forall r ensures multiset(Where(rows, keep))[r] == if keep(r) then multiset(rows)[r] else 0 {
      WhereMultiplicity(rows, keep, r);
    }
  }

  /** Filtering the filtered rows again with the same selections changes nothing. */
  lemma FilterRowsIdempotent(rows: seq<Row>, regionColumn: Option<string>, adviceColumn: Option<string>, sel: Selection)
    ensures FilterRows(FilterRows(rows, regionColumn, adviceColumn, sel), regionColumn, adviceColumn, sel)
      == FilterRows(rows, regionColumn, adviceColumn, sel)
  {
    var once := FilterRows(rows, regionColumn, adviceColumn, sel);
    FilterRowsIsWhere(rows, regionColumn, adviceColumn, sel);
    FilterRowsIsWhere(once, regionColumn, adviceColumn, sel);
    WhereIdempotent(rows, KeepTest(regionColumn, adviceColumn, sel));
  }

  /** A reversed date range selects nothing; it is not an error. */
  lemma ReversedRangeIsEmpty(rows: seq<Row>, regionColumn: Option<string>, adviceColumn: Option<string>, sel: Selection)
    requires sel.start > sel.end
    ensures FilterRows(rows, regionColumn, adviceColumn, sel) == []
  {
    FilterRowsIsWhere(rows, regionColumn, adviceColumn, sel);
    WhereKeepsNone(rows, KeepTest(regionColumn, adviceColumn, sel));
  }
}
