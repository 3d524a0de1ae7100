/** The loosely typed tables the dashboard reads: named columns and rows that
    map column names to cell values. */
module Tables {

  /** A cell after loading: dates are day numbers (the loader's datetime
      coercion), numbers are reals, and Null stands for NaN, NaT and None. */
  datatype Value =
    | Null
    | Str(text: string)
    | Num(n: real)
    | Bool(truth: bool)
    | Date(day: int)

  type Row = map<string, Value>

  datatype Table = Table(columns: seq<string>, rows: seq<Row>)

  /** The value of column `c` in row `r`; a row without the key reads as null. */
  function Cell(r: Row, c: string): Value
  {
    if c in r then r[c] else Null
  }

  /** pandas' `DataFrame.empty`: no rows or no columns. */
  predicate IsEmpty(t: Table)
  {
    |t.rows| == 0 || |t.columns| == 0
  }
}
