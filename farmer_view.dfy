/** The Farmer View page (app.py:368-407): keep today and the next seven days
    of the irrigation calendar, sort them by date, write the advice of each
    day into `irrigation_advice`, and summarise. */
module FarmerView {
  import opened Sequences
  import opened Tables
  import opened Ordering
  import opened AdviceRule
  import opened Aggregates

  const DAY_OFFSET := "day_offset"
  const CALENDAR_DATE := "calendar_date"
  const ADVICE_COLUMN := "irrigation_advice"

  /** `day_offset.between(0, 7)`: both ends inclusive, a NaN offset is outside. */
  predicate InWindow(r: Row)
  {
    var v := Cell(r, DAY_OFFSET);
    v.Num? && 0.0 <= v.n <= 7.0
  }

  /** The rows shown: those in the window, sorted by `calendar_date`. */
  function Window(rows: seq<Row>): (w: seq<Row>)
    ensures forall i :: 0 <= i < |w| ==> w[i] in rows && InWindow(w[i])
  {
    var shown := Where(rows, InWindow);
    var w := SortBy(shown, CALENDAR_DATE);
    assert forall i :: 0 <= i < |w| ==> w[i] in multiset(shown);
    w
  }

  /** The window holds exactly the rows with 0 <= day_offset <= 7, each as
      often as in the calendar, sorted ascending by calendar date. */
  lemma WindowKeepsExactly(rows: seq<Row>)
    ensures SortedBy(Window(rows), CALENDAR_DATE)
    ensures forall r :: multiset(Window(rows))[r] == if InWindow(r) then multiset(rows)[r] else 0
    ensures |Window(rows)| == |Where(rows, InWindow)|
    ensures Window(rows) == [] <==> forall i :: 0 <= i < |rows| ==> !InWindow(rows[i])
  {
    forall r ensures multiset(Window(rows))[r] == if InWindow(r) then multiset(rows)[r] else 0 {
      WhereMultiplicity(rows, InWindow, r);
    }
    if forall i :: 0 <= i < |rows| ==> !InWindow(rows[i]) {
      WhereKeepsNone(rows, InWindow);
    }
  }

  function CalendarDay(offset: real, day: int): Row
  {
    map[DAY_OFFSET := Num(offset), CALENDAR_DATE := Date(day)]
  }

  /** Calendar offsets -3, 0, 5, 7 and 8 on increasing dates: only the rows
      at offsets 0, 5 and 7 are shown, in date order. */
  lemma WindowExample()
    ensures Window([CalendarDay(-3.0, 1), CalendarDay(0.0, 4), CalendarDay(5.0, 9), CalendarDay(7.0, 11), CalendarDay(8.0, 12)])
              == [CalendarDay(0.0, 4), CalendarDay(5.0, 9), CalendarDay(7.0, 11)]
  {
    var a, b, c, d, e := CalendarDay(-3.0, 1), CalendarDay(0.0, 4), CalendarDay(5.0, 9), CalendarDay(7.0, 11), CalendarDay(8.0, 12);
    WindowExampleSelects(a, b, c, d, e);
    WindowExampleSorts(b, c, d);
  }

  lemma WindowExampleSelects(a: Row, b: Row, c: Row, d: Row, e: Row)
    requires !InWindow(a) && InWindow(b) && InWindow(c) && InWindow(d) && !InWindow(e)
    ensures Where([a, b, c, d, e], InWindow) == [b, c, d]
  {
    assert [a, b, c, d, e][1..] == [b, c, d, e];
    assert [b, c, d, e][1..] == [c, d, e];
    assert [c, d, e][1..] == [d, e];
    assert [d, e][1..] == [e];
    assert Where([e], InWindow) == [];
    assert Where([d, e], InWindow) == [d];
    assert Where([c, d, e], InWindow) == [c, d];
    assert Where([b, c, d, e], InWindow) == [b, c, d];
  }

  lemma WindowExampleSorts(b: Row, c: Row, d: Row)
    requires Cell(b, CALENDAR_DATE) == Date(4) && Cell(c, CALENDAR_DATE) == Date(9) && Cell(d, CALENDAR_DATE) == Date(11)
    ensures SortBy([b, c, d], CALENDAR_DATE) == [b, c, d]
  {
    assert [b, c, d][1..] == [c, d];
    assert [c, d][1..] == [d];
    assert SortBy([d], CALENDAR_DATE) == [d];
    assert SortBy([c, d], CALENDAR_DATE) == [c, d];
  }

  predicate Rained(r: Row)
  {
    RainExpected(Cell(r, PRCP))
  }

  function ShouldTest(hasShould: bool): Row -> bool
  {
    r => hasShould && Cell(r, SHOULD_IRRIGATE) == Bool(true)
  }

  predicate Readable(rows: seq<Row>, hasShould: bool)
  {
    forall i :: 0 <= i < |rows| ==> ShouldIrrigateReadable(hasShould, rows[i])
  }

  /** `df_["irrigation_advice"] = df_.apply(compute_advice, axis=1)`. */
  function Annotate(rows: seq<Row>, hasShould: bool, hasPrcp: bool): seq<Row>
    requires Readable(rows, hasShould)
  {
    seq(|rows|, i requires 0 <= i < |rows| =>
      rows[i][ADVICE_COLUMN := Str(Label(ComputeAdvice(hasShould, hasPrcp, rows[i])))])
  }

  /** The WATER_NOW days of the annotated rows are exactly the rows whose
      `should_irrigate` is true, and annotating leaves the rainy days as they were. */
  lemma {:induction false} AnnotatedCounts(rows: seq<Row>, hasShould: bool, hasPrcp: bool)
    requires Readable(rows, hasShould)
    ensures |Where(Annotate(rows, hasShould, hasPrcp), EqualsTest(ADVICE_COLUMN, Str(WATER_NOW)))|
              == |Where(rows, ShouldTest(hasShould))|
    ensures |Where(Annotate(rows, hasShould, hasPrcp), Rained)| == |Where(rows, Rained)|
  {
    if rows != [] {
      var annotated := Annotate(rows, hasShould, hasPrcp);
      assert annotated[1..] == Annotate(rows[1..], hasShould, hasPrcp);
      AnnotatedCounts(rows[1..], hasShould, hasPrcp);
      WaterNowDominates(hasShould, hasPrcp, rows[0], Null);
      LabelsAreDistinct(ComputeAdvice(hasShould, hasPrcp, rows[0]), WaterNow);
      assert Cell(annotated[0], PRCP) == Cell(rows[0], PRCP);
    }
  }

  datatype FarmerOutcome =
    | NoCalendarData
    | MissingDayOffset
    | MissingCalendarDate
    | EmptyWindow
    | Summary(calendar: Table, daysShown: nat, waterNowDays: nat, rainDays: nat)

  /** `page_farmer_view` without its rendering. The calendar is reported empty
      before `day_offset` is looked for; `sort_values` fails on a calendar
      without `calendar_date`; an empty window is its own outcome. */
  method FarmerViewPage(cal: Table) returns (o: FarmerOutcome)
    requires forall r :: r in cal.rows && InWindow(r) ==> ShouldIrrigateReadable(SHOULD_IRRIGATE in cal.columns, r)
    ensures o.NoCalendarData? <==> IsEmpty(cal)
    ensures o.MissingDayOffset? <==> !IsEmpty(cal) && DAY_OFFSET !in cal.columns
    ensures o.MissingCalendarDate? <==> !IsEmpty(cal) && DAY_OFFSET in cal.columns && CALENDAR_DATE !in cal.columns
    ensures o.EmptyWindow? <==>
              && !IsEmpty(cal) && DAY_OFFSET in cal.columns && CALENDAR_DATE in cal.columns
              && forall i :: 0 <= i < |cal.rows| ==> !InWindow(cal.rows[i])
    ensures o.Summary? ==>
              var hasShould, hasPrcp := SHOULD_IRRIGATE in cal.columns, PRCP in cal.columns;
              var shown := Where(cal.rows, InWindow);
              && o.calendar.rows == Annotate(Window(cal.rows), hasShould, hasPrcp)
              && o.calendar.columns == (if ADVICE_COLUMN in cal.columns then cal.columns else cal.columns + [ADVICE_COLUMN])
              && o.daysShown == |o.calendar.rows| == |shown| > 0
              && o.waterNowDays == |Where(shown, ShouldTest(hasShould))| <= o.daysShown
              && o.rainDays == (if hasPrcp then |Where(shown, Rained)| else 0) <= o.daysShown
  {
    if IsEmpty(cal) {
      return NoCalendarData;
    }
    if DAY_OFFSET !in cal.columns {
      return MissingDayOffset;
    }
    var rows := Where(cal.rows, InWindow);
    if CALENDAR_DATE !in cal.columns {
      return MissingCalendarDate;
    }
    ghost var shown := rows;
    rows := SortBy(rows, CALENDAR_DATE);
    WindowKeepsExactly(cal.rows);
    if rows == [] {
      return EmptyWindow;
    }
    var hasShould := SHOULD_IRRIGATE in cal.columns;
    var hasPrcp := PRCP in cal.columns;
    assert Readable(rows, hasShould) by {
      forall i | 0 <= i < |rows| ensures ShouldIrrigateReadable(hasShould, rows[i]) {
        assert rows[i] in multiset(rows);
      }
    }
    ghost var sorted := rows;
    rows := Annotate(rows, hasShould, hasPrcp);
    var columns := if ADVICE_COLUMN in cal.columns then cal.columns else cal.columns + [ADVICE_COLUMN];
    var waterNow := |Where(rows, EqualsTest(ADVICE_COLUMN, Str(WATER_NOW)))|;
    var rainDays := if hasPrcp then |Where(rows, Rained)| else 0;
    AnnotatedCounts(sorted, hasShould, hasPrcp);
    PermutationKeepsCount(sorted, shown, ShouldTest(hasShould));
    PermutationKeepsCount(sorted, shown, Rained);
    o := Summary(Table(columns, rows), |rows|, waterNow, rainDays);
  }

  /** Rows (offset 0, not to irrigate, 5 mm) and (offset 1, to irrigate,
      0 mm) are both shown, in date order, and advised DELAY then WATER_NOW. */
  lemma AdviceExample()
    ensures var r0 := CalendarDay(0.0, 1)[SHOULD_IRRIGATE := Bool(false)][PRCP := Num(5.0)];
      var r1 := CalendarDay(1.0, 2)[SHOULD_IRRIGATE := Bool(true)][PRCP := Num(0.0)];
      var w := Window([r0, r1]);
      && Readable(w, true)
      && var shown := Annotate(w, true, true);
      && |shown| == 2
      && Cell(shown[0], ADVICE_COLUMN) == Str(Label(DelayRainExpected))
      && Cell(shown[1], ADVICE_COLUMN) == Str(Label(WaterNow))
  {
    var r0 := CalendarDay(0.0, 1)[SHOULD_IRRIGATE := Bool(false)][PRCP := Num(5.0)];
    var r1 := CalendarDay(1.0, 2)[SHOULD_IRRIGATE := Bool(true)][PRCP := Num(0.0)];
    assert Cell(r0, DAY_OFFSET) == Num(0.0) && Cell(r0, CALENDAR_DATE) == Date(1);
    assert Cell(r1, DAY_OFFSET) == Num(1.0) && Cell(r1, CALENDAR_DATE) == Date(2);
    WindowExampleKeepsPair(r0, r1);
    AdviceExampleLabels(r0, r1);
  }

  lemma WindowExampleKeepsPair(a: Row, b: Row)
    requires InWindow(a) && InWindow(b)
    requires Cell(a, CALENDAR_DATE) == Date(1) && Cell(b, CALENDAR_DATE) == Date(2)
    ensures Window([a, b]) == [a, b]
  {
    WhereKeepsAll([a, b], InWindow);
    assert [a, b][1..] == [b];
    assert SortBy([b], CALENDAR_DATE) == [b];
  }

  lemma AdviceExampleLabels(a: Row, b: Row)
    requires Cell(a, SHOULD_IRRIGATE) == Bool(false) && Cell(a, PRCP) == Num(5.0)
    requires Cell(b, SHOULD_IRRIGATE) == Bool(true)
    ensures Readable([a, b], true)
    ensures var shown := Annotate([a, b], true, true);
      && |shown| == 2
      && Cell(shown[0], ADVICE_COLUMN) == Str(Label(DelayRainExpected))
      && Cell(shown[1], ADVICE_COLUMN) == Str(Label(WaterNow))
  {
  }
}
