/** The Dashboard page (app.py:205-311) without its rendering: infer the
    column roles, filter, compute the key indicators, and sort the detail
    table by date for the charts. */
module Dashboard {
  import opened Wrappers
  import opened Sequences
  import opened Tables
  import opened Schema
  import opened Filters
  import opened Aggregates
  import opened Ordering

  datatype Indicators = Indicators(days: nat, waterNow: nat, delay: nat, temperature: Temperature)

  datatype DashboardOutcome =
    | NoData
    | MissingDateColumn
    | NoMatchingRows
    | Shown(indicators: Indicators, temperatureColumns: seq<string>, precipitationColumns: seq<string>, detail: seq<Row>)

  /** The rows the filter chain keeps, with the roles inferred from the columns. */
  function Kept(df: Table, sel: Selection): seq<Row>
  {
    FilterRows(df.rows, DetectRegionColumn(df.columns), DetectIrrigationColumn(df.columns), sel)
  }

  /** Some row in a non-empty selection has a date, so at least one day is counted. */
  lemma KeptRowsHaveDays(df: Table, sel: Selection)
    requires Kept(df, sel) != []
    ensures 0 < DistinctDays(Kept(df, sel), DATE) <= |Kept(df, sel)|
  {
    var kept := Kept(df, sel);
    FilterRowsKeepsExactly(df.rows, DetectRegionColumn(df.columns), DetectIrrigationColumn(df.columns), sel);
    assert InDateRange(kept[0], sel.start, sel.end);
    assert Cell(kept[0], DATE).day in DaysOf(kept, DATE);
  }

  method DashboardPage(df: Table, sel: Selection) returns (o: DashboardOutcome)
    ensures o.NoData? <==> IsEmpty(df)
    ensures o.MissingDateColumn? <==> !IsEmpty(df) && DATE !in df.columns
    ensures o.NoMatchingRows? <==> !IsEmpty(df) && DATE in df.columns && Kept(df, sel) == []
    ensures o.Shown? ==>
              var kept := Kept(df, sel);
              var adviceColumn := DetectIrrigationColumn(df.columns);
              && o.indicators.days == DistinctDays(kept, DATE)
              && 0 < o.indicators.days <= |kept|
              && o.indicators.waterNow == AdviceCount(kept, adviceColumn, WATER_NOW)
              && o.indicators.delay == AdviceCount(kept, adviceColumn, DELAY)
              && o.indicators.waterNow + o.indicators.delay <= |kept|
              && o.indicators.temperature == AverageTemperature(kept, df.columns)
              && o.temperatureColumns == TemperatureColumns(df.columns)
              && o.precipitationColumns == PrecipitationColumns(df.columns)
              && SortedBy(o.detail, DATE) && multiset(o.detail) == multiset(kept)
  {
    if IsEmpty(df) {
      return NoData;
    }
    if DATE !in df.columns {
      return MissingDateColumn;
    }
    var regionColumn := DetectRegionColumn(df.columns);
    var irrigationColumn := DetectIrrigationColumn(df.columns);
    var filtered := DateFilter(df.rows, sel.start, sel.end);
    if regionColumn.Some? && |sel.regions| > 0 {
      filtered := Where(filtered, MemberTest(regionColumn.value, sel.regions));
    }
    if irrigationColumn.Some? && |sel.advice| > 0 {
      filtered := Where(filtered, MemberTest(irrigationColumn.value, sel.advice));
    }
    assert filtered == Kept(df, sel);
    if filtered == [] {
      return NoMatchingRows;
    }
    KeptRowsHaveDays(df, sel);
    AdviceCountsBounded(filtered, irrigationColumn);
    var indicators := Indicators(
      DistinctDays(filtered, DATE),
      AdviceCount(filtered, irrigationColumn, WATER_NOW),
      AdviceCount(filtered, irrigationColumn, DELAY),
      AverageTemperature(filtered, df.columns));
    var temperatureColumns := TemperatureColumns(df.columns);
    var precipitationColumns := PrecipitationColumns(df.columns);
    filtered := SortBy(filtered, DATE);
    o := Shown(indicators, temperatureColumns, precipitationColumns, filtered);
  }

  /** Two rows (2025-01-01, 30 degrees, 0 mm, WATER_NOW) and (2025-01-02,
      18 degrees, 12 mm, DELAY) within the full date range: the roles are
      inferred from the column names, and the indicators are 2 days, 1
      WATER_NOW day, 1 DELAY day and a mean of 24 degrees over `tavg_c`.
      Dates are day numbers since 1970-01-01. */
  lemma TwoDayExample()
    ensures
      var first := map[DATE := Date(20089), "tavg_c" := Num(30.0), "prcp_mm" := Num(0.0), "irrigation_advice" := Str("WATER_NOW")];
      var second := map[DATE := Date(20090), "tavg_c" := Num(18.0), "prcp_mm" := Num(12.0), "irrigation_advice" := Str("DELAY")];
      var df := Table([DATE, "tavg_c", "prcp_mm", "irrigation_advice"], [first, second]);
      var kept := Kept(df, Selection(20089, 20090, [], []));
      var adviceColumn := DetectIrrigationColumn(df.columns);
      && adviceColumn == Some("irrigation_advice")
      && kept == [first, second]
      && DistinctDays(kept, DATE) == 2
      && AdviceCount(kept, adviceColumn, WATER_NOW) == 1
      && AdviceCount(kept, adviceColumn, DELAY) == 1
      && AverageTemperature(kept, df.columns) == Average(24.0)
  {
    var first := map[DATE := Date(20089), "tavg_c" := Num(30.0), "prcp_mm" := Num(0.0), "irrigation_advice" := Str("WATER_NOW")];
    var second := map[DATE := Date(20090), "tavg_c" := Num(18.0), "prcp_mm" := Num(12.0), "irrigation_advice" := Str("DELAY")];
    assert Cell(first, DATE) == Date(20089) && Cell(first, "tavg_c") == Num(30.0) && Cell(first, "irrigation_advice") == Str(WATER_NOW);
    assert Cell(second, DATE) == Date(20090) && Cell(second, "tavg_c") == Num(18.0) && Cell(second, "irrigation_advice") == Str(DELAY);
    ExampleColumnRoles();
    TwoDayIndicators(first, second, [DATE, "tavg_c", "prcp_mm", "irrigation_advice"]);
  }

  /** The indicators of the example, for any two rows holding its cells and
      any columns whose roles are the example's. */
  lemma TwoDayIndicators(first: Row, second: Row, columns: seq<string>)
    requires Cell(first, DATE) == Date(20089) && Cell(first, "tavg_c") == Num(30.0) && Cell(first, "irrigation_advice") == Str(WATER_NOW)
    requires Cell(second, DATE) == Date(20090) && Cell(second, "tavg_c") == Num(18.0) && Cell(second, "irrigation_advice") == Str(DELAY)
    requires DetectIrrigationColumn(columns) == Some("irrigation_advice") && DetectRegionColumn(columns) == None
    requires TemperatureColumns(columns) == ["tavg_c"]
    ensures var kept := Kept(Table(columns, [first, second]), Selection(20089, 20090, [], []));
      && kept == [first, second]
      && DistinctDays(kept, DATE) == 2
      && AdviceCount(kept, Some("irrigation_advice"), WATER_NOW) == 1
      && AdviceCount(kept, Some("irrigation_advice"), DELAY) == 1
      && AverageTemperature(kept, columns) == Average(24.0)
  {
    TwoDayKept(first, second, columns);
    TwoDayCounts(first, second);
    TwoDayMean(first, second, columns);
  }

  lemma TwoDayKept(first: Row, second: Row, columns: seq<string>)
    requires Cell(first, DATE) == Date(20089) && Cell(second, DATE) == Date(20090)
    requires DetectIrrigationColumn(columns) == Some("irrigation_advice") && DetectRegionColumn(columns) == None
    ensures Kept(Table(columns, [first, second]), Selection(20089, 20090, [], [])) == [first, second]
  {
    var sel := Selection(20089, 20090, [], []);
    FilterRowsIsWhere([first, second], None, Some("irrigation_advice"), sel);
    WhereKeepsAll([first, second], KeepTest(None, Some("irrigation_advice"), sel));
  }

  lemma TwoDayCounts(first: Row, second: Row)
    requires Cell(first, DATE) == Date(20089) && Cell(first, "irrigation_advice") == Str(WATER_NOW)
    requires Cell(second, DATE) == Date(20090) && Cell(second, "irrigation_advice") == Str(DELAY)
    ensures DistinctDays([first, second], DATE) == 2
    ensures AdviceCount([first, second], Some("irrigation_advice"), WATER_NOW) == 1
    ensures AdviceCount([first, second], Some("irrigation_advice"), DELAY) == 1
  {
    var rows := [first, second];
    assert rows[1..] == [second];
    assert DaysOf(rows, DATE) == {20089, 20090};
    assert Where(rows, EqualsTest("irrigation_advice", Str(WATER_NOW))) == [first];
    assert Where(rows, EqualsTest("irrigation_advice", Str(DELAY))) == [second];
  }

  lemma TwoDayMean(first: Row, second: Row, columns: seq<string>)
    requires Cell(first, "tavg_c") == Num(30.0) && Cell(second, "tavg_c") == Num(18.0)
    requires TemperatureColumns(columns) == ["tavg_c"]
    ensures AverageTemperature([first, second], columns) == Average(24.0)
  {
    assert [first, second][1..] == [second];
    assert NumbersOf([first, second], "tavg_c") == [30.0, 18.0];
    assert Sum([30.0, 18.0]) == 48.0 by {
      assert [30.0, 18.0][1..] == [18.0];
    }
  }

  /** The example's columns: `irrigation_advice` is the advice column, no
      column names a region, and `tavg_c` is the only temperature column. */
  lemma ExampleColumnRoles()
    ensures DetectIrrigationColumn([DATE, "tavg_c", "prcp_mm", "irrigation_advice"]) == Some("irrigation_advice")
    ensures DetectRegionColumn([DATE, "tavg_c", "prcp_mm", "irrigation_advice"]) == None
    ensures TemperatureColumns([DATE, "tavg_c", "prcp_mm", "irrigation_advice"]) == ["tavg_c"]
  {
    DateRoles();
    TavgRoles();
    PrcpRoles();
    IrrigationAdviceRoles();
    ColumnRolesOfFour(DATE, "tavg_c", "prcp_mm", "irrigation_advice");
  }

  lemma ColumnRolesOfFour(a: string, b: string, c: string, d: string)
    requires !NamesAdvice(a) && !NamesRegion(a) && !NamesTemperature(a)
    requires !NamesAdvice(b) && !NamesRegion(b) && NamesTemperature(b)
    requires !NamesAdvice(c) && !NamesRegion(c) && !NamesTemperature(c)
    requires NamesAdvice(d) && !NamesRegion(d) && !NamesTemperature(d)
    ensures DetectIrrigationColumn([a, b, c, d]) == Some(d)
    ensures DetectRegionColumn([a, b, c, d]) == None
    ensures TemperatureColumns([a, b, c, d]) == [b]
  {
    assert [a, b, c, d][1..] == [b, c, d];
    assert [b, c, d][1..] == [c, d];
    assert [c, d][1..] == [d];
    assert [d][1..] == [];
    assert Where([a, b, c, d], NamesAdvice) == [d] by {
      assert Where([d], NamesAdvice) == [d];
      assert Where([c, d], NamesAdvice) == [d];
      assert Where([b, c, d], NamesAdvice) == [d];
    }
    assert Where([a, b, c, d], NamesTemperature) == [b] by {
      assert Where([d], NamesTemperature) == [];
      assert Where([c, d], NamesTemperature) == [];
      assert Where([b, c, d], NamesTemperature) == [b];
    }
  }

  lemma DateRoles()
    ensures !NamesAdvice(DATE) && !NamesRegion(DATE) && !NamesTemperature(DATE)
  {
    LowerKeepsLowerCase(DATE);
    NoLeadingPairNoMatch(DATE, "irrig");
    NoLeadingPairNoMatch(DATE, "water");
    NoLeadingPairNoMatch(DATE, "region");
    NoLeadingPairNoMatch(DATE, "location");
    NoLeadingPairNoMatch(DATE, "tavg");
  }

  lemma TavgRoles()
    ensures !NamesAdvice("tavg_c") && !NamesRegion("tavg_c") && NamesTemperature("tavg_c")
  {
    LowerKeepsLowerCase("tavg_c");
    assert "tavg_c"[..4] == "tavg";
    NoLeadingPairNoMatch("tavg_c", "irrig");
    NoLeadingPairNoMatch("tavg_c", "water");
    NoLeadingPairNoMatch("tavg_c", "region");
    NoLeadingPairNoMatch("tavg_c", "location");
  }

  lemma PrcpRoles()
    ensures !NamesAdvice("prcp_mm") && !NamesRegion("prcp_mm") && !NamesTemperature("prcp_mm")
  {
    LowerKeepsLowerCase("prcp_mm");
    PrcpLacks("irrig");
    PrcpLacks("water");
    PrcpLacks("region");
    PrcpLacks("location");
    PrcpLacks("tavg");
  }

  lemma PrcpLacks(pat: string)
    requires pat == "irrig" || pat == "water" || pat == "region" || pat == "location" || pat == "tavg"
    ensures !Contains("prcp_mm", pat)
  {
    NoLeadingPairNoMatch("prcp_mm", pat);
  }

  /** Split in single facts: together they exceed the solver's budget. */
  lemma IrrigationAdviceRoles()
    ensures NamesAdvice("irrigation_advice") && !NamesRegion("irrigation_advice") && !NamesTemperature("irrigation_advice")
  {
    LowerKeepsLowerCase("irrigation_advice");
    IrrigationAdviceNamesIrrigation();
    IrrigationAdviceLacks("region");
    IrrigationAdviceLacks("location");
    IrrigationAdviceLacks("tavg");
  }

  lemma IrrigationAdviceNamesIrrigation()
    ensures Contains("irrigation_advice", "irrig")
  {
    assert "irrigation_advice"[..5] == "irrig";
  }

  lemma IrrigationAdviceLacks(pat: string)
    requires pat == "region" || pat == "location" || pat == "tavg"
    ensures !Contains("irrigation_advice", pat)
  {
    NoLeadingPairNoMatch("irrigation_advice", pat);
  }
}
