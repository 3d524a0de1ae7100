# Weather-aware irrigation planner: advisory and exploration core

This project models, in Dafny, the decision and data-transformation logic of
the Streamlit app `app.py` of a weather-aware irrigation planner. It covers:

- **Column-role inference by name.** A column is the advice column when its
  lower-cased name contains `irrig` or `water`. It is the region column when
  the name contains `region` or `location`. It is a temperature column when
  the name contains `tavg`, and a precipitation column when it contains
  `prcp`. A role with a single column takes the first match in declared
  order, or nothing.
- **The Dashboard filter chain.** An inclusive date range always applies.
  A region filter and an advice filter (`isin` over the selections) apply
  only when their column was inferred and the selection is non-empty.
- **The Dashboard key indicators** over the filtered rows: the number of
  distinct days, the exact-equality counts of `WATER_NOW` and `DELAY`
  (0 without an advice column), and the mean of the first `tavg` column.
  The filtered rows are then sorted by `date` for the charts and the
  detail table.
- **The Farmer View.** It keeps the calendar rows with `day_offset` in
  [0, 7] and sorts them by `calendar_date`. It writes the fixed-priority
  advice of `compute_advice` into `irrigation_advice`. Its summary counts
  the days shown, the `WATER_NOW` days and the days with rain.

Tables are loosely typed: a `Table` has a list of column names and rows that
map names to cells (`Tables.Value`: null, string, number, boolean or date).
A row without a key reads as null. Dates are whole day numbers (assumed: the
mart's date columns hold dates, without a time of day). Each page is a method that builds
its working rows step by step, as the page function does. The page returns
an outcome datatype: the pages' early returns (empty table, missing column,
nothing selected) are outcomes of their own, not preconditions.

Three behaviours of the code are modelled as the code has them:

- `sort_values("calendar_date")` raises on a calendar without a
  `calendar_date` column. The Farmer View reports this as
  `MissingCalendarDate`, after the `day_offset` check.
- The Dashboard reads `df["date"]` before filtering, so a table without a
  `date` column is the `MissingDateColumn` outcome.
- The advice column of the Farmer View is `irrigation_advice`. If the
  calendar already has one, it is overwritten. Otherwise it is appended.

## Model

| member | source | states |
|---|---|---|
| Schema.ContainsIffOccurs | app.py:29 | the substring test used for column names holds exactly when the pattern occurs at some position of the name |
| Schema.FirstMatchIsFirst | app.py:29-30 | `candidates[0] if candidates else None`: nothing is chosen exactly when no column plays the role, else the chosen column is the first in declared order that does |
| Schema.DetectIrrigationColumnIsFirst | app.py:24-30 | the advice column is the first column whose lower-cased name contains "irrig" or "water", and None exactly when there is none |
| Schema.DetectRegionColumnIsFirst | app.py:227-230 | the region column is the first column whose lower-cased name contains "region" or "location", and None exactly when there is none |
| Schema.TemperatureColumnsExact | app.py:297 | the `tavg` column list holds exactly the columns whose lower-cased name contains "tavg", in declared order |
| Schema.PrecipitationColumnsExact | app.py:324 | the `prcp` column list holds exactly the columns whose lower-cased name contains "prcp", in declared order |
| Schema.InferenceIsStable | app.py:29-30 | inferring again over the candidates found chooses the same column and keeps the same list |
| Filters.SelectionFilterExact | app.py:265-269 | the region and advice filters change nothing when the column is absent or the selection empty, and otherwise keep exactly the rows whose value is selected |
| Filters.FilterRowsIsWhere | app.py:259-269 | the chain is one order-preserving selection by date in range and both selection tests |
| Filters.FilterRowsKeepsExactly | app.py:259-269 | the filtered rows are a subsequence of the input in original order, each satisfies the date range and both selections, and each row satisfying them keeps its multiplicity |
| Filters.FilterRowsIdempotent | app.py:259-269 | filtering the filtered rows again with the same selections changes nothing |
| Filters.ReversedRangeIsEmpty | app.py:259-263 | a start date after the end date selects no row, without an error |
| Aggregates.DaysOf | app.py:283 | the days counted by `nunique` are exactly the dates that occur among the rows, and there are no more of them than rows |
| Aggregates.AdviceCountsBounded | app.py:285-289 | the WATER_NOW and DELAY counts are both 0 without an advice column, and together never exceed the number of rows |
| Aggregates.AdviceCountExact | app.py:286-287 | an advice count counts each row whose advice cell equals the label exactly, as often as it occurs, and no other row |
| Aggregates.MeanWithin | app.py:298 | the mean of values that all lie in an interval lies in that interval |
| Aggregates.AverageTemperatureBounds | app.py:297-298 | the temperature indicator is unavailable exactly when no column's lower-cased name contains `tavg`, and otherwise lies between the least and the greatest value of the first one |
| Ordering.SortBy | app.py:311 | sorting by a date column gives a permutation of the rows in ascending date order, with null dates last |
| Ordering.InsertBy | app.py:311 | inserting a row into rows sorted by date keeps them sorted and adds exactly that row |
| Ordering.DateOrderIsTotalPreorder | app.py:311 | the date order the sort uses is reflexive, total and transitive, with null dates after every date |
| AdviceRule.WaterNowDominates | app.py:390-391 | WATER_NOW exactly when the `should_irrigate` column exists and is true, and then whatever the precipitation is |
| AdviceRule.DelayNeedsPositiveRain | app.py:392-393 | DELAY exactly when should_irrigate does not fire, the `prcp` column exists and the row's value is a number strictly above 0 |
| AdviceRule.NoRainIsNeutral | app.py:388-394 | zero precipitation, null precipitation and a missing `prcp` column all give NEUTRAL when should_irrigate does not fire |
| AdviceRule.LabelsAreDistinct | app.py:391-394 | the three advice texts are pairwise distinct, so counting a text counts one advice |
| FarmerView.Window | app.py:377-378 | every row shown comes from the calendar and has 0 <= day_offset <= 7 |
| FarmerView.WindowKeepsExactly | app.py:376-378 | the window holds exactly the rows with 0 <= day_offset <= 7, each as often as in the calendar, sorted by calendar date; it is empty exactly when no row is in range |
| FarmerView.WindowExample | app.py:378 | offsets -3, 0, 5, 7, 8 on increasing dates give the rows at offsets 0, 5, 7 |
| FarmerView.AnnotatedCounts | app.py:396-407 | after the advice column is written, the WATER_NOW days are exactly the days whose should_irrigate is true, and the rainy days are unchanged |
| FarmerView.FarmerViewPage | app.py:368-407 | an empty calendar is "no data" before the day_offset check; a missing day_offset, a missing calendar_date and an empty window are distinct outcomes; otherwise the days shown equal the window length, WATER_NOW days (should_irrigate true) and rain days (prcp > 0, 0 without the column) never exceed it |
| FarmerView.AdviceExample | app.py:377-396 | calendar rows (offset 0, not to irrigate, 5 mm) and (offset 1, to irrigate, 0 mm) are both shown in date order, and the advice column reads "DELAY (rain expected)" then "WATER_NOW" |
| Dashboard.KeptRowsHaveDays | app.py:283 | a non-empty selection counts at least one day and no more days than rows |
| Dashboard.DashboardPage | app.py:205-311 | an empty table, a table without `date` and an empty selection are distinct outcomes; otherwise the indicators are the distinct days, the exact WATER_NOW and DELAY counts (together at most the rows) and the first-`tavg` mean of the filtered rows, and the detail rows are those rows sorted by date |
| Dashboard.TwoDayExample | app.py:259-298 | a table with columns `date`, `tavg_c`, `prcp_mm` and `irrigation_advice` and two rows (30 degrees, WATER_NOW) and (18 degrees, DELAY), over their full range: the advice column is inferred as `irrigation_advice`, both rows are kept, and the indicators are 2 days, 1 WATER_NOW, 1 DELAY and a mean of 24 |
| Dashboard.ExampleColumnRoles | app.py:227-297 | for those columns the advice column is `irrigation_advice`, no column is a region column, and `tavg_c` is the only temperature column |

## Left out

- All rendering (`st.*` titles, markdown, metrics, charts, tables, sidebar widgets) and the page router: the widget selections are plain inputs (`Filters.Selection`). So are the Dashboard's default 30-day range and its date bounds.
- The Overview page's snapshot (app.py:165-185) is not part of this model.
- Loading from DuckDB, the session cache and `pd.to_datetime`: a loaded table is an input, and its date columns already hold day numbers or null.
- `round(avg_temp, 1)` and floating point: the mean is an exact real, and the display rounding is not modelled.
- The temperature and precipitation chart pivots and the `value_counts` distribution chart (app.py:313-338): only the column lists they plot are modelled.
- `str.lower` is modelled on ASCII letters only; Unicode case mapping is not modelled.
- AdviceRule.ComputeAdvice: a null `should_irrigate` in a present column is not modelled (Python's `bool` treats NaN as true and raises on `pd.NA`); the Farmer View requires a boolean there for the rows in the window.
- Cells of a kind a column should not hold (a string in a date, `day_offset`, `prcp` or `tavg` column) are treated like null, where pandas would raise or compare them.
- FarmerView.FarmerViewPage: rows that share a `calendar_date` (or several null dates) are shown in calendar order, because the model sorts with a stable insertion sort; pandas' default `sort_values` does not promise that order.
- Ordering.SortBy: pandas' default sort is not stable, so the model promises only ascending order and a permutation, not the relative order of rows with equal dates.
- Duplicate column names are not modelled: a row maps each name to one cell.
