/** The Farmer View's fixed-priority advice rule, `compute_advice`
    (app.py:388-394). */
module AdviceRule {
  import opened Tables

  const SHOULD_IRRIGATE := "should_irrigate"
  const PRCP := "prcp"

  datatype Advice = WaterNow | DelayRainExpected | Neutral

  /** The text written into the `irrigation_advice` column. */
  function Label(a: Advice): string
  {
    match a
    case WaterNow => "WATER_NOW"
    case DelayRainExpected => "DELAY (rain expected)"
    case Neutral => "NEUTRAL"
  }

  lemma LabelsAreDistinct(a: Advice, b: Advice)
    ensures Label(a) == Label(b) <==> a == b
  {
  }

  /** `pd.notna(v) and v > 0`. */
  predicate RainExpected(v: Value)
  {
    v.Num? && v.n > 0.0
  }

  /** `should_irrigate` is consulted only when the column exists, and then
      holds a boolean (null cells are not part of this model). */
  predicate ShouldIrrigateReadable(hasShould: bool, r: Row)
  {
    hasShould ==> Cell(r, SHOULD_IRRIGATE).Bool?
  }

  /** `has_should`/`has_prcp` say whether the calendar has those columns. */
  function ComputeAdvice(hasShould: bool, hasPrcp: bool, r: Row): Advice
    requires ShouldIrrigateReadable(hasShould, r)
  {
    if hasShould && Cell(r, SHOULD_IRRIGATE).truth then WaterNow
    else if hasPrcp && RainExpected(Cell(r, PRCP)) then DelayRainExpected
    else Neutral
  }

  /** WATER_NOW exactly when the column exists and is true, whatever the
      precipitation says. */
  lemma WaterNowDominates(hasShould: bool, hasPrcp: bool, r: Row, rain: Value)
    requires ShouldIrrigateReadable(hasShould, r)
    ensures ComputeAdvice(hasShould, hasPrcp, r) == WaterNow <==> hasShould && Cell(r, SHOULD_IRRIGATE) == Bool(true)
    ensures ComputeAdvice(hasShould, hasPrcp, r) == WaterNow ==> ComputeAdvice(hasShould, hasPrcp, r[PRCP := rain]) == WaterNow
  {
    assert Cell(r[PRCP := rain], SHOULD_IRRIGATE) == Cell(r, SHOULD_IRRIGATE);
  }

  /** DELAY only when should_irrigate does not fire and a present, non-null
      precipitation is strictly positive. */
  lemma DelayNeedsPositiveRain(hasShould: bool, hasPrcp: bool, r: Row)
    requires ShouldIrrigateReadable(hasShould, r)
    ensures ComputeAdvice(hasShould, hasPrcp, r) == DelayRainExpected <==>
              !(hasShould && Cell(r, SHOULD_IRRIGATE) == Bool(true)) && hasPrcp && exists x :: Cell(r, PRCP) == Num(x) && x > 0.0
  {
    if hasPrcp && RainExpected(Cell(r, PRCP)) {
      assert Cell(r, PRCP) == Num(Cell(r, PRCP).n);
    }
  }

  /** Zero rain, null rain and a missing `prcp` column all give NEUTRAL when
      should_irrigate does not fire. */
  lemma NoRainIsNeutral(hasShould: bool, hasPrcp: bool, r: Row)
    requires ShouldIrrigateReadable(hasShould, r)
    requires !(hasShould && Cell(r, SHOULD_IRRIGATE) == Bool(true))
    requires !hasPrcp || Cell(r, PRCP) == Null || Cell(r, PRCP) == Num(0.0)
    ensures ComputeAdvice(hasShould, hasPrcp, r) == Neutral
  {
  }
}
