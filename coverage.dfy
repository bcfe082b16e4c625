/** The coverage report's band classifier: a percentage to a labelled band.
    The percentage is a real number; the classifier only compares it with
    fixed thresholds. */
module CoverageIndicator {

  const Low := "🔴 Low"
  const Medium := "🟠 Medium"
  const Good := "🟡 Good"
  const VeryGood := "🟢 Very Good"
  const Unknown := "⚪ Unknown"

  /** The band of a percentage: below 30 low, below 60 medium, below 80
      good, up to and including 100 very good, above 100 unknown. Every
      input gets exactly one of the five labels. */
  function Indicator(percent: real): (band: string)
    ensures band == Low <==> percent < 30.0
    ensures band == Medium <==> 30.0 <= percent < 60.0
    ensures band == Good <==> 60.0 <= percent < 80.0
    ensures band == VeryGood <==> 80.0 <= percent <= 100.0
    ensures band == Unknown <==> percent > 100.0
  {
    if percent < 30.0 then Low
    else if percent < 60.0 then Medium
    else if percent < 80.0 then Good
    else if percent <= 100.0 then VeryGood
    else Unknown
  }

  /** The order of the bands from worst to best; the unknown band is
      outside the order. */
  function Rank(band: string): int {
    if band == Low then 0
    else if band == Medium then 1
    else if band == Good then 2
    else if band == VeryGood then 3
    else -1
  }

  /** Up to 100 a higher percentage never falls into a worse band. */
  lemma IndicatorMonotone(p: real, q: real)
    requires p <= q <= 100.0
    ensures 0 <= Rank(Indicator(p)) <= Rank(Indicator(q))
  {
  }
}
