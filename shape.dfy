/** Foot-shape ratios shared by the measurement extractor and the recommendation engine. */
module Shape {

  /** A ratio as the browser computes it: a number, or NaN for 0/0.
      In the ratio block of `analyzeFootImage` a divisor is zero only when
      its dividend is zero too (see Measurements.DivisionsAreZeroOverZero),
      so no infinity is needed. */
  datatype Ratio = Num(value: real) | NaN

  /** `r > t`; every comparison with NaN is false. */
  predicate Greater(r: Ratio, t: real)
  {
    r.Num? && r.value > t
  }

  /** `r < t`; every comparison with NaN is false. */
  predicate Less(r: Ratio, t: real)
  {
    r.Num? && r.value < t
  }

  /** Division of two measurements; a zero divisor gives NaN. */
  function Div(a: real, b: real): (r: Ratio)
    ensures r.Num? <==> b != 0.0
    ensures r.Num? ==> r.value * b == a
  {
    if b == 0.0 then NaN else Num(a / b)
  }

  /** The four ratios stored after a photo has been analysed. */
  datatype FootRatios = FootRatios(
    forefootWidthRatio: Ratio,
    toeTaperIndex: Ratio,
    midfootWidthRatio: Ratio,
    heelWidthRatio: Ratio)
}
