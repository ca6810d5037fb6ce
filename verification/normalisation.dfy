/** Normalisation of a gaze coordinate against the gaze recorded at two
    calibration targets on opposite edges, as the early and the legacy
    predictors both do it: position between the two recorded values, then a
    stretch around the centre by a fixed sensitivity. */
module Normalisation {
  import opened Numeric

  /** Both predictors stretch by the same factor around 0.5. */
  const Sensitivity: real := 1.2

  /** Position of `v` between the recorded values `lo` and `hi` (either may
      be the larger), clipped to [0, 1]; 0.5 when they are no more than
      `minRange` apart. */
  function Relative(v: real, lo: real, hi: real, minRange: real): (r: real)
    requires minRange >= 0.0
    ensures 0.0 <= r <= 1.0
  {
    var range := Abs(hi - lo);
    Clip(if range > minRange then (v - lo) / range else 0.5, 0.0, 1.0)
  }

  /** Stretch by the sensitivity around 0.5, clipped. */
  function Stretch(n: real): (r: real)
    ensures 0.0 <= r <= 1.0
  {
    Clip((n - 0.5) * Sensitivity + 0.5, 0.0, 1.0)
  }

  /** Looking further along the axis never moves the position back. */
  lemma RelativeMonotone(v1: real, v2: real, lo: real, hi: real, minRange: real)
    requires minRange >= 0.0 && v1 <= v2
    ensures Relative(v1, lo, hi, minRange) <= Relative(v2, lo, hi, minRange)
  {
    var range := Abs(hi - lo);
    if range > minRange {
      DivMonotone(v1 - lo, v2 - lo, range);
    }
  }

  /** When `hi` exceeds `lo` by more than `minRange`, gazing at `lo` gives 0
      and gazing at `hi` gives 1, both before and after the stretch. */
  lemma RelativeAtExtremes(lo: real, hi: real, minRange: real)
    requires minRange >= 0.0 && hi - lo > minRange
    ensures Relative(lo, lo, hi, minRange) == 0.0 && Stretch(0.0) == 0.0
    ensures Relative(hi, lo, hi, minRange) == 1.0 && Stretch(1.0) == 1.0
  {
    assert (hi - lo) / Abs(hi - lo) == 1.0;
    assert (lo - lo) / Abs(hi - lo) == 0.0;
  }

  /** Recorded values no more than `minRange` apart pin the position to the
      centre, which the stretch keeps. */
  lemma DegenerateIsCentre(v: real, lo: real, hi: real, minRange: real)
    requires minRange >= 0.0 && Abs(hi - lo) <= minRange
    ensures Relative(v, lo, hi, minRange) == 0.5 && Stretch(0.5) == 0.5
  {
  }
}
