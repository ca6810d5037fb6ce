/** The legacy calibration system: scalar Kalman and exponential-moving-average
    filters, a normalised target grid with an explicit error case, collection
    that averages a 60-frame buffer per target, and a predictor that
    normalises the gaze against the eye positions recorded at entries 3, 5,
    1 and 7 of the layout, as the source writes it (RawTarget, used by the
    object); these are the middle-edge targets only on the 9- and 13-target
    layouts, and GridRawTarget is the layout-aware correction. Regression
    fitting is external and its result is never evaluated by the predictor,
    so a fitted model is only "present". */
module LegacyCalibration {
  import opened Numeric
  import opened Readings
  import opened Normalisation

  const FramesPerPoint: nat := 60
  const MinPoints: nat := 4
  /** Normalisation against the grid needs the nine-point layout's indices. */
  const NormalisingPoints: nat := 9
  /** Ranges at or below this are treated as degenerate. */
  const MinRange: real := 0.01
  const GainMin: real := 0.1
  const GainMax: real := 5.0

  // ------------------------------------------------------------ filters

  /** One Kalman step with process variance q and measurement variance r:
      the new estimate and the new error estimate. */
  function KalmanStep(q: real, r: real, estimate: real, error: real, m: real): (s: (real, real))
    requires error + q + r != 0.0
    ensures m - s.0 == (1.0 - KalmanGain(q, r, error)) * (m - estimate)
    ensures s.1 == KalmanGain(q, r, error) * r
  {
    var priorError := error + q;
    var k := priorError / (priorError + r);
    assert k == KalmanGain(q, r, error);
    assert k + r / (priorError + r) == (priorError + r) / (priorError + r) == 1.0;
    assert (1.0 - k) * priorError == k * r;
    (estimate + k * (m - estimate), (1.0 - k) * priorError)
  }

  function KalmanGain(q: real, r: real, error: real): real
    requires error + q + r != 0.0
  {
    (error + q) / (error + q + r)
  }

  /** With non-negative process variance, positive measurement variance and a
      positive error estimate: the blending factor lies strictly between 0
      and 1, the new estimate lies between the prior estimate and the
      measurement (strictly, when they differ), and the new error estimate is
      positive and below the prior error estimate. */
  lemma KalmanStepBounds(q: real, r: real, estimate: real, error: real, m: real)
    requires q >= 0.0 && r > 0.0 && error > 0.0
    ensures 0.0 < KalmanGain(q, r, error) < 1.0
    ensures var (e, p) := KalmanStep(q, r, estimate, error, m);
      Min(estimate, m) <= e <= Max(estimate, m) &&
      (estimate != m ==> Min(estimate, m) < e < Max(estimate, m)) &&
      0.0 < p < error + q
  {
    var pe := error + q;
    var k := pe / (pe + r);
    assert 0.0 < k < 1.0 by {
      PositiveShare(pe, r);
      PositiveShare(r, pe);
      assert pe / (pe + r) + r / (pe + r) == (pe + r) / (pe + r) == 1.0;
    }
    var d := m - estimate;
    if d >= 0.0 {
      MulNonneg(k, d);
      MulNonneg(1.0 - k, d);
      assert d - k * d == (1.0 - k) * d;
      if d > 0.0 {
        assert k * d > 0.0;
        assert (1.0 - k) * d > 0.0;
      }
    } else {
      MulNonneg(k, -d);
      MulNonneg(1.0 - k, -d);
      assert k * d == -(k * (-d));
      assert (1.0 - k) * (-d) > 0.0;
      assert k * (-d) > 0.0;
    }
    assert (1.0 - k) * pe > 0.0;
    assert pe - (1.0 - k) * pe == k * pe;
    assert k * pe > 0.0;
  }

  lemma PositiveShare(a: real, b: real)
    requires a > 0.0 && b > 0.0
    ensures a / (a + b) > 0.0
  {
  }

  /** One exponential-moving-average step: the first value is taken as is. */
  function EmaStep(alpha: real, value: Option<real>, m: real): (r: real)
    ensures value.None? ==> r == m
  {
    if value.None? then m else alpha * m + (1.0 - alpha) * value.value
  }

  /** With alpha in [0, 1] a later step lies between the old value and the
      measurement; alpha 1 follows the measurement, alpha 0 holds the value. */
  lemma EmaBetween(alpha: real, v: real, m: real)
    requires 0.0 <= alpha <= 1.0
    ensures Min(v, m) <= EmaStep(alpha, Some(v), m) <= Max(v, m)
    ensures alpha == 1.0 ==> EmaStep(alpha, Some(v), m) == m
    ensures alpha == 0.0 ==> EmaStep(alpha, Some(v), m) == v
  {
    var r := EmaStep(alpha, Some(v), m);
    assert r - v == alpha * (m - v);
    if m >= v {
      MulNonneg(alpha, m - v);
      MulNonneg(1.0 - alpha, m - v);
      assert m - r == (1.0 - alpha) * (m - v);
    } else {
      MulNonneg(alpha, v - m);
      MulNonneg(1.0 - alpha, v - m);
      assert r - m == (1.0 - alpha) * (v - m);
    }
  }

  class KalmanFilter {
    const processVariance: real
    const measurementVariance: real
    var estimate: real
    var errorEstimate: real

    ghost predicate Valid()
      reads this
    {
      processVariance >= 0.0 && measurementVariance > 0.0 && errorEstimate > 0.0
    }

    constructor(q: real, r: real)
      requires q >= 0.0 && r > 0.0
      ensures processVariance == q && measurementVariance == r
      ensures estimate == 0.0 && errorEstimate == 1.0
      ensures Valid()
    {
      processVariance, measurementVariance := q, r;
      estimate, errorEstimate := 0.0, 1.0;
    }

    method Update(m: real) returns (e: real)
      requires Valid()
      modifies this
      ensures Valid()
      ensures estimate == KalmanStep(processVariance, measurementVariance, old(estimate), old(errorEstimate), m).0
      ensures errorEstimate == KalmanStep(processVariance, measurementVariance, old(estimate), old(errorEstimate), m).1
      ensures e == estimate
    {
      KalmanStepBounds(processVariance, measurementVariance, estimate, errorEstimate, m);
      var priorEstimate := estimate;
      var priorError := errorEstimate + processVariance;
      var k := priorError / (priorError + measurementVariance);
      estimate := priorEstimate + k * (m - priorEstimate);
      errorEstimate := (1.0 - k) * priorError;
      e := estimate;
    }

    method Reset()
      requires Valid()
      modifies this
      ensures Valid() && estimate == 0.0 && errorEstimate == 1.0
    {
      estimate, errorEstimate := 0.0, 1.0;
    }
  }

  class ExponentialMovingAverage {
    var alpha: real
    var value: Option<real>

    constructor(a: real)
      ensures alpha == a && value == None
    {
      alpha, value := a, None;
    }

    method Update(m: real) returns (v: real)
      modifies this
      ensures value == Some(EmaStep(alpha, old(value), m)) && v == value.value
      ensures alpha == old(alpha)
    {
      if value.None? {
        v := m;
      } else {
        v := alpha * m + (1.0 - alpha) * value.value;
      }
      value := Some(v);
    }

    method Reset()
      modifies this
      ensures value == None && alpha == old(alpha)
    {
      value := None;
    }
  }

  // ------------------------------------------------------------ grid

  /** `[(x, y) for y in ys for x in xs]`. */
  function Product(ys: seq<real>, xs: seq<real>): (g: seq<(real, real)>)
    ensures |g| == |ys| * |xs|
    ensures forall p :: p in g ==> p.0 in xs && p.1 in ys
  {
    if ys == [] then []
    else
      var init := ys[..|ys| - 1];
      assert forall y :: y in init ==> y in ys;
      assert |ys| * |xs| == |init| * |xs| + |xs|;
      Product(init, xs) + seq(|xs|, i requires 0 <= i < |xs| => (xs[i], ys[|ys| - 1]))
  }

  lemma {:induction false} ProductShape(ys: seq<real>, xs: seq<real>, lo: real, hi: real)
    requires forall i :: 0 <= i < |ys| ==> lo <= ys[i] <= hi
    requires forall i :: 0 <= i < |xs| ==> lo <= xs[i] <= hi
    ensures |Product(ys, xs)| == |ys| * |xs|
    ensures forall p :: p in Product(ys, xs) ==> lo <= p.0 <= hi && lo <= p.1 <= hi
  {
    if ys != [] {
      ProductShape(ys[..|ys| - 1], xs, lo, hi);
      assert |ys| * |xs| == (|ys| - 1) * |xs| + |xs|;
    }
  }

  /** Row i, column j of the product sits at position i * |xs| + j. */
  lemma {:induction false} ProductAt(ys: seq<real>, xs: seq<real>, i: nat, j: nat)
    requires i < |ys| && j < |xs|
    ensures i * |xs| + j < |Product(ys, xs)|
    ensures Product(ys, xs)[i * |xs| + j] == (xs[j], ys[i])
  {
    var init := ys[..|ys| - 1];
    var front := Product(init, xs);
    var back := seq(|xs|, k requires 0 <= k < |xs| => (xs[k], ys[|ys| - 1]));
    assert Product(ys, xs) == front + back;
    var c := |xs|;
    assert |front| == |init| * c;
    if i < |init| {
      ProductAt(init, xs, i, j);
      RowBeforeEnd(i, |init|, c);
      assert (front + back)[i * c + j] == front[i * c + j];
    } else {
      assert i * c == |init| * c;
      assert (front + back)[|front| + j] == back[j];
    }
  }

  /** A row before the last n starts a whole row before the end. */
  lemma RowBeforeEnd(i: nat, n: nat, c: nat)
    requires i < n
    ensures i * c + c <= n * c
  {
    var d: nat := n - (i + 1);
    assert n * c == i * c + c + d * c;
  }

  const NinePoints: seq<(real, real)> := [
    (0.1, 0.1), (0.5, 0.1), (0.9, 0.1),
    (0.1, 0.5), (0.5, 0.5), (0.9, 0.5),
    (0.1, 0.9), (0.5, 0.9), (0.9, 0.9)]
  const DiagonalPoints: seq<(real, real)> := [(0.25, 0.25), (0.75, 0.25), (0.25, 0.75), (0.75, 0.75)]
  const FourSteps: seq<real> := [0.1, 0.4, 0.6, 0.9]
  const FiveSteps: seq<real> := [0.1, 0.3, 0.5, 0.7, 0.9]

  /** Normalised targets for a request of 9, 13, 16 or 25 points; any other
      count is an error (None). */
  function GenerateCalibrationGrid(n: int): (r: Option<seq<(real, real)>>)
    ensures r.Some? <==> n in {9, 13, 16, 25}
    ensures r.Some? ==> (|r.value| == n &&
      forall p :: p in r.value ==> 0.1 <= p.0 <= 0.9 && 0.1 <= p.1 <= 0.9)
  {
    if n == 9 then Some(NinePoints)
    else if n == 13 then Some(NinePoints + DiagonalPoints)
    else if n == 16 then
      ProductShape(FourSteps, FourSteps, 0.1, 0.9);
      Some(Product(FourSteps, FourSteps))
    else if n == 25 then
      ProductShape(FiveSteps, FiveSteps, 0.1, 0.9);
      Some(Product(FiveSteps, FiveSteps))
    else None
  }

  // ------------------------------------------------------------ prediction

  /** A completed target: its pixels and the averaged reading. */
  datatype CalPoint = CalPoint(screenX: int, screenY: int, reading: Reading)

  function GazeX(r: Reading): real { (r.left.0 + r.right.0) / 2.0 }
  function GazeY(r: Reading): real { (r.left.1 + r.right.1) / 2.0 }

  /** Stretch by the output gain around 0.5, clipped; skipped at gain 1. */
  function WithGain(a: real, gain: real): (r: real)
    requires 0.0 <= a <= 1.0
    ensures 0.0 <= r <= 1.0
    ensures gain == 1.0 ==> r == a
  {
    if gain != 1.0 then Clip(0.5 + (a - 0.5) * gain, 0.0, 1.0) else a
  }

  /** One axis of the normalising predictor. */
  function NormaliseAxis(v: real, lo: real, hi: real, gain: real): (a: real)
    ensures 0.0 <= a <= 1.0
  {
    WithGain(Stretch(Relative(v, lo, hi, MinRange)), gain)
  }

  /** Extremes recorded within MinRange of each other put the axis at the
      centre of the screen whatever the gaze and the gain. */
  lemma DegenerateRangeIsCentre(v: real, lo: real, hi: real, gain: real)
    requires Abs(hi - lo) <= MinRange
    ensures NormaliseAxis(v, lo, hi, gain) == 0.5
  {
  }

  /** With a gain of at least 1, looking at the recorded low extreme maps to
      the low edge and looking at the high extreme maps to the high edge. */
  lemma ExtremesReachEdges(lo: real, hi: real, gain: real)
    requires hi - lo > MinRange && gain >= 1.0
    ensures NormaliseAxis(lo, lo, hi, gain) == 0.0
    ensures NormaliseAxis(hi, lo, hi, gain) == 1.0
  {
    RelativeAtExtremes(lo, hi, MinRange);
    MulNonneg(gain - 1.0, 0.5);
  }

  lemma WithGainMonotone(a1: real, a2: real, gain: real)
    requires 0.0 <= a1 <= a2 <= 1.0 && gain >= 0.0
    ensures WithGain(a1, gain) <= WithGain(a2, gain)
  {
    MulNonneg(a2 - a1, gain);
    assert (a2 - 0.5) * gain - (a1 - 0.5) * gain == (a2 - a1) * gain;
  }

  /** Looking further along an axis never moves the cursor back, for a
      non-negative gain and extremes recorded in either order. */
  lemma NormaliseMonotone(v1: real, v2: real, lo: real, hi: real, gain: real)
    requires v1 <= v2 && gain >= 0.0
    ensures NormaliseAxis(v1, lo, hi, gain) <= NormaliseAxis(v2, lo, hi, gain)
  {
    RelativeMonotone(v1, v2, lo, hi, MinRange);
    WithGainMonotone(Stretch(Relative(v1, lo, hi, MinRange)), Stretch(Relative(v2, lo, hi, MinRange)), gain);
  }

  /** The gaze normalised against four recorded targets: e.0 and e.1 give
      the horizontal range, e.2 and e.3 the vertical one. */
  function TargetAgainst(points: seq<CalPoint>, e: (nat, nat, nat, nat), r: Reading, gain: real,
                         w: int, h: int): (t: (real, real))
    requires e.0 < |points| && e.1 < |points| && e.2 < |points| && e.3 < |points|
    ensures w >= 0 ==> 0.0 <= t.0 <= w as real
    ensures h >= 0 ==> 0.0 <= t.1 <= h as real
  {
    (OfDim(NormaliseAxis(GazeX(r), GazeX(points[e.0].reading), GazeX(points[e.1].reading), gain), w),
     OfDim(NormaliseAxis(GazeY(r), GazeY(points[e.2].reading), GazeY(points[e.3].reading), gain), h))
  }

  /** The pixel target before smoothing, as the source writes it. With at
      least nine recorded targets the gaze is normalised against entries 3
      and 5 of the recorded list horizontally and 1 and 7 vertically,
      whatever the layout; these are the middle-edge targets only on the 9-
      and 13-target layouts. With fewer, the averaged gaze ratio is scaled
      directly. */
  function RawTarget(points: seq<CalPoint>, r: Reading, gain: real, w: int, h: int): (t: (real, real))
    ensures |points| >= NormalisingPoints && w >= 0 ==> 0.0 <= t.0 <= w as real
    ensures |points| >= NormalisingPoints && h >= 0 ==> 0.0 <= t.1 <= h as real
    ensures |points| < NormalisingPoints ==> t == (GazeX(r) * w as real, GazeY(r) * h as real)
  {
    if |points| >= NormalisingPoints then TargetAgainst(points, (3, 5, 1, 7), r, gain, w, h)
    else (GazeX(r) * w as real, GazeY(r) * h as real)
  }

  /** Positions in a list recorded on the n-target layout of the left and
      right targets of the middle row and the top and bottom targets of the
      middle column. The 16-target layout has no middle row or column; its
      second row and second column stand in. */
  function EdgeIndices(n: nat): (e: (nat, nat, nat, nat))
    ensures n >= NormalisingPoints ==> e.0 < n && e.1 < n && e.2 < n && e.3 < n
  {
    if n == 16 then (4, 7, 1, 13)
    else if n == 25 then (10, 14, 2, 22)
    else (3, 5, 1, 7)
  }

  /** The pixel target before smoothing, normalised against the middle-edge
      targets of the layout the list was recorded on. */
  function GridRawTarget(points: seq<CalPoint>, r: Reading, gain: real, w: int, h: int): (t: (real, real))
    ensures |points| >= NormalisingPoints && w >= 0 ==> 0.0 <= t.0 <= w as real
    ensures |points| >= NormalisingPoints && h >= 0 ==> 0.0 <= t.1 <= h as real
    ensures |points| < NormalisingPoints ==> t == (GazeX(r) * w as real, GazeY(r) * h as real)
  {
    if |points| >= NormalisingPoints then TargetAgainst(points, EdgeIndices(|points|), r, gain, w, h)
    else (GazeX(r) * w as real, GazeY(r) * h as real)
  }

  /** Outside the 16- and 25-target layouts the two targets agree. */
  lemma GridRawTargetAgrees(points: seq<CalPoint>, r: Reading, gain: real, w: int, h: int)
    requires |points| != 16 && |points| != 25
    ensures GridRawTarget(points, r, gain, w, h) == RawTarget(points, r, gain, w, h)
  {
  }

  /** Both eyes looking at the normalised point p. */
  function Looking(p: (real, real)): (r: Reading)
    ensures GazeX(r) == p.0 && GazeY(r) == p.1
  {
    Reading(p, p, (0.0, 0.0))
  }

  /** A recording that reads every target of layout g exactly. */
  function IdealPoints(g: seq<(real, real)>): (pts: seq<CalPoint>)
    ensures |pts| == |g| && forall i :: 0 <= i < |g| ==> GazeX(pts[i].reading) == g[i].0 && GazeY(pts[i].reading) == g[i].1
  {
    seq(|g|, i requires 0 <= i < |g| => CalPoint(0, 0, Looking(g[i])))
  }

  /** On the 25-target layout the fixed entries are not the middle edges:
      the "left" entry 3 lies right of the "right" entry 5, and the "top" and
      "bottom" entries 1 and 7 are rows 0.1 and 0.3. */
  lemma WideGridEntriesAsWritten()
    ensures var g := GenerateCalibrationGrid(25).value;
      |g| == 25 && g[3] == (0.7, 0.1) && g[5] == (0.1, 0.3) && g[1] == (0.3, 0.1) && g[7] == (0.5, 0.3)
  {
    ProductAt(FiveSteps, FiveSteps, 0, 3);
    ProductAt(FiveSteps, FiveSteps, 1, 0);
    ProductAt(FiveSteps, FiveSteps, 0, 1);
    ProductAt(FiveSteps, FiveSteps, 1, 2);
  }

  /** With a recording that reads every target of the 25-target layout
      exactly, the fixed-entry predictor puts a gaze at the right-most
      column (x = 0.9) at 30% of the screen width, and a gaze at x = 0.7 on
      the left edge. */
  lemma WideGridMisplacesAsWritten(w: int, h: int)
    ensures var pts := IdealPoints(GenerateCalibrationGrid(25).value);
      RawTarget(pts, Looking((0.9, 0.5)), 1.0, w, h).0 == 0.3 * w as real &&
      RawTarget(pts, Looking((0.7, 0.5)), 1.0, w, h).0 == 0.0
  {
    WideGridEntriesAsWritten();
    FixedEntriesMisplace(GenerateCalibrationGrid(25).value, w, h);
  }

  /** Any layout whose entry 3 is at x = 0.7 and entry 5 at x = 0.1 is read
      backwards by the fixed-entry predictor. */
  lemma FixedEntriesMisplace(g: seq<(real, real)>, w: int, h: int)
    requires |g| >= NormalisingPoints && g[3].0 == 0.7 && g[5].0 == 0.1
    ensures var pts := IdealPoints(g);
      RawTarget(pts, Looking((0.9, 0.5)), 1.0, w, h).0 == 0.3 * w as real &&
      RawTarget(pts, Looking((0.7, 0.5)), 1.0, w, h).0 == 0.0
  {
    var pts := IdealPoints(g);
    assert GazeX(pts[3].reading) == 0.7 && GazeX(pts[5].reading) == 0.1;
    assert Relative(0.9, 0.7, 0.1, MinRange) == (0.9 - 0.7) / 0.6;
    assert Relative(0.7, 0.7, 0.1, MinRange) == 0.0;
  }

  /** The 16-target layout's stand-in middle edges. */
  lemma SixteenEdges()
    ensures var g := Product(FourSteps, FourSteps);
      |g| == 16 && g[4] == (0.1, 0.4) && g[7] == (0.9, 0.4) && g[1] == (0.4, 0.1) && g[13] == (0.4, 0.9)
  {
    ProductAt(FourSteps, FourSteps, 1, 0);
    ProductAt(FourSteps, FourSteps, 1, 3);
    ProductAt(FourSteps, FourSteps, 0, 1);
    ProductAt(FourSteps, FourSteps, 3, 1);
  }

  /** The 25-target layout's middle edges. */
  lemma WideEdges()
    ensures var g := Product(FiveSteps, FiveSteps);
      |g| == 25 && g[10] == (0.1, 0.5) && g[14] == (0.9, 0.5) && g[2] == (0.5, 0.1) && g[22] == (0.5, 0.9)
  {
    ProductAt(FiveSteps, FiveSteps, 2, 0);
    ProductAt(FiveSteps, FiveSteps, 2, 4);
    ProductAt(FiveSteps, FiveSteps, 0, 2);
    ProductAt(FiveSteps, FiveSteps, 4, 2);
  }

  /** On every supported layout the layout-aware entries are a left and a
      right target of one row at the layout's outer columns, and a top and
      a bottom target of one column at its outer rows. */
  lemma GridEdgesSpanLayout(n: nat)
    requires n == 9 || n == 13 || n == 16 || n == 25
    ensures var g := GenerateCalibrationGrid(n).value; var e := EdgeIndices(n);
      g[e.0].0 == 0.1 && g[e.1].0 == 0.9 && g[e.0].1 == g[e.1].1 &&
      g[e.2].1 == 0.1 && g[e.3].1 == 0.9 && g[e.2].0 == g[e.3].0
  {
    if n == 16 {
      SixteenEdges();
    } else if n == 25 {
      WideEdges();
    } else {
      var g := GenerateCalibrationGrid(n).value;
      assert g[3] == (0.1, 0.5) && g[5] == (0.9, 0.5) && g[1] == (0.5, 0.1) && g[7] == (0.5, 0.9);
    }
  }

  /** On any layout whose chosen entries sit at 0.1 and 0.9, a recording that
      reads every target exactly sends a gaze at those entries to the screen
      edges, for a gain of at least 1. */
  lemma IdealEdgesReachEdges(g: seq<(real, real)>, gain: real, w: int, h: int)
    requires |g| >= NormalisingPoints && gain >= 1.0
    requires var e := EdgeIndices(|g|);
      g[e.0].0 == 0.1 && g[e.1].0 == 0.9 && g[e.2].1 == 0.1 && g[e.3].1 == 0.9
    ensures var pts := IdealPoints(g); var e := EdgeIndices(|g|);
      GridRawTarget(pts, Looking(g[e.0]), gain, w, h).0 == 0.0 &&
      GridRawTarget(pts, Looking(g[e.1]), gain, w, h).0 == w as real &&
      GridRawTarget(pts, Looking(g[e.2]), gain, w, h).1 == 0.0 &&
      GridRawTarget(pts, Looking(g[e.3]), gain, w, h).1 == h as real
  {
    var pts := IdealPoints(g);
    var e := EdgeIndices(|g|);
    assert GazeX(pts[e.0].reading) == 0.1 && GazeX(pts[e.1].reading) == 0.9;
    assert GazeY(pts[e.2].reading) == 0.1 && GazeY(pts[e.3].reading) == 0.9;
    ExtremesReachEdges(0.1, 0.9, gain);
  }

  /** With a recording that reads every target exactly and a gain of at
      least 1, looking at the layout's left, right, top and bottom
      middle-edge targets reaches the matching screen edge, on every
      supported layout. */
  lemma GridEdgesReachEdges(n: nat, gain: real, w: int, h: int)
    requires (n == 9 || n == 13 || n == 16 || n == 25) && gain >= 1.0
    ensures var g := GenerateCalibrationGrid(n).value; var pts := IdealPoints(g); var e := EdgeIndices(n);
      GridRawTarget(pts, Looking(g[e.0]), gain, w, h).0 == 0.0 &&
      GridRawTarget(pts, Looking(g[e.1]), gain, w, h).0 == w as real &&
      GridRawTarget(pts, Looking(g[e.2]), gain, w, h).1 == 0.0 &&
      GridRawTarget(pts, Looking(g[e.3]), gain, w, h).1 == h as real
  {
    GridEdgesSpanLayout(n);
    IdealEdgesReachEdges(GenerateCalibrationGrid(n).value, gain, w, h);
  }

  /** A share of a screen dimension, in pixels. */
  function OfDim(a: real, d: int): (v: real)
    ensures 0.0 <= a <= 1.0 && d >= 0 ==> 0.0 <= v <= d as real
  {
    if 0.0 <= a <= 1.0 && d >= 0 then
      MulNonneg(a, d as real);
      MulNonneg(1.0 - a, d as real);
      a * d as real
    else
      a * d as real
  }

  /** `int(np.clip(v, 0, dim - 1))`. */
  function ScreenClamp(v: real, dim: int): (r: int)
    requires dim > 0
    ensures 0 <= r < dim
    ensures 0.0 <= v <= (dim - 1) as real ==> r == Trunc(v)
  {
    TruncMonotone(Clip(v, 0.0, (dim - 1) as real), (dim - 1) as real);
    TruncOfInt(dim - 1);
    Trunc(Clip(v, 0.0, (dim - 1) as real))
  }

  /** What the save routine writes and the load routine reads back. */
  datatype SavedData = SavedData(screenWidth: int, screenHeight: int, points: seq<CalPoint>,
                                 headBaseline: Option<(real, real)>, calibrationError: real)

  /** A file on disk as the load routine finds it. */
  datatype FileState<T> = Missing | Unreadable | Readable(contents: T)

  /** Mean nose position over all recorded targets. */
  function HeadBaseline(points: seq<CalPoint>): (b: (real, real))
    requires |points| > 0
    ensures b == (Mean(Channel(ReadingsOf(points), 4)), Mean(Channel(ReadingsOf(points), 5)))
    ensures (forall i :: 0 <= i < |points| ==> points[i].reading.nose == points[0].reading.nose) ==>
            b == points[0].reading.nose
  {
    assert (forall i :: 0 <= i < |points| ==> points[i].reading.nose == points[0].reading.nose) ==>
           MeanReading(ReadingsOf(points)).nose == points[0].reading.nose by {
      if forall i :: 0 <= i < |points| ==> points[i].reading.nose == points[0].reading.nose {
        var rs := ReadingsOf(points);
        MeanConstant(Channel(rs, 4), points[0].reading.nose.0);
        MeanConstant(Channel(rs, 5), points[0].reading.nose.1);
      }
    }
    MeanReading(ReadingsOf(points)).nose
  }

  function ReadingsOf(points: seq<CalPoint>): (r: seq<Reading>)
    ensures |r| == |points| && forall i :: 0 <= i < |points| ==> r[i] == points[i].reading
  {
    seq(|points|, i requires 0 <= i < |points| => points[i].reading)
  }

  /** The baseline lies within the range of nose positions recorded. */
  lemma HeadBaselineBounds(points: seq<CalPoint>, lo: real, hi: real)
    requires |points| > 0
    requires forall i :: 0 <= i < |points| ==> lo <= points[i].reading.nose.0 <= hi
    ensures lo <= HeadBaseline(points).0 <= hi
  {
    MeanReadingBounds(ReadingsOf(points), 4, lo, hi);
  }

  // ------------------------------------------------------------ the object

  class AdvancedCalibrationSystem {
    const W: int
    const H: int
    var grid: seq<(real, real)>
    var currentPointIdx: nat
    var calibrationData: seq<CalPoint>
    var currentFrameCount: nat
    var buffer: seq<Reading>
    var isCalibrated: bool
    var isCalibrating: bool
    /** Whether a fitted regression (x_model) is held. */
    var hasModel: bool
    var calibrationErrorPixels: real
    var headBaseline: Option<(real, real)>
    var outputGain: real
    var lastPredicted: Option<(int, int)>
    const kalmanX: KalmanFilter
    const kalmanY: KalmanFilter
    const emaX: ExponentialMovingAverage
    const emaY: ExponentialMovingAverage

    ghost predicate Valid()
      reads this, kalmanX, kalmanY, emaX, emaY
    {
      W > 0 && H > 0 &&
      kalmanX != kalmanY && emaX != emaY &&
      kalmanX.Valid() && kalmanY.Valid() &&
      0.0 <= emaX.alpha <= 1.0 && 0.0 <= emaY.alpha <= 1.0 &&
      GainMin <= outputGain <= GainMax &&
      currentFrameCount < FramesPerPoint && |buffer| == currentFrameCount
    }

    /** While calibrating: one recorded point per finished target, aimed at
        that target's pixels. */
    ghost predicate Collecting()
      reads this
    {
      currentPointIdx <= |grid| && |calibrationData| == currentPointIdx &&
      forall k :: 0 <= k < |calibrationData| ==>
        (calibrationData[k].screenX, calibrationData[k].screenY) == TargetPixel(grid[k], W, H)
    }

    constructor(w: int, h: int)
      requires w > 0 && h > 0
      ensures Valid() && Collecting()
      ensures W == w && H == h && grid == NinePoints
      ensures currentPointIdx == 0 && calibrationData == [] && currentFrameCount == 0 && buffer == []
      ensures !isCalibrated && !isCalibrating && !hasModel && headBaseline == None
      ensures outputGain == 1.0 && lastPredicted == None && calibrationErrorPixels == 0.0
      ensures kalmanX.estimate == 0.0 && kalmanX.errorEstimate == 1.0
      ensures kalmanY.estimate == 0.0 && kalmanY.errorEstimate == 1.0
      ensures emaX.alpha == 0.4 && emaX.value == None && emaY.alpha == 0.4 && emaY.value == None
      ensures fresh(kalmanX) && fresh(kalmanY) && fresh(emaX) && fresh(emaY)
    {
      W, H := w, h;
      grid := GenerateCalibrationGrid(9).value;
      currentPointIdx, calibrationData := 0, [];
      currentFrameCount, buffer := 0, [];
      isCalibrated, isCalibrating, hasModel := false, false, false;
      calibrationErrorPixels := 0.0;
      headBaseline := None;
      outputGain := 1.0;
      lastPredicted := None;
      kalmanX := new KalmanFilter(0.00001, 0.1);
      kalmanY := new KalmanFilter(0.00001, 0.1);
      emaX := new ExponentialMovingAverage(0.4);
      emaY := new ExponentialMovingAverage(0.4);
    }

    method ResetSmoothingFilters()
      requires Valid()
      modifies kalmanX, kalmanY, emaX, emaY
      ensures Valid()
      ensures kalmanX.estimate == 0.0 && kalmanX.errorEstimate == 1.0
      ensures kalmanY.estimate == 0.0 && kalmanY.errorEstimate == 1.0
      ensures emaX.value == None && emaY.value == None
      ensures emaX.alpha == old(emaX.alpha) && emaY.alpha == old(emaY.alpha)
    {
      kalmanX.Reset();
      kalmanY.Reset();
      emaX.Reset();
      emaY.Reset();
    }

    /** Starts a calibration run; returns false (and changes nothing) when the
        requested count is not one of 9, 13, 16 or 25. */
    method StartCalibration(numPoints: int) returns (ok: bool)
      requires Valid()
      modifies this, kalmanX, kalmanY, emaX, emaY
      ensures Valid()
      ensures ok <==> numPoints in {9, 13, 16, 25}
      ensures !ok ==> unchanged(this) && unchanged(kalmanX, kalmanY, emaX, emaY)
      ensures ok ==>
        grid == GenerateCalibrationGrid(numPoints).value && Collecting() &&
        currentPointIdx == 0 && calibrationData == [] && buffer == [] && currentFrameCount == 0 &&
        isCalibrating && !isCalibrated &&
        kalmanX.estimate == 0.0 && kalmanX.errorEstimate == 1.0 &&
        kalmanY.estimate == 0.0 && kalmanY.errorEstimate == 1.0 &&
        emaX.value == None && emaY.value == None
      ensures hasModel == old(hasModel) && headBaseline == old(headBaseline) && outputGain == old(outputGain)
    {
      var g := GenerateCalibrationGrid(numPoints);
      if g.None? {
        return false;
      }
      grid := g.value;
      currentPointIdx := 0;
      calibrationData := [];
      buffer := [];
      currentFrameCount := 0;
      isCalibrating := true;
      isCalibrated := false;
      ResetSmoothingFilters();
      ok := true;
    }

    /** Fits the mapping when at least four targets are recorded. `fit`
        returns the mean training error, or None when fitting raises. */
    method TrainMappingModel(fit: seq<CalPoint> -> Option<real>)
      requires Valid()
      modifies this
      ensures Valid()
      ensures |calibrationData| < MinPoints ==> unchanged(this)
      ensures |calibrationData| >= MinPoints ==> headBaseline == Some(HeadBaseline(calibrationData))
      ensures |calibrationData| >= MinPoints && fit(calibrationData).Some? ==>
        isCalibrated && hasModel && calibrationErrorPixels == fit(calibrationData).value
      ensures |calibrationData| < MinPoints || fit(calibrationData).None? ==>
        isCalibrated == old(isCalibrated) && hasModel == old(hasModel) &&
        calibrationErrorPixels == old(calibrationErrorPixels)
      ensures calibrationData == old(calibrationData) && grid == old(grid) && buffer == old(buffer)
      ensures currentPointIdx == old(currentPointIdx) && currentFrameCount == old(currentFrameCount)
      ensures isCalibrating == old(isCalibrating) && outputGain == old(outputGain)
      ensures lastPredicted == old(lastPredicted)
    {
      if |calibrationData| < MinPoints {
        return;
      }
      headBaseline := Some(HeadBaseline(calibrationData));
      var fitted := fit(calibrationData);
      if fitted.None? {
        return;
      }
      hasModel := true;
      calibrationErrorPixels := fitted.value;
      isCalibrated := true;
    }

    /** Records the averaged reading for the current target and moves to
        the next one; after the last target calibration stops and the
        mapping is trained. Returns whether that was the last target. */
    method RecordPoint(mean: Reading, fit: seq<CalPoint> -> Option<real>) returns (done: bool)
      requires Valid() && isCalibrating && currentPointIdx < |grid|
      modifies this
      ensures Valid()
      ensures var t := TargetPixel(old(grid)[old(currentPointIdx)], W, H);
        calibrationData == old(calibrationData) + [CalPoint(t.0, t.1, mean)]
      ensures grid == old(grid) && currentPointIdx == old(currentPointIdx) + 1
      ensures currentFrameCount == 0 && buffer == []
      ensures done == (currentPointIdx >= |grid|) && isCalibrating == !done
      ensures done && |calibrationData| >= MinPoints ==> headBaseline == Some(HeadBaseline(calibrationData))
      ensures done && |calibrationData| >= MinPoints && fit(calibrationData).Some? ==>
        isCalibrated && hasModel && calibrationErrorPixels == fit(calibrationData).value
      ensures !done || |calibrationData| < MinPoints || fit(calibrationData).None? ==>
        isCalibrated == old(isCalibrated) && hasModel == old(hasModel) &&
        calibrationErrorPixels == old(calibrationErrorPixels)
      ensures !done ==> headBaseline == old(headBaseline)
      ensures outputGain == old(outputGain) && lastPredicted == old(lastPredicted)
      ensures old(Collecting()) ==> Collecting()
    {
      var t := TargetPixel(grid[currentPointIdx], W, H);
      calibrationData := calibrationData + [CalPoint(t.0, t.1, mean)];
      currentPointIdx := currentPointIdx + 1;
      currentFrameCount := 0;
      buffer := [];
      done := currentPointIdx >= |grid|;
      if done {
        isCalibrating := false;
        TrainMappingModel(fit);
      }
    }

    /** Buffers one frame for the current target; once 60 frames are
        buffered, records their average and moves on. Returns whether
        calibration is over. */
    method CollectCalibrationFrame(r: Reading, fit: seq<CalPoint> -> Option<real>) returns (done: bool)
      requires Valid()
      modifies this
      ensures Valid()
      ensures !old(isCalibrating) || old(currentPointIdx) >= |old(grid)| ==> done && unchanged(this)
      ensures old(isCalibrating) && old(currentPointIdx) < |old(grid)| && old(currentFrameCount) + 1 < FramesPerPoint ==>
        calibrationData == old(calibrationData) && buffer == old(buffer) + [r] &&
        currentPointIdx == old(currentPointIdx) && currentFrameCount == old(currentFrameCount) + 1 &&
        !done && isCalibrating && isCalibrated == old(isCalibrated) && hasModel == old(hasModel)
      ensures old(isCalibrating) && old(currentPointIdx) < |old(grid)| && old(currentFrameCount) + 1 >= FramesPerPoint ==>
        var t := TargetPixel(old(grid)[old(currentPointIdx)], W, H);
        |old(buffer) + [r]| == FramesPerPoint &&
        calibrationData == old(calibrationData) + [CalPoint(t.0, t.1, MeanReading(old(buffer) + [r]))] &&
        currentPointIdx == old(currentPointIdx) + 1 && currentFrameCount == 0 && buffer == [] &&
        done == (currentPointIdx >= |grid|) && isCalibrating == !done &&
        (done && |calibrationData| >= MinPoints ==> headBaseline == Some(HeadBaseline(calibrationData))) &&
        (done && |calibrationData| >= MinPoints && fit(calibrationData).Some? ==>
          isCalibrated && hasModel && calibrationErrorPixels == fit(calibrationData).value) &&
        (!done || |calibrationData| < MinPoints || fit(calibrationData).None? ==>
          isCalibrated == old(isCalibrated) && hasModel == old(hasModel))
      ensures grid == old(grid) && outputGain == old(outputGain) && lastPredicted == old(lastPredicted)
      ensures old(isCalibrating) && old(Collecting()) ==> Collecting()
      ensures old(isCalibrating) && old(Collecting()) && done ==> |calibrationData| == |grid|
    {
      if !isCalibrating || currentPointIdx >= |grid| {
        return true;
      }
      var frames := buffer + [r];
      if currentFrameCount + 1 >= FramesPerPoint {
        done := RecordPoint(MeanReading(frames), fit);
      } else {
        buffer := frames;
        currentFrameCount := currentFrameCount + 1;
        done := false;
      }
    }

    /** Maps one reading to a cursor position. */
    method PredictScreenPosition(r: Reading, useSmoothing: bool) returns (x: int, y: int)
      requires Valid()
      modifies this, kalmanX, kalmanY, emaX, emaY
      ensures Valid()
      ensures !old(isCalibrated) || !old(hasModel) ==>
        x == W / 2 && y == H / 2 && unchanged(this) && unchanged(kalmanX, kalmanY, emaX, emaY)
      ensures old(isCalibrated) && old(hasModel) ==>
        var raw := RawTarget(calibrationData, r, outputGain, W, H);
        0 <= x < W && 0 <= y < H && lastPredicted == Some((x, y)) &&
        if useSmoothing then
          (kalmanX.estimate, kalmanX.errorEstimate) ==
            KalmanStep(kalmanX.processVariance, kalmanX.measurementVariance, old(kalmanX.estimate), old(kalmanX.errorEstimate), raw.0) &&
          (kalmanY.estimate, kalmanY.errorEstimate) ==
            KalmanStep(kalmanY.processVariance, kalmanY.measurementVariance, old(kalmanY.estimate), old(kalmanY.errorEstimate), raw.1) &&
          emaX.value == Some(EmaStep(emaX.alpha, old(emaX.value), kalmanX.estimate)) &&
          emaY.value == Some(EmaStep(emaY.alpha, old(emaY.value), kalmanY.estimate)) &&
          x == ScreenClamp(emaX.value.value, W) && y == ScreenClamp(emaY.value.value, H)
        else
          x == ScreenClamp(raw.0, W) && y == ScreenClamp(raw.1, H) &&
          unchanged(kalmanX, kalmanY, emaX, emaY)
      ensures isCalibrated == old(isCalibrated) && hasModel == old(hasModel)
      ensures calibrationData == old(calibrationData) && outputGain == old(outputGain)
      ensures emaX.alpha == old(emaX.alpha) && emaY.alpha == old(emaY.alpha)
    {
      if !isCalibrated || !hasModel {
        return W / 2, H / 2;
      }
      var raw := RawTarget(calibrationData, r, outputGain, W, H);
      var px, py := raw.0, raw.1;
      if useSmoothing {
        px := kalmanX.Update(px);
        py := kalmanY.Update(py);
        px := emaX.Update(px);
        py := emaY.Update(py);
      }
      x := ScreenClamp(px, W);
      y := ScreenClamp(py, H);
      lastPredicted := Some((x, y));
    }

    method SetOutputGain(gain: real)
      requires Valid()
      modifies this
      ensures Valid()
      ensures outputGain == Clip(gain, GainMin, GainMax)
      ensures isCalibrated == old(isCalibrated) && calibrationData == old(calibrationData) && grid == old(grid)
    {
      outputGain := Clip(gain, GainMin, GainMax);
    }

    method AdjustOutputGain(delta: real)
      requires Valid()
      modifies this
      ensures Valid()
      ensures outputGain == Clip(old(outputGain) + delta, GainMin, GainMax)
      ensures isCalibrated == old(isCalibrated) && calibrationData == old(calibrationData) && grid == old(grid)
    {
      SetOutputGain(outputGain + delta);
    }

    /** Both axes get the same alpha, clipped to [0, 1]. */
    method SetEmaAlpha(alpha: real)
      requires Valid()
      modifies emaX, emaY
      ensures Valid()
      ensures emaX.alpha == Clip(alpha, 0.0, 1.0) && emaY.alpha == emaX.alpha
      ensures emaX.value == old(emaX.value) && emaY.value == old(emaY.value)
    {
      var a := Clip(alpha, 0.0, 1.0);
      emaX.alpha := a;
      emaY.alpha := a;
    }

    /** Loads a saved record and the pickled model. Nothing changes when
        either file is missing, the record cannot be read or it was saved for
        another screen size; an unreadable model file fails after the record
        has been taken over. */
    method LoadCalibrationData(dataFile: FileState<SavedData>, modelFile: FileState<bool>) returns (ok: bool)
      requires Valid()
      modifies this
      ensures Valid()
      ensures dataFile.Missing? || modelFile.Missing? || dataFile.Unreadable? ||
              (dataFile.Readable? && (dataFile.contents.screenWidth != W || dataFile.contents.screenHeight != H)) ==>
        !ok && unchanged(this)
      ensures ok <==> (dataFile.Readable? && modelFile.Readable? &&
        dataFile.contents.screenWidth == W && dataFile.contents.screenHeight == H)
      ensures ok ==> isCalibrated && hasModel == modelFile.contents
      ensures dataFile.Readable? && !modelFile.Missing? &&
              dataFile.contents.screenWidth == W && dataFile.contents.screenHeight == H ==>
        calibrationData == dataFile.contents.points && headBaseline == dataFile.contents.headBaseline &&
        calibrationErrorPixels == dataFile.contents.calibrationError
      ensures !ok ==> isCalibrated == old(isCalibrated) && hasModel == old(hasModel)
      ensures grid == old(grid) && currentPointIdx == old(currentPointIdx) && outputGain == old(outputGain)
    {
      if dataFile.Missing? || modelFile.Missing? {
        return false;
      }
      if dataFile.Unreadable? {
        return false;
      }
      var data := dataFile.contents;
      if data.screenWidth != W || data.screenHeight != H {
        return false;
      }
      calibrationData := data.points;
      headBaseline := data.headBaseline;
      calibrationErrorPixels := data.calibrationError;
      if modelFile.Unreadable? {
        return false;
      }
      hasModel := modelFile.contents;
      isCalibrated := true;
      ok := true;
    }
  }
}
