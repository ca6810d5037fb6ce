/** The current calibration core: a 9- or 21-point target grid, frame-by-frame
    collection of eye readings at each target, reduction of the samples to one
    training row per target, and prediction with gain, smoothing and a clamp
    to the screen. Regression fitting and evaluation are external; a fitted
    model is a value whose predictor is an arbitrary function. */
module Calibration15 {
  import opened Numeric
  import opened Readings
  import Smoothing

  const FramesPerPoint: nat := 60
  /** Fewer samples than this and training does nothing. */
  const MinSamples: nat := 10
  /** Width of the feature vector the regression is trained on. */
  const ExpectedFeatures: nat := 10
  const GainMin: real := 0.5
  const GainMax: real := 2.0

  // ---------------------------------------------------------------- grid

  const NineFracs: seq<real> := [0.05, 0.5, 0.95]
  const WideCols: seq<real> := [0.05, 0.275, 0.5, 0.725, 0.95]
  const NarrowCols: seq<real> := [0.275, 0.5, 0.725]

  /** One row of targets: every column fraction paired with the row's height. */
  function Row(cols: seq<real>, y: real): (r: seq<(real, real)>)
    ensures |r| == |cols| && forall i :: 0 <= i < |cols| ==> r[i] == (cols[i], y)
  {
    seq(|cols|, i requires 0 <= i < |cols| => (cols[i], y))
  }

  /** Rows stacked top to bottom, all with the same columns. */
  function Rows(ys: seq<real>, cols: seq<real>): (r: seq<(real, real)>)
    ensures |r| == |ys| * |cols|
  {
    if ys == [] then []
    else
      var init := ys[..|ys| - 1];
      assert |ys| * |cols| == |init| * |cols| + |cols|;
      Rows(init, cols) + Row(cols, ys[|ys| - 1])
  }

  /** Every stacked target takes its column from the columns and its height
      from the rows. */
  lemma {:induction false} RowsFromGrid(ys: seq<real>, cols: seq<real>)
    ensures forall p :: p in Rows(ys, cols) ==> p.0 in cols && p.1 in ys
  {
    if ys != [] {
      var init := ys[..|ys| - 1];
      RowsFromGrid(init, cols);
      assert forall y :: y in init ==> y in ys;
    }
  }

  /** The nine-point grid is three rows of the same three columns. */
  lemma NineRows()
    ensures Rows(NineFracs, NineFracs) == Row(NineFracs, 0.05) + Row(NineFracs, 0.5) + Row(NineFracs, 0.95)
  {
    var a := NineFracs;
    assert Rows(a[..1], a) == Row(a, 0.05) by {
      assert a[..1][..0] == [];
    }
    assert Rows(a[..2], a) == Row(a, 0.05) + Row(a, 0.5) by {
      assert a[..2][..1] == a[..1];
    }
    assert a[..3][..2] == a[..2];
    assert a[..3] == a;
  }

  ghost predicate Inside(r: seq<(real, real)>) {
    forall i :: 0 <= i < |r| ==> 0.05 <= r[i].0 <= 0.95 && 0.05 <= r[i].1 <= 0.95
  }

  /** Target positions as (column, row) fractions of the screen. Nine points
      is a 3 x 3 grid; ANY other request gets the 21-point layout of rows of
      5, 3, 5, 3 and 5 targets. */
  function Layout(n: int): (r: seq<(real, real)>)
    ensures |r| == if n == 9 then 9 else 21
    ensures forall i :: 0 <= i < |r| ==> 0.05 <= r[i].0 <= 0.95 && 0.05 <= r[i].1 <= 0.95
  {
    if n == 9 then
      NineRows();
      var r1, r2, r3 := Row(NineFracs, 0.05), Row(NineFracs, 0.5), Row(NineFracs, 0.95);
      assert Inside(r1) && Inside(r2) && Inside(r3);
      assert Inside(r1 + r2);
      Rows(NineFracs, NineFracs)
    else
      var r1, r2, r3, r4, r5 := Row(WideCols, 0.05), Row(NarrowCols, 0.3), Row(WideCols, 0.5), Row(NarrowCols, 0.7), Row(WideCols, 0.95);
      assert Inside(r1) && Inside(r2) && Inside(r3) && Inside(r4) && Inside(r5);
      assert Inside(r1 + r2);
      assert Inside(r1 + r2 + r3);
      assert Inside(r1 + r2 + r3 + r4);
      r1 + r2 + r3 + r4 + r5
  }

  /** Top row first, left to right within a row. */
  ghost predicate RowMajor(r: seq<(real, real)>) {
    forall i, j :: 0 <= i < j < |r| ==> r[i].1 < r[j].1 || (r[i].1 == r[j].1 && r[i].0 < r[j].0)
  }

  ghost predicate Increasing(s: seq<real>) {
    forall i, j :: 0 <= i < j < |s| ==> s[i] < s[j]
  }

  lemma RowMajorAppend(a: seq<(real, real)>, cols: seq<real>, y: real)
    requires RowMajor(a) && Increasing(cols)
    requires forall i :: 0 <= i < |a| ==> a[i].1 < y
    ensures RowMajor(a + Row(cols, y))
    ensures forall i :: 0 <= i < |a + Row(cols, y)| ==> (a + Row(cols, y))[i].1 <= y
  {
  }

  /** Both layouts list their targets in row-major order. */
  lemma LayoutRowMajor(n: int)
    ensures RowMajor(Layout(n))
  {
    if n == 9 {
      NineRowMajor();
    } else {
      WideRowMajor(n);
    }
  }

  lemma NineRowMajor()
    ensures RowMajor(Layout(9))
  {
    NineRows();
    assert Increasing(NineFracs);
    var r1 := Row(NineFracs, 0.05);
    RowMajorAppend([], NineFracs, 0.05);
    assert [] + r1 == r1;
    var r2 := r1 + Row(NineFracs, 0.5);
    RowMajorAppend(r1, NineFracs, 0.5);
    RowMajorAppend(r2, NineFracs, 0.95);
  }

  lemma WideRowMajor(n: int)
    requires n != 9
    ensures RowMajor(Layout(n))
  {
    assert Increasing(WideCols) && Increasing(NarrowCols);
    var r1 := Row(WideCols, 0.05);
    RowMajorAppend([], WideCols, 0.05);
    assert [] + r1 == r1;
    var r2 := r1 + Row(NarrowCols, 0.3);
    RowMajorAppend(r1, NarrowCols, 0.3);
    var r3 := r2 + Row(WideCols, 0.5);
    RowMajorAppend(r2, WideCols, 0.5);
    var r4 := r3 + Row(NarrowCols, 0.7);
    RowMajorAppend(r3, NarrowCols, 0.7);
    RowMajorAppend(r4, WideCols, 0.95);
  }

  /** `int(col * screen_width), int(row * screen_height)`. */
  function Pixel(f: (real, real), w: int, h: int): (int, int)
  {
    (AxisPixel(f.0, w), AxisPixel(f.1, h))
  }

  /** `int(f * dim)`: a share of one screen dimension as a whole pixel. */
  function AxisPixel(f: real, dim: int): int
  {
    Trunc(Scale(f, dim))
  }

  function ToPixels(fs: seq<(real, real)>, w: int, h: int): (r: seq<(int, int)>)
    ensures |r| == |fs| && forall i :: 0 <= i < |fs| ==> r[i] == Pixel(fs[i], w, h)
  {
    seq(|fs|, i requires 0 <= i < |fs| => Pixel(fs[i], w, h))
  }

  lemma ToPixelsAppend(a: seq<(real, real)>, b: seq<(real, real)>, w: int, h: int)
    ensures ToPixels(a + b, w, h) == ToPixels(a, w, h) + ToPixels(b, w, h)
  {
  }

  /** Appends one row of targets: the row's pixel height is computed once,
      each column's pixel offset in turn. */
  method AppendRow(grid: seq<(int, int)>, cols: seq<real>, row: real, w: int, h: int) returns (g: seq<(int, int)>)
    ensures g == grid + ToPixels(Row(cols, row), w, h)
  {
    g := grid;
    ghost var pixels := ToPixels(Row(cols, row), w, h);
    var yPos := AxisPixel(row, h);
    for i := 0 to |cols|
      invariant g == grid + pixels[..i]
    {
      var x := AxisPixel(cols[i], w);
      assert Pixel((cols[i], row), w, h).0 == x;
      assert Pixel((cols[i], row), w, h).1 == yPos;
      assert pixels[i] == Pixel((cols[i], row), w, h);
      PrefixExtend(grid, pixels, i);
      g := g + [(x, yPos)];
    }
    assert pixels[..|cols|] == pixels;
  }

  lemma PrefixExtend<T>(a: seq<T>, s: seq<T>, i: nat)
    requires i < |s|
    ensures a + s[..i + 1] == a + s[..i] + [s[i]]
  {
    assert s[..i + 1] == s[..i] + [s[i]];
  }

  /** The calibration targets in screen pixels, in the order they are shown. */
  method GenerateCalibrationGrid(w: int, h: int, numPoints: int) returns (grid: seq<(int, int)>)
    ensures grid == ToPixels(Layout(numPoints), w, h)
  {
    grid := [];
    if numPoints == 9 {
      for ri := 0 to |NineFracs|
        invariant grid == ToPixels(Rows(NineFracs[..ri], NineFracs), w, h)
      {
        grid := AppendRow(grid, NineFracs, NineFracs[ri], w, h);
        assert NineFracs[..ri + 1][..ri] == NineFracs[..ri];
        ToPixelsAppend(Rows(NineFracs[..ri], NineFracs), Row(NineFracs, NineFracs[ri]), w, h);
      }
      assert NineFracs[..|NineFracs|] == NineFracs;
    } else {
      grid := AppendRow(grid, WideCols, 0.05, w, h);
      grid := AppendRow(grid, NarrowCols, 0.3, w, h);
      grid := AppendRow(grid, WideCols, 0.5, w, h);
      grid := AppendRow(grid, NarrowCols, 0.7, w, h);
      grid := AppendRow(grid, WideCols, 0.95, w, h);
      var r1, r2, r3, r4, r5 := Row(WideCols, 0.05), Row(NarrowCols, 0.3), Row(WideCols, 0.5), Row(NarrowCols, 0.7), Row(WideCols, 0.95);
      ToPixelsAppend(r1, r2, w, h);
      ToPixelsAppend(r1 + r2, r3, w, h);
      ToPixelsAppend(r1 + r2 + r3, r4, w, h);
      ToPixelsAppend(r1 + r2 + r3 + r4, r5, w, h);
    }
  }

  lemma ScaleBelow(f: real, d: int)
    requires 0.0 <= f < 1.0 && d > 0
    ensures 0.0 <= Scale(f, d) < d as real
  {
    MulNonneg(f, d as real);
    MulNonneg(1.0 - f, d as real);
    assert d as real - Scale(f, d) == (1.0 - f) * d as real;
    assert (1.0 - f) * d as real != 0.0;
  }

  /** A fraction in [0, 1) of a positive dimension truncates into [0, dim). */
  lemma FracPixelInRange(f: real, dim: int)
    requires 0.0 <= f < 1.0 && dim > 0
    ensures 0 <= AxisPixel(f, dim) < dim
  {
    ScaleBelow(f, dim);
    assert AxisPixel(f, dim) as real <= Scale(f, dim);
  }

  lemma PixelsOnScreen(l: seq<(real, real)>, w: int, h: int)
    requires w > 0 && h > 0 && Inside(l)
    ensures var g := ToPixels(l, w, h);
      forall i :: 0 <= i < |g| ==> 0 <= g[i].0 < w && 0 <= g[i].1 < h
  {
    forall i | 0 <= i < |l|
      ensures 0 <= Pixel(l[i], w, h).0 < w && 0 <= Pixel(l[i], w, h).1 < h
    {
      FracPixelInRange(l[i].0, w);
      FracPixelInRange(l[i].1, h);
    }
  }

  /** Every target lies on the screen: 0 <= x < width and 0 <= y < height. */
  lemma GridOnScreen(w: int, h: int, numPoints: int)
    requires w > 0 && h > 0
    ensures var g := ToPixels(Layout(numPoints), w, h);
      forall i :: 0 <= i < |g| ==> 0 <= g[i].0 < w && 0 <= g[i].1 < h
  {
    PixelsOnScreen(Layout(numPoints), w, h);
  }

  /** Truncated pixel positions keep the order of their shares. */
  lemma AxisPixelMonotone(a: real, b: real, d: int)
    requires a <= b && d >= 0
    ensures AxisPixel(a, d) <= AxisPixel(b, d)
  {
    ScaleMonotone(a, b, d);
    TruncMonotone(Scale(a, d), Scale(b, d));
  }

  /** In pixels the order survives truncation: targets never move up, and
      within a row they never move left. */
  lemma GridRowMajor(w: int, h: int, numPoints: int)
    requires w >= 0 && h >= 0
    ensures var l := Layout(numPoints); var g := ToPixels(l, w, h);
      forall i, j :: 0 <= i < j < |g| ==> g[i].1 <= g[j].1 && (l[i].1 == l[j].1 ==> g[i].0 <= g[j].0)
  {
    LayoutRowMajor(numPoints);
    PixelsKeepOrder(Layout(numPoints), w, h);
  }

  lemma PixelsKeepOrder(l: seq<(real, real)>, w: int, h: int)
    requires w >= 0 && h >= 0 && RowMajor(l)
    ensures var g := ToPixels(l, w, h);
      forall i, j :: 0 <= i < j < |g| ==> g[i].1 <= g[j].1 && (l[i].1 == l[j].1 ==> g[i].0 <= g[j].0)
  {
    forall i, j | 0 <= i < j < |l|
      ensures Pixel(l[i], w, h).1 <= Pixel(l[j], w, h).1
      ensures l[i].1 == l[j].1 ==> Pixel(l[i], w, h).0 <= Pixel(l[j], w, h).0
    {
      PixelPairOrder(l[i], l[j], w, h);
    }
  }

  lemma PixelPairOrder(a: (real, real), b: (real, real), w: int, h: int)
    requires w >= 0 && h >= 0
    requires a.1 < b.1 || (a.1 == b.1 && a.0 < b.0)
    ensures Pixel(a, w, h).1 <= Pixel(b, w, h).1
    ensures a.1 == b.1 ==> Pixel(a, w, h).0 <= Pixel(b, w, h).0
  {
    RowPixelOrder(a, b, w, h);
    if a.1 == b.1 {
      ColumnPixelOrder(a, b, w, h);
    }
  }

  lemma RowPixelOrder(a: (real, real), b: (real, real), w: int, h: int)
    requires h >= 0 && a.1 <= b.1
    ensures Pixel(a, w, h).1 <= Pixel(b, w, h).1
  {
    AxisPixelMonotone(a.1, b.1, h);
  }

  lemma ColumnPixelOrder(a: (real, real), b: (real, real), w: int, h: int)
    requires w >= 0 && a.0 <= b.0
    ensures Pixel(a, w, h).0 <= Pixel(b, w, h).0
  {
    AxisPixelMonotone(a.0, b.0, w);
  }

  // ---------------------------------------------------------- samples

  /** One collected frame, tagged with its target's index and pixels. */
  datatype Sample = Sample(reading: Reading, screenX: int, screenY: int, pointIdx: nat)

  /** The ten regression inputs: both eyes, their average, their difference
      (right minus left) and the nose. */
  function Features(r: Reading): (f: seq<real>)
    ensures |f| == ExpectedFeatures
    ensures Reading((f[0], f[1]), (f[2], f[3]), (f[8], f[9])) == r
    ensures f[4] == (f[0] + f[2]) / 2.0 && f[5] == (f[1] + f[3]) / 2.0
    ensures f[0] + f[6] == f[2] && f[1] + f[7] == f[3]
  {
    [r.left.0, r.left.1, r.right.0, r.right.1,
     (r.left.0 + r.right.0) / 2.0, (r.left.1 + r.right.1) / 2.0,
     r.right.0 - r.left.0, r.right.1 - r.left.1,
     r.nose.0, r.nose.1]
  }

  /** The readings of a run of samples, in order. */
  function ReadingsOf(ss: seq<Sample>): (r: seq<Reading>)
    ensures |r| == |ss| && forall i :: 0 <= i < |ss| ==> r[i] == ss[i].reading
  {
    seq(|ss|, i requires 0 <= i < |ss| => ss[i].reading)
  }

  // ---------------------------------------------------------- training rows

  /** The distinct target indices in order of first appearance (the order in
      which a Python dict keyed by point index yields its keys). */
  function PointOrder(s: seq<Sample>): (r: seq<nat>)
    ensures forall k :: k in r <==> exists j :: 0 <= j < |s| && s[j].pointIdx == k
    ensures forall i, j :: 0 <= i < j < |r| ==> r[i] != r[j]
  {
    if s == [] then []
    else
      var rest := PointOrder(s[..|s| - 1]);
      assert forall j :: 0 <= j < |s| - 1 ==> s[..|s| - 1][j] == s[j];
      if s[|s| - 1].pointIdx in rest then rest else rest + [s[|s| - 1].pointIdx]
  }

  /** The samples of one target, in collection order. */
  function Members(s: seq<Sample>, k: nat): (r: seq<Sample>)
    ensures forall x :: x in r ==> x in s && x.pointIdx == k
    ensures |r| > 0 <==> exists j :: 0 <= j < |s| && s[j].pointIdx == k
  {
    if s == [] then []
    else
      assert forall j :: 0 <= j < |s| - 1 ==> s[..|s| - 1][j] == s[j];
      Members(s[..|s| - 1], k) + (if s[|s| - 1].pointIdx == k then [s[|s| - 1]] else [])
  }

  /** Selecting one target's samples commutes with concatenation: together
      with the one-sample case this makes `Members` the order-preserving
      filter of the samples by target. */
  lemma {:induction false} MembersAppend(s1: seq<Sample>, s2: seq<Sample>, k: nat)
    ensures Members(s1 + s2, k) == Members(s1, k) + Members(s2, k)
    decreases |s2|
  {
    if s2 == [] {
      assert s1 + s2 == s1;
    } else {
      var s := s1 + s2;
      var init, last := s2[..|s2| - 1], s2[|s2| - 1];
      var tail := if last.pointIdx == k then [last] else [];
      assert s[..|s| - 1] == s1 + init;
      assert s[|s| - 1] == last;
      MembersStep(s, k);
      MembersStep(s2, k);
      assert Members(s, k) == Members(s1 + init, k) + tail;
      assert Members(s2, k) == Members(init, k) + tail;
      MembersAppend(s1, init, k);
      assert Members(s1 + init, k) == Members(s1, k) + Members(init, k);
    }
  }

  /** Every sample of the target is selected, and nothing is added. */
  lemma {:induction false} MembersComplete(s: seq<Sample>, k: nat)
    ensures forall j :: 0 <= j < |s| && s[j].pointIdx == k ==> s[j] in Members(s, k)
    ensures |Members(s, k)| <= |s|
  {
    if s != [] {
      var p := s[..|s| - 1];
      MembersComplete(p, k);
      MembersStep(s, k);
      forall j | 0 <= j < |s| && s[j].pointIdx == k
        ensures s[j] in Members(s, k)
      {
        if j < |s| - 1 {
          assert p[j] == s[j];
        }
      }
    }
  }

  /** A single sample is selected exactly when it belongs to the target. */
  lemma MembersSingle(x: Sample, k: nat)
    ensures Members([x], k) == if x.pointIdx == k then [x] else []
  {
    assert [x][..0] == [];
  }

  /** Regression inputs for one target, its pixel target and its weight. */
  datatype TrainingRow = TrainingRow(features: seq<real>, target: (int, int), weight: real)

  /** Squared distance of a pixel target from the screen centre, both axes
      normalised to [0, 1]. */
  function CentreDistSq(t: (int, int), w: int, h: int): (r: real)
    requires w > 0 && h > 0
    ensures r >= 0.0
    ensures 2 * t.0 == w && 2 * t.1 == h ==> r == 0.0
  {
    var nx := t.0 as real / w as real;
    var ny := t.1 as real / h as real;
    SquareNonneg(nx - 0.5);
    SquareNonneg(ny - 0.5);
    (nx - 0.5) * (nx - 0.5) + (ny - 0.5) * (ny - 0.5)
  }

  /** `1 + 8 * dist`: the centre weighs 1, targets further out weigh more. */
  function EdgeWeight(dist: real): (r: real)
    ensures dist >= 0.0 ==> r >= 1.0
    ensures dist == 0.0 ==> r == 1.0
  {
    1.0 + dist * 8.0
  }

  /** The weight is strictly increasing in the distance from the centre. */
  lemma EdgeWeightIncreasing(d1: real, d2: real)
    requires d1 < d2
    ensures EdgeWeight(d1) < EdgeWeight(d2)
  {
  }

  /** A training row for one target's samples; the target pixels are those of
      its first sample. `sqrt` is the square root the source takes. */
  function RowOf(ss: seq<Sample>, w: int, h: int, sqrt: real -> real): (r: TrainingRow)
    requires |ss| > 0 && w > 0 && h > 0
    ensures |r.features| == ExpectedFeatures
    ensures Reading((r.features[0], r.features[1]), (r.features[2], r.features[3]), (r.features[8], r.features[9]))
            == MeanReading(ReadingsOf(ss))
    ensures (forall i :: 0 <= i < |ss| ==> ss[i].reading == ss[0].reading) ==> r.features == Features(ss[0].reading)
    ensures r.target == (ss[0].screenX, ss[0].screenY)
    ensures sqrt(CentreDistSq(r.target, w, h)) >= 0.0 ==> r.weight >= 1.0
  {
    var t := (ss[0].screenX, ss[0].screenY);
    assert (forall i :: 0 <= i < |ss| ==> ss[i].reading == ss[0].reading) ==> MeanReading(ReadingsOf(ss)) == ss[0].reading by {
      if forall i :: 0 <= i < |ss| ==> ss[i].reading == ss[0].reading {
        MeanReadingSteady(ReadingsOf(ss), ss[0].reading);
      }
    }
    TrainingRow(Features(MeanReading(ReadingsOf(ss))), t, EdgeWeight(sqrt(CentreDistSq(t, w, h))))
  }

  /** One training row per distinct target index, in first-appearance order. */
  function TrainingRows(s: seq<Sample>, w: int, h: int, sqrt: real -> real): (r: seq<TrainingRow>)
    requires w > 0 && h > 0
    ensures |r| == |PointOrder(s)|
    ensures forall i :: 0 <= i < |r| ==> |r[i].features| == ExpectedFeatures
  {
    var keys := PointOrder(s);
    seq(|keys|, i requires 0 <= i < |keys| => assert keys[i] in keys; RowOf(Members(s, keys[i]), w, h, sqrt))
  }

  /** With a square root that is non-negative and increasing, every weight is
      at least 1 and a target further from the centre weighs more. */
  lemma WeightsFollowDistance(s: seq<Sample>, w: int, h: int, sqrt: real -> real)
    requires w > 0 && h > 0
    requires forall v :: v >= 0.0 ==> sqrt(v) >= 0.0
    requires forall a, b :: 0.0 <= a < b ==> sqrt(a) < sqrt(b)
    ensures var r := TrainingRows(s, w, h, sqrt);
      (forall i :: 0 <= i < |r| ==> r[i].weight >= 1.0) &&
      (forall i, j :: (0 <= i < |r| && 0 <= j < |r| &&
        CentreDistSq(r[i].target, w, h) < CentreDistSq(r[j].target, w, h)) ==> r[i].weight < r[j].weight)
  {
  }

  /** Frames collected for target k sit at positions k * 60 .. k * 60 + 59,
      each tagged with k and with target k's pixels. */
  ghost predicate Tagged(s: seq<Sample>, grid: seq<(int, int)>) {
    forall j :: 0 <= j < |s| ==>
      j / FramesPerPoint < |grid| && s[j].pointIdx == j / FramesPerPoint &&
      (s[j].screenX, s[j].screenY) == grid[j / FramesPerPoint]
  }

  function Indices(n: nat): (r: seq<nat>)
    ensures |r| == n && forall i :: 0 <= i < n ==> r[i] == i
  {
    seq(n, i requires 0 <= i < n => i)
  }

  function CeilBlocks(n: nat): nat { (n + FramesPerPoint - 1) / FramesPerPoint }

  lemma InBlock(j: nat, k: nat)
    ensures j / FramesPerPoint == k <==> FramesPerPoint * k <= j < FramesPerPoint * k + FramesPerPoint
  {
    var q := j / FramesPerPoint;
    assert j == FramesPerPoint * q + j % FramesPerPoint;
    if q < k {
      assert FramesPerPoint * q + FramesPerPoint <= FramesPerPoint * k;
    } else if q > k {
      assert FramesPerPoint * k + FramesPerPoint <= FramesPerPoint * q;
    }
  }

  lemma {:induction false} PointOrderOfBlocks(s: seq<Sample>)
    requires forall j :: 0 <= j < |s| ==> s[j].pointIdx == j / FramesPerPoint
    ensures PointOrder(s) == Indices(CeilBlocks(|s|))
  {
    if s != [] {
      var m := |s| - 1;
      var p := s[..m];
      assert forall j :: 0 <= j < |p| ==> p[j] == s[j];
      PointOrderOfBlocks(p);
      PointOrderBlockStep(s);
    }
  }

  /** The inductive step of PointOrderOfBlocks: the last frame opens a new
      block exactly when its index is a multiple of FramesPerPoint. */
  lemma PointOrderBlockStep(s: seq<Sample>)
    requires s != [] && s[|s| - 1].pointIdx == (|s| - 1) / FramesPerPoint
    requires PointOrder(s[..|s| - 1]) == Indices(CeilBlocks(|s| - 1))
    ensures PointOrder(s) == Indices(CeilBlocks(|s|))
  {
    var m := |s| - 1;
    var q := m / FramesPerPoint;
    var rest := PointOrder(s[..m]);
    assert PointOrder(s) == if q in rest then rest else rest + [q];
    CeilStep(m);
    if m % FramesPerPoint == 0 {
      IndicesFresh(q);
    } else {
      IndicesSeen(q);
    }
  }

  /** Recording index q after indices 0..q-1 appends it. */
  lemma IndicesFresh(q: nat)
    ensures (if q in Indices(q) then Indices(q) else Indices(q) + [q]) == Indices(q + 1)
  {
    var r := Indices(q);
    assert q !in r by {
      forall i | 0 <= i < |r| ensures r[i] != q { }
    }
    assert r + [q] == Indices(q + 1);
  }

  /** Recording index q again after indices 0..q leaves them unchanged. */
  lemma IndicesSeen(q: nat)
    ensures (if q in Indices(q + 1) then Indices(q + 1) else Indices(q + 1) + [q]) == Indices(q + 1)
  {
    assert Indices(q + 1)[q] == q;
  }

  /** One more frame raises the block count exactly when it starts a block. */
  lemma CeilStep(m: nat)
    ensures m % FramesPerPoint == 0 ==>
      CeilBlocks(m) == m / FramesPerPoint && CeilBlocks(m + 1) == m / FramesPerPoint + 1
    ensures m % FramesPerPoint != 0 ==>
      CeilBlocks(m) == m / FramesPerPoint + 1 == CeilBlocks(m + 1)
  {
    var q := m / FramesPerPoint;
    assert m == FramesPerPoint * q + m % FramesPerPoint;
  }

  lemma {:induction false} MembersOfBlocks(s: seq<Sample>, k: nat, m: nat)
    requires forall j :: 0 <= j < |s| ==> s[j].pointIdx == j / FramesPerPoint
    requires m <= |s|
    ensures Members(s[..m], k) == s[Min2(m, FramesPerPoint * k)..Min2(m, FramesPerPoint * k + FramesPerPoint)]
  {
    if m > 0 {
      MembersOfBlocks(s, k, m - 1);
      MembersBlockStep(s, k, m);
    }
  }

  /** The inductive step of MembersOfBlocks: one more frame extends target
      k's run exactly when the frame falls inside block k. */
  lemma MembersBlockStep(s: seq<Sample>, k: nat, m: nat)
    requires 0 < m <= |s| && s[m - 1].pointIdx == (m - 1) / FramesPerPoint
    requires Members(s[..m - 1], k) == s[Min2(m - 1, FramesPerPoint * k)..Min2(m - 1, FramesPerPoint * k + FramesPerPoint)]
    ensures Members(s[..m], k) == s[Min2(m, FramesPerPoint * k)..Min2(m, FramesPerPoint * k + FramesPerPoint)]
  {
    var lo, hi := FramesPerPoint * k, FramesPerPoint * k + FramesPerPoint;
    MembersPrefixStep(s, k, m);
    InBlock(m - 1, k);
    if lo <= m - 1 < hi {
      SliceExtend(s, lo, m);
    }
  }

  /** Selecting from one more frame of a run adds that frame when it
      belongs to the target. */
  lemma MembersPrefixStep(s: seq<Sample>, k: nat, m: nat)
    requires 0 < m <= |s|
    ensures Members(s[..m], k) == Members(s[..m - 1], k) + (if s[m - 1].pointIdx == k then [s[m - 1]] else [])
  {
    var p := s[..m];
    assert p[..m - 1] == s[..m - 1];
    MembersStep(p, k);
  }

  lemma SliceExtend<T>(s: seq<T>, lo: nat, m: nat)
    requires lo < m <= |s|
    ensures s[lo..m - 1] + [s[m - 1]] == s[lo..m]
  {
  }

  lemma MembersStep(p: seq<Sample>, k: nat)
    requires |p| > 0
    ensures Members(p, k) == Members(p[..|p| - 1], k) + (if p[|p| - 1].pointIdx == k then [p[|p| - 1]] else [])
  {
  }

  function Min2(a: nat, b: nat): nat { if a <= b then a else b }

  /** A completed collection (60 frames at each of the grid's targets)
      reduces to exactly one row per target, in grid order: row k averages
      precisely the 60 frames shown target k and is aimed at target k. */
  lemma CompleteCollectionRows(s: seq<Sample>, grid: seq<(int, int)>, w: int, h: int, sqrt: real -> real)
    requires w > 0 && h > 0
    requires Tagged(s, grid) && |s| == |grid| * FramesPerPoint
    ensures var r := TrainingRows(s, w, h, sqrt);
      |r| == |grid| &&
      forall k :: 0 <= k < |grid| ==>
        r[k] == RowOf(s[FramesPerPoint * k..FramesPerPoint * k + FramesPerPoint], w, h, sqrt) &&
        r[k].target == grid[k]
  {
    PointOrderOfBlocks(s);
    assert CeilBlocks(|s|) == |grid|;
    var r := TrainingRows(s, w, h, sqrt);
    forall k | 0 <= k < |grid|
      ensures r[k] == RowOf(s[FramesPerPoint * k..FramesPerPoint * k + FramesPerPoint], w, h, sqrt)
      ensures r[k].target == grid[k]
    {
      BlockOfTarget(s, grid, k);
      var j := FramesPerPoint * k;
      assert s[j..j + FramesPerPoint][0] == s[j];
    }
  }

  /** In a completed collection, target k's samples are the k-th block of
      frames, and that block starts at target k's pixels. */
  lemma BlockOfTarget(s: seq<Sample>, grid: seq<(int, int)>, k: nat)
    requires Tagged(s, grid) && |s| == |grid| * FramesPerPoint && k < |grid|
    ensures Members(s, k) == s[FramesPerPoint * k..FramesPerPoint * k + FramesPerPoint]
    ensures (s[FramesPerPoint * k].screenX, s[FramesPerPoint * k].screenY) == grid[k]
  {
    var j := FramesPerPoint * k;
    assert j + FramesPerPoint <= |s| by {
      assert k + 1 <= |grid|;
      assert FramesPerPoint * (k + 1) <= FramesPerPoint * |grid|;
    }
    assert forall i :: 0 <= i < |s| ==> s[i].pointIdx == i / FramesPerPoint;
    MembersOfBlocks(s, k, |s|);
    assert s[..|s|] == s;
    assert Min2(|s|, j) == j && Min2(|s|, j + FramesPerPoint) == j + FramesPerPoint;
    InBlock(j, k);
    assert (s[j].screenX, s[j].screenY) == grid[j / FramesPerPoint];
  }

  // ---------------------------------------------------------- prediction

  /** The fitted regression pair: how many inputs its polynomial expansion
      was fitted on (None when that attribute is absent) and its prediction,
      None when evaluating it raises. */
  datatype Model = Model(featuresIn: Option<nat>, predict: seq<real> -> Option<(real, real)>)

  /** What fitting returns: the predictor and its mean absolute errors. */
  datatype Fitted = Fitted(predict: seq<real> -> Option<(real, real)>, errorX: real, errorY: real)

  /** Stretches a coordinate away from (gain > 1) or toward (gain < 1) the
      screen centre. */
  function ApplyGain(p: real, centre: real, gain: real): (r: real)
    ensures gain == 1.0 ==> r == p
    ensures p == centre ==> r == centre
  {
    centre + (p - centre) * gain
  }

  /** A positive gain keeps a point on its side of the centre and scales its
      offset from the centre by exactly the gain. */
  lemma GainScalesOffset(p: real, centre: real, gain: real)
    requires gain > 0.0
    ensures Abs(ApplyGain(p, centre, gain) - centre) == gain * Abs(p - centre)
    ensures p >= centre <==> ApplyGain(p, centre, gain) >= centre
  {
    var d := p - centre;
    if d >= 0.0 {
      MulNonneg(d, gain);
    } else {
      MulNonneg(-d, gain);
      assert d * gain == -((-d) * gain);
    }
  }

  /** The uncalibrated mapping: mean of both eyes' ratios scaled to pixels,
      with no clamp. */
  function Fallback(r: Reading, w: int, h: int): (px: (int, int))
    ensures w >= 0 && 0.0 <= r.left.0 + r.right.0 ==> 0 <= px.0
    ensures h >= 0 && 0.0 <= r.left.1 + r.right.1 ==> 0 <= px.1
    ensures r.left == r.right ==> px == (AxisPixel(r.left.0, w), AxisPixel(r.left.1, h))
  {
    var mx, my := (r.left.0 + r.right.0) / 2.0, (r.left.1 + r.right.1) / 2.0;
    assert w >= 0 && 0.0 <= mx ==> 0.0 <= Scale(mx, w) by {
      if w >= 0 && 0.0 <= mx { ScaleMonotone(0.0, mx, w); }
    }
    assert h >= 0 && 0.0 <= my ==> 0.0 <= Scale(my, h) by {
      if h >= 0 && 0.0 <= my { ScaleMonotone(0.0, my, h); }
    }
    (AxisPixel(mx, w), AxisPixel(my, h))
  }

  /** Ratios in [0, 1] map into [0, w] x [0, h]; a ratio of exactly 1 reaches
      the edge pixel w (or h), one past the last column. */
  lemma FallbackBounds(r: Reading, w: int, h: int)
    requires w >= 0 && h >= 0
    requires 0.0 <= r.left.0 <= 1.0 && 0.0 <= r.right.0 <= 1.0
    requires 0.0 <= r.left.1 <= 1.0 && 0.0 <= r.right.1 <= 1.0
    ensures var (x, y) := Fallback(r, w, h); 0 <= x <= w && 0 <= y <= h
    ensures r.left.0 == 1.0 && r.right.0 == 1.0 ==> Fallback(r, w, h).0 == w
  {
    AxisPixelBounds((r.left.0 + r.right.0) / 2.0, w);
    AxisPixelBounds((r.left.1 + r.right.1) / 2.0, h);
  }

  lemma AxisPixelBounds(f: real, d: int)
    requires 0.0 <= f <= 1.0 && d >= 0
    ensures 0 <= AxisPixel(f, d) <= d
    ensures f == 1.0 ==> AxisPixel(f, d) == d
  {
    ScaleMonotone(0.0, f, d);
    ScaleMonotone(f, 1.0, d);
    assert Scale(1.0, d) == d as real;
    TruncOfInt(d);
    TruncMonotone(Scale(f, d), d as real);
  }

  /** Where a calibrated tracker puts the cursor for one reading, with the
      smoother state it leaves behind: the fallback when the fitted
      predictor fails, otherwise the prediction stretched by the gain,
      smoothed when asked, and clamped onto the screen. */
  function Predicted(m: Model, s: Smoothing.State, gain: real, w: int, h: int, r: Reading,
                     useSmoothing: bool): (res: ((int, int), Smoothing.State))
    requires w > 0 && h > 0 && Smoothing.WellFormed(Smoothing.CoreParams, s)
    ensures m.predict(Features(r)).None? ==> res == (Fallback(r, w, h), s)
    ensures m.predict(Features(r)).Some? ==> 0 <= res.0.0 < w && 0 <= res.0.1 < h
    ensures !useSmoothing ==> res.1 == s
    ensures !useSmoothing && gain == 1.0 && m.predict(Features(r)).Some? ==>
      var p := m.predict(Features(r)).value;
      0.0 <= p.0 <= (w - 1) as real && 0.0 <= p.1 <= (h - 1) as real ==>
      res.0 == (Trunc(p.0), Trunc(p.1))
    ensures Smoothing.WellFormed(Smoothing.CoreParams, res.1)
  {
    match m.predict(Features(r))
    case None => (Fallback(r, w, h), s)
    case Some(p) =>
      var gx := ApplyGain(p.0, w as real / 2.0, gain);
      var gy := ApplyGain(p.1, h as real / 2.0, gain);
      if useSmoothing then
        var step := Smoothing.Step(Smoothing.CoreParams, s, gx, gy);
        ((ClampInt(step.1.0, 0, w - 1), ClampInt(step.1.1, 0, h - 1)), step.0)
      else
        assert 0.0 <= p.0 <= (w - 1) as real ==> 0 <= Trunc(p.0) <= w - 1 by {
          if 0.0 <= p.0 <= (w - 1) as real {
            TruncMonotone(0.0, p.0);
            TruncMonotone(p.0, (w - 1) as real);
            TruncOfInt(0);
            TruncOfInt(w - 1);
          }
        }
        assert 0.0 <= p.1 <= (h - 1) as real ==> 0 <= Trunc(p.1) <= h - 1 by {
          if 0.0 <= p.1 <= (h - 1) as real {
            TruncMonotone(0.0, p.1);
            TruncMonotone(p.1, (h - 1) as real);
            TruncOfInt(0);
            TruncOfInt(h - 1);
          }
        }
        ((ClampInt(Trunc(gx), 0, w - 1), ClampInt(Trunc(gy), 0, h - 1)), s)
  }

  /** Gains reachable from 1.0 by any sequence of adjustments. */
  function GainAfter(g: real, deltas: seq<real>): real
  {
    if deltas == [] then g else Clip(GainAfter(g, deltas[..|deltas| - 1]) + deltas[|deltas| - 1], GainMin, GainMax)
  }

  /** Whatever adjustments are made, the gain stays within [0.5, 2.0]. */
  lemma {:induction false} GainStaysInRange(deltas: seq<real>)
    ensures GainMin <= GainAfter(1.0, deltas) <= GainMax
  {
    if deltas != [] {
      GainStaysInRange(deltas[..|deltas| - 1]);
    }
  }

  /** What the save routine writes: nothing unless calibrated. */
  datatype SavedData = SavedData(screenWidth: int, screenHeight: int, samples: seq<Sample>,
                                 grid: seq<(int, int)>, errorX: real, errorY: real)

  // ---------------------------------------------------------- the object

  class Calibration15Point {
    const W: int
    const H: int
    var isCalibrated: bool
    var grid: seq<(int, int)>
    var currentPointIdx: nat
    var currentFrameCount: nat
    var samples: seq<Sample>
    var model: Option<Model>
    var trainingErrorX: real
    var trainingErrorY: real
    /** The two smoothing deques and the last stable point. */
    var smoother: Smoothing.State
    var outputGain: real

    ghost predicate Valid()
      reads this
    {
      W > 0 && H > 0 &&
      currentFrameCount < FramesPerPoint &&
      Smoothing.WellFormed(Smoothing.CoreParams, smoother) &&
      GainMin <= outputGain <= GainMax &&
      (isCalibrated ==> model.Some?)
    }

    /** The collection invariant: the samples are exactly the frames shown so
        far, 60 per finished target plus the current target's count. */
    ghost predicate Collecting()
      reads this
    {
      currentFrameCount < FramesPerPoint &&
      currentPointIdx <= |grid| &&
      (currentPointIdx == |grid| ==> currentFrameCount == 0) &&
      |samples| == currentPointIdx * FramesPerPoint + currentFrameCount &&
      Tagged(samples, grid)
    }

    constructor(w: int, h: int)
      requires w > 0 && h > 0
      ensures W == w && H == h && !isCalibrated && grid == [] && samples == []
      ensures currentPointIdx == 0 && currentFrameCount == 0
      ensures model == None && trainingErrorX == 0.0 && trainingErrorY == 0.0
      ensures smoother == Smoothing.Reset && outputGain == 1.0
      ensures Valid() && Collecting()
    {
      W, H := w, h;
      isCalibrated := false;
      grid := [];
      currentPointIdx, currentFrameCount := 0, 0;
      samples := [];
      model := None;
      trainingErrorX, trainingErrorY := 0.0, 0.0;
      smoother := Smoothing.Reset;
      outputGain := 1.0;
    }

    method StartCalibration(numPoints: int)
      requires Valid()
      modifies this
      ensures Valid() && Collecting()
      ensures !isCalibrated && grid == ToPixels(Layout(numPoints), W, H)
      ensures currentPointIdx == 0 && currentFrameCount == 0 && samples == []
      ensures model == old(model) && trainingErrorX == old(trainingErrorX) && trainingErrorY == old(trainingErrorY)
      ensures smoother == old(smoother) && outputGain == old(outputGain)
    {
      isCalibrated := false;
      grid := GenerateCalibrationGrid(W, H, numPoints);
      currentPointIdx := 0;
      currentFrameCount := 0;
      samples := [];
    }

    /** Fits the regression when there are enough samples. */
    method TrainModel(fit: seq<TrainingRow> -> Fitted, sqrt: real -> real)
      requires Valid()
      modifies this
      ensures Valid()
      ensures |samples| < MinSamples ==> unchanged(this)
      ensures |samples| >= MinSamples ==>
        var f := fit(TrainingRows(samples, W, H, sqrt));
        isCalibrated && model == Some(Model(Some(ExpectedFeatures), f.predict)) &&
        trainingErrorX == f.errorX && trainingErrorY == f.errorY
      ensures samples == old(samples) && grid == old(grid)
      ensures currentPointIdx == old(currentPointIdx) && currentFrameCount == old(currentFrameCount)
      ensures smoother == old(smoother) && outputGain == old(outputGain)
    {
      if |samples| < MinSamples {
        return;
      }
      var rows := TrainingRows(samples, W, H, sqrt);
      var f := fit(rows);
      model := Some(Model(Some(ExpectedFeatures), f.predict));
      trainingErrorX, trainingErrorY := f.errorX, f.errorY;
      isCalibrated := true;
    }

    /** Records one frame for the current target; returns whether calibration
        is complete. The frame that finishes the last target triggers training. */
    method CollectCalibrationFrame(r: Reading, fit: seq<TrainingRow> -> Fitted, sqrt: real -> real) returns (done: bool)
      requires Valid()
      modifies this
      ensures Valid()
      ensures old(currentPointIdx) >= |old(grid)| ==> done && unchanged(this)
      ensures old(currentPointIdx) < |old(grid)| ==>
        var t := old(grid)[old(currentPointIdx)];
        samples == old(samples) + [Sample(r, t.0, t.1, old(currentPointIdx))] &&
        grid == old(grid) &&
        (if old(currentFrameCount) + 1 >= FramesPerPoint
         then currentPointIdx == old(currentPointIdx) + 1 && currentFrameCount == 0
         else currentPointIdx == old(currentPointIdx) && currentFrameCount == old(currentFrameCount) + 1) &&
        done == (currentPointIdx >= |grid|)
      ensures old(currentPointIdx) < |old(grid)| && done && |samples| >= MinSamples ==>
        var f := fit(TrainingRows(samples, W, H, sqrt));
        isCalibrated && model == Some(Model(Some(ExpectedFeatures), f.predict)) &&
        trainingErrorX == f.errorX && trainingErrorY == f.errorY
      ensures !done || |samples| < MinSamples ==>
        isCalibrated == old(isCalibrated) && model == old(model) &&
        trainingErrorX == old(trainingErrorX) && trainingErrorY == old(trainingErrorY)
      ensures smoother == old(smoother) && outputGain == old(outputGain)
      ensures old(Collecting()) ==> Collecting()
      ensures old(Collecting()) ==>
        (done <==> old(currentPointIdx) == |grid| ||
                   (old(currentPointIdx) == |grid| - 1 && old(currentFrameCount) == FramesPerPoint - 1))
      ensures old(Collecting()) && done ==> |samples| == |grid| * FramesPerPoint
    {
      if currentPointIdx >= |grid| {
        return true;
      }
      ghost var n := |samples|;
      var target := grid[currentPointIdx];
      samples := samples + [Sample(r, target.0, target.1, currentPointIdx)];
      currentFrameCount := currentFrameCount + 1;
      if old(Collecting()) {
        InBlock(n, currentPointIdx);
        assert Tagged(samples, grid);
      }
      done := false;
      if currentFrameCount >= FramesPerPoint {
        currentPointIdx := currentPointIdx + 1;
        currentFrameCount := 0;
        if currentPointIdx >= |grid| {
          TrainModel(fit, sqrt);
          done := true;
        }
      }
    }

    /** Smooths one predicted point with the shared smoother's core settings. */
    method SmoothCoordinates(x: real, y: real) returns (sx: int, sy: int)
      requires Valid()
      modifies this
      ensures Valid()
      ensures (smoother, (sx, sy)) == Smoothing.Step(Smoothing.CoreParams, old(smoother), x, y)
      ensures isCalibrated == old(isCalibrated) && model == old(model) && grid == old(grid)
      ensures samples == old(samples) && outputGain == old(outputGain)
      ensures currentPointIdx == old(currentPointIdx) && currentFrameCount == old(currentFrameCount)
      ensures trainingErrorX == old(trainingErrorX) && trainingErrorY == old(trainingErrorY)
    {
      var step := Smoothing.Step(Smoothing.CoreParams, smoother, x, y);
      smoother := step.0;
      sx, sy := step.1.0, step.1.1;
    }

    /** Maps one reading to a cursor position. */
    method PredictScreenPosition(r: Reading, useSmoothing: bool) returns (x: int, y: int)
      requires Valid()
      modifies this
      ensures Valid()
      ensures !old(isCalibrated) ==> (x, y) == Fallback(r, W, H) && unchanged(this)
      ensures old(isCalibrated) && old(model).value.predict(Features(r)).None? ==>
        (x, y) == Fallback(r, W, H) && unchanged(this)
      ensures old(isCalibrated) && old(model).value.predict(Features(r)).Some? ==>
        var p := old(model).value.predict(Features(r)).value;
        var gx := ApplyGain(p.0, W as real / 2.0, outputGain);
        var gy := ApplyGain(p.1, H as real / 2.0, outputGain);
        (if useSmoothing
         then var step := Smoothing.Step(Smoothing.CoreParams, old(smoother), gx, gy);
              smoother == step.0 && x == ClampInt(step.1.0, 0, W - 1) && y == ClampInt(step.1.1, 0, H - 1)
         else smoother == old(smoother) && x == ClampInt(Trunc(gx), 0, W - 1) && y == ClampInt(Trunc(gy), 0, H - 1)) &&
        0 <= x < W && 0 <= y < H
      ensures old(isCalibrated) ==>
        ((x, y), smoother) == Predicted(old(model).value, old(smoother), outputGain, W, H, r, useSmoothing)
      ensures isCalibrated == old(isCalibrated) && model == old(model) && grid == old(grid)
      ensures samples == old(samples) && outputGain == old(outputGain)
      ensures currentPointIdx == old(currentPointIdx) && currentFrameCount == old(currentFrameCount)
      ensures trainingErrorX == old(trainingErrorX) && trainingErrorY == old(trainingErrorY)
    {
      if !isCalibrated {
        x, y := Fallback(r, W, H).0, Fallback(r, W, H).1;
        return;
      }
      var features := Features(r);
      var predicted := model.value.predict(features);
      if predicted.None? {
        x, y := Fallback(r, W, H).0, Fallback(r, W, H).1;
        return;
      }
      var px := ApplyGain(predicted.value.0, W as real / 2.0, outputGain);
      var py := ApplyGain(predicted.value.1, H as real / 2.0, outputGain);
      var ix, iy;
      if useSmoothing {
        ix, iy := SmoothCoordinates(px, py);
        TruncOfInt(ix);
        TruncOfInt(iy);
      } else {
        ix, iy := Trunc(px), Trunc(py);
      }
      x := ClampInt(ix, 0, W - 1);
      y := ClampInt(iy, 0, H - 1);
    }

    method ResetSmoothingFilters()
      requires Valid()
      modifies this
      ensures Valid()
      ensures smoother == Smoothing.Reset
      ensures isCalibrated == old(isCalibrated) && model == old(model) && grid == old(grid)
      ensures samples == old(samples) && outputGain == old(outputGain)
      ensures currentPointIdx == old(currentPointIdx) && currentFrameCount == old(currentFrameCount)
      ensures trainingErrorX == old(trainingErrorX) && trainingErrorY == old(trainingErrorY)
    {
      smoother := Smoothing.Reset;
    }

    method AdjustOutputGain(delta: real)
      requires Valid()
      modifies this
      ensures Valid()
      ensures outputGain == Clip(old(outputGain) + delta, GainMin, GainMax)
      ensures isCalibrated == old(isCalibrated) && model == old(model) && grid == old(grid)
      ensures samples == old(samples) && smoother == old(smoother)
      ensures currentPointIdx == old(currentPointIdx) && currentFrameCount == old(currentFrameCount)
      ensures trainingErrorX == old(trainingErrorX) && trainingErrorY == old(trainingErrorY)
    {
      outputGain := Clip(outputGain + delta, GainMin, GainMax);
    }

    /** The record the save routine writes, or None when it returns early. */
    function SaveData(): (d: Option<SavedData>)
      reads this
      ensures d.Some? <==> isCalibrated
      ensures d.Some? ==> (d.value.samples == samples && d.value.grid == grid &&
        d.value.screenWidth == W && d.value.screenHeight == H &&
        d.value.errorX == trainingErrorX && d.value.errorY == trainingErrorY)
    {
      if !isCalibrated then None
      else Some(SavedData(W, H, samples, grid, trainingErrorX, trainingErrorY))
    }

    /** Loads a saved record and model. `data` / `models` are None when that
        file cannot be read. The samples and grid are replaced as soon as the
        record is read, even if the load then fails. */
    method LoadCalibrationData(data: Option<SavedData>, models: Option<Model>) returns (ok: bool)
      requires Valid()
      modifies this
      ensures Valid()
      ensures data.None? ==> !ok && unchanged(this)
      ensures data.Some? ==> samples == data.value.samples && grid == data.value.grid
      ensures data.Some? && models.None? ==> !ok && isCalibrated == old(isCalibrated) && model == old(model)
      ensures data.Some? && models.Some? ==>
        model == models && trainingErrorX == data.value.errorX && trainingErrorY == data.value.errorY &&
        (ok <==> models.value.featuresIn.None? || models.value.featuresIn == Some(ExpectedFeatures)) &&
        (ok ==> isCalibrated) && (!ok ==> isCalibrated == old(isCalibrated))
      ensures currentPointIdx == old(currentPointIdx) && currentFrameCount == old(currentFrameCount)
      ensures smoother == old(smoother) && outputGain == old(outputGain)
    {
      if data.None? {
        return false;
      }
      samples := data.value.samples;
      grid := data.value.grid;
      if models.None? {
        return false;
      }
      model := models;
      trainingErrorX, trainingErrorY := data.value.errorX, data.value.errorY;
      if models.value.featuresIn.Some? && models.value.featuresIn.value != ExpectedFeatures {
        return false;
      }
      isCalibrated := true;
      ok := true;
    }
  }
}
