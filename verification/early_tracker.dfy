/** The earlier single-file tracker: a fixed 15-target calibration that
    records the mean iris ratios per target, a mapping that normalises the
    gaze against the middle-edge targets, a cubic edge transform, and two
    smoothers (the moving average shared with the current core, and a
    constant-velocity Kalman filter of which only the start-up and the clamp
    are modelled). */
module EarlyTracker {
  import opened Numeric
  import opened Normalisation
  import Smoothing

  /** The fixed resolution the mapping works in. */
  const DisplayWidth: int := 1920
  const DisplayHeight: int := 1080
  const FramesPerPoint: nat := 60

  /** Five targets per row, three rows, row by row. */
  const CalibrationPoints: seq<(real, real)> := [
    (0.1, 0.1), (0.325, 0.1), (0.5, 0.1), (0.675, 0.1), (0.9, 0.1),
    (0.1, 0.5), (0.325, 0.5), (0.5, 0.5), (0.675, 0.5), (0.9, 0.5),
    (0.1, 0.9), (0.325, 0.9), (0.5, 0.9), (0.675, 0.9), (0.9, 0.9)]
  const PointCount: nat := 15

  /** Indices of the targets the mapping normalises against. */
  const LeftTarget: nat := 5
  const RightTarget: nat := 9
  const TopTarget: nat := 2
  const BottomTarget: nat := 12

  // ------------------------------------------------------------ edge transform

  /** `(4 c^3 + c + 1) / 2` with `c = v - 0.5`. */
  function NonLinearTransform(v: real): (r: real)
    ensures 0.0 <= v <= 1.0 ==> 0.0 <= r <= 1.0
  {
    var c := v - 0.5;
    assert 0.0 <= v <= 1.0 ==> -0.125 <= c * c * c <= 0.125 by {
      if 0.0 <= v <= 1.0 {
        var a := if c >= 0.0 then c else -c;
        var a2 := a * a;
        assert c * c == a2;
        assert c * c * c == (if c >= 0.0 then a * a2 else -(a * a2));
        MulNonneg(0.5 - a, 0.5 + a);
        assert a2 <= 0.25;
        MulNonneg(0.5 - a, a2);
        assert a * a2 <= 0.5 * a2;
        MulNonneg(a, a2);
      }
    }
    (4.0 * (c * c * c) + c + 1.0) / 2.0
  }

  /** The transform keeps both edges and the centre where they are. */
  lemma NonLinearFixedPoints()
    ensures NonLinearTransform(0.0) == 0.0
    ensures NonLinearTransform(0.5) == 0.5
    ensures NonLinearTransform(1.0) == 1.0
  {
    assert NonLinearTransform(0.0) == (4.0 * ((-0.5) * (-0.5) * (-0.5)) - 0.5 + 1.0) / 2.0;
    assert NonLinearTransform(1.0) == (4.0 * (0.5 * 0.5 * 0.5) + 0.5 + 1.0) / 2.0;
  }

  /** The transform is strictly increasing. */
  lemma NonLinearIncreasing(a: real, b: real)
    requires a < b
    ensures NonLinearTransform(a) < NonLinearTransform(b)
  {
    var x, y := a - 0.5, b - 0.5;
    CubeIncreasing(x, y);
    assert NonLinearTransform(a) == (4.0 * (x * x * x) + x + 1.0) / 2.0;
    assert NonLinearTransform(b) == (4.0 * (y * y * y) + y + 1.0) / 2.0;
  }

  lemma CubeIncreasing(x: real, y: real)
    requires x < y
    ensures x * x * x < y * y * y
  {
    var s := x * x + x * y + y * y;
    assert s > 0.0 by {
      assert 2.0 * s == x * x + y * y + (x + y) * (x + y);
      SquareNonneg(x + y);
      SquareNonneg(x);
      SquareNonneg(y);
      if x == 0.0 { assert y * y > 0.0; } else { assert x * x > 0.0; }
    }
    assert y * y * y - x * x * x == (y - x) * s;
    assert (y - x) * s > 0.0;
  }

  /** Looking a share v from one edge maps as far from the centre as
      looking a share v from the other edge: f(1 - v) == 1 - f(v). */
  lemma NonLinearSymmetric(v: real)
    ensures NonLinearTransform(1.0 - v) == 1.0 - NonLinearTransform(v)
  {
    var c := v - 0.5;
    assert (1.0 - v) - 0.5 == -c;
    assert (-c) * (-c) * (-c) == -(c * c * c);
  }

  // ------------------------------------------------------------ calibration data

  /** The (horizontal, vertical) ratios of the left and the right iris. */
  datatype IrisPair = IrisPair(left: (real, real), right: (real, real))

  /** A recorded target: its normalised screen position and the averaged
      iris ratios. */
  datatype MapEntry = MapEntry(screen: (real, real), eye: IrisPair)

  /** Channel c of a pair: left x, left y, right x, right y. */
  function Coord(p: IrisPair, c: nat): real
    requires c < 4
  {
    match c
    case 0 => p.left.0
    case 1 => p.left.1
    case 2 => p.right.0
    case _ => p.right.1
  }

  function Coords(fs: seq<IrisPair>, c: nat): (r: seq<real>)
    requires c < 4
    ensures |r| == |fs| && forall i :: 0 <= i < |fs| ==> r[i] == Coord(fs[i], c)
  {
    seq(|fs|, i requires 0 <= i < |fs| => Coord(fs[i], c))
  }

  /** The per-channel mean of a non-empty run of frames. */
  function MeanPair(fs: seq<IrisPair>): (r: IrisPair)
    requires |fs| > 0
    ensures forall c :: 0 <= c < 4 ==> Coord(r, c) == Mean(Coords(fs, c))
  {
    IrisPair((Mean(Coords(fs, 0)), Mean(Coords(fs, 1))), (Mean(Coords(fs, 2)), Mean(Coords(fs, 3))))
  }

  /** Iris ratios are clipped to [0, 1], and so is their mean. */
  lemma MeanPairInUnit(fs: seq<IrisPair>, c: nat)
    requires |fs| > 0 && c < 4
    requires forall i :: 0 <= i < |fs| ==> 0.0 <= Coord(fs[i], c) <= 1.0
    ensures 0.0 <= Coord(MeanPair(fs), c) <= 1.0
  {
    MeanBounds(Coords(fs, c), 0.0, 1.0);
  }

  // ------------------------------------------------------------ mapping

  function GazeX(e: MapEntry): real { (e.eye.left.0 + e.eye.right.0) / 2.0 }
  function GazeY(e: MapEntry): real { (e.eye.left.1 + e.eye.right.1) / 2.0 }

  /** Whether the mapping uses the recorded targets: calibrated and holding
      a non-empty mapping. */
  predicate UsesCalibration(calibrated: bool, mapping: Option<seq<MapEntry>>)
  {
    calibrated && mapping.Some? && |mapping.value| > 0
  }

  /** The cursor pixel for averaged iris ratios (rx, ry). Uncalibrated, the
      ratios are scaled to the display; calibrated, each axis is normalised
      between the gaze recorded at the middle-left and middle-right (or
      top-centre and bottom-centre) targets, stretched and kept on the
      display. */
  function MapToScreen(calibrated: bool, mapping: Option<seq<MapEntry>>, rx: real, ry: real): (r: (int, int))
    requires UsesCalibration(calibrated, mapping) ==> |mapping.value| > BottomTarget
    ensures !UsesCalibration(calibrated, mapping) ==>
      r == (Trunc(rx * DisplayWidth as real), Trunc(ry * DisplayHeight as real))
    ensures UsesCalibration(calibrated, mapping) ==>
      0 <= r.0 < DisplayWidth && 0 <= r.1 < DisplayHeight
  {
    if !UsesCalibration(calibrated, mapping) then
      (Trunc(rx * DisplayWidth as real), Trunc(ry * DisplayHeight as real))
    else
      var m := mapping.value;
      (ClampedPixel(Stretch(Relative(rx, GazeX(m[LeftTarget]), GazeX(m[RightTarget]), 0.0)), DisplayWidth),
       ClampedPixel(Stretch(Relative(ry, GazeY(m[TopTarget]), GazeY(m[BottomTarget]), 0.0)), DisplayHeight))
  }

  /** When the middle-left and middle-right targets recorded the same
      horizontal gaze, every gaze maps to the middle column. */
  lemma SameRecordedGazeIsCentre(m: seq<MapEntry>, rx: real, ry: real)
    requires |m| > BottomTarget && GazeX(m[LeftTarget]) == GazeX(m[RightTarget])
    ensures MapToScreen(true, Some(m), rx, ry).0 == DisplayWidth / 2
  {
    DegenerateIsCentre(rx, GazeX(m[LeftTarget]), GazeX(m[RightTarget]), 0.0);
  }

  /** Looking at the gaze recorded at the middle-left target puts the cursor
      at the left edge, at the middle-right target's at the right edge. */
  lemma RecordedEdgesReachEdges(m: seq<MapEntry>, ry: real)
    requires |m| > BottomTarget && GazeX(m[LeftTarget]) < GazeX(m[RightTarget])
    ensures MapToScreen(true, Some(m), GazeX(m[LeftTarget]), ry).0 == 0
    ensures MapToScreen(true, Some(m), GazeX(m[RightTarget]), ry).0 == DisplayWidth - 1
  {
    RelativeAtExtremes(GazeX(m[LeftTarget]), GazeX(m[RightTarget]), 0.0);
    TruncOfInt(DisplayWidth);
  }

  /** Looking further right never moves the cursor left. */
  lemma MapToScreenMonotone(m: seq<MapEntry>, rx1: real, rx2: real, ry: real)
    requires |m| > BottomTarget && rx1 <= rx2
    ensures MapToScreen(true, Some(m), rx1, ry).0 <= MapToScreen(true, Some(m), rx2, ry).0
  {
    var lo, hi := GazeX(m[LeftTarget]), GazeX(m[RightTarget]);
    RelativeMonotone(rx1, rx2, lo, hi, 0.0);
    var a1, a2 := Stretch(Relative(rx1, lo, hi, 0.0)), Stretch(Relative(rx2, lo, hi, 0.0));
    assert a1 <= a2;
    MulNonneg(a2 - a1, DisplayWidth as real);
    TruncMonotone(a1 * DisplayWidth as real, a2 * DisplayWidth as real);
  }

  // ------------------------------------------------------------ Kalman start-up

  /** Position and velocity. */
  datatype KalmanState = KalmanState(x: real, y: real, vx: real, vy: real)

  /** One predict-and-correct step of the constant-velocity filter. */
  type KalmanStep = (KalmanState, real, real) -> KalmanState

  /** Frames recorded so far: all of them for finished targets, the
      current count for the current one, none after it. */
  predicate FramesShaped(data: seq<seq<IrisPair>>, point: nat, count: nat)
  {
    |data| == PointCount && point <= PointCount &&
    forall k :: 0 <= k < PointCount ==>
      |data[k]| == if k < point then FramesPerPoint else if k == point then count else 0
  }

  /** One mapping entry per finished target: its position and the mean of
      its frames. */
  predicate MappingAgrees(data: seq<seq<IrisPair>>, point: nat, count: nat, mapping: Option<seq<MapEntry>>)
    requires FramesShaped(data, point, count)
  {
    (mapping.None? <==> point == 0) &&
    (mapping.Some? ==>
      |mapping.value| == point &&
      forall k :: 0 <= k < point ==> mapping.value[k] == MapEntry(CalibrationPoints[k], MeanPair(data[k])))
  }

  /** Recording a frame that does not finish the current target keeps the
      shape and the mapping. */
  lemma RecordKeepsShape(data: seq<seq<IrisPair>>, point: nat, count: nat, mapping: Option<seq<MapEntry>>, frame: IrisPair)
    requires FramesShaped(data, point, count) && MappingAgrees(data, point, count, mapping)
    requires point < PointCount
    ensures var d := data[point := data[point] + [frame]];
      FramesShaped(d, point, count + 1) && MappingAgrees(d, point, count + 1, mapping)
  {
    var d := data[point := data[point] + [frame]];
    assert forall k :: 0 <= k < point ==> d[k] == data[k];
  }

  /** Recording the last frame of the current target moves on to the next
      target with the target's mean appended to the mapping. */
  lemma FinishKeepsShape(data: seq<seq<IrisPair>>, point: nat, mapping: Option<seq<MapEntry>>, frame: IrisPair)
    requires FramesShaped(data, point, FramesPerPoint - 1) && MappingAgrees(data, point, FramesPerPoint - 1, mapping)
    requires point < PointCount
    ensures var d := data[point := data[point] + [frame]];
      var recorded := if mapping.None? then [] else mapping.value;
      var m := Some(recorded + [MapEntry(CalibrationPoints[point], MeanPair(data[point] + [frame]))]);
      FramesShaped(d, point + 1, 0) && MappingAgrees(d, point + 1, 0, m)
  {
    var d := data[point := data[point] + [frame]];
    assert forall k :: 0 <= k < point ==> d[k] == data[k];
    assert FramesShaped(d, point + 1, 0);
  }

  // ------------------------------------------------------------ the object

  class EyeControlledMouse {
    var smoother: Smoothing.State
    var useKalmanFilter: bool
    var kalmanInitialized: bool
    var kalmanState: KalmanState
    var currentCalibrationPoint: nat
    /** The frames recorded at each target, by target index. */
    var calibrationData: seq<seq<IrisPair>>
    var calibrationFrameCount: nat
    var calibrated: bool
    var calibrationMapping: Option<seq<MapEntry>>
    var calibrationStarted: bool

    ghost predicate Valid()
      reads this
    {
      Smoothing.WellFormed(Smoothing.EarlyParams, smoother) &&
      calibrationFrameCount < FramesPerPoint &&
      FramesShaped(calibrationData, currentCalibrationPoint, calibrationFrameCount) &&
      MappingAgrees(calibrationData, currentCalibrationPoint, calibrationFrameCount, calibrationMapping) &&
      (calibrated <==> currentCalibrationPoint == PointCount) &&
      (!calibrationStarted ==> currentCalibrationPoint == 0 && calibrationFrameCount == 0)
    }

    constructor()
      ensures Valid()
      ensures smoother == Smoothing.Reset && useKalmanFilter && !kalmanInitialized
      ensures kalmanState == KalmanState(0.0, 0.0, 0.0, 0.0)
      ensures currentCalibrationPoint == 0 && calibrationFrameCount == 0
      ensures calibrationData == seq(PointCount, _ => [])
      ensures !calibrated && calibrationMapping == None && !calibrationStarted
    {
      smoother := Smoothing.Reset;
      useKalmanFilter := true;
      kalmanInitialized := false;
      kalmanState := KalmanState(0.0, 0.0, 0.0, 0.0);
      currentCalibrationPoint := 0;
      calibrationData := seq(PointCount, _ => []);
      calibrationFrameCount := 0;
      calibrated := false;
      calibrationMapping := None;
      calibrationStarted := false;
    }

    /** The first call takes the measurement as the state with zero velocity
        and returns it truncated; later calls run the filter step and keep
        its position within [0, DisplayWidth] x [0, DisplayHeight]. */
    method KalmanFilterUpdate(mx: real, my: real, step: KalmanStep) returns (fx: int, fy: int)
      requires Valid()
      modifies this
      ensures Valid()
      ensures !old(kalmanInitialized) ==>
        kalmanState == KalmanState(mx, my, 0.0, 0.0) && fx == Trunc(mx) && fy == Trunc(my)
      ensures old(kalmanInitialized) ==>
        kalmanState == step(old(kalmanState), mx, my) &&
        fx == ClampInt(Trunc(kalmanState.x), 0, DisplayWidth) &&
        fy == ClampInt(Trunc(kalmanState.y), 0, DisplayHeight) &&
        0 <= fx <= DisplayWidth && 0 <= fy <= DisplayHeight
      ensures kalmanInitialized
      ensures smoother == old(smoother) && useKalmanFilter == old(useKalmanFilter)
      ensures currentCalibrationPoint == old(currentCalibrationPoint) && calibrationData == old(calibrationData)
      ensures calibrationFrameCount == old(calibrationFrameCount) && calibrated == old(calibrated)
      ensures calibrationMapping == old(calibrationMapping) && calibrationStarted == old(calibrationStarted)
    {
      if !kalmanInitialized {
        kalmanState := KalmanState(mx, my, 0.0, 0.0);
        kalmanInitialized := true;
        return Trunc(mx), Trunc(my);
      }
      kalmanState := step(kalmanState, mx, my);
      fx := ClampInt(Trunc(kalmanState.x), 0, DisplayWidth);
      fy := ClampInt(Trunc(kalmanState.y), 0, DisplayHeight);
    }

    /** The Kalman filter when it is switched on; otherwise one step of the
        moving-average smoother with the early constants (window 15, outlier
        threshold 300, 70/30 replacement, 0.3 blend). */
    method SmoothCoordinates(x: int, y: int, step: KalmanStep) returns (sx: int, sy: int)
      requires Valid()
      modifies this
      ensures Valid()
      ensures useKalmanFilter ==> (smoother == old(smoother) &&
        (!old(kalmanInitialized) ==> sx == x && sy == y && kalmanState == KalmanState(x as real, y as real, 0.0, 0.0)) &&
        (old(kalmanInitialized) ==> (0 <= sx <= DisplayWidth && 0 <= sy <= DisplayHeight &&
          kalmanState == step(old(kalmanState), x as real, y as real))))
      ensures !useKalmanFilter ==>
        var r := Smoothing.Step(Smoothing.EarlyParams, old(smoother), x as real, y as real);
        smoother == r.0 && sx == r.1.0 && sy == r.1.1 && kalmanState == old(kalmanState) &&
        kalmanInitialized == old(kalmanInitialized)
      ensures useKalmanFilter == old(useKalmanFilter)
      ensures currentCalibrationPoint == old(currentCalibrationPoint) && calibrationData == old(calibrationData)
      ensures calibrated == old(calibrated) && calibrationMapping == old(calibrationMapping)
    {
      if useKalmanFilter {
        TruncOfInt(x);
        TruncOfInt(y);
        sx, sy := KalmanFilterUpdate(x as real, y as real, step);
      } else {
        sx, sy := MovingAverageUpdate(x, y);
      }
    }

    /** The moving-average branch of SmoothCoordinates. */
    method MovingAverageUpdate(x: int, y: int) returns (sx: int, sy: int)
      requires Valid()
      modifies this
      ensures Valid()
      ensures var r := Smoothing.Step(Smoothing.EarlyParams, old(smoother), x as real, y as real);
        smoother == r.0 && sx == r.1.0 && sy == r.1.1
      ensures kalmanState == old(kalmanState) && kalmanInitialized == old(kalmanInitialized)
      ensures useKalmanFilter == old(useKalmanFilter)
      ensures currentCalibrationPoint == old(currentCalibrationPoint) && calibrationData == old(calibrationData)
      ensures calibrated == old(calibrated) && calibrationMapping == old(calibrationMapping)
    {
      var r := Smoothing.Step(Smoothing.EarlyParams, smoother, x as real, y as real);
      assert Smoothing.WellFormed(Smoothing.EarlyParams, r.0);
      smoother := r.0;
      sx, sy := r.1.0, r.1.1;
    }

    /** One frame of calibration. The first call only starts calibration;
        later calls record the frame's iris ratios for the current target,
        and the 60th frame of a target records its mean and moves on. After
        the last target the tracker is calibrated and the moving-average
        smoother starts afresh. Once calibrated, nothing changes. */
    method Calibrate(frame: IrisPair)
      requires Valid()
      modifies this
      ensures Valid()
      ensures old(calibrated) ==> unchanged(this)
      ensures !old(calibrated) && !old(calibrationStarted) ==>
        calibrationStarted && calibrationData == old(calibrationData) &&
        currentCalibrationPoint == old(currentCalibrationPoint) && calibrationFrameCount == old(calibrationFrameCount) &&
        calibrationMapping == old(calibrationMapping) && !calibrated && smoother == old(smoother)
      ensures !old(calibrated) && old(calibrationStarted) ==>
        var i := old(currentCalibrationPoint);
        calibrationData == old(calibrationData)[i := old(calibrationData)[i] + [frame]] &&
        if old(calibrationFrameCount) + 1 >= FramesPerPoint then
          currentCalibrationPoint == i + 1 && calibrationFrameCount == 0 &&
          calibrationMapping.Some? &&
          calibrationMapping.value[i] == MapEntry(CalibrationPoints[i], MeanPair(old(calibrationData)[i] + [frame])) &&
          calibrated == (i + 1 == PointCount) &&
          smoother == (if calibrated then Smoothing.Reset else old(smoother))
        else
          currentCalibrationPoint == i && calibrationFrameCount == old(calibrationFrameCount) + 1 &&
          calibrationMapping == old(calibrationMapping) && !calibrated && smoother == old(smoother)
      ensures useKalmanFilter == old(useKalmanFilter) && kalmanState == old(kalmanState)
      ensures kalmanInitialized == old(kalmanInitialized)
    {
      if calibrated {
        return;
      }
      if !calibrationStarted {
        calibrationStarted := true;
        return;
      }
      var i := currentCalibrationPoint;
      var frames := calibrationData[i] + [frame];
      if calibrationFrameCount + 1 >= FramesPerPoint {
        FinishKeepsShape(calibrationData, i, calibrationMapping, frame);
        var entry := MapEntry(CalibrationPoints[i], MeanPair(frames));
        var recorded := if calibrationMapping.None? then [] else calibrationMapping.value;
        calibrationData := calibrationData[i := frames];
        calibrationMapping := Some(recorded + [entry]);
        currentCalibrationPoint := i + 1;
        calibrationFrameCount := 0;
        if currentCalibrationPoint >= PointCount {
          calibrated := true;
          smoother := Smoothing.Reset;
        }
      } else {
        RecordKeepsShape(calibrationData, i, calibrationFrameCount, calibrationMapping, frame);
        calibrationData := calibrationData[i := frames];
        calibrationFrameCount := calibrationFrameCount + 1;
      }
    }

    /** The cursor pixel for this frame's averaged iris ratios. */
    function MapToScreenNow(rx: real, ry: real): (r: (int, int))
      reads this
      requires Valid()
      ensures calibrated ==> 0 <= r.0 < DisplayWidth && 0 <= r.1 < DisplayHeight
      ensures !calibrated ==> r == (Trunc(rx * DisplayWidth as real), Trunc(ry * DisplayHeight as real))
    {
      MapToScreen(calibrated, calibrationMapping, rx, ry)
    }
  }
}
