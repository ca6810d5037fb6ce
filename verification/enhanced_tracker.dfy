/** The current tracker's frame loop and control commands: the left-eye
    wink click with its cooldown, the decision to predict and move the
    cursor, and the effect of each control-panel command on the tracker and
    on its calibration object. Camera, face mesh, cursor, logging and the
    control panel itself are outside the model. */
module EnhancedTracker {
  import opened Numeric
  import opened Readings
  import Calibration15
  import RawGaze
  import Smoothing

  /** An eye aspect ratio below this counts as closed. */
  const BlinkThreshold: real := 0.15
  /** Seconds that must pass between two clicks. */
  const BlinkCooldown: real := 0.5
  /** Average vertical ratios above this count as looking down. */
  const LookingDown: real := 0.6

  /** The nose landmark's pixel position as a share of the frame size. */
  function NoseTip(nx: real, ny: real, frameWidth: int, frameHeight: int): (r: (real, real))
    requires frameWidth > 0 && frameHeight > 0
    ensures r.0 * frameWidth as real == nx && r.1 * frameHeight as real == ny
    ensures 0.0 <= nx <= frameWidth as real ==> 0.0 <= r.0 <= 1.0
    ensures 0.0 <= ny <= frameHeight as real ==> 0.0 <= r.1 <= 1.0
  {
    (nx / frameWidth as real, ny / frameHeight as real)
  }

  /** What one frame contributes to the click decision. */
  datatype BlinkFrame = BlinkFrame(avgY: real, leftEar: real, rightEar: real, time: real)

  /** A click fires when the user is not looking down, the left eye is
      closed, the right eye open, and the cooldown since the last click has
      passed. */
  predicate ClickFires(f: BlinkFrame, lastClick: real)
    ensures ClickFires(f, lastClick) ==> f.leftEar < f.rightEar && f.time > lastClick + BlinkCooldown
    ensures f.leftEar >= BlinkThreshold || f.avgY > LookingDown ==> !ClickFires(f, lastClick)
  {
    !(f.avgY > LookingDown) && f.leftEar < BlinkThreshold && f.rightEar >= BlinkThreshold &&
    f.time - lastClick > BlinkCooldown
  }

  /** The times of the clicks a run of frames produces, starting from the
      given last-click time. */
  function ClickTimes(fs: seq<BlinkFrame>, lastClick: real): (r: seq<real>)
    ensures |r| <= |fs|
  {
    if fs == [] then []
    else if ClickFires(fs[0], lastClick) then [fs[0].time] + ClickTimes(fs[1..], fs[0].time)
    else ClickTimes(fs[1..], lastClick)
  }

  /** Every click comes more than the cooldown after the previous one (and
      the first more than the cooldown after the starting last-click time). */
  lemma {:induction false} ClicksSpaced(fs: seq<BlinkFrame>, lastClick: real)
    ensures var r := ClickTimes(fs, lastClick);
      (|r| > 0 ==> r[0] - lastClick > BlinkCooldown) &&
      forall i :: 0 <= i < |r| - 1 ==> r[i + 1] - r[i] > BlinkCooldown
  {
    if fs != [] {
      if ClickFires(fs[0], lastClick) {
        ClicksSpaced(fs[1..], fs[0].time);
        var rest := ClickTimes(fs[1..], fs[0].time);
        assert ClickTimes(fs, lastClick) == [fs[0].time] + rest;
      } else {
        ClicksSpaced(fs[1..], lastClick);
      }
    }
  }

  /** A run of frames in which the user looks down never clicks. */
  lemma {:induction false} LookingDownNeverClicks(fs: seq<BlinkFrame>, lastClick: real)
    requires forall i :: 0 <= i < |fs| ==> fs[i].avgY > LookingDown
    ensures ClickTimes(fs, lastClick) == []
  {
    if fs != [] {
      LookingDownNeverClicks(fs[1..], lastClick);
    }
  }

  class EnhancedEyeTracker {
    const calibration: Calibration15.Calibration15Point
    const rawGazeOverlay: RawGaze.RawGazeOverlay
    const frameWidth: int
    const frameHeight: int
    var cursorControlEnabled: bool
    var smoothingEnabled: bool
    var showRawGaze: bool
    var lastLeftBlinkTime: real

    ghost predicate Valid()
      reads this, calibration, rawGazeOverlay
    {
      frameWidth > 0 && frameHeight > 0 && calibration.Valid() && rawGazeOverlay.Valid()
    }

    constructor(screenWidth: int, screenHeight: int, fw: int, fh: int)
      requires screenWidth > 0 && screenHeight > 0 && fw > 0 && fh > 0
      ensures Valid() && fresh(calibration) && fresh(rawGazeOverlay)
      ensures calibration.W == screenWidth && calibration.H == screenHeight && !calibration.isCalibrated
      ensures rawGazeOverlay.screenWidth == screenWidth && rawGazeOverlay.screenHeight == screenHeight
      ensures frameWidth == fw && frameHeight == fh
      ensures cursorControlEnabled && smoothingEnabled && !showRawGaze && lastLeftBlinkTime == 0.0
    {
      calibration := new Calibration15.Calibration15Point(screenWidth, screenHeight);
      rawGazeOverlay := new RawGaze.RawGazeOverlay(screenWidth, screenHeight);
      frameWidth, frameHeight := fw, fh;
      cursorControlEnabled, smoothingEnabled, showRawGaze := true, true, false;
      lastLeftBlinkTime := 0.0;
    }

    /** One tracked frame: the overlay follows the raw gaze when shown, a
        wink clicks, and the cursor is predicted only when the calibration is
        complete and cursor control is on. Returns whether a click fired and
        the cursor position, if one was predicted. */
    method TrackFrame(left: (real, real), right: (real, real), nosePixel: (real, real),
                      leftEar: real, rightEar: real, now: real) returns (clicked: bool, cursor: Option<(int, int)>)
      requires Valid()
      modifies this, calibration, rawGazeOverlay
      ensures Valid()
      ensures var f := BlinkFrame((left.1 + right.1) / 2.0, leftEar, rightEar, now);
        clicked == ClickFires(f, old(lastLeftBlinkTime)) &&
        lastLeftBlinkTime == (if clicked then now else old(lastLeftBlinkTime))
      ensures cursor.Some? <==> old(calibration.isCalibrated) && cursorControlEnabled
      ensures cursor.Some? && old(calibration.model).value.predict(Calibration15.Features(
                Reading(left, right, NoseTip(nosePixel.0, nosePixel.1, frameWidth, frameHeight)))).Some? ==>
        0 <= cursor.value.0 < calibration.W && 0 <= cursor.value.1 < calibration.H
      ensures cursor.Some? ==>
        var r := Reading(left, right, NoseTip(nosePixel.0, nosePixel.1, frameWidth, frameHeight));
        (cursor.value, calibration.smoother) ==
          Calibration15.Predicted(old(calibration.model).value, old(calibration.smoother), calibration.outputGain,
                                  calibration.W, calibration.H, r, smoothingEnabled)
      ensures cursor.None? ==> unchanged(calibration)
      ensures showRawGaze ==> (|rawGazeOverlay.gazeTrail| > 0 &&
        rawGazeOverlay.gazeTrail[|rawGazeOverlay.gazeTrail| - 1] ==
          (ClampedPixel((left.0 + right.0) / 2.0, rawGazeOverlay.screenWidth),
           ClampedPixel((left.1 + right.1) / 2.0, rawGazeOverlay.screenHeight)))
      ensures !showRawGaze ==> unchanged(rawGazeOverlay)
      ensures cursorControlEnabled == old(cursorControlEnabled) && smoothingEnabled == old(smoothingEnabled)
      ensures showRawGaze == old(showRawGaze)
      ensures calibration.isCalibrated == old(calibration.isCalibrated) && calibration.outputGain == old(calibration.outputGain)
      ensures calibration.model == old(calibration.model) && calibration.grid == old(calibration.grid) &&
        calibration.samples == old(calibration.samples)
      ensures calibration.currentPointIdx == old(calibration.currentPointIdx) &&
        calibration.currentFrameCount == old(calibration.currentFrameCount)
      ensures calibration.trainingErrorX == old(calibration.trainingErrorX) &&
        calibration.trainingErrorY == old(calibration.trainingErrorY)
    {
      var nose := NoseTip(nosePixel.0, nosePixel.1, frameWidth, frameHeight);
      if showRawGaze {
        rawGazeOverlay.Update((left.0 + right.0) / 2.0, (left.1 + right.1) / 2.0);
      }
      var avgEyeY := (left.1 + right.1) / 2.0;
      var lookingDown := avgEyeY > LookingDown;
      clicked := false;
      if !lookingDown && leftEar < BlinkThreshold && rightEar >= BlinkThreshold {
        if now - lastLeftBlinkTime > BlinkCooldown {
          clicked := true;
          lastLeftBlinkTime := now;
        }
      }
      cursor := None;
      if calibration.isCalibrated && cursorControlEnabled {
        var x, y := calibration.PredictScreenPosition(Reading(left, right, nose), smoothingEnabled);
        cursor := Some((x, y));
      }
    }

    /** One control-panel command. 'c' and 'f' start a 9- or 21-point
        calibration, 'd' forgets the calibration and starts a 21-point one,
        's' and 'x' toggle cursor control and smoothing, 'z' resets the
        smoother, '+'/'=' and '-'/'_' move the gain by 0.1 within its clamp,
        'g' toggles the raw-gaze overlay and clears it when hidden. */
    method HandleCommand(cmd: char)
      requires Valid()
      modifies this, calibration, rawGazeOverlay
      ensures Valid()
      ensures cmd == 's' <==> cursorControlEnabled != old(cursorControlEnabled)
      ensures cmd == 'x' <==> smoothingEnabled != old(smoothingEnabled)
      ensures cmd == 'g' <==> showRawGaze != old(showRawGaze)
      ensures cmd == 'g' && !showRawGaze ==> rawGazeOverlay.gazeTrail == [] && rawGazeOverlay.pulsePhase == 0.0
      ensures cmd != 'g' || showRawGaze ==> unchanged(rawGazeOverlay)
      ensures cmd in {'c', 'f', 'd'} ==>
        !calibration.isCalibrated && calibration.currentPointIdx == 0 && calibration.samples == [] &&
        calibration.grid == Calibration15.ToPixels(Calibration15.Layout(if cmd == 'c' then 9 else 21), calibration.W, calibration.H)
      ensures cmd == 'z' ==> calibration.smoother == Smoothing.Reset
      ensures cmd in {'+', '='} ==> calibration.outputGain == Clip(old(calibration.outputGain) + 0.1, Calibration15.GainMin, Calibration15.GainMax)
      ensures cmd in {'-', '_'} ==> calibration.outputGain == Clip(old(calibration.outputGain) - 0.1, Calibration15.GainMin, Calibration15.GainMax)
      ensures !(cmd in {'c', 'f', 'd', 'z', '+', '=', '-', '_'}) ==> unchanged(calibration)
      ensures lastLeftBlinkTime == old(lastLeftBlinkTime)
    {
      if cmd == 'c' {
        calibration.StartCalibration(9);
      } else if cmd == 'f' {
        calibration.StartCalibration(21);
      } else if cmd == 's' {
        cursorControlEnabled := !cursorControlEnabled;
      } else if cmd == 'd' {
        calibration.isCalibrated := false;
        calibration.StartCalibration(21);
      } else if cmd == 'z' {
        calibration.ResetSmoothingFilters();
      } else if cmd == '+' || cmd == '=' {
        calibration.AdjustOutputGain(0.1);
      } else if cmd == '-' || cmd == '_' {
        calibration.AdjustOutputGain(-0.1);
      } else if cmd == 'x' {
        smoothingEnabled := !smoothingEnabled;
      } else if cmd == 'g' {
        showRawGaze := !showRawGaze;
        if !showRawGaze {
          rawGazeOverlay.Reset();
        }
      }
    }
  }
}
