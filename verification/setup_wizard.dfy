/** The pre-calibration setup wizard: estimates from the eye landmarks how far
    the user sits, whether the face is centred, how far the head is tilted
    and whether the face has a good size, and leaves the wizard on SPACE
    (only when every check passes) or ESC. The eye-to-eye distance and the
    angle from `arctan2` are inputs; drawing is not modelled. */
module SetupWizard {
  import opened Numeric

  const DistanceMin: real := 40.0
  const DistanceMax: real := 80.0
  const FaceWidthMin: real := 0.15
  const FaceWidthMax: real := 0.35
  const CentreTolerance: real := 0.2
  const TiltMax: real := 15.0
  /** The empirical constant of the distance estimate. */
  const DistanceK: real := 8.0
  const KeyEsc: int := 27
  const KeySpace: int := 32

  /** Distance in centimetres for a face width given as a share of the
      frame width, clipped to [5, 200]. */
  function DistanceFromRatio(ratio: real): (r: real)
    requires ratio >= 0.0
    ensures 5.0 <= r <= 200.0
  {
    Clip(DistanceK / (ratio + 0.001), 5.0, 200.0)
  }

  function EstimateDistance(faceWidthPx: real, frameWidth: int): (r: real)
    requires faceWidthPx >= 0.0 && frameWidth > 0
    ensures 5.0 <= r <= 200.0
  {
    DistanceFromRatio(faceWidthPx / frameWidth as real)
  }

  /** A wider face (closer to the camera) never reads as further away. */
  lemma DistanceDecreasing(r1: real, r2: real)
    requires 0.0 <= r1 <= r2
    ensures DistanceFromRatio(r2) <= DistanceFromRatio(r1)
  {
    var a, b := r1 + 0.001, r2 + 0.001;
    assert DistanceK / b <= DistanceK / a by {
      assert DistanceK / a - DistanceK / b == DistanceK * (b - a) / (a * b);
      MulNonneg(DistanceK, b - a);
    }
  }

  /** Folds an angle in [-180, 180] degrees into [-90, 90]: a line through
      the eyes has no direction, so angles half a turn apart are the same
      tilt. */
  function HeadTilt(angle: real): (r: real)
    ensures r == angle || r == angle - 180.0 || r == angle + 180.0
    ensures -180.0 <= angle <= 180.0 ==> -90.0 <= r <= 90.0
  {
    if angle > 90.0 then angle - 180.0
    else if angle < -90.0 then angle + 180.0
    else angle
  }

  /** The result of one positioning check. */
  datatype Status = Status(distance: real, distanceOk: bool, centred: bool, tilt: real, tiltOk: bool,
                           sizeOk: bool, faceWidthRatio: real, ready: bool)

  /** Checks one frame. `leftEye` and `rightEye` are the mean eye-landmark
      positions in pixels, `eyeDistance` the length between them, `angle`
      the direction from the left to the right eye in degrees. */
  function CheckPositioning(leftEye: (real, real), rightEye: (real, real), eyeDistance: real, angle: real,
                            frameWidth: int, frameHeight: int): (s: Status)
    requires eyeDistance >= 0.0 && frameWidth > 0 && frameHeight > 0
    ensures s.ready <==> s.distanceOk && s.centred && s.tiltOk && s.sizeOk
    ensures s.distanceOk <==> DistanceMin <= s.distance <= DistanceMax
    ensures s.sizeOk <==> FaceWidthMin <= s.faceWidthRatio <= FaceWidthMax
    ensures s.tiltOk <==> Abs(s.tilt) < TiltMax
    ensures s.faceWidthRatio * frameWidth as real == eyeDistance
    ensures s.distance == DistanceFromRatio(s.faceWidthRatio)
    ensures s.tilt == HeadTilt(angle)
    ensures s.centred <==>
      Abs((leftEye.0 + rightEye.0) / 2.0 - frameWidth as real / 2.0) < CentreTolerance * frameWidth as real &&
      Abs((leftEye.1 + rightEye.1) / 2.0 - frameHeight as real / 2.0) < CentreTolerance * frameHeight as real
  {
    var fw, fh := frameWidth as real, frameHeight as real;
    var centreX := (leftEye.0 + rightEye.0) / 2.0;
    var centreY := (leftEye.1 + rightEye.1) / 2.0;
    WithinShare(Abs(centreX - fw / 2.0), fw);
    WithinShare(Abs(centreY - fh / 2.0), fh);
    var distance := EstimateDistance(eyeDistance, frameWidth);
    var distanceOk := DistanceMin <= distance <= DistanceMax;
    var centred := Abs(centreX - fw / 2.0) / fw < CentreTolerance && Abs(centreY - fh / 2.0) / fh < CentreTolerance;
    var tilt := HeadTilt(angle);
    var tiltOk := Abs(tilt) < TiltMax;
    var ratio := eyeDistance / fw;
    var sizeOk := FaceWidthMin <= ratio <= FaceWidthMax;
    Status(distance, distanceOk, centred, tilt, tiltOk, sizeOk, ratio, distanceOk && centred && tiltOk && sizeOk)
  }

  /** Off-centre by less than the tolerance as a share of the frame is
      off-centre by less than that share of its pixels. */
  lemma WithinShare(offset: real, dim: real)
    requires dim > 0.0
    ensures offset / dim < CentreTolerance <==> offset < CentreTolerance * dim
  {
    assert offset == (offset / dim) * dim;
    if offset / dim < CentreTolerance {
      assert CentreTolerance * dim - offset == (CentreTolerance - offset / dim) * dim;
      assert (CentreTolerance - offset / dim) * dim > 0.0;
    } else {
      MulNonneg(offset / dim - CentreTolerance, dim);
    }
  }

  /** Distance and size are both read off the same face-width ratio, so
      together they pass exactly for ratios in [0.15, 0.199]: the distance
      check cuts the size check's upper bound of 0.35 down to 0.199. */
  lemma DistanceAndSizeAgree(ratio: real)
    requires ratio >= 0.0
    ensures (DistanceMin <= DistanceFromRatio(ratio) <= DistanceMax && FaceWidthMin <= ratio <= FaceWidthMax)
            <==> 0.15 <= ratio <= 0.199
  {
    var d := ratio + 0.001;
    var e := DistanceK / d;
    assert e * d == DistanceK;
    if 0.15 <= ratio <= 0.199 {
      assert 40.0 <= e by {
        if e < 40.0 { MulNonneg(40.0 - e, d); }
      }
      assert e <= 80.0 by {
        if e > 80.0 { MulNonneg(e - 80.0, d); }
      }
    }
    if DistanceMin <= DistanceFromRatio(ratio) <= DistanceMax {
      assert 5.0 <= e <= 200.0;
      MulNonneg(e - 40.0, d);
    }
  }

  /** Every passing check implies the face-width ratio lies in [0.15, 0.199]. */
  lemma ReadyBoundsRatio(leftEye: (real, real), rightEye: (real, real), eyeDistance: real, angle: real,
                         frameWidth: int, frameHeight: int)
    requires eyeDistance >= 0.0 && frameWidth > 0 && frameHeight > 0
    requires CheckPositioning(leftEye, rightEye, eyeDistance, angle, frameWidth, frameHeight).ready
    ensures 0.15 <= CheckPositioning(leftEye, rightEye, eyeDistance, angle, frameWidth, frameHeight).faceWidthRatio <= 0.199
  {
    var s := CheckPositioning(leftEye, rightEye, eyeDistance, angle, frameWidth, frameHeight);
    DistanceAndSizeAgree(s.faceWidthRatio);
  }

  /** One pass of the wizard loop: a failed camera read, or a frame with its
      positioning status (None when no face was found) and the value
      `cv2.waitKey` returned. */
  datatype WizardFrame = ReadFailed | Frame(status: Option<Status>, key: int)

  /** SPACE with a face in view and every check passed. */
  predicate Accepts(f: WizardFrame)
    ensures Accepts(f) ==> f.Frame? && f.status.Some? && KeyCode(f.key) != KeyEsc
    ensures f.Frame? && 0 <= f.key < 256 && f.key != KeySpace ==> !Accepts(f)
  {
    f.Frame? && KeyCode(f.key) == KeySpace && f.status.Some? && f.status.value.ready
  }

  /** The frames that end the wizard: a failed read, ESC, or an accepted SPACE. */
  predicate Ends(f: WizardFrame)
    ensures f.Frame? && f.status.None? && Ends(f) ==> KeyCode(f.key) == KeyEsc
    ensures f.Frame? && KeyCode(f.key) != KeyEsc && KeyCode(f.key) != KeySpace ==> !Ends(f)
  {
    f.ReadFailed? || KeyCode(f.key) == KeyEsc || Accepts(f)
  }

  /** Runs the wizard over the camera's frames (the stream ending counts as
      a failed read). It succeeds exactly when some frame accepts before any
      frame ends it otherwise. */
  method Run(frames: seq<WizardFrame>) returns (ok: bool)
    ensures ok <==> exists i :: 0 <= i < |frames| && Accepts(frames[i]) &&
                                forall j :: 0 <= j < i ==> !Ends(frames[j])
  {
    var i := 0;
    while i < |frames|
      invariant 0 <= i <= |frames|
      invariant forall j :: 0 <= j < i ==> !Ends(frames[j])
    {
      var f := frames[i];
      if f.ReadFailed? {
        return false;
      }
      var key := KeyCode(f.key);
      if key == KeyEsc {
        return false;
      } else if key == KeySpace {
        if f.status.Some? && f.status.value.ready {
          return true;
        }
      }
      i := i + 1;
    }
    return false;
  }
}
