/** Per-eye features computed from face-mesh landmarks: where the iris sits
    inside the eye opening, and how open the eye is. The landmark detector is
    external; its points come in as values, and the Euclidean lengths the
    source takes with `np.linalg.norm` come in as non-negative numbers. */
module EyeGeometry {
  import opened Numeric

  datatype Point = Point(x: real, y: real)

  /** The small constant the source adds to every denominator. */
  const Epsilon: real := 0.000001

  function Xs(pts: seq<Point>): (r: seq<real>)
    ensures |r| == |pts| && forall i :: 0 <= i < |pts| ==> r[i] == pts[i].x
  {
    if pts == [] then [] else Xs(pts[..|pts| - 1]) + [pts[|pts| - 1].x]
  }

  function Ys(pts: seq<Point>): (r: seq<real>)
    ensures |r| == |pts| && forall i :: 0 <= i < |pts| ==> r[i] == pts[i].y
  {
    if pts == [] then [] else Ys(pts[..|pts| - 1]) + [pts[|pts| - 1].y]
  }

  /** The iris centre: the plain average of the iris landmarks. */
  function Centre(pts: seq<Point>): (c: Point)
    requires |pts| > 0
    ensures (forall i :: 0 <= i < |pts| ==> pts[i] == pts[0]) ==> c == pts[0]
  {
    var xs, ys := Xs(pts), Ys(pts);
    assert (forall i :: 0 <= i < |pts| ==> pts[i] == pts[0]) ==>
           Mean(xs) == pts[0].x && Mean(ys) == pts[0].y by {
      if forall i :: 0 <= i < |pts| ==> pts[i] == pts[0] {
        assert forall i :: 0 <= i < |xs| ==> xs[i] == pts[0].x;
        assert forall i :: 0 <= i < |ys| ==> ys[i] == pts[0].y;
        MeanConstant(xs, pts[0].x);
        MeanConstant(ys, pts[0].y);
      }
    }
    Point(Mean(xs), Mean(ys))
  }

  /** Offset of `v` from `origin` as a share of `extent` (plus Epsilon),
      clipped to [0, 1]. */
  function Ratio(v: real, origin: real, extent: real): (r: real)
    requires extent >= 0.0
    ensures 0.0 <= r <= 1.0
    ensures v <= origin ==> r == 0.0
    ensures v >= origin + extent + Epsilon ==> r == 1.0
  {
    var e := extent + Epsilon;
    assert v <= origin ==> (v - origin) / e <= 0.0 by {
      if v <= origin { DivMonotone(v - origin, 0.0, e); }
    }
    assert v >= origin + e ==> (v - origin) / e >= 1.0 by {
      if v >= origin + e { DivMonotone(e, v - origin, e); }
    }
    Clip((v - origin) / e, 0.0, 1.0)
  }

  /** Horizontal and vertical position of the iris centre inside the eye.
      `eye` lists six eye-contour landmarks in the early tracker's order:
      one corner, two upper-lid points, the other corner, two lower-lid
      points (33 first and 133 fourth for one eye, 362 first and 263 fourth
      for the other). The horizontal origin is the first corner, the
      vertical origin the mean height of the two upper-lid points. */
  function IrisPosition(iris: seq<Point>, eye: seq<Point>, eyeWidth: real, eyeHeight: real): (r: (real, real))
    requires |iris| > 0 && |eye| == 6
    requires eyeWidth >= 0.0 && eyeHeight >= 0.0
    ensures 0.0 <= r.0 <= 1.0 && 0.0 <= r.1 <= 1.0
  {
    var c := Centre(iris);
    var top := (eye[1].y + eye[2].y) / 2.0;
    (Ratio(c.x, eye[0].x, eyeWidth), Ratio(c.y, top, eyeHeight))
  }

  /** An iris centre placed a share f in [0, 1] of the (padded) extent past
      the origin reads back as exactly f. */
  lemma RatioRecoversShare(origin: real, extent: real, f: real)
    requires extent >= 0.0 && 0.0 <= f <= 1.0
    ensures Ratio(origin + f * (extent + Epsilon), origin, extent) == f
  {
    var e := extent + Epsilon;
    assert (origin + f * e - origin) / e == f;
    assert Ratio(origin + f * e, origin, extent) == Clip(f, 0.0, 1.0);
  }

  /** Moving the iris further from the origin never decreases the ratio. */
  lemma RatioMonotone(v1: real, v2: real, origin: real, extent: real)
    requires extent >= 0.0 && v1 <= v2
    ensures Ratio(v1, origin, extent) <= Ratio(v2, origin, extent)
  {
    var e := extent + Epsilon;
    DivMonotone(v1 - origin, v2 - origin, e);
  }

  /** Eye aspect ratio: the two lid-to-lid distances over twice the
      corner-to-corner distance (plus Epsilon). */
  function EyeAspectRatio(v1: real, v2: real, h: real): (r: real)
    requires v1 >= 0.0 && v2 >= 0.0 && h >= 0.0
    ensures r >= 0.0
    ensures r == 0.0 <==> v1 + v2 == 0.0
  {
    (v1 + v2) / (2.0 * h + Epsilon)
  }

  /** A more closed eye (shorter lid distances, same width) has a smaller
      aspect ratio. */
  lemma EyeAspectRatioMonotone(v1: real, v2: real, w1: real, w2: real, h: real)
    requires 0.0 <= w1 <= v1 && 0.0 <= w2 <= v2 && h >= 0.0
    ensures EyeAspectRatio(w1, w2, h) <= EyeAspectRatio(v1, v2, h)
  {
    DivMonotone(w1 + w2, v1 + v2, 2.0 * h + Epsilon);
  }
}
