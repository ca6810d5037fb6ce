/** The eye-movement range diagnostic: each face frame yields the average
    iris position of both eyes, the tool keeps the smallest and largest
    average seen on each axis and a short history of averages, grades each
    axis's span live, and at the end prints a report with a warning when the
    range is limited. Camera, face mesh and drawing are outside the model. */
module Diagnose {
  import opened Numeric
  import opened EyeGeometry
  import Windows

  /** The number of landmarks the refined face mesh delivers per face:
      indices 0 to 477. */
  const MeshSize: nat := 478
  const HistoryLength: nat := 100

  /** Eye-contour landmarks as the diagnostic declares them. Each list is
      one corner, the other corner, three upper-lid points and one lower-lid
      point (33 and 133 are the corners of one eye, 362 and 263 of the
      other), not the order IrisPosition reads. LeftEye is also the contour
      of the eye whose iris is landmarks 469-472, although the diagnostic
      pairs it with the 474-478 list. */
  const LeftEye: seq<nat> := [33, 133, 160, 159, 158, 144]
  const RightEye: seq<nat> := [362, 263, 387, 386, 385, 380]

  /** The iris index lists as the diagnostic declares them: five indices
      each, running one past the four iris-contour points. */
  const LeftIrisAsWritten: seq<nat> := [474, 475, 476, 477, 478]
  const RightIrisAsWritten: seq<nat> := [469, 470, 471, 472, 473]

  /** The four iris-contour points of each eye, as every tracker of the
      project lists them. */
  const LeftIris: seq<nat> := [474, 475, 476, 477]
  const RightIris: seq<nat> := [469, 470, 471, 472]

  predicate IndicesIn(idx: seq<nat>, n: nat)
  {
    forall i :: 0 <= i < |idx| ==> idx[i] < n
  }

  /** Index 478 lies past the last landmark of the mesh, so looking up the
      left iris as written fails on every face frame. */
  lemma LeftIrisAsWrittenOutOfMesh()
    ensures !IndicesIn(LeftIrisAsWritten, MeshSize)
    ensures LeftIrisAsWritten[4] == MeshSize
  {
  }

  /** Every index of the corrected lists names a landmark of the mesh. */
  lemma IndicesInMesh()
    ensures IndicesIn(LeftIris, MeshSize) && IndicesIn(RightIris, MeshSize)
    ensures IndicesIn(LeftEye, MeshSize) && IndicesIn(RightEye, MeshSize)
    ensures IndicesIn(RightIrisAsWritten, MeshSize)
  {
  }

  /** The landmarks at the given indices, in order. */
  function Pick(landmarks: seq<Point>, idx: seq<nat>): (r: seq<Point>)
    requires IndicesIn(idx, |landmarks|)
    ensures |r| == |idx| && forall i :: 0 <= i < |idx| ==> r[i] == landmarks[idx[i]]
  {
    if idx == [] then [] else [landmarks[idx[0]]] + Pick(landmarks, idx[1..])
  }

  /** The iris position inside one eye, from a whole face's landmarks,
      reading the eye list by position as IrisPosition does. With LeftEye
      or RightEye as declared, position 3 is an upper-lid point (159 or 386)
      taken as the far corner, and the "top" averages a corner with an
      upper-lid point; the function computes exactly that. `eyeWidth` and
      `eyeHeight` are the lengths the source measures between those
      points. */
  function EyeRelativePos(landmarks: seq<Point>, eyeIdx: seq<nat>, irisIdx: seq<nat>,
                          eyeWidth: real, eyeHeight: real): (r: (real, real))
    requires |eyeIdx| == 6 && |irisIdx| > 0
    requires IndicesIn(eyeIdx, |landmarks|) && IndicesIn(irisIdx, |landmarks|)
    requires eyeWidth >= 0.0 && eyeHeight >= 0.0
    ensures 0.0 <= r.0 <= 1.0 && 0.0 <= r.1 <= 1.0
    ensures r == IrisPosition(Pick(landmarks, irisIdx), Pick(landmarks, eyeIdx), eyeWidth, eyeHeight)
  {
    IrisPosition(Pick(landmarks, irisIdx), Pick(landmarks, eyeIdx), eyeWidth, eyeHeight)
  }

  /** The average of the two eyes' positions. */
  function Average(left: (real, real), right: (real, real)): (r: (real, real))
    ensures Min(left.0, right.0) <= r.0 <= Max(left.0, right.0)
    ensures Min(left.1, right.1) <= r.1 <= Max(left.1, right.1)
  {
    ((left.0 + right.0) / 2.0, (left.1 + right.1) / 2.0)
  }

  predicate InUnit(p: (real, real))
  {
    0.0 <= p.0 <= 1.0 && 0.0 <= p.1 <= 1.0
  }

  /** How wide a span of eye movement is graded, live and in the report. */
  datatype Grade = Good | Moderate | Poor

  /** A span above `good` is good, above `moderate` moderate, otherwise
      poor. */
  function Classify(span: real, good: real, moderate: real): (g: Grade)
    requires moderate < good
    ensures g == Good <==> span > good
    ensures g == Poor <==> span <= moderate
  {
    if span > good then Good else if span > moderate then Moderate else Poor
  }

  /** The horizontal thresholds. */
  const XGood: real := 0.5
  const XModerate: real := 0.3
  /** The vertical thresholds. */
  const YGood: real := 0.4
  const YModerate: real := 0.25

  function Rank(g: Grade): nat
  {
    match g
    case Poor => 0
    case Moderate => 1
    case Good => 2
  }

  /** A wider span never gets a worse grade. */
  lemma ClassifyMonotone(s1: real, s2: real, good: real, moderate: real)
    requires moderate < good && s1 <= s2
    ensures Rank(Classify(s1, good, moderate)) <= Rank(Classify(s2, good, moderate))
  {
  }

  /** The report's recommendation as written: it warns when a span is
      strictly below the axis's moderate threshold. */
  predicate WarnsAsWritten(xSpan: real, ySpan: real)
    ensures WarnsAsWritten(xSpan, ySpan) ==> Warns(xSpan, ySpan)
    ensures xSpan == XModerate && ySpan > YModerate ==> !WarnsAsWritten(xSpan, ySpan)
  {
    xSpan < XModerate || ySpan < YModerate
  }

  /** A span exactly at the moderate threshold is graded poor, yet the
      recommendation as written reports the detection as good. */
  lemma WarningMissesBoundary()
    ensures Classify(0.3, XGood, XModerate) == Poor && Classify(0.5, YGood, YModerate) == Good
    ensures !WarnsAsWritten(0.3, 0.5)
  {
  }

  /** The recommendation the report evidently intends: warn exactly when an
      axis was graded poor. */
  predicate Warns(xSpan: real, ySpan: real)
  {
    xSpan <= XModerate || ySpan <= YModerate
  }

  lemma WarnsExactlyWhenPoor(xSpan: real, ySpan: real)
    ensures Warns(xSpan, ySpan) <==> Classify(xSpan, XGood, XModerate) == Poor || Classify(ySpan, YGood, YModerate) == Poor
  {
  }

  /** The horizontal and vertical components of a run of averages. */
  function Horizontal(ps: seq<(real, real)>): (r: seq<real>)
    ensures |r| == |ps| && forall i :: 0 <= i < |ps| ==> r[i] == ps[i].0
  {
    seq(|ps|, i requires 0 <= i < |ps| => ps[i].0)
  }

  function Vertical(ps: seq<(real, real)>): (r: seq<real>)
    ensures |r| == |ps| && forall i :: 0 <= i < |ps| ==> r[i] == ps[i].1
  {
    seq(|ps|, i requires 0 <= i < |ps| => ps[i].1)
  }

  lemma ProjectionsAppend(ps: seq<(real, real)>, p: (real, real))
    ensures Horizontal(ps + [p]) == Horizontal(ps) + [p.0]
    ensures Vertical(ps + [p]) == Vertical(ps) + [p.1]
  {
    assert Horizontal(ps + [p]) == Horizontal(ps) + [p.0];
    assert Vertical(ps + [p]) == Vertical(ps) + [p.1];
  }

  /** The window holds the most recent values of the full run. */
  predicate Tracks(window: seq<real>, full: seq<real>)
  {
    |window| <= |full| && forall i :: 0 <= i < |window| ==> window[i] == full[|full| - |window| + i]
  }

  /** The bounds enclose every value of a run. */
  predicate Encloses(lo: real, hi: real, vs: seq<real>)
  {
    forall i :: 0 <= i < |vs| ==> lo <= vs[i] <= hi
  }

  /** Widening the bounds by a new value encloses the extended run. */
  lemma WidenEncloses(lo: real, hi: real, vs: seq<real>, v: real)
    requires Encloses(lo, hi, vs)
    ensures Encloses(Min(lo, v), Max(hi, v), vs + [v])
  {
  }

  /** Appending to a window keeps it tracking the extended run. */
  lemma PushTracks(window: seq<real>, full: seq<real>, v: real)
    requires |window| <= HistoryLength && Tracks(window, full)
    ensures Tracks(Windows.Push(window, v, HistoryLength), full + [v])
  {
    assert window == full[|full| - |window|..];
    Windows.PushKeepsSuffix(full, window, v, HistoryLength);
  }

  /** The diagnostic's state invariant over plain values: the bounds
      enclose every observed average, and the histories hold the most recent
      averages, equally many on both axes. */
  predicate Consistent(observed: seq<(real, real)>, historyX: seq<real>, historyY: seq<real>,
                       xMin: real, xMax: real, yMin: real, yMax: real)
  {
    |historyX| == |historyY| <= HistoryLength &&
    Tracks(historyX, Horizontal(observed)) && Tracks(historyY, Vertical(observed)) &&
    Encloses(xMin, xMax, Horizontal(observed)) && Encloses(yMin, yMax, Vertical(observed)) &&
    (observed != [] ==> xMin <= xMax && yMin <= yMax)
  }

  /** Observing one more average keeps the state consistent. */
  lemma ObserveKeepsConsistent(observed: seq<(real, real)>, historyX: seq<real>, historyY: seq<real>,
                               xMin: real, xMax: real, yMin: real, yMax: real, a: (real, real))
    requires Consistent(observed, historyX, historyY, xMin, xMax, yMin, yMax)
    ensures Consistent(observed + [a], Windows.Push(historyX, a.0, HistoryLength), Windows.Push(historyY, a.1, HistoryLength),
                       Min(xMin, a.0), Max(xMax, a.0), Min(yMin, a.1), Max(yMax, a.1))
  {
    ProjectionsAppend(observed, a);
    PushTracks(historyX, Horizontal(observed), a.0);
    PushTracks(historyY, Vertical(observed), a.1);
    WidenEncloses(xMin, xMax, Horizontal(observed), a.0);
    WidenEncloses(yMin, yMax, Vertical(observed), a.1);
  }

  /** Bounds inside the unit square stay inside it when widened by the
      average of two positions inside it. */
  lemma WidenInUnit(xMin: real, xMax: real, yMin: real, yMax: real, left: (real, real), right: (real, real))
    ensures var a := Average(left, right);
      InUnit(left) && InUnit(right) && InUnit((xMin, yMin)) && InUnit((xMax, yMax)) ==>
      InUnit((Min(xMin, a.0), Min(yMin, a.1))) && InUnit((Max(xMax, a.0), Max(yMax, a.1)))
  {
  }

  /** The final report: each axis's grade and whether it warns. */
  datatype Report = Report(x: Grade, y: Grade, warning: bool)

  class EyeMovementDiagnostic {
    var xMin: real
    var xMax: real
    var yMin: real
    var yMax: real
    var historyX: seq<real>
    var historyY: seq<real>
    /** Every average observed so far, oldest first. */
    ghost var observed: seq<(real, real)>

    ghost predicate Valid()
      reads this
    {
      Consistent(observed, historyX, historyY, xMin, xMax, yMin, yMax)
    }

    constructor()
      ensures Valid() && observed == [] && historyX == [] && historyY == []
      ensures xMin == 1.0 && xMax == 0.0 && yMin == 1.0 && yMax == 0.0
    {
      xMin, xMax, yMin, yMax := 1.0, 0.0, 1.0, 0.0;
      historyX, historyY := [], [];
      observed := [];
      assert Horizontal([]) == [] && Vertical([]) == [];
    }

    /** One frame with a face: the average of the two eyes' positions
        widens the bounds and joins both histories. */
    method Observe(left: (real, real), right: (real, real))
      requires Valid()
      modifies this
      ensures Valid()
      ensures var a := Average(left, right);
        observed == old(observed) + [a] &&
        xMin == Min(old(xMin), a.0) && xMax == Max(old(xMax), a.0) &&
        yMin == Min(old(yMin), a.1) && yMax == Max(old(yMax), a.1) &&
        historyX == Windows.Push(old(historyX), a.0, HistoryLength) &&
        historyY == Windows.Push(old(historyY), a.1, HistoryLength)
      ensures xMin <= old(xMin) && yMin <= old(yMin) && xMax >= old(xMax) && yMax >= old(yMax)
      ensures InUnit(left) && InUnit(right) && InUnit((old(xMin), old(yMin))) && InUnit((old(xMax), old(yMax))) ==>
        InUnit((xMin, yMin)) && InUnit((xMax, yMax))
    {
      var a := Average(left, right);
      ObserveKeepsConsistent(observed, historyX, historyY, xMin, xMax, yMin, yMax, a);
      WidenInUnit(xMin, xMax, yMin, yMax, left, right);
      xMin := Min(xMin, a.0);
      xMax := Max(xMax, a.0);
      yMin := Min(yMin, a.1);
      yMax := Max(yMax, a.1);
      historyX := Windows.Push(historyX, a.0, HistoryLength);
      historyY := Windows.Push(historyY, a.1, HistoryLength);
      observed := observed + [a];
    }

    /** The grades of the current spans, as the live display shows them. */
    function LiveGrades(): (g: (Grade, Grade))
      reads this
      ensures g.0 == Good <==> xMax - xMin > XGood
      ensures g.1 == Good <==> yMax - yMin > YGood
      ensures g.0 == Poor <==> xMax - xMin <= XModerate
      ensures g.1 == Poor <==> yMax - yMin <= YModerate
    {
      (Classify(xMax - xMin, XGood, XModerate), Classify(yMax - yMin, YGood, YModerate))
    }

    /** The final report. It grades each span as the live display does,
        and warns, as written, when a span is strictly below its moderate
        threshold; a span exactly at the threshold is graded poor without
        a warning (see WarningMissesBoundary and, for the corrected rule,
        Warns). */
    function FinalReport(): (r: Report)
      reads this
      ensures (r.x, r.y) == LiveGrades()
      ensures r.warning <==> xMax - xMin < XModerate || yMax - yMin < YModerate
      ensures r.warning ==> r.x == Poor || r.y == Poor
    {
      var xs, ys := xMax - xMin, yMax - yMin;
      WarnsExactlyWhenPoor(xs, ys);
      Report(Classify(xs, XGood, XModerate), Classify(ys, YGood, YModerate), WarnsAsWritten(xs, ys))
    }
  }
}
