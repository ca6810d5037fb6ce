/** The first, minimal tracker: the gaze is the mean iris position scaled
    to [0, 1], calibration records the gaze at five fixed targets, and a
    prediction is the screen position of the nearest recorded gaze. */
module SimpleTracker {
  import opened Numeric

  /** The four iris landmarks of each eye, as indices into the face mesh. */
  const IrisIndices: seq<nat> := [474, 475, 476, 477, 469, 470, 471, 472]
  /** The camera frame size the landmark positions are scaled to. */
  const FrameWidth: real := 640.0
  const FrameHeight: real := 480.0
  const KeyEsc: int := 27
  const KeySpace: int := 32

  /** The calibration targets as shares of the screen: the four corners,
      then the centre. */
  const Targets: seq<(real, real)> := [(0.1, 0.1), (0.9, 0.1), (0.1, 0.9), (0.9, 0.9), (0.5, 0.5)]

  function IrisXs(landmarks: seq<(real, real)>): (r: seq<real>)
    requires |landmarks| > 477
    ensures |r| == |IrisIndices| && forall i :: 0 <= i < |r| ==> r[i] == landmarks[IrisIndices[i]].0
  {
    seq(|IrisIndices|, i requires 0 <= i < |IrisIndices| => landmarks[IrisIndices[i]].0)
  }

  function IrisYs(landmarks: seq<(real, real)>): (r: seq<real>)
    requires |landmarks| > 477
    ensures |r| == |IrisIndices| && forall i :: 0 <= i < |r| ==> r[i] == landmarks[IrisIndices[i]].1
  {
    seq(|IrisIndices|, i requires 0 <= i < |IrisIndices| => landmarks[IrisIndices[i]].1)
  }

  /** A landmark inside the camera frame, in pixels. */
  predicate InFrame(p: (real, real))
  {
    0.0 <= p.0 <= FrameWidth && 0.0 <= p.1 <= FrameHeight
  }

  /** The mean of the eight iris landmarks, as shares of the frame size.
      Landmarks inside the frame give a position in the unit square. */
  function GetEyePos(landmarks: seq<(real, real)>): (r: (real, real))
    requires |landmarks| > 477
    ensures r.0 * FrameWidth == Mean(IrisXs(landmarks)) && r.1 * FrameHeight == Mean(IrisYs(landmarks))
    ensures (forall i :: 0 <= i < |IrisIndices| ==> InFrame(landmarks[IrisIndices[i]])) ==>
              0.0 <= r.0 <= 1.0 && 0.0 <= r.1 <= 1.0
  {
    var xs, ys := IrisXs(landmarks), IrisYs(landmarks);
    assert (forall i :: 0 <= i < |IrisIndices| ==> InFrame(landmarks[IrisIndices[i]])) ==>
             0.0 <= Mean(xs) <= FrameWidth && 0.0 <= Mean(ys) <= FrameHeight by {
      if forall i :: 0 <= i < |IrisIndices| ==> InFrame(landmarks[IrisIndices[i]]) {
        MeanBounds(xs, 0.0, FrameWidth);
        MeanBounds(ys, 0.0, FrameHeight);
      }
    }
    (Mean(xs) / FrameWidth, Mean(ys) / FrameHeight)
  }

  /** One calibration record: the gaze seen and the target's screen pixel. */
  datatype Entry = Entry(ex: real, ey: real, sx: int, sy: int)

  /** The squared eye-space distance from a query to a record. The source
      ranks records by its square root, which is strictly increasing and so
      ranks them the same way. */
  function Dist2(e: Entry, ex: real, ey: real): (r: real)
    ensures r >= 0.0
    ensures e.ex == ex && e.ey == ey ==> r == 0.0
  {
    SquareNonneg(ex - e.ex);
    SquareNonneg(ey - e.ey);
    (ex - e.ex) * (ex - e.ex) + (ey - e.ey) * (ey - e.ey)
  }

  /** Record `i` is a nearest one, and the earliest of the nearest. */
  predicate FirstNearest(cal: seq<Entry>, ex: real, ey: real, i: int)
  {
    0 <= i < |cal| &&
    (forall j :: 0 <= j < |cal| ==> Dist2(cal[i], ex, ey) <= Dist2(cal[j], ex, ey)) &&
    (forall j :: 0 <= j < i ==> Dist2(cal[j], ex, ey) > Dist2(cal[i], ex, ey))
  }

  /** `np.argmin` over the distances: the index of the first minimum. */
  function Nearest(cal: seq<Entry>, ex: real, ey: real): (i: nat)
    requires |cal| > 0
    ensures FirstNearest(cal, ex, ey, i)
  {
    if |cal| == 1 then 0
    else
      var k := Nearest(cal[..|cal| - 1], ex, ey);
      assert forall j :: 0 <= j < |cal| - 1 ==> cal[..|cal| - 1][j] == cal[j];
      if Dist2(cal[|cal| - 1], ex, ey) < Dist2(cal[k], ex, ey) then |cal| - 1 else k
  }

  /** The screen pixel of the nearest record, or None without records. */
  function Predict(cal: seq<Entry>, ex: real, ey: real): (r: Option<(int, int)>)
    ensures r.None? <==> cal == []
    ensures r.Some? ==> exists i :: FirstNearest(cal, ex, ey, i) && r.value == (cal[i].sx, cal[i].sy)
  {
    if cal == [] then None
    else
      var e := cal[Nearest(cal, ex, ey)];
      Some((e.sx, e.sy))
  }

  /** Querying exactly a recorded gaze selects a record at distance zero,
      one no later than the queried record. */
  lemma ExactQueryHitsRecord(cal: seq<Entry>, k: int)
    requires 0 <= k < |cal|
    ensures var i := Nearest(cal, cal[k].ex, cal[k].ey);
      i <= k && Dist2(cal[i], cal[k].ex, cal[k].ey) == 0.0 &&
      Predict(cal, cal[k].ex, cal[k].ey) == Some((cal[i].sx, cal[i].sy))
  {
    assert Dist2(cal[k], cal[k].ex, cal[k].ey) == 0.0;
  }

  /** The cursor moves only when both coordinates are truthy: present and
      non-zero. */
  predicate ShouldMove(c: Option<(int, int)>)
    ensures ShouldMove(c) ==> c.Some?
    ensures c.Some? && (c.value.0 == 0 || c.value.1 == 0) ==> !ShouldMove(c)
  {
    c.Some? && c.value.0 != 0 && c.value.1 != 0
  }

  /** One pass of the calibration loop: a failed camera read, or a frame
      with the gaze (None when no face was found) and the value `cv2.waitKey`
      returned. */
  datatype CalEvent = ReadFailed | Frame(eye: Option<(real, real)>, key: int)

  /** Collecting: still waiting for a target; Completed: all five recorded;
      Aborted: ESC was pressed. */
  datatype Outcome = Collecting | Completed | Aborted

  /** The records so far (one per confirmed target, in target order) and
      how the calibration stands. */
  datatype CalState = CalState(entries: seq<Entry>, outcome: Outcome)

  /** A state the loop can be in: at most five records, each at its
      target's pixel, and Completed exactly when all five are in. */
  predicate Consistent(st: CalState, w: int, h: int)
    requires w >= 0 && h >= 0
  {
    |st.entries| <= |Targets| &&
    (st.outcome == Completed <==> |st.entries| == |Targets|) &&
    forall i :: 0 <= i < |st.entries| ==> (st.entries[i].sx, st.entries[i].sy) == TargetPixel(Targets[i], w, h)
  }

  /** The effect of one loop pass: SPACE with a face records the current
      target, ESC aborts; a finished calibration ignores further passes. */
  function Step(st: CalState, ev: CalEvent, w: int, h: int): (r: CalState)
    requires w >= 0 && h >= 0 && Consistent(st, w, h)
    ensures Consistent(r, w, h)
    ensures st.outcome != Collecting ==> r == st
    ensures |st.entries| <= |r.entries| <= |st.entries| + 1 && r.entries[..|st.entries|] == st.entries
    ensures r.outcome == Aborted ==> st.outcome == Aborted || (ev.Frame? && KeyCode(ev.key) == KeyEsc)
  {
    if st.outcome != Collecting || ev.ReadFailed? then st
    else if KeyCode(ev.key) == KeySpace && ev.eye.Some? then
      var p := TargetPixel(Targets[|st.entries|], w, h);
      var entries := st.entries + [Entry(ev.eye.value.0, ev.eye.value.1, p.0, p.1)];
      assert entries[..|st.entries|] == st.entries;
      CalState(entries, if |entries| == |Targets| then Completed else Collecting)
    else if KeyCode(ev.key) == KeyEsc then CalState(st.entries, Aborted)
    else st
  }

  /** The state after a run of loop passes. */
  function Run(st: CalState, evs: seq<CalEvent>, w: int, h: int): (r: CalState)
    requires w >= 0 && h >= 0 && Consistent(st, w, h)
    ensures Consistent(r, w, h)
    decreases |evs|
  {
    if evs == [] then st else Run(Step(st, evs[0], w, h), evs[1..], w, h)
  }

  const Start: CalState := CalState([], Collecting)

  /** A finished calibration stays as it is. */
  lemma {:induction false} RunFinished(st: CalState, evs: seq<CalEvent>, w: int, h: int)
    requires w >= 0 && h >= 0 && Consistent(st, w, h) && st.outcome != Collecting
    ensures Run(st, evs, w, h) == st
    decreases |evs|
  {
    if evs != [] {
      RunFinished(Step(st, evs[0], w, h), evs[1..], w, h);
    }
  }

  /** A run only ever appends records, and aborts only on an ESC. */
  lemma {:induction false} RunExtends(st: CalState, evs: seq<CalEvent>, w: int, h: int)
    requires w >= 0 && h >= 0 && Consistent(st, w, h) && st.outcome == Collecting
    ensures var r := Run(st, evs, w, h);
      |st.entries| <= |r.entries| && r.entries[..|st.entries|] == st.entries &&
      (r.outcome == Aborted ==> exists i :: 0 <= i < |evs| && evs[i].Frame? && KeyCode(evs[i].key) == KeyEsc)
    decreases |evs|
  {
    if evs != [] {
      var s1 := Step(st, evs[0], w, h);
      if s1.outcome == Collecting {
        RunExtends(s1, evs[1..], w, h);
        var r := Run(s1, evs[1..], w, h);
        assert r.entries[..|st.entries|] == r.entries[..|s1.entries|][..|st.entries|];
        if r.outcome == Aborted {
          var i :| 0 <= i < |evs[1..]| && evs[1..][i].Frame? && KeyCode(evs[1..][i].key) == KeyEsc;
          assert evs[i + 1] == evs[1..][i];
        }
      } else {
        RunFinished(s1, evs[1..], w, h);
      }
    }
  }

  /** An aborted calibration keeps the records made before ESC, fewer than
      five of them. */
  lemma AbortedIsPartial(evs: seq<CalEvent>, w: int, h: int)
    requires w >= 0 && h >= 0
    requires Run(Start, evs, w, h).outcome == Aborted
    ensures |Run(Start, evs, w, h).entries| < |Targets|
  {
  }

  /** On screens of at least ten pixels every target's pixel is non-zero
      on both axes, so every prediction from a complete calibration moves
      the cursor. */
  lemma CalibratedPredictionsMove(evs: seq<CalEvent>, w: int, h: int, ex: real, ey: real)
    requires w >= 10 && h >= 10
    requires Run(Start, evs, w, h).outcome == Completed
    ensures ShouldMove(Predict(Run(Start, evs, w, h).entries, ex, ey))
  {
    var st := Run(Start, evs, w, h);
    var cal := st.entries;
    assert Consistent(st, w, h);
    var i := Nearest(cal, ex, ey);
    assert (cal[i].sx, cal[i].sy) == TargetPixel(Targets[i], w, h);
    TargetsAwayFromOrigin(i);
    TargetPixelNonzero(Targets[i], w, h);
  }

  /** Every target lies at least a tenth of the screen from the top-left. */
  lemma TargetsAwayFromOrigin(i: int)
    requires 0 <= i < |Targets|
    ensures Targets[i].0 >= 0.1 && Targets[i].1 >= 0.1
  {
  }

  lemma TargetPixelNonzero(p: (real, real), w: int, h: int)
    requires p.0 >= 0.1 && p.1 >= 0.1 && w >= 10 && h >= 10
    ensures TargetPixel(p, w, h).0 != 0 && TargetPixel(p, w, h).1 != 0
  {
    assert p.0 * w as real >= 1.0 by { MulNonneg(p.0 - 0.1, w as real); MulNonneg(0.1, w as real - 10.0); }
    assert p.1 * h as real >= 1.0 by { MulNonneg(p.1 - 0.1, h as real); MulNonneg(0.1, h as real - 10.0); }
    TruncMonotone(1.0, p.0 * w as real);
    TruncMonotone(1.0, p.1 * h as real);
    TruncOfInt(1);
  }

  class EyeTracker {
    const screenW: int
    const screenH: int
    var calData: seq<Entry>

    constructor(w: int, h: int)
      ensures screenW == w && screenH == h && calData == []
    {
      screenW, screenH := w, h;
      calData := [];
    }

    /** Runs the calibration loop over the camera's passes. It starts from
        no records; ESC returns Aborted with the records made so far, the
        fifth SPACE returns Completed; if the passes run out first the
        outcome is still Collecting. */
    method Calibrate(events: seq<CalEvent>) returns (outcome: Outcome)
      requires screenW >= 0 && screenH >= 0
      modifies this
      ensures calData == Run(Start, events, screenW, screenH).entries
      ensures outcome == Run(Start, events, screenW, screenH).outcome
    {
      calData := [];
      outcome := Collecting;
      var k := 0;
      while k < |events|
        invariant 0 <= k <= |events| && Consistent(CalState(calData, outcome), screenW, screenH)
        invariant outcome == Collecting
        invariant Run(Start, events, screenW, screenH) == Run(CalState(calData, outcome), events[k..], screenW, screenH)
      {
        assert events[k..][1..] == events[k + 1..];
        var ev := events[k];
        k := k + 1;
        if ev.ReadFailed? {
          continue;
        }
        var key := KeyCode(ev.key);
        if key == KeySpace && ev.eye.Some? {
          var p := TargetPixel(Targets[|calData|], screenW, screenH);
          calData := calData + [Entry(ev.eye.value.0, ev.eye.value.1, p.0, p.1)];
          if |calData| == |Targets| {
            outcome := Completed;
            RunFinished(CalState(calData, outcome), events[k..], screenW, screenH);
            return;
          }
        } else if key == KeyEsc {
          outcome := Aborted;
          RunFinished(CalState(calData, outcome), events[k..], screenW, screenH);
          return;
        }
      }
    }
  }
}
