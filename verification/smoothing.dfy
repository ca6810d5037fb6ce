/** The moving-average smoother shared by two generations of the tracker:
    an outlier clamp toward the last stable value, a fixed-capacity window of
    recent values, and an exponential blend of the window mean with the last
    stable value. The two copies differ only in their constants. */
module Smoothing {
  import opened Numeric
  import Windows

  /** window: deque capacity; maxDelta: outlier threshold in pixels;
      keepLast: share of the last stable value in an outlier's replacement;
      alpha: share of the window mean in the output. */
  datatype Params = Params(window: nat, maxDelta: real, keepLast: real, alpha: real)
  {
    ghost predicate Valid() {
      window > 0 && 0.0 < keepLast <= 1.0 && 0.0 <= alpha <= 1.0 && maxDelta >= 0.0 && keepLast * maxDelta >= 1.0
    }
  }

  /** calibration_15point.py: window 7, threshold 200, 50/50 replacement, 0.5 blend. */
  const CoreParams := Params(7, 200.0, 0.5, 0.5)
  /** main.py: window 15, threshold 300, 70/30 replacement, 0.3 blend. */
  const EarlyParams := Params(15, 300.0, 0.7, 0.3)

  /** xs, ys: the two deques; last: last_valid_x/y, None after a reset. */
  datatype State = State(xs: seq<real>, ys: seq<real>, last: Option<(real, real)>)

  ghost predicate WellFormed(p: Params, s: State) {
    |s.xs| == |s.ys| <= p.window
  }

  const Reset := State([], [], None)

  /** A jump of more than `maxDelta` on either axis from the last stable
      point. */
  predicate IsOutlier(p: Params, lastX: real, lastY: real, x: real, y: real)
    ensures !IsOutlier(p, lastX, lastY, x, y) ==>
      lastX - p.maxDelta <= x <= lastX + p.maxDelta && lastY - p.maxDelta <= y <= lastY + p.maxDelta
    ensures p.maxDelta >= 0.0 && x == lastX && y == lastY ==> !IsOutlier(p, lastX, lastY, x, y)
  {
    Abs(x - lastX) > p.maxDelta || Abs(y - lastY) > p.maxDelta
  }

  /** The value pushed onto one axis's window: the input, or an outlier's
      replacement truncated toward zero. */
  function Admitted(p: Params, outlier: bool, last: real, v: real): (a: real)
    ensures !outlier ==> a == v
    ensures outlier ==> a == Trunc(a) as real
    ensures outlier && 0.0 <= p.keepLast <= 1.0 ==> Min(last, v) - 1.0 < a < Max(last, v) + 1.0
  {
    if outlier then
      var t := Trunc(Replacement(p.keepLast, last, v));
      TruncOfInt(t);
      t as real
    else v
  }

  /** The point a share k of the way back from v to last. */
  function Replacement(k: real, last: real, v: real): (r: real)
    ensures r - last == (1.0 - k) * (v - last)
    ensures 0.0 <= k <= 1.0 ==> Min(last, v) <= r <= Max(last, v)
    ensures k == 1.0 ==> r == last
    ensures k == 0.0 ==> r == v
  {
    var r := last * k + v * (1.0 - k);
    assert r - last == (1.0 - k) * (v - last);
    assert v - r == k * (v - last);
    assert 0.0 <= k <= 1.0 ==> Min(last, v) <= r <= Max(last, v) by {
      if 0.0 <= k <= 1.0 {
        if v >= last {
          MulNonneg(1.0 - k, v - last);
          MulNonneg(k, v - last);
        } else {
          MulNonneg(1.0 - k, last - v);
          MulNonneg(k, last - v);
        }
      }
    }
    r
  }

  /** One axis's output: `int(mean * alpha + (1 - alpha) * last)`. */
  function Blend(p: Params, window: seq<real>, last: real): (b: int)
    requires |window| > 0
    ensures 0.0 <= p.alpha <= 1.0 ==> Min(Mean(window), last) - 1.0 < b as real < Max(Mean(window), last) + 1.0
    ensures p.alpha == 0.0 ==> b == Trunc(last)
  {
    Trunc(Mix(p.alpha, Mean(window), last))
  }

  /** A share alpha of m and the rest of last. */
  function Mix(alpha: real, m: real, last: real): (r: real)
    ensures r - last == alpha * (m - last)
    ensures 0.0 <= alpha <= 1.0 ==> Min(m, last) <= r <= Max(m, last)
  {
    var r := m * alpha + (1.0 - alpha) * last;
    assert r - last == alpha * (m - last);
    assert m - r == (1.0 - alpha) * (m - last);
    assert 0.0 <= alpha <= 1.0 ==> Min(m, last) <= r <= Max(m, last) by {
      if 0.0 <= alpha <= 1.0 {
        if m >= last {
          MulNonneg(alpha, m - last);
          MulNonneg(1.0 - alpha, m - last);
        } else {
          MulNonneg(alpha, last - m);
          MulNonneg(1.0 - alpha, last - m);
        }
      }
    }
    r
  }

  /** One call of the smoother: the new state and the smoothed point. */
  function Step(p: Params, s: State, x: real, y: real): (r: (State, (int, int)))
    requires p.window > 0 && WellFormed(p, s)
    ensures WellFormed(p, r.0)
    ensures 0 < |r.0.xs| <= p.window
    ensures r.0.last == Some((r.1.0 as real, r.1.1 as real))
    ensures var (lx, ly) := if s.last.None? then (x, y) else s.last.value;
            var o := IsOutlier(p, lx, ly, x, y);
            r.0.xs[|r.0.xs| - 1] == Admitted(p, o, lx, x) &&
            r.0.ys[|r.0.ys| - 1] == Admitted(p, o, ly, y) &&
            r.1 == (Blend(p, r.0.xs, lx), Blend(p, r.0.ys, ly))
  {
    var (lx, ly, xs0, ys0) := if s.last.None? then (x, y, [], []) else (s.last.value.0, s.last.value.1, s.xs, s.ys);
    var o := IsOutlier(p, lx, ly, x, y);
    var xs := Windows.Push(xs0, Admitted(p, o, lx, x), p.window);
    var ys := Windows.Push(ys0, Admitted(p, o, ly, y), p.window);
    var out := (Blend(p, xs, lx), Blend(p, ys, ly));
    (State(xs, ys, Some((out.0 as real, out.1 as real))), out)
  }

  /** After a reset the first value is taken as the last stable value, so it
      is never treated as an outlier and the output is its truncation. */
  lemma FirstAfterReset(p: Params, x: real, y: real)
    requires p.Valid()
    ensures Step(p, Reset, x, y).1 == (Trunc(x), Trunc(y))
  {
    BlendOfConstant(p, [x], x);
    BlendOfConstant(p, [y], y);
  }

  /** A window and last value that all agree blend to that value's truncation. */
  lemma BlendOfConstant(p: Params, w: seq<real>, c: real)
    requires |w| > 0 && forall i :: 0 <= i < |w| ==> w[i] == c
    ensures Blend(p, w, c) == Trunc(c)
  {
    MeanConstant(w, c);
    assert Mix(p.alpha, Mean(w), c) == c;
  }

  /** An outlier's replacement moves less than the raw jump did. */
  lemma OutlierDampened(p: Params, last: real, v: real)
    requires p.Valid()
    requires Abs(v - last) > p.maxDelta
    ensures Abs(Admitted(p, true, last, v) - last) < Abs(v - last)
  {
    var m := Replacement(p.keepLast, last, v);
    TruncClose(m);
    JumpShrinks(p.keepLast, p.maxDelta, last, v, m, Trunc(m) as real);
  }

  /** Arithmetic core of OutlierDampened: a point a share (1 - k) of the way
      from last to v, rounded by less than one, stays strictly closer to last
      than v when k times the jump is at least one. */
  lemma JumpShrinks(k: real, d: real, last: real, v: real, m: real, t: real)
    requires 0.0 < k <= 1.0 && d >= 0.0 && k * d >= 1.0
    requires Abs(v - last) > d
    requires m == Replacement(k, last, v)
    requires m - 1.0 < t < m + 1.0
    ensures Abs(t - last) < Abs(v - last)
  {
    var j := Abs(v - last);
    MulNonneg(1.0 - k, d);
    assert d >= 1.0 && j > 1.0;
    assert k * j >= 1.0 by {
      MulNonneg(k, j - d);
      assert k * (j - d) == k * j - k * d;
    }
    MulNonneg(1.0 - k, j);
    var g := (1.0 - k) * j;
    assert g == j - k * j;
    assert 0.0 <= g <= j - 1.0;
    if v >= last {
      assert m - last == (1.0 - k) * (v - last) == g;
      assert -1.0 < t - last < j;
    } else {
      assert m - last == (1.0 - k) * (v - last) == -g;
      assert -j < t - last < 1.0;
    }
  }

  /** The smoothed output stays within one pixel of the range spanned by the
      window (after the push) and the last stable value. */
  lemma {:induction false} BlendBetween(p: Params, window: seq<real>, last: real, lo: real, hi: real)
    requires 0.0 <= p.alpha <= 1.0 && |window| > 0
    requires forall i :: 0 <= i < |window| ==> lo <= window[i] <= hi
    requires lo <= last <= hi
    ensures lo - 1.0 < Blend(p, window, last) as real < hi + 1.0
  {
    MeanBounds(window, lo, hi);
    var m := Mean(window);
    var v := Mix(p.alpha, m, last);
    assert lo <= v <= hi by {
      MulNonneg(m - lo, p.alpha);
      MulNonneg(1.0 - p.alpha, last - lo);
      MulNonneg(hi - m, p.alpha);
      MulNonneg(1.0 - p.alpha, hi - last);
      assert v - lo == (m - lo) * p.alpha + (1.0 - p.alpha) * (last - lo);
      assert hi - v == (hi - m) * p.alpha + (1.0 - p.alpha) * (hi - last);
    }
    TruncClose(v);
  }

  /** A whole-pixel input held constant from a reset is reproduced exactly on
      every frame: the first frame outputs it, and from then on the window and
      the last stable value all hold it. */
  lemma {:induction false} ConstantInputIsStable(p: Params, s: State, c: int, d: int)
    requires p.Valid() && WellFormed(p, s)
    requires s == Reset || (s.last == Some((c as real, d as real)) &&
      (forall i :: 0 <= i < |s.xs| ==> s.xs[i] == c as real) &&
      (forall i :: 0 <= i < |s.ys| ==> s.ys[i] == d as real))
    ensures var r := Step(p, s, c as real, d as real);
      r.1 == (c, d) && r.0.last == Some((c as real, d as real)) &&
      (forall i :: 0 <= i < |r.0.xs| ==> r.0.xs[i] == c as real) &&
      (forall i :: 0 <= i < |r.0.ys| ==> r.0.ys[i] == d as real)
  {
    var (cx, dy) := (c as real, d as real);
    assert !IsOutlier(p, cx, dy, cx, dy);
    var (xs0, ys0) := if s.last.None? then ([], []) else (s.xs, s.ys);
    var xs := Windows.Push(xs0, cx, p.window);
    var ys := Windows.Push(ys0, dy, p.window);
    TruncOfInt(c);
    TruncOfInt(d);
    BlendOfConstant(p, xs, cx);
    BlendOfConstant(p, ys, dy);
    assert Step(p, s, cx, dy) == (State(xs, ys, Some((cx, dy))), (c, d));
  }
}
