/** Exact-arithmetic stand-ins for the Python and NumPy scalar helpers the
    tracker uses: `int()` on a float, `max(lo, min(hi, v))`, `np.clip` and
    `np.mean` over a non-empty list. */
module Numeric {

  datatype Option<T> = None | Some(value: T)

  /** Python's `int(x)` on a float: truncation toward zero. */
  function Trunc(x: real): (r: int)
    ensures 0.0 <= x ==> 0 <= r && r as real <= x && x < r as real + 1.0
    ensures x < 0.0 ==> r <= 0 && x <= r as real && r as real < x + 1.0
  {
    if x >= 0.0 then x.Floor else -((-x).Floor)
  }

  lemma TruncMonotone(a: real, b: real)
    requires a <= b
    ensures Trunc(a) <= Trunc(b)
  {
    if a >= 0.0 {
      assert a.Floor <= b.Floor;
    } else if b < 0.0 {
      assert (-b).Floor <= (-a).Floor;
    }
  }

  /** A share scaled by a whole dimension. */
  function Scale(f: real, d: int): real
  {
    f * d as real
  }

  lemma ScaleMonotone(a: real, b: real, d: int)
    requires a <= b && d >= 0
    ensures Scale(a, d) <= Scale(b, d)
  {
    MulNonneg(b - a, d as real);
    assert Scale(b, d) - Scale(a, d) == (b - a) * d as real;
  }

  /** Truncation moves a value by less than one unit. */
  lemma TruncClose(x: real)
    ensures x - 1.0 < Trunc(x) as real < x + 1.0
  {
  }

  /** `int()` of a value that is already whole changes nothing. */
  lemma TruncOfInt(n: int)
    ensures Trunc(n as real) == n
  {
  }

  /** `max(lo, min(hi, v))` on integers, as the tracker writes its screen clamps. */
  function ClampInt(v: int, lo: int, hi: int): (r: int)
    ensures lo <= hi ==> lo <= r <= hi
    ensures lo <= v <= hi ==> r == v
    ensures lo <= r
  {
    if v > hi then (if hi > lo then hi else lo) else if v < lo then lo else v
  }

  /** A ratio as an on-screen pixel: `max(0, min(dim - 1, int(ratio * dim)))`. */
  function ClampedPixel(ratio: real, dim: int): (r: int)
    ensures 0 <= r && (dim > 0 ==> r < dim)
    ensures dim > 0 && 0.0 <= ratio < 1.0 ==> r == Trunc(ratio * dim as real)
  {
    var t := Trunc(ratio * dim as real);
    assert dim > 0 && 0.0 <= ratio < 1.0 ==> 0.0 <= ratio * dim as real < dim as real by {
      if dim > 0 && 0.0 <= ratio < 1.0 {
        MulNonneg(ratio, dim as real);
        assert dim as real - ratio * dim as real == (1.0 - ratio) * dim as real > 0.0;
      }
    }
    ClampInt(t, 0, dim - 1)
  }

  /** A normalised point as a screen pixel, `int(p * dim)` on each axis,
      with no clamp. */
  function TargetPixel(p: (real, real), w: int, h: int): (r: (int, int))
    ensures 0.0 <= p.0 && w >= 0 ==> 0 <= r.0 && r.0 as real <= p.0 * w as real
    ensures 0.0 <= p.1 && h >= 0 ==> 0 <= r.1 && r.1 as real <= p.1 * h as real
  {
    assert 0.0 <= p.0 && w >= 0 ==> p.0 * w as real >= 0.0 by {
      if 0.0 <= p.0 && w >= 0 { MulNonneg(p.0, w as real); }
    }
    assert 0.0 <= p.1 && h >= 0 ==> p.1 * h as real >= 0.0 by {
      if 0.0 <= p.1 && h >= 0 { MulNonneg(p.1, h as real); }
    }
    (Trunc(p.0 * w as real), Trunc(p.1 * h as real))
  }

  /** `key & 0xFF`: the low byte of the value `cv2.waitKey` returns (-1,
      when no key was pressed, becomes 255). */
  function KeyCode(key: int): (r: int)
    ensures 0 <= r < 256
    ensures 0 <= key < 256 ==> r == key
    ensures key == -1 ==> r == 255
  {
    key % 256
  }

  /** `np.clip(v, lo, hi)` (and `max(lo, min(hi, v))`) on reals, for lo <= hi. */
  function Clip(v: real, lo: real, hi: real): (r: real)
    requires lo <= hi
    ensures lo <= r <= hi
    ensures lo <= v <= hi ==> r == v
    ensures v < lo ==> r == lo
    ensures hi < v ==> r == hi
  {
    if v < lo then lo else if v > hi then hi else v
  }

  function Sum(s: seq<real>): real
  {
    if |s| == 0 then 0.0 else Sum(s[..|s| - 1]) + s[|s| - 1]
  }

  /** `np.mean` over a non-empty list. */
  function Mean(s: seq<real>): real
    requires |s| > 0
  {
    Sum(s) / |s| as real
  }

  lemma {:induction false} SumBounds(s: seq<real>, lo: real, hi: real)
    requires forall i :: 0 <= i < |s| ==> lo <= s[i] <= hi
    ensures lo * |s| as real <= Sum(s) <= hi * |s| as real
  {
    if |s| > 0 {
      SumBounds(s[..|s| - 1], lo, hi);
      assert lo * |s| as real == lo * (|s| - 1) as real + lo;
      assert hi * |s| as real == hi * (|s| - 1) as real + hi;
    }
  }

  /** The mean of values in [lo, hi] is in [lo, hi]. */
  lemma MeanBounds(s: seq<real>, lo: real, hi: real)
    requires |s| > 0
    requires forall i :: 0 <= i < |s| ==> lo <= s[i] <= hi
    ensures lo <= Mean(s) <= hi
  {
    SumBounds(s, lo, hi);
    var n := |s| as real;
    DivBounds(Sum(s), n, lo, hi);
  }

  lemma DivBounds(total: real, n: real, lo: real, hi: real)
    requires n > 0.0
    requires lo * n <= total <= hi * n
    ensures lo <= total / n <= hi
  {
    var m := total / n;
    assert m * n == total;
    assert (m - lo) * n >= 0.0;
    assert (hi - m) * n >= 0.0;
  }

  /** The mean of a list of equal values is that value. */
  lemma MeanConstant(s: seq<real>, c: real)
    requires |s| > 0
    requires forall i :: 0 <= i < |s| ==> s[i] == c
    ensures Mean(s) == c
  {
    MeanBounds(s, c, c);
  }

  function Abs(v: real): real { if v < 0.0 then -v else v }

  lemma MulNonneg(a: real, b: real)
    requires a >= 0.0 && b >= 0.0
    ensures a * b >= 0.0
  {
  }

  lemma SquareNonneg(v: real)
    ensures v * v >= 0.0
  {
    if v < 0.0 {
      MulNonneg(-v, -v);
    } else {
      MulNonneg(v, v);
    }
  }

  lemma DivMonotone(a: real, b: real, e: real)
    requires e > 0.0 && a <= b
    ensures a / e <= b / e
  {
    assert b / e - a / e == (b - a) / e;
  }

  function Min(a: real, b: real): real { if a <= b then a else b }
  function Max(a: real, b: real): real { if a >= b then a else b }
}
