/** `collections.deque(maxlen=cap).append(x)`: the tracker's fixed-capacity
    history buffers (smoothing windows, the gaze trail, diagnostic history). */
module Windows {

  /** Appending to a full window drops its oldest element first. */
  function Push<T>(w: seq<T>, x: T, cap: nat): (r: seq<T>)
    requires cap > 0
    requires |w| <= cap
    ensures |r| == if |w| < cap then |w| + 1 else cap
    ensures |r| <= cap
    ensures r[|r| - 1] == x
    ensures r[..|r| - 1] == (if |w| < cap then w else w[1..])
    ensures forall y :: y in r ==> y in w || y == x
  {
    if |w| < cap then w + [x] else w[1..] + [x]
  }

  /** What remains in the window is the most recent part of everything appended:
      the window is always a suffix of the full history. */
  lemma {:induction false} PushKeepsSuffix<T>(history: seq<T>, w: seq<T>, x: T, cap: nat)
    requires cap > 0 && |w| <= cap
    requires |w| <= |history| && w == history[|history| - |w|..]
    ensures var r := Push(w, x, cap);
      |r| <= |history| + 1 && r == (history + [x])[|history| + 1 - |r|..]
  {
    var h := history + [x];
    var r := Push(w, x, cap);
    if |w| < cap {
      assert r == w + [x];
    } else {
      assert r == w[1..] + [x];
    }
    assert forall i :: 0 <= i < |r| ==> r[i] == h[|h| - |r| + i];
  }
}
