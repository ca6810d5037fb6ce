/** The raw-gaze overlay: a short trail of recent gaze pixels and the phase
    of the pulsing marker drawn at the newest one. Drawing is not modelled. */
module RawGaze {
  import opened Numeric
  import Windows

  const TrailLength: nat := 15
  const PulseSpeed: real := 0.1
  /** `2 * np.pi` as the double the source compares against. */
  const TwoPi: real := 6.283185307179586

  /** The phase after one update: one step on, back to 0 past a full turn. */
  function PhaseStep(p: real): (r: real)
    ensures 0.0 <= p ==> 0.0 <= r <= TwoPi
  {
    if p + PulseSpeed > TwoPi then 0.0 else p + PulseSpeed
  }

  /** The phase after n updates from 0. */
  function PhaseAfter(n: nat): real
  {
    if n == 0 then 0.0 else PhaseStep(PhaseAfter(n - 1))
  }

  /** Steps of 0.1 from 0 fit 62 times into a full turn, so the phase runs
      through 0, 0.1, ..., 6.2 and is back at 0 after every 63 updates. */
  lemma {:induction false} PhaseCycles(n: nat)
    ensures PhaseAfter(n) == (n % 63) as real * PulseSpeed
  {
    if n > 0 {
      PhaseCycles(n - 1);
      var k := (n - 1) % 63;
      if k < 62 {
        assert n % 63 == k + 1;
        assert (k + 1) as real * PulseSpeed <= 6.2;
      } else {
        assert n % 63 == 0;
      }
    }
  }

  class RawGazeOverlay {
    const screenWidth: int
    const screenHeight: int
    /** Recent gaze pixels, oldest first; the last one is the current gaze. */
    var gazeTrail: seq<(int, int)>
    var pulsePhase: real

    ghost predicate OnScreen(p: (int, int))
      reads this
    {
      0 <= p.0 && (screenWidth > 0 ==> p.0 < screenWidth) &&
      0 <= p.1 && (screenHeight > 0 ==> p.1 < screenHeight)
    }

    ghost predicate Valid()
      reads this
    {
      |gazeTrail| <= TrailLength && (forall p :: p in gazeTrail ==> OnScreen(p)) &&
      0.0 <= pulsePhase <= TwoPi
    }

    constructor(w: int, h: int)
      ensures screenWidth == w && screenHeight == h
      ensures gazeTrail == [] && pulsePhase == 0.0 && Valid()
    {
      screenWidth, screenHeight := w, h;
      gazeTrail := [];
      pulsePhase := 0.0;
    }

    /** Appends the gaze ratio's pixel to the trail (dropping the oldest of a
        full trail) and advances the pulse. */
    method Update(rawX: real, rawY: real)
      requires Valid()
      modifies this
      ensures Valid()
      ensures gazeTrail == Windows.Push(old(gazeTrail), (ClampedPixel(rawX, screenWidth), ClampedPixel(rawY, screenHeight)), TrailLength)
      ensures gazeTrail[|gazeTrail| - 1] == (ClampedPixel(rawX, screenWidth), ClampedPixel(rawY, screenHeight))
      ensures pulsePhase == PhaseStep(old(pulsePhase))
    {
      var x := ClampedPixel(rawX, screenWidth);
      var y := ClampedPixel(rawY, screenHeight);
      gazeTrail := Windows.Push(gazeTrail, (x, y), TrailLength);
      pulsePhase := pulsePhase + PulseSpeed;
      if pulsePhase > TwoPi {
        pulsePhase := 0.0;
      }
    }

    method Reset()
      modifies this
      ensures gazeTrail == [] && pulsePhase == 0.0 && Valid()
    {
      gazeTrail := [];
      pulsePhase := 0.0;
    }
  }
}
