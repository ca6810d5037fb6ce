/** One frame's landmark-derived inputs and their per-channel average, as both
    calibration systems reduce a run of frames at one target. */
module Readings {
  import opened Numeric

  /** (horizontal, vertical) ratio of each eye and the nose tip position. */
  datatype Reading = Reading(left: (real, real), right: (real, real), nose: (real, real))

  /** One of the six raw channels, numbered left x, left y, right x, right y,
      nose x, nose y. */
  function Component(r: Reading, c: nat): real
    requires c < 6
  {
    match c
    case 0 => r.left.0
    case 1 => r.left.1
    case 2 => r.right.0
    case 3 => r.right.1
    case 4 => r.nose.0
    case _ => r.nose.1
  }

  function Channel(rs: seq<Reading>, c: nat): (r: seq<real>)
    requires c < 6
    ensures |r| == |rs| && forall i :: 0 <= i < |rs| ==> r[i] == Component(rs[i], c)
  {
    seq(|rs|, i requires 0 <= i < |rs| => Component(rs[i], c))
  }

  /** The per-channel arithmetic mean of a non-empty run of frames. */
  function MeanReading(rs: seq<Reading>): (r: Reading)
    requires |rs| > 0
    ensures forall c :: 0 <= c < 6 ==> Component(r, c) == Mean(Channel(rs, c))
  {
    Reading((Mean(Channel(rs, 0)), Mean(Channel(rs, 1))),
            (Mean(Channel(rs, 2)), Mean(Channel(rs, 3))),
            (Mean(Channel(rs, 4)), Mean(Channel(rs, 5))))
  }

  /** Averaging never leaves the range the frames spanned on a channel. */
  lemma MeanReadingBounds(rs: seq<Reading>, c: nat, lo: real, hi: real)
    requires |rs| > 0 && c < 6
    requires forall i :: 0 <= i < |rs| ==> lo <= Component(rs[i], c) <= hi
    ensures lo <= Component(MeanReading(rs), c) <= hi
  {
    MeanBounds(Channel(rs, c), lo, hi);
  }

  /** A steady gaze (every frame the same reading) averages to that reading. */
  lemma MeanReadingSteady(rs: seq<Reading>, r: Reading)
    requires |rs| > 0 && forall i :: 0 <= i < |rs| ==> rs[i] == r
    ensures MeanReading(rs) == r
  {
    forall c | 0 <= c < 6 ensures Mean(Channel(rs, c)) == Component(r, c) {
      MeanConstant(Channel(rs, c), Component(r, c));
    }
    assert Component(MeanReading(rs), 0) == Component(r, 0);
    assert Component(MeanReading(rs), 1) == Component(r, 1);
    assert Component(MeanReading(rs), 2) == Component(r, 2);
    assert Component(MeanReading(rs), 3) == Component(r, 3);
    assert Component(MeanReading(rs), 4) == Component(r, 4);
    assert Component(MeanReading(rs), 5) == Component(r, 5);
  }
}
