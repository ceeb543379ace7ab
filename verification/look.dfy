/** Look angles: the scale applied to mouse deltas and the pitch clamp. */
module Look {
  import opened Geometry

  /** The decimal rendering of Math.PI / 2. */
  const HalfPi: real := 1.5707963267948966

  /** Radians of rotation per unit of (filtered) mouse delta, before sensitivity. */
  const LookScale: real := 0.001

  /**
   * The rotation, in radians, that a filtered mouse delta produces: zero for
   * no movement, with the sign of the delta when the sensitivity is
   * positive, and proportional to the delta.
   */
  function Turn(delta: real, sensitivity: real): (r: real)
    ensures delta == 0.0 ==> r == 0.0
    ensures sensitivity > 0.0 && delta > 0.0 ==> r > 0.0
    ensures sensitivity > 0.0 && delta < 0.0 ==> r < 0.0
    ensures r * 1000.0 == delta * sensitivity
  {
    delta * LookScale * sensitivity
  }

  /** The total yaw rotation of a sequence of filtered X deltas, applied in order. */
  function TurnSum(deltas: seq<real>, sensitivity: real): real
  {
    if deltas == [] then 0.0
    else TurnSum(deltas[..|deltas| - 1], sensitivity) + Turn(deltas[|deltas| - 1], sensitivity)
  }

  /** The pitch after a sequence of filtered Y deltas, each turned and then clamped. */
  function PitchAfter(pitch: real, deltas: seq<real>, sensitivity: real): real
  {
    if deltas == [] then pitch
    else ClampPitch(PitchAfter(pitch, deltas[..|deltas| - 1], sensitivity) - Turn(deltas[|deltas| - 1], sensitivity))
  }

  lemma TurnSumSnoc(deltas: seq<real>, d: real, sensitivity: real)
    ensures TurnSum(deltas + [d], sensitivity) == TurnSum(deltas, sensitivity) + Turn(d, sensitivity)
  {
  }

  lemma PitchAfterSnoc(pitch: real, deltas: seq<real>, d: real, sensitivity: real)
    ensures PitchAfter(pitch, deltas + [d], sensitivity) == ClampPitch(PitchAfter(pitch, deltas, sensitivity) - Turn(d, sensitivity))
  {
  }

  predicate PitchInRange(pitch: real)
  {
    -HalfPi <= pitch <= HalfPi
  }

  /**
   * max(-pi/2, min(pi/2, p)): a pitch in [-pi/2, pi/2], the input itself
   * when it is already in range.
   */
  function ClampPitch(p: real): (r: real)
    ensures PitchInRange(r)
    ensures PitchInRange(p) ==> r == p
  {
    var upper := if HalfPi < p then HalfPi else p;
    if -HalfPi > upper then -HalfPi else upper
  }

  /** The clamped pitch is the point of [-pi/2, pi/2] nearest to the input. */
  lemma ClampPitchIsNearest(p: real, q: real)
    requires PitchInRange(q)
    ensures Dist(ClampPitch(p), p) <= Dist(q, p)
  {
  }
}
