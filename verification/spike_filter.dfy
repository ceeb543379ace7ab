/**
 * The per-axis mouse spike filter of the pointer-lock controls: a raw delta
 * whose magnitude exceeds a factor times the magnitude of the previous RAW
 * delta is replaced by that previous raw delta (stale hold, not a clamp);
 * the raw delta is always what is remembered for the next comparison.
 * The remembered delta starts as +Infinity, written here as `None`.
 */
module SpikeFilter {
  import opened Wrappers
  import opened Geometry

  /** Factor applied to the previous raw X delta. */
  const XFactor: real := 1.5
  /** Factor applied to the previous raw Y delta. */
  const YFactor: real := 1.2

  /**
   * True when `raw` is rejected: strictly above `factor` times the previous
   * magnitude. Nothing exceeds the +Infinity sentinel, and a delta at or
   * below the bound (exactly on it included) is not a spike.
   */
  predicate IsSpike(raw: real, prev: Option<real>, factor: real)
    ensures prev.None? ==> !IsSpike(raw, prev, factor)
    ensures prev.Some? && Abs(raw) <= Abs(prev.value) * factor ==> !IsSpike(raw, prev, factor)
    ensures prev.Some? && Abs(raw) > Abs(prev.value) * factor ==> IsSpike(raw, prev, factor)
  {
    prev.Some? && Abs(raw) > Abs(prev.value) * factor
  }

  /**
   * The delta one event contributes on one axis. The result is the raw
   * delta or the held previous delta; it never exceeds the bound; and a raw
   * delta within the bound (or after the +Infinity sentinel) passes as is.
   */
  function Filter(raw: real, prev: Option<real>, factor: real): (out: real)
    ensures out == raw || (prev.Some? && out == prev.value)
    ensures prev.None? ==> out == raw
    ensures prev.Some? && Abs(raw) <= Abs(prev.value) * factor ==> out == raw
    ensures prev.Some? && Abs(raw) > Abs(prev.value) * factor ==> out == prev.value
    ensures prev.Some? && factor >= 1.0 ==> Abs(out) <= Abs(prev.value) * factor
  {
    if IsSpike(raw, prev, factor) then prev.value else raw
  }

  /**
   * Filtered deltas of a stream of raw events on one axis, starting from the
   * remembered delta `prev`; each event remembers its own raw delta.
   */
  function FilterRun(raws: seq<real>, prev: Option<real>, factor: real): (outs: seq<real>)
    ensures |outs| == |raws|
  {
    if raws == [] then []
    else [Filter(raws[0], prev, factor)] + FilterRun(raws[1..], Some(raws[0]), factor)
  }

  /**
   * The filter is always compared against the previous RAW delta: event `i`
   * of a run behaves exactly like a single event whose remembered delta is
   * raw event `i - 1` (or the starting `prev` for the first event).
   */
  lemma {:induction false} FilterRunComparesRaw(raws: seq<real>, prev: Option<real>, factor: real, i: nat)
    requires i < |raws|
    ensures FilterRun(raws, prev, factor)[i] == Filter(raws[i], if i == 0 then prev else Some(raws[i - 1]), factor)
  {
    if i > 0 {
      FilterRunComparesRaw(raws[1..], Some(raws[0]), factor, i - 1);
      assert raws[1..][i - 1] == raws[i];
      if i > 1 {
        assert raws[1..][i - 2] == raws[i - 1];
      }
    }
  }

  /** Filtering one more event appends its filtered delta, compared against the last raw delta. */
  lemma {:induction false} FilterRunSnoc(raws: seq<real>, prev: Option<real>, factor: real, x: real)
    ensures FilterRun(raws + [x], prev, factor)
         == FilterRun(raws, prev, factor) + [Filter(x, if raws == [] then prev else Some(raws[|raws| - 1]), factor)]
  {
    if raws != [] {
      assert (raws + [x])[0] == raws[0];
      assert (raws + [x])[1..] == raws[1..] + [x];
      FilterRunSnoc(raws[1..], Some(raws[0]), factor, x);
    }
  }

  /**
   * A spike never poisons the threshold: whatever came before, a delta that
   * lies within the bound of the raw delta just before it passes unchanged.
   */
  lemma {:induction false} SpikeDoesNotPoison(raws: seq<real>, prev: Option<real>, factor: real, i: nat)
    requires 0 < i < |raws|
    requires Abs(raws[i]) <= Abs(raws[i - 1]) * factor
    ensures FilterRun(raws, prev, factor)[i] == raws[i]
  {
    assert Filter(raws[i], Some(raws[i - 1]), factor) == raws[i];
    FilterRunComparesRaw(raws, prev, factor, i);
  }

  /** The first sample after the +Infinity sentinel passes, however large. */
  lemma FirstSamplePasses(raws: seq<real>, factor: real)
    requires |raws| > 0
    ensures FilterRun(raws, None, factor)[0] == raws[0]
  {
  }

  /**
   * Characterisation of the two factors: previous X delta 5 and raw 1000
   * holds 5; previous Y delta 5 and raw 7 holds 5; raw 6 equals 1.2 * 5
   * exactly and passes, the comparison being strict.
   */
  lemma FactorExamples()
    ensures Filter(1000.0, Some(5.0), XFactor) == 5.0
    ensures Filter(7.0, Some(5.0), YFactor) == 5.0
    ensures Filter(6.0, Some(5.0), YFactor) == 6.0
    ensures Filter(-7.5, Some(5.0), XFactor) == -7.5
  {
  }

  /** After a raw delta of 0, every non-zero delta is replaced by 0. */
  lemma ZeroHoldsNextDelta(raw: real, factor: real)
    requires raw != 0.0
    ensures Filter(raw, Some(0.0), factor) == 0.0
  {
  }
}
