/**
 * The one-state `LPFilter` of the reverb: `x1 := gain*in + fbGain*x1`, the new state
 * being also the output. The reverb uses it as the pre-delay smoother and as the
 * damping filter inside each tank half.
 */
module OnePole {
  import Ring

  /** One sample: the new state, which is also the value returned. */
  function Filter(x1: real, input: real, gain: real, fbGain: real): real
  {
    Ring.Gain(gain, input) + Ring.Gain(fbGain, x1)
  }

  /** The state after a run: the last output, or the start state when nothing ran. */
  function Last(x1: real, ys: seq<real>): real
  {
    if ys == [] then x1 else ys[|ys| - 1]
  }

  /** The outputs of the filter started in state `x1` and fed `xs`. */
  function Run(x1: real, xs: seq<real>, gain: real, fbGain: real): (ys: seq<real>)
    ensures |ys| == |xs|
    decreases |xs|
  {
    if xs == [] then []
    else
      var k := |xs| - 1;
      var prev := Run(x1, xs[..k], gain, fbGain);
      prev + [Filter(Last(x1, prev), xs[k], gain, fbGain)]
  }

  /** The `k`-th output is the filter applied to the `k`-th input and the output before it. */
  lemma {:induction false} RunRecurrence(x1: real, xs: seq<real>, gain: real, fbGain: real, k: nat)
    requires k < |xs|
    ensures var ys := Run(x1, xs, gain, fbGain);
            ys[k] == gain * xs[k] + fbGain * (if k == 0 then x1 else ys[k - 1])
    decreases |xs|
  {
    var n := |xs| - 1;
    var prev := Run(x1, xs[..n], gain, fbGain);
    if k < n {
      RunRecurrence(x1, xs[..n], gain, fbGain, k);
      assert xs[..n][k] == xs[k];
    }
  }

  /**
   * With unit DC gain (`gain + fbGain == 1`) a filter that holds `c` and is fed `c` keeps
   * producing `c`.
   */
  lemma {:induction false} ConstantIsFixedPoint(c: real, xs: seq<real>, gain: real, fbGain: real)
    requires gain + fbGain == 1.0
    requires forall k :: 0 <= k < |xs| ==> xs[k] == c
    ensures forall k :: 0 <= k < |Run(c, xs, gain, fbGain)| ==> Run(c, xs, gain, fbGain)[k] == c
    decreases |xs|
  {
    if xs != [] {
      var n := |xs| - 1;
      ConstantIsFixedPoint(c, xs[..n], gain, fbGain);
      assert gain * c + fbGain * c == (gain + fbGain) * c;
    }
  }

  /**
   * A convex filter (`0 <= fbGain <= 1`, `gain == 1 - fbGain`, as the tank's damping filter
   * is for `0 <= damping <= 1`) never leaves the interval that holds its start state and
   * its inputs.
   */
  lemma {:induction false} ConvexStaysInRange(x1: real, xs: seq<real>, gain: real, fbGain: real, lo: real, hi: real)
    requires 0.0 <= fbGain <= 1.0 && gain == 1.0 - fbGain && lo <= x1 <= hi
    requires forall k :: 0 <= k < |xs| ==> lo <= xs[k] <= hi
    ensures forall k :: 0 <= k < |xs| ==> lo <= Run(x1, xs, gain, fbGain)[k] <= hi
    decreases |xs|
  {
    if xs != [] {
      var n := |xs| - 1;
      var prev := Run(x1, xs[..n], gain, fbGain);
      ConvexStaysInRange(x1, xs[..n], gain, fbGain, lo, hi);
      ConvexStep(Last(x1, prev), xs[n], fbGain, lo, hi);
    }
  }

  /** One convex step stays in `[lo, hi]`. */
  lemma ConvexStep(s: real, x: real, fbGain: real, lo: real, hi: real)
    requires 0.0 <= fbGain <= 1.0 && lo <= s <= hi && lo <= x <= hi
    ensures lo <= Filter(s, x, 1.0 - fbGain, fbGain) <= hi
  {
    var gain := 1.0 - fbGain;
    NonNegativeProduct(gain, x - lo);
    NonNegativeProduct(gain, hi - x);
    NonNegativeProduct(fbGain, s - lo);
    NonNegativeProduct(fbGain, hi - s);
    assert Filter(s, x, gain, fbGain) - lo == gain * (x - lo) + fbGain * (s - lo);
    assert hi - Filter(s, x, gain, fbGain) == gain * (hi - x) + fbGain * (hi - s);
  }

  lemma NonNegativeProduct(a: real, b: real)
    requires 0.0 <= a && 0.0 <= b
    ensures 0.0 <= a * b
  {
  }

  /** `p` raised to the `k`. */
  function Power(p: real, k: nat): real
  {
    if k == 0 then 1.0 else p * Power(p, k - 1)
  }

  /** From rest, a unit impulse gives the geometric response `gain * fbGain^k`. */
  lemma {:induction false} ImpulseResponse(xs: seq<real>, gain: real, fbGain: real)
    requires xs != [] && xs[0] == 1.0
    requires forall k :: 1 <= k < |xs| ==> xs[k] == 0.0
    ensures forall k :: 0 <= k < |xs| ==> Run(0.0, xs, gain, fbGain)[k] == gain * Power(fbGain, k)
    decreases |xs|
  {
    var n := |xs| - 1;
    var prev := Run(0.0, xs[..n], gain, fbGain);
    if n > 0 {
      ImpulseResponse(xs[..n], gain, fbGain);
      assert prev[n - 1] == gain * Power(fbGain, n - 1);
      assert fbGain * (gain * Power(fbGain, n - 1)) == gain * Power(fbGain, n);
    }
  }

  /** From rest, zero input keeps the filter at zero. */
  lemma {:induction false} SilenceStaysSilent(xs: seq<real>, gain: real, fbGain: real)
    requires forall k :: 0 <= k < |xs| ==> xs[k] == 0.0
    ensures forall k :: 0 <= k < |xs| ==> Run(0.0, xs, gain, fbGain)[k] == 0.0
    decreases |xs|
  {
    if xs != [] {
      SilenceStaysSilent(xs[..|xs| - 1], gain, fbGain);
    }
  }
}

/** The `LPFilter` class, proved against `OnePole`. */
module LowPass {
  import OnePole

  class LPFilter {
    /** `x1_`, the last output. */
    var x1: real

    /** A new filter is at rest. */
    constructor ()
      ensures x1 == 0.0
    {
      x1 := 0.0;
    }

    /** `process(input, gain, fbGain)`: the new state is returned and kept. */
    method Process(input: real, gain: real, fbGain: real) returns (y: real)
      modifies this
      ensures y == x1 == OnePole.Filter(old(x1), input, gain, fbGain)
    {
      x1 := gain * input + fbGain * x1;
      y := x1;
    }
  }
}
