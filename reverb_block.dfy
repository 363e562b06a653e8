/**
 * The reverb's `processBlock` on values: the samples of a block run through
 * `ReverbEffect.Step` in order, with the controls read once at the top of the block and
 * the LFO's sine value taken from the tank's phase at each sample; and what a whole block
 * does to the size ramp, the LFO phase and the dry signal.
 */
module ReverbBlock {
  import Ramp
  import TankModel
  import ReverbEffect
  import Blocks

  /** `sin` stays within [-1, 1]. */
  ghost predicate SineBounded(sine: real -> real)
  {
    forall x :: -1.0 <= sine(x) <= 1.0
  }

  /** The sine value the tank's LFO reads in state `s`: `sin(2 * 3.141592 * modPhase / fs)`. */
  function Wave(sine: real -> real, s: ReverbEffect.State): real
    requires s.tank.fs != 0.0
  {
    sine(TankModel.Angle(s.tank.modPhase, s.tank.fs))
  }

  /** A block can start: `sin` is bounded and the state and the controls are ready. */
  ghost predicate Startable(sine: real -> real, s: ReverbEffect.State, c: ReverbEffect.Controls)
  {
    SineBounded(sine) && ReverbEffect.Ready(s, c)
  }

  /** One sample from a ready state reads in range and leaves the state ready. */
  lemma StepKeeps(sine: real -> real, s: ReverbEffect.State, c: ReverbEffect.Controls, left: real, right: real)
    requires Startable(sine, s, c)
    ensures ReverbEffect.StepFits(s, c, Wave(sine, s))
    ensures ReverbEffect.Ready(ReverbEffect.Step(s, c, Wave(sine, s), left, right).0, c)
  {
    ReverbEffect.SafeFits(s, c, Wave(sine, s));
    ReverbEffect.StepAdvances(s, c, Wave(sine, s), left, right);
    ReverbEffect.SafeNext(s.sizeCurrent, c, s.tank.fs);
  }

  /** One sample of a block: `ReverbEffect.Step` with the sine value the tank's phase selects. */
  function Sample(sine: real -> real, s: ReverbEffect.State, c: ReverbEffect.Controls, left: real, right: real)
    : (r: (ReverbEffect.State, real, real))
    requires Startable(sine, s, c)
    ensures ReverbEffect.Ready(r.0, c)
  {
    StepKeeps(sine, s, c, left, right);
    ReverbEffect.Step(s, c, Wave(sine, s), left, right)
  }

  /** `Sample` as a step of a block, for the state, the left input and the right input. */
  ghost function SampleStep(sine: real -> real, c: ReverbEffect.Controls)
    : (ReverbEffect.State, real, real) --> (ReverbEffect.State, real, real)
  {
    (x: ReverbEffect.State, l: real, r: real) requires Startable(sine, x, c) => Sample(sine, x, c, l, r)
  }

  /** The states from which a block can go on with the same `sin` and controls. */
  ghost function CanStart(sine: real -> real, c: ReverbEffect.Controls): ReverbEffect.State -> bool
  {
    x => Startable(sine, x, c)
  }

  /** `Sample` keeps a block startable, so it can be folded over any block. */
  lemma SampleStepKeeps(sine: real -> real, c: ReverbEffect.Controls)
    requires SineBounded(sine)
    ensures Blocks.Keeps(SampleStep(sine, c), CanStart(sine, c))
  {
    var f, inv := SampleStep(sine, c), CanStart(sine, c);
    forall x, l, r | inv(x)
      ensures f.requires(x, l, r) && inv(f(x, l, r).0)
    {
      assert Startable(sine, x, c);
      assert Startable(sine, Sample(sine, x, c, l, r).0, c);
    }
  }

  /**
   * The first `n` samples of a block `ls`, `rs`, in order, with the same controls: the new
   * state and the first `n` samples of both outputs.
   */
  ghost function Run(sine: real -> real, s: ReverbEffect.State, c: ReverbEffect.Controls,
                     ls: seq<real>, rs: seq<real>, n: nat): (r: (ReverbEffect.State, seq<real>, seq<real>))
    requires Startable(sine, s, c) && |ls| == |rs| && n <= |ls|
    ensures ReverbEffect.Ready(r.0, c) && |r.1| == |r.2| == n
  {
    SampleStepKeeps(sine, c);
    Blocks.Run(SampleStep(sine, c), CanStart(sine, c), s, ls, rs, n)
  }

  /** `Run` on `n + 1` samples is `Run` on `n`, then one `Sample` on sample `n`. */
  lemma RunExtend(sine: real -> real, s: ReverbEffect.State, c: ReverbEffect.Controls, ls: seq<real>, rs: seq<real>, n: nat)
    requires Startable(sine, s, c) && |ls| == |rs| && n < |ls|
    ensures var prev := Run(sine, s, c, ls, rs, n);
            var next := Sample(sine, prev.0, c, ls[n], rs[n]);
            Run(sine, s, c, ls, rs, n + 1) == (next.0, prev.1 + [next.1], prev.2 + [next.2])
  {
    SampleStepKeeps(sine, c);
    Blocks.RunExtend(SampleStep(sine, c), CanStart(sine, c), s, ls, rs, n);
  }

  /** One whole block: all of `ls`, `rs`. */
  ghost function Block(sine: real -> real, s: ReverbEffect.State, c: ReverbEffect.Controls,
                       ls: seq<real>, rs: seq<real>): (r: (ReverbEffect.State, seq<real>, seq<real>))
    requires Startable(sine, s, c) && |ls| == |rs|
    ensures ReverbEffect.Ready(r.0, c) && |r.1| == |r.2| == |ls|
  {
    Run(sine, s, c, ls, rs, |ls|)
  }

  /**
   * The two channels part way through a block processed in place: the state after the
   * first `n` samples, and in each channel their outputs followed by the inputs not yet
   * processed.
   */
  ghost function Progress(sine: real -> real, s: ReverbEffect.State, c: ReverbEffect.Controls,
                          ls: seq<real>, rs: seq<real>, n: nat): (r: (ReverbEffect.State, seq<real>, seq<real>))
    requires Startable(sine, s, c) && |ls| == |rs| && n <= |ls|
    ensures ReverbEffect.Ready(r.0, c) && |r.1| == |r.2| == |ls|
  {
    SampleStepKeeps(sine, c);
    Blocks.Progress(SampleStep(sine, c), CanStart(sine, c), s, ls, rs, n)
  }

  /** Before the first sample the channels hold the block's input; after the last, its output. */
  lemma ProgressEnds(sine: real -> real, s: ReverbEffect.State, c: ReverbEffect.Controls, ls: seq<real>, rs: seq<real>)
    requires Startable(sine, s, c) && |ls| == |rs|
    ensures Progress(sine, s, c, ls, rs, 0) == (s, ls, rs)
    ensures Progress(sine, s, c, ls, rs, |ls|) == Block(sine, s, c, ls, rs)
  {
    SampleStepKeeps(sine, c);
    Blocks.ProgressEnds(SampleStep(sine, c), CanStart(sine, c), s, ls, rs);
  }

  /**
   * Sample `n` processed in place: `Sample` on the state and on entry `n` of both channels,
   * whose outputs overwrite that entry.
   */
  lemma ProgressNext(sine: real -> real, s: ReverbEffect.State, c: ReverbEffect.Controls, ls: seq<real>, rs: seq<real>, n: nat)
    requires Startable(sine, s, c) && |ls| == |rs| && n < |ls|
    ensures var p := Progress(sine, s, c, ls, rs, n);
            var next := Sample(sine, p.0, c, p.1[n], p.2[n]);
            Progress(sine, s, c, ls, rs, n + 1) == (next.0, p.1[n := next.1], p.2[n := next.2])
  {
    SampleStepKeeps(sine, c);
    Blocks.ProgressNext(SampleStep(sine, c), CanStart(sine, c), s, ls, rs, n);
  }

  /** The size ramp after `n` samples is the ramp iterated `n` times. */
  lemma {:induction false} RunSize(sine: real -> real, s: ReverbEffect.State, c: ReverbEffect.Controls,
                                   ls: seq<real>, rs: seq<real>, n: nat)
    requires Startable(sine, s, c) && |ls| == |rs| && n <= |ls|
    ensures Run(sine, s, c, ls, rs, n).0.sizeCurrent == Ramp.Iterate(s.sizeCurrent, c.size, n)
  {
    if n > 0 {
      RunSize(sine, s, c, ls, rs, n - 1);
      RunExtend(sine, s, c, ls, rs, n - 1);
      var prev := Run(sine, s, c, ls, rs, n - 1).0;
      StepKeeps(sine, prev, c, ls[n - 1], rs[n - 1]);
      ReverbEffect.StepAdvances(prev, c, Wave(sine, prev), ls[n - 1], rs[n - 1]);
    }
  }

  /** After `prepareToPlay` the size ramp equals the Size control, and a block never moves it. */
  lemma PreparedSizeStaysPut(sine: real -> real, s: ReverbEffect.State, c: ReverbEffect.Controls, ls: seq<real>, rs: seq<real>)
    requires Startable(sine, s, c) && |ls| == |rs| && s.sizeCurrent == c.size
    ensures Block(sine, s, c, ls, rs).0.sizeCurrent == c.size
  {
    RunSize(sine, s, c, ls, rs, |ls|);
    Ramp.SettledStaysPut(c.size, |ls|);
  }

  /** How far the LFO phase moves in one sample: `3 * Speed`. */
  function PhaseIncrement(c: ReverbEffect.Controls): real
  {
    3.0 * c.speed
  }

  /** One sample moves the LFO phase by `PhaseIncrement`. */
  lemma SamplePhase(sine: real -> real, s: ReverbEffect.State, c: ReverbEffect.Controls, left: real, right: real)
    requires Startable(sine, s, c)
    ensures Sample(sine, s, c, left, right).0.tank.modPhase == s.tank.modPhase + PhaseIncrement(c)
  {
    StepKeeps(sine, s, c, left, right);
    ReverbEffect.StepAdvances(s, c, Wave(sine, s), left, right);
  }

  /** `p` moved `n` times by `d`. */
  function Drift(p: real, d: real, n: nat): real
  {
    if n == 0 then p else Drift(p, d, n - 1) + d
  }

  /** Moving `n` times by `d` is moving by `n * d`. */
  lemma {:induction false} DriftIsProduct(p: real, d: real, n: nat)
    ensures Drift(p, d, n) == p + n as real * d
  {
    if n > 0 {
      DriftIsProduct(p, d, n - 1);
      assert (n - 1) as real * d + d == n as real * d;
    }
  }

  /** Sample `n` of a block moves the LFO phase by the increment. */
  lemma RunPhaseStep(sine: real -> real, s: ReverbEffect.State, c: ReverbEffect.Controls,
                     ls: seq<real>, rs: seq<real>, n: nat)
    requires Startable(sine, s, c) && |ls| == |rs| && n < |ls|
    ensures Run(sine, s, c, ls, rs, n + 1).0.tank.modPhase == Run(sine, s, c, ls, rs, n).0.tank.modPhase + PhaseIncrement(c)
  {
    RunExtend(sine, s, c, ls, rs, n);
    SamplePhase(sine, Run(sine, s, c, ls, rs, n).0, c, ls[n], rs[n]);
  }

  /** The LFO phase after `n` samples has moved `n` times by the increment. */
  lemma {:induction false} RunDrift(sine: real -> real, s: ReverbEffect.State, c: ReverbEffect.Controls,
                                    ls: seq<real>, rs: seq<real>, n: nat)
    requires Startable(sine, s, c) && |ls| == |rs| && n <= |ls|
    ensures Run(sine, s, c, ls, rs, n).0.tank.modPhase == Drift(s.tank.modPhase, PhaseIncrement(c), n)
  {
    if n > 0 {
      RunDrift(sine, s, c, ls, rs, n - 1);
      RunPhaseStep(sine, s, c, ls, rs, n - 1);
    }
  }

  /** The LFO phase advances by `3 * Speed` per sample: after `n` samples it has moved by `n` times that. */
  lemma RunPhase(sine: real -> real, s: ReverbEffect.State, c: ReverbEffect.Controls,
                 ls: seq<real>, rs: seq<real>, n: nat)
    requires Startable(sine, s, c) && |ls| == |rs| && n <= |ls|
    ensures Run(sine, s, c, ls, rs, n).0.tank.modPhase == s.tank.modPhase + n as real * PhaseIncrement(c)
  {
    RunDrift(sine, s, c, ls, rs, n);
    DriftIsProduct(s.tank.modPhase, PhaseIncrement(c), n);
  }

  /** With `Mix == 0` both outputs of a block are its dry inputs, exactly. */
  lemma MixZeroIsDry(sine: real -> real, s: ReverbEffect.State, c: ReverbEffect.Controls, ls: seq<real>, rs: seq<real>)
    requires Startable(sine, s, c) && |ls| == |rs| && c.mix == 0.0
    ensures Block(sine, s, c, ls, rs).1 == ls && Block(sine, s, c, ls, rs).2 == rs
  {
    SampleStepKeeps(sine, c);
    forall x, l, r | CanStart(sine, c)(x)
      ensures SampleStep(sine, c)(x, l, r).1 == l && SampleStep(sine, c)(x, l, r).2 == r
    {
      StepKeeps(sine, x, c, l, r);
      ReverbEffect.StepDry(x, c, Wave(sine, x), l, r);
    }
    Blocks.RunPassesThrough(SampleStep(sine, c), CanStart(sine, c), s, ls, rs, |ls|);
    assert ls[..|ls|] == ls && rs[..|rs|] == rs;
  }

  /**
   * Silence in, silence out, over a block: from a silent processor, the first `n` samples of
   * a silent block come out silent on both channels and leave the processor silent.
   */
  lemma Silence(sine: real -> real, s: ReverbEffect.State, c: ReverbEffect.Controls,
                 ls: seq<real>, rs: seq<real>, n: nat)
    requires Startable(sine, s, c) && ReverbEffect.Quiet(s) && |ls| == |rs| && n <= |ls|
    requires forall i :: 0 <= i < |ls| ==> ls[i] == 0.0 && rs[i] == 0.0
    ensures var r := Run(sine, s, c, ls, rs, n);
            ReverbEffect.Quiet(r.0) && (forall i :: 0 <= i < n ==> r.1[i] == 0.0 && r.2[i] == 0.0)
  {
    SampleStepKeeps(sine, c);
    var quiet := (x: ReverbEffect.State) => ReverbEffect.Quiet(x);
    forall x | CanStart(sine, c)(x) && quiet(x)
      ensures quiet(SampleStep(sine, c)(x, 0.0, 0.0).0)
      ensures SampleStep(sine, c)(x, 0.0, 0.0).1 == 0.0 && SampleStep(sine, c)(x, 0.0, 0.0).2 == 0.0
    {
      SampleSilence(sine, x, c, 0.0, 0.0);
    }
    Blocks.RunSilence(SampleStep(sine, c), CanStart(sine, c), quiet, s, ls, rs, n);
  }

  /** One silent sample from a silent processor: two silent outputs, and the processor stays silent. */
  lemma SampleSilence(sine: real -> real, s: ReverbEffect.State, c: ReverbEffect.Controls, left: real, right: real)
    requires Startable(sine, s, c) && ReverbEffect.Quiet(s) && left == 0.0 && right == 0.0
    ensures var r := Sample(sine, s, c, left, right); ReverbEffect.Quiet(r.0) && r.1 == 0.0 && r.2 == 0.0
  {
    StepKeeps(sine, s, c, left, right);
    ReverbEffect.Silence(s, c, Wave(sine, s));
  }
}
