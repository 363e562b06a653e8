/**
 * Value-level model of the reverb's `processBlock`: per sample, the size ramp moves, the
 * mono mix of the two inputs goes through the pre-delay line and its smoothing filter,
 * then through four input diffusers in series, then into the tank; each output is the
 * tank's output for that channel mixed with the dry input.
 */
module ReverbEffect {
  import Ring
  import Ramp
  import AllpassModel
  import OnePole
  import TankModel

  /** Capacity of `predelay_`. */
  const PredelayCapacity: nat := 20001
  /** Input gain of the pre-delay smoothing filter; its feedback gain is `1 - PredelayGain`. */
  const PredelayGain: real := 0.9995
  /** Capacities of the four input diffusers, in processing order. */
  const DiffuserSizes: seq<nat> := [2 * 210, 2 * 148, 2 * 561, 2 * 410]
  /** Their feedback gains; each feed-forward gain is the negation. */
  const DiffuserFeedback: seq<real> := [-0.75, -0.75, -0.625, -0.625]

  /** The seven control values, read once at the top of a block. */
  datatype Controls = Controls(mix: real, preDelay: real, size: real, decay: real, speed: real, depth: real, damping: real)

  /** `sizeCurrent_`, `predelay_`, the pre-delay filter's state, the input diffusers and the tank. */
  datatype State = State(sizeCurrent: real, predelay: Ring.Line, filter: real,
                         diffusers: seq<AllpassModel.AllpassState>, tank: TankModel.Tank)

  predicate DiffusersValid(aps: seq<AllpassModel.AllpassState>)
  {
    |aps| == 4 &&
    forall i :: 0 <= i < 4 ==>
      AllpassModel.Valid(aps[i]) && |aps[i].line.buf| == DiffuserSizes[i] &&
      aps[i].fbGain == DiffuserFeedback[i] && aps[i].ffGain == -DiffuserFeedback[i]
  }

  predicate Valid(s: State)
  {
    Ring.Valid(s.predelay) && |s.predelay.buf| == PredelayCapacity &&
    DiffusersValid(s.diffusers) && TankModel.Valid(s.tank)
  }

  /** The four diffusers as constructed: silent, with gains (-0.75, 0.75) twice then (-0.625, 0.625) twice. */
  function InitialDiffusers(): (aps: seq<AllpassModel.AllpassState>)
    ensures DiffusersValid(aps)
  {
    [AllpassModel.AllpassState(Ring.Empty(2 * 210), -0.75, 0.75),
     AllpassModel.AllpassState(Ring.Empty(2 * 148), -0.75, 0.75),
     AllpassModel.AllpassState(Ring.Empty(2 * 561), -0.625, 0.625),
     AllpassModel.AllpassState(Ring.Empty(2 * 410), -0.625, 0.625)]
  }

  /** A new processor: the size ramp at 0, every line silent, both filters at rest. */
  function Initial(fs: real): (s: State)
    ensures Valid(s)
  {
    State(0.0, Ring.Empty(PredelayCapacity), 0.0, InitialDiffusers(), TankModel.Initial(fs))
  }

  /** Every diffuser of `aps` is read in range at `size * ap.size() - 1`. */
  predicate DiffusersFit(aps: seq<AllpassModel.AllpassState>, size: real)
  {
    forall i :: 0 <= i < |aps| ==>
      AllpassModel.Valid(aps[i]) && TankModel.ReadFits(TankModel.LineOffset(size, |aps[i].line.buf|), |aps[i].line.buf|)
  }

  /** The diffusers `aps` in series, in order, on the sample `x`: the new diffusers and the last output. */
  function Diffuse(aps: seq<AllpassModel.AllpassState>, x: real, size: real): (r: (seq<AllpassModel.AllpassState>, real))
    requires DiffusersFit(aps, size)
    ensures |r.0| == |aps|
    ensures forall i :: 0 <= i < |aps| ==>
              AllpassModel.Valid(r.0[i]) && |r.0[i].line.buf| == |aps[i].line.buf| &&
              r.0[i].fbGain == aps[i].fbGain && r.0[i].ffGain == aps[i].ffGain
    decreases |aps|
  {
    if aps == [] then ([], x)
    else
      var k := |aps| - 1;
      var prev := Diffuse(aps[..k], x, size);
      var next := AllpassModel.Process(aps[k], prev.1, Ring.Ceil(TankModel.LineOffset(size, |aps[k].line.buf|)));
      (prev.0 + [next.0], next.1)
  }

  /** `Diffuse` on a non-empty cascade is `Diffuse` on all but the last diffuser, then that one. */
  lemma DiffuseLast(aps: seq<AllpassModel.AllpassState>, x: real, size: real)
    requires DiffusersFit(aps, size) && aps != []
    ensures var k := |aps| - 1;
            DiffusersFit(aps[..k], size) &&
            var prev := Diffuse(aps[..k], x, size);
            var next := AllpassModel.Process(aps[k], prev.1, Ring.Ceil(TankModel.LineOffset(size, |aps[k].line.buf|)));
            Diffuse(aps, x, size) == (prev.0 + [next.0], next.1)
  {
  }

  /**
   * The loop over the diffusers after `i` rounds: the first `i` of `aps` have run in
   * series on `x`, the rest are untouched, and the second component is the last output.
   */
  function DiffuseUpTo(aps: seq<AllpassModel.AllpassState>, x: real, size: real, i: nat): (r: (seq<AllpassModel.AllpassState>, real))
    requires DiffusersFit(aps, size) && i <= |aps|
    ensures |r.0| == |aps| && forall j :: i <= j < |aps| ==> r.0[j] == aps[j]
    decreases i
  {
    if i == 0 then (aps, x)
    else
      var prev := DiffuseUpTo(aps, x, size, i - 1);
      var next := AllpassModel.Process(aps[i - 1], prev.1, Ring.Ceil(TankModel.LineOffset(size, |aps[i - 1].line.buf|)));
      (prev.0[i - 1 := next.0], next.1)
  }

  /** After `i` rounds the loop holds `Diffuse` of the first `i` diffusers followed by the untouched rest. */
  lemma {:induction false} DiffuseUpToAgrees(aps: seq<AllpassModel.AllpassState>, x: real, size: real, i: nat)
    requires DiffusersFit(aps, size) && i <= |aps|
    ensures DiffusersFit(aps[..i], size)
    ensures var d := Diffuse(aps[..i], x, size);
            DiffuseUpTo(aps, x, size, i) == (d.0 + aps[i..], d.1)
    decreases i
  {
    DiffusersFitParts(aps, size, i);
    if i == 0 {
      assert aps[..0] == [] && aps[0..] == aps;
      assert Diffuse(aps[..0], x, size) == ([], x);
      assert [] + aps[0..] == aps;
    } else {
      DiffuseUpToAgrees(aps, x, size, i - 1);
      assert aps[..i][..i - 1] == aps[..i - 1] && aps[..i][i - 1] == aps[i - 1];
      DiffuseLast(aps[..i], x, size);
      var d := Diffuse(aps[..i - 1], x, size);
      var next := AllpassModel.Process(aps[i - 1], d.1, Ring.Ceil(TankModel.LineOffset(size, |aps[i - 1].line.buf|)));
      assert DiffuseUpTo(aps, x, size, i) == ((d.0 + aps[i - 1..])[i - 1 := next.0], next.1);
      assert Diffuse(aps[..i], x, size) == (d.0 + [next.0], next.1);
      assert (d.0 + aps[i - 1..])[i - 1 := next.0] == (d.0 + [next.0]) + aps[i..];
    }
  }

  /** The whole loop is the cascade `Diffuse`. */
  lemma DiffuseUpToAll(aps: seq<AllpassModel.AllpassState>, x: real, size: real)
    requires DiffusersFit(aps, size)
    ensures DiffuseUpTo(aps, x, size, |aps|) == Diffuse(aps, x, size)
  {
    DiffuseUpToAgrees(aps, x, size, |aps|);
    assert aps[..|aps|] == aps && aps[|aps|..] == [];
    assert Diffuse(aps, x, size).0 + [] == Diffuse(aps, x, size).0;
  }

  /** Concatenation regroups around a last element. */
  lemma AppendLast(a: seq<AllpassModel.AllpassState>, b: seq<AllpassModel.AllpassState>, x: AllpassModel.AllpassState)
    ensures a + (b + [x]) == (a + b) + [x]
  {
  }

  /** Both parts of a cascade cut at `k` are read in range when the whole is. */
  lemma DiffusersFitParts(aps: seq<AllpassModel.AllpassState>, size: real, k: nat)
    requires DiffusersFit(aps, size) && k <= |aps|
    ensures DiffusersFit(aps[..k], size) && DiffusersFit(aps[k..], size)
  {
    forall i | 0 <= i < |aps[k..]|
      ensures AllpassModel.Valid(aps[k..][i])
    {
      assert aps[k..][i] == aps[k + i];
    }
  }

  /**
   * A cascade splits anywhere: running the first `k` diffusers and feeding their output to
   * the rest is running all of them. The diffusers act one after the other, in order.
   */
  lemma {:induction false} DiffuseSplit(aps: seq<AllpassModel.AllpassState>, x: real, size: real, k: nat)
    requires DiffusersFit(aps, size) && k <= |aps|
    ensures DiffusersFit(aps[..k], size) && DiffusersFit(aps[k..], size)
    ensures var front := Diffuse(aps[..k], x, size);
            var back := Diffuse(aps[k..], front.1, size);
            Diffuse(aps, x, size) == (front.0 + back.0, back.1)
    decreases |aps|
  {
    DiffusersFitParts(aps, size, k);
    if k == |aps| {
      assert aps[..k] == aps;
      assert aps[k..] == [];
      var front := Diffuse(aps, x, size);
      assert Diffuse(aps[k..], front.1, size) == ([], front.1);
      assert front.0 + [] == front.0;
    } else {
      var n := |aps| - 1;
      var init := aps[..n];
      DiffusersFitParts(aps, size, n);
      DiffuseSplit(init, x, size, k);
      assert init[..k] == aps[..k];
      var front := Diffuse(aps[..k], x, size);
      var middle := Diffuse(init[k..], front.1, size);
      assert aps[k..][..|aps[k..]| - 1] == init[k..];
      assert aps[k..][|aps[k..]| - 1] == aps[n];
      DiffuseLast(aps, x, size);
      DiffuseLast(aps[k..], front.1, size);
      var last := AllpassModel.Process(aps[n], middle.1, Ring.Ceil(TankModel.LineOffset(size, |aps[n].line.buf|))).0;
      AppendLast(front.0, middle.0, last);
    }
  }

  /** Every diffuser's line silent. */
  predicate DiffusersQuiet(aps: seq<AllpassModel.AllpassState>)
  {
    forall i :: 0 <= i < |aps| ==> Ring.Quiet(aps[i].line)
  }

  /** Silent diffusers fed zero output zero and stay silent. */
  lemma {:induction false} DiffuseSilence(aps: seq<AllpassModel.AllpassState>, x: real, size: real)
    requires DiffusersFit(aps, size)
    requires DiffusersQuiet(aps) && x == 0.0
    ensures var r := Diffuse(aps, x, size);
            r.1 == 0.0 && DiffusersQuiet(r.0)
    decreases |aps|
  {
    if aps != [] {
      var k := |aps| - 1;
      DiffuseLast(aps, x, size);
      DiffuseSilence(aps[..k], x, size);
      TankModel.QuietProcess(aps[k], Ring.Ceil(TankModel.LineOffset(size, |aps[k].line.buf|)));
    }
  }

  function Abs(x: real): real
  {
    if x < 0.0 then -x else x
  }

  /** For a sine value in [-1, 1] the LFO sample never exceeds `128 * |depth|` in magnitude. */
  lemma LfoBound(v: real, depth: real)
    requires -1.0 <= v <= 1.0
    ensures Abs(TankModel.Lfo(v, depth)) <= 128.0 * Abs(depth)
  {
    var m := 128.0 * Abs(depth);
    OnePole.NonNegativeProduct(1.0 - v, m);
    OnePole.NonNegativeProduct(1.0 + v, m);
    if depth < 0.0 {
      assert v * 128.0 * depth == -(v * m);
    } else {
      assert v * 128.0 * depth == v * m;
    }
  }

  /** Every read of one sample is in range: pre-delay, the four diffusers and the tank. */
  predicate StepFits(s: State, c: Controls, wave: real)
  {
    TankModel.ReadFits(20000.0 * c.preDelay, PredelayCapacity) &&
    DiffusersFit(s.diffusers, Ramp.Next(s.sizeCurrent, c.size)) &&
    TankModel.Fits(s.tank, Ramp.Next(s.sizeCurrent, c.size), TankModel.Lfo(wave, c.depth))
  }

  /**
   * The pre-delay stage: `x` written to the pre-delay line, read back `offset` samples later
   * and smoothed by the filter with gains `PredelayGain` (0.9995) and 0.0005. The new state and the smoothed sample.
   */
  function PreDelayed(s: State, x: real, offset: real): (r: (State, real))
    requires Valid(s) && TankModel.ReadFits(offset, PredelayCapacity)
    ensures Valid(r.0) && r.0 == s.(predelay := r.0.predelay, filter := r.1)
  {
    var line := Ring.Write(s.predelay, x);
    var y := OnePole.Filter(s.filter, Ring.Read(line, Ring.Ceil(offset)), PredelayGain, 1.0 - PredelayGain);
    (s.(predelay := line, filter := y), y)
  }

  /**
   * The pre-delay writes before it reads: on a line that holds the history `h`, the filter
   * receives the sample written `Ceil(offset)` writes ago counting `x` itself, i.e. the mono
   * input `Ceil(offset) - 1` samples before `x` (an offset of 0 sees the whole capacity back),
   * and the line then holds `h + [x]`.
   */
  lemma PreDelayEcho(s: State, h: seq<real>, x: real, offset: real)
    requires Valid(s) && TankModel.ReadFits(offset, PredelayCapacity)
    requires s.predelay == Ring.Record(h, PredelayCapacity)
    ensures var r := PreDelayed(s, x, offset);
            r.0.predelay == Ring.Record(h + [x], PredelayCapacity) &&
            r.1 == OnePole.Filter(s.filter, Ring.Past(h + [x], Ring.Lag(Ring.Ceil(offset), PredelayCapacity)), PredelayGain, 1.0 - PredelayGain)
  {
    Ring.RecordSnoc(h, PredelayCapacity, x);
    Ring.ReadRecord(h + [x], PredelayCapacity, Ring.Ceil(offset));
  }

  /** The diffuser stage: the four diffusers in series on `x` at the current size. */
  function Diffused(s: State, x: real): (r: (State, real))
    requires Valid(s) && DiffusersFit(s.diffusers, s.sizeCurrent)
    ensures Valid(r.0) && r.0 == s.(diffusers := r.0.diffusers)
  {
    var d := Diffuse(s.diffusers, x, s.sizeCurrent);
    (s.(diffusers := d.0), d.1)
  }

  /** The tank stage: one tank step on `x` at the current size, with `wave` the sine value of the LFO. */
  function Reverberated(s: State, c: Controls, wave: real, x: real): (r: (State, real, real))
    requires Valid(s) && TankModel.Fits(s.tank, s.sizeCurrent, TankModel.Lfo(wave, c.depth))
    ensures Valid(r.0) && r.0 == s.(tank := r.0.tank) && r.0.tank.fs == s.tank.fs
  {
    var t := TankModel.Step(s.tank, x, s.sizeCurrent, c.decay, c.damping, c.speed, TankModel.Lfo(wave, c.depth));
    (s.(tank := t.0), t.1, t.2)
  }

  /**
   * The input stage of one sample: the size ramp moves one step, then the mono mix of the
   * two inputs goes through the pre-delay stage, read `20000 * PreDelay` samples back, and
   * the diffuser stage. The tank and the new size are what the tank stage then uses.
   */
  function InputStage(s: State, c: Controls, left: real, right: real): (r: (State, real))
    requires Valid(s) && TankModel.ReadFits(20000.0 * c.preDelay, PredelayCapacity)
    requires DiffusersFit(s.diffusers, Ramp.Next(s.sizeCurrent, c.size))
    ensures Valid(r.0) && r.0.tank == s.tank && r.0.sizeCurrent == Ramp.Next(s.sizeCurrent, c.size)
  {
    var glided := s.(sizeCurrent := Ramp.Next(s.sizeCurrent, c.size));
    var p := PreDelayed(glided, 0.5 * (left + right), 20000.0 * c.preDelay);
    Diffused(p.0, p.1)
  }

  /** The input stage is the diffuser stage applied to whatever the pre-delay stage produced from the glided state. */
  lemma InputStageParts(s: State, c: Controls, left: real, right: real, p: (State, real))
    requires Valid(s) && TankModel.ReadFits(20000.0 * c.preDelay, PredelayCapacity)
    requires DiffusersFit(s.diffusers, Ramp.Next(s.sizeCurrent, c.size))
    requires p == PreDelayed(s.(sizeCurrent := Ramp.Next(s.sizeCurrent, c.size)), 0.5 * (left + right), 20000.0 * c.preDelay)
    ensures InputStage(s, c, left, right) == Diffused(p.0, p.1)
  {
  }

  /**
   * The wet path of one sample: the input stage, then the tank stage. `wave` is the sine
   * value the tank's LFO reads for this sample. The new state and the tank's two outputs.
   */
  function Wet(s: State, c: Controls, wave: real, left: real, right: real): (r: (State, real, real))
    requires Valid(s) && StepFits(s, c, wave)
    ensures Valid(r.0) && r.0.tank.fs == s.tank.fs
  {
    var d := InputStage(s, c, left, right);
    Reverberated(d.0, c, wave, d.1)
  }

  /** The wet path is the tank stage applied to whatever the input stage produced. */
  lemma WetParts(s: State, c: Controls, wave: real, left: real, right: real, d: (State, real))
    requires Valid(s) && StepFits(s, c, wave) && d == InputStage(s, c, left, right)
    ensures Wet(s, c, wave, left, right) == Reverberated(d.0, c, wave, d.1)
  {
  }

  /** One output channel: `wet * mix + dry * (1 - mix)`. */
  function Mix(mix: real, wet: real, dry: real): real
  {
    Ring.Gain(mix, wet) + Ring.Gain(1.0 - mix, dry)
  }

  /** One sample: the wet path, then each channel mixed with its dry input. */
  function Step(s: State, c: Controls, wave: real, left: real, right: real): (r: (State, real, real))
    requires Valid(s) && StepFits(s, c, wave)
    ensures Valid(r.0) && r.0.tank.fs == s.tank.fs
  {
    var w := Wet(s, c, wave, left, right);
    (w.0, Mix(c.mix, w.1, left), Mix(c.mix, w.2, right))
  }

  /** One sample's outputs are the wet outputs of `Wet`, each mixed with its dry input. */
  lemma StepMixesWet(s: State, c: Controls, wave: real, left: real, right: real, w: (State, real, real))
    requires Valid(s) && StepFits(s, c, wave) && w == Wet(s, c, wave, left, right)
    ensures Step(s, c, wave, left, right) == (w.0, Mix(c.mix, w.1, left), Mix(c.mix, w.2, right))
  {
  }

  /**
   * A block with fixed controls keeps every read in range when the band the size ramp
   * stays in (`Ramp.Low`, `Ramp.High`) lies in `(0, 1 + Ramp.Step]` (the ramp may pass a
   * target of 1 by one step), the LFO swing `128 * |Depth|` is at most 128 and below
   * `1990 * Low`, the largest output tap fits at `High`, and the pre-delay offset fits.
   */
  predicate Safe(current: real, c: Controls, fs: real)
  {
    var lo := Ramp.Low(current, c.size);
    var hi := Ramp.High(current, c.size);
    var swing := 128.0 * Abs(c.depth);
    0.0 < fs && TankModel.ReadFits(20000.0 * c.preDelay, PredelayCapacity) &&
    0.0 < lo && hi <= 1.0 + Ramp.Step && swing <= 128.0 && swing < lo * TankModel.Diffusion1BaseLeft as real &&
    TankModel.TapOffset(hi, 3627.0, fs / TankModel.ReferenceRate) <= 13196.0
  }

  /** A size in `(0, 1 + Ramp.Step]` reads a line of capacity `n` up to 200000 in range. */
  lemma LineFits(size: real, n: nat)
    requires 0.0 < size <= 1.0 + Ramp.Step && 0 < n <= 200000
    ensures TankModel.ReadFits(TankModel.LineOffset(size, n), n)
  {
    var m := n as real;
    OnePole.NonNegativeProduct(1.000005 - size, m);
    assert (1.000005 - size) * m == 1.000005 * m - size * m;
    var k := Ring.Ceil(TankModel.LineOffset(size, n));
    assert (k - 1) as real < m;
  }

  /** The `3627` tap grows with the size. */
  lemma TapMonotone(a: real, b: real, q: real)
    requires a <= b && 0.0 <= q
    ensures TankModel.TapOffset(a, 3627.0, q) <= TankModel.TapOffset(b, 3627.0, q)
  {
    OnePole.NonNegativeProduct(b - a, q);
    assert b * q - a * q == (b - a) * q;
  }

  /** A safe block stays safe one sample later: the band only shrinks. */
  lemma SafeNext(current: real, c: Controls, fs: real)
    requires Safe(current, c, fs)
    ensures Safe(Ramp.Next(current, c.size), c, fs)
  {
    var next := Ramp.Next(current, c.size);
    Ramp.NextStaysInBand(current, c.size);
    TapMonotone(Ramp.High(next, c.size), Ramp.High(current, c.size), fs / TankModel.ReferenceRate);
  }

  /** The modulated offset of a first tank diffuser stays in range for a size in `[lo, 1 + Ramp.Step]`. */
  lemma ModFits(size: real, lo: real, mod: real, swing: real, base: nat)
    requires base == TankModel.Diffusion1BaseLeft || base == TankModel.Diffusion1BaseRight
    requires 0.0 < lo <= size <= 1.0 + Ramp.Step
    requires Abs(mod) <= swing <= 128.0 && swing < lo * TankModel.Diffusion1BaseLeft as real
    ensures TankModel.ReadFits(TankModel.ModOffset(size, base, mod), base + 128)
  {
  }

  /** Every read of one half is in range for a size in `[lo, 1 + Ramp.Step]` and an LFO sample within the swing. */
  lemma HalfFitsAt(h: TankModel.Half, base: nat, size: real, lo: real, mod: real, swing: real)
    requires base == TankModel.Diffusion1BaseLeft || base == TankModel.Diffusion1BaseRight
    requires |h.ap1.line.buf| == base + 128 && 0 < |h.d1.buf| <= 200000 && 0 < |h.ap2.line.buf| <= 200000 && 0 < |h.d2.buf| <= 200000
    requires 0.0 < lo <= size <= 1.0 + Ramp.Step
    requires Abs(mod) <= swing <= 128.0 && swing < lo * TankModel.Diffusion1BaseLeft as real
    ensures TankModel.HalfFits(h, base, size, mod)
  {
    ModFits(size, lo, mod, swing, base);
    LineFits(size, |h.d1.buf|);
    LineFits(size, |h.ap2.line.buf|);
    LineFits(size, |h.d2.buf|);
  }

  /** Every diffuser is read in range for a size in `(0, 1 + Ramp.Step]`. */
  lemma DiffusersFitAt(aps: seq<AllpassModel.AllpassState>, size: real)
    requires DiffusersValid(aps) && 0.0 < size <= 1.0 + Ramp.Step
    ensures DiffusersFit(aps, size)
  {
    forall i | 0 <= i < |aps|
      ensures TankModel.ReadFits(TankModel.LineOffset(size, |aps[i].line.buf|), |aps[i].line.buf|)
    {
      LineFits(size, |aps[i].line.buf|);
    }
  }

  /** A block can go on: the state is well formed and the controls keep it safe. */
  predicate Ready(s: State, c: Controls)
  {
    Valid(s) && Safe(s.sizeCurrent, c, s.tank.fs)
  }

  /** A safe block keeps the next sample's reads in range, for any sine value in [-1, 1]. */
  lemma SafeFits(s: State, c: Controls, wave: real)
    requires Ready(s, c) && -1.0 <= wave <= 1.0
    ensures StepFits(s, c, wave)
  {
    var size := Ramp.Next(s.sizeCurrent, c.size);
    Ramp.NextStaysInBand(s.sizeCurrent, c.size);
    var lo := Ramp.Low(s.sizeCurrent, c.size);
    var hi := Ramp.High(s.sizeCurrent, c.size);
    DiffusersFitAt(s.diffusers, size);
    var t := s.tank;
    var mod := TankModel.Lfo(wave, c.depth);
    LfoBound(wave, c.depth);
    HalfFitsAt(t.left, TankModel.Diffusion1BaseLeft, size, lo, mod, 128.0 * Abs(c.depth));
    HalfFitsAt(t.right, TankModel.Diffusion1BaseRight, size, lo, mod, 128.0 * Abs(c.depth));
    TapMonotone(size, hi, t.fs / TankModel.ReferenceRate);
  }

  /**
   * A settled ramp at any Size up to the knob's maximum 1, with Depth and PreDelay in
   * `[0, 1]`, is safe at sample rates up to 48 kHz, provided the LFO swing `128 * Depth`
   * stays below the first tank diffusers' base offset `1990 * Size` at the bottom of the
   * ramp's band, one step under Size.
   */
  lemma SettledIsSafe(c: Controls, fs: real)
    requires Ramp.Step < c.size <= 1.0 && 0.0 <= c.depth <= 1.0 && 0.0 <= c.preDelay <= 1.0
    requires 128.0 * c.depth < (c.size - Ramp.Step) * TankModel.Diffusion1BaseLeft as real
    requires 0.0 < fs <= 48000.0
    ensures Safe(c.size, c, fs)
  {
    var q := fs / TankModel.ReferenceRate;
    assert q <= 48000.0 / TankModel.ReferenceRate;
    TapMonotone(Ramp.High(c.size, c.size), 1.0 + Ramp.Step, q);
    OnePole.NonNegativeProduct(48000.0 / TankModel.ReferenceRate - q, 2.0 * (1.0 + Ramp.Step) * 3627.0);
  }

  /** One sample moves the size ramp one step and advances the LFO phase by `3 * Speed`. */
  lemma StepAdvances(s: State, c: Controls, wave: real, left: real, right: real)
    requires Valid(s) && StepFits(s, c, wave)
    ensures var r := Step(s, c, wave, left, right).0;
            r.sizeCurrent == Ramp.Next(s.sizeCurrent, c.size) && r.tank.modPhase == s.tank.modPhase + 3.0 * c.speed
  {
    var size := Ramp.Next(s.sizeCurrent, c.size);
    var line := Ring.Write(s.predelay, 0.5 * (left + right));
    var filtered := OnePole.Filter(s.filter, Ring.Read(line, Ring.Ceil(20000.0 * c.preDelay)), PredelayGain, 1.0 - PredelayGain);
    var diffused := Diffuse(s.diffusers, filtered, size);
    var mod := TankModel.Lfo(wave, c.depth);
    TankModel.StepWritesOnce(s.tank, diffused.1, size, c.decay, c.damping, c.speed, mod);
  }

  /** Every line of the processor silent and both filters (pre-delay and damping) at rest. */
  predicate Quiet(s: State)
  {
    Ring.Quiet(s.predelay) && s.filter == 0.0 && DiffusersQuiet(s.diffusers) && TankModel.Quiet(s.tank)
  }

  /** A new processor is silent. */
  lemma InitialIsQuiet(fs: real)
    ensures Quiet(Initial(fs))
  {
  }

  /** Zero written into a silent pre-delay line and read back anywhere, then smoothed from rest, is zero. */
  lemma QuietPreDelayLine(line: Ring.Line, offset: real)
    requires Ring.Valid(line) && Ring.Quiet(line) && |line.buf| == PredelayCapacity
    requires TankModel.ReadFits(offset, PredelayCapacity)
    ensures Ring.Quiet(Ring.Write(line, 0.0))
    ensures OnePole.Filter(0.0, Ring.Read(Ring.Write(line, 0.0), Ring.Ceil(offset)), PredelayGain, 1.0 - PredelayGain) == 0.0
  {
    Ring.QuietWrite(line);
    Ring.QuietWrite(Ring.Write(line, 0.0));
  }

  /** A silent input stage fed two zero inputs outputs zero and stays silent. */
  lemma InputSilence(s: State, c: Controls)
    requires Valid(s) && TankModel.ReadFits(20000.0 * c.preDelay, PredelayCapacity)
    requires DiffusersFit(s.diffusers, Ramp.Next(s.sizeCurrent, c.size)) && Quiet(s)
    ensures var d := InputStage(s, c, 0.0, 0.0);
            Quiet(d.0) && d.1 == 0.0
  {
    var glided := s.(sizeCurrent := Ramp.Next(s.sizeCurrent, c.size));
    PreDelaySilence(glided, 0.5 * (0.0 + 0.0), 20000.0 * c.preDelay);
    var p := PreDelayed(glided, 0.5 * (0.0 + 0.0), 20000.0 * c.preDelay);
    DiffusedSilence(p.0, p.1);
  }

  /** A silent pre-delay stage fed zero outputs zero and stays silent. */
  lemma PreDelaySilence(s: State, x: real, offset: real)
    requires Valid(s) && TankModel.ReadFits(offset, PredelayCapacity) && Quiet(s) && x == 0.0
    ensures var p := PreDelayed(s, x, offset);
            Quiet(p.0) && p.1 == 0.0
  {
    QuietPreDelayLine(s.predelay, offset);
  }

  /** A silent diffuser stage fed zero outputs zero and stays silent. */
  lemma DiffusedSilence(s: State, x: real)
    requires Valid(s) && DiffusersFit(s.diffusers, s.sizeCurrent) && Quiet(s) && x == 0.0
    ensures var d := Diffused(s, x);
            Quiet(d.0) && d.1 == 0.0
  {
    DiffuseSilence(s.diffusers, x, s.sizeCurrent);
  }

  /**
   * Silence in, silence out: from a silent state, one sample of silent input yields two
   * silent outputs and leaves the state silent, whatever the controls and the LFO value.
   */
  lemma Silence(s: State, c: Controls, wave: real)
    requires Valid(s) && StepFits(s, c, wave) && Quiet(s)
    ensures var r := Step(s, c, wave, 0.0, 0.0);
            Quiet(r.0) && r.1 == 0.0 && r.2 == 0.0
  {
    InputSilence(s, c);
    var d := InputStage(s, c, 0.0, 0.0);
    TankModel.Silence(d.0.tank, d.0.sizeCurrent, c.decay, c.damping, c.speed, TankModel.Lfo(wave, c.depth));
    WetParts(s, c, wave, 0.0, 0.0, d);
    StepMixesWet(s, c, wave, 0.0, 0.0, Wet(s, c, wave, 0.0, 0.0));
  }

  /** With `Mix == 0` a channel is its dry input, exactly. */
  lemma MixDry(wet: real, dry: real)
    ensures Mix(0.0, wet, dry) == dry
  {
  }

  /** With `Mix == 0` one sample's outputs are its inputs. */
  lemma StepDry(s: State, c: Controls, wave: real, left: real, right: real)
    requires Valid(s) && StepFits(s, c, wave) && c.mix == 0.0
    ensures Step(s, c, wave, left, right).1 == left && Step(s, c, wave, left, right).2 == right
  {
    var w := Wet(s, c, wave, left, right);
    MixDry(w.1, left);
    MixDry(w.2, right);
  }

}
