/**
 * The `ReverbTank` class, proved against `TankModel`. The ten components of the tank are
 * grouped by half: a `TankHalf` object holds one half's two diffusers, two lines and
 * damping filter, so that processing one half visibly leaves the other alone.
 */
module ReverbTanks {
  import Ring
  import AllpassModel
  import Allpasses
  import DelayLines
  import LowPass
  import TankModel
  import OnePole

  /** One half of the tank: `ap1`, `delay1`, `damping`, `ap2`, `delay2` of one side. */
  class TankHalf {
    const ap1: Allpasses.Allpass
    const ap2: Allpasses.Allpass
    const d1: DelayLines.Delay
    const damping: LowPass.LPFilter
    const d2: DelayLines.Delay

    /** The five components. */
    ghost const Repr: set<object>

    ghost predicate Valid()
      reads Repr
    {
      Repr == {ap1, ap2, d1, damping, d2} && ap1 != ap2 && d1 != d2 &&
      ap1.Valid() && ap2.Valid() && d1.Valid() && d2.Valid()
    }

    /** The half as a value. */
    ghost function Model(): TankModel.Half
      requires Valid()
      reads Repr
    {
      TankModel.Half(ap1.Model(), ap2.Model(), d1.Model(), damping.x1, d2.Model())
    }

    /** Silent lines of the given capacities; the first diffuser at gains 0.7, -0.7, the second at -0.5, 0.5. */
    constructor (ap1Size: nat, ap2Size: nat, d1Size: nat, d2Size: nat)
      requires 0 < ap1Size && 0 < ap2Size && 0 < d1Size && 0 < d2Size
      ensures Valid() && fresh(Repr)
      ensures Model() == TankModel.Half(AllpassModel.AllpassState(Ring.Empty(ap1Size), 0.7, -0.7),
                                        AllpassModel.AllpassState(Ring.Empty(ap2Size), -0.5, 0.5),
                                        Ring.Empty(d1Size), 0.0, Ring.Empty(d2Size))
    {
      var a1 := new Allpasses.Allpass(ap1Size, 0.7, -0.7);
      var a2 := new Allpasses.Allpass(ap2Size, -0.5, 0.5);
      var l1 := new DelayLines.Delay(d1Size);
      var f := new LowPass.LPFilter();
      var l2 := new DelayLines.Delay(d2Size);
      ap1, ap2, d1, damping, d2 := a1, a2, l1, f, l2;
      Repr := {a1, a2, l1, f, l2};
    }

    /** `decay * delay2.read(size * delay2.size() - 1)`: what the other half receives from this one. */
    method Feed(size: real, decay: real) returns (fed: real)
      requires Valid() && TankModel.ReadFits(TankModel.LineOffset(size, d2.size), d2.size)
      ensures fed == TankModel.Fed(Model().d2, size, decay)
    {
      fed := decay * d2.Read(TankModel.LineOffset(size, d2.Size()));
    }

    /**
     * One half of `process`: the first diffuser at the modulated offset, plus `fed`, into the
     * first line, read back, damped, scaled by `decay`, through the second diffuser into the
     * second line. The half becomes `TankModel.HalfStep`.
     */
    method Process(base: nat, input: real, fed: real, size: real, decay: real, dampingGain: real, mod: real)
      requires Valid() && TankModel.HalfFits(Model(), base, size, mod)
      modifies Repr
      ensures Valid()
      ensures Model() == TankModel.HalfStep(old(Model()), base, input, fed, size, decay, dampingGain, mod)
    {
      ghost var h := Model();
      var x := Front(base, input, fed, size, dampingGain, mod);
      ghost var a1 := AllpassModel.Process(h.ap1, input, Ring.Ceil(TankModel.ModOffset(size, base, mod)));
      ghost var line1 := Ring.Write(h.d1, a1.1 + fed);
      ghost var damped := OnePole.Filter(h.filter, Ring.Read(line1, Ring.Ceil(TankModel.LineOffset(size, |h.d1.buf|))),
                                         1.0 - dampingGain, dampingGain);
      assert x * decay == Ring.Gain(decay, damped);
      Back(x * decay, size);
    }

    /** The first diffuser at the modulated offset, `fed` added, into the first line, read back and damped. */
    method Front(base: nat, input: real, fed: real, size: real, dampingGain: real, mod: real) returns (y: real)
      requires Valid()
      requires TankModel.ReadFits(TankModel.ModOffset(size, base, mod), ap1.size)
      requires TankModel.ReadFits(TankModel.LineOffset(size, d1.size), d1.size)
      modifies ap1, d1, damping
      ensures Valid()
      ensures var a1 := AllpassModel.Process(old(ap1.Model()), input, Ring.Ceil(TankModel.ModOffset(size, base, mod)));
              var line1 := Ring.Write(old(d1.Model()), a1.1 + fed);
              ap1.Model() == a1.0 && d1.Model() == line1 &&
              y == damping.x1 == OnePole.Filter(old(damping.x1), Ring.Read(line1, Ring.Ceil(TankModel.LineOffset(size, |line1.buf|))),
                                                1.0 - dampingGain, dampingGain)
    {
      var x := ap1.Process(input, TankModel.ModOffset(size, base, mod));
      d1.Write(x + fed);
      x := d1.Read(TankModel.LineOffset(size, d1.Size()));
      y := damping.Process(x, 1.0 - dampingGain, dampingGain);
    }

    /** The second diffuser, fed `x`, into the second line. */
    method Back(x: real, size: real)
      requires Valid()
      requires TankModel.ReadFits(TankModel.LineOffset(size, ap2.size), ap2.size)
      modifies ap2, d2
      ensures Valid()
      ensures var a2 := AllpassModel.Process(old(ap2.Model()), x, Ring.Ceil(TankModel.LineOffset(size, ap2.size)));
              ap2.Model() == a2.0 && d2.Model() == Ring.Write(old(d2.Model()), a2.1)
    {
      var y := ap2.Process(x, TankModel.LineOffset(size, ap2.Size()));
      d2.Write(y);
    }
  }

  class ReverbTank {
    /** `ap1Left_`, `delay1Left_`, `dampingLeft_`, `ap2Left_`, `delay2Left_`. */
    const left: TankHalf
    /** The same five for the right half. */
    const right: TankHalf
    /** `fs_`, set by `setSampleRate`. */
    var fs: real
    /** `modPhase_`, the LFO phase. */
    var modPhase: real

    /** Everything `process` may change. */
    ghost const Repr: set<object>

    /** The halves are disjoint and sized as `TankModel.Valid` says; `fs` and `modPhase` are free. */
    ghost predicate Valid()
      reads Repr
    {
      this in Repr && left.Repr <= Repr && right.Repr <= Repr &&
      Repr == {this} + left.Repr + right.Repr &&
      this !in left.Repr && this !in right.Repr && left.Repr !! right.Repr &&
      left.Valid() && right.Valid() &&
      TankModel.HalfValid(left.Model(), TankModel.Diffusion1BaseLeft, 2 * 2667, 2 * 6598, 2 * 5512) &&
      TankModel.HalfValid(right.Model(), TankModel.Diffusion1BaseRight, 2 * 3935, 2 * 6248, 2 * 4687)
    }

    /** The tank as a value. */
    ghost function Model(): (t: TankModel.Tank)
      requires Valid()
      reads Repr
      ensures TankModel.Valid(t)
    {
      TankModel.Tank(left.Model(), right.Model(), fs, modPhase)
    }

    /** The ten components at the capacities and gains of `TankModel.Initial`. */
    constructor ()
      ensures Valid() && fresh(Repr - {this})
      ensures Model() == TankModel.Initial(fs)
    {
      var l := new TankHalf(TankModel.Diffusion1BaseLeft + 128, 2 * 2667, 2 * 6598, 2 * 5512);
      var r := new TankHalf(TankModel.Diffusion1BaseRight + 128, 2 * 3935, 2 * 6248, 2 * 4687);
      left, right := l, r;
      modPhase := 0.0;
      Repr := {this} + l.Repr + r.Repr;
    }

    /** `setSampleRate(fs)`: only `fs` changes. */
    method SetSampleRate(sampleRate: real)
      requires Valid()
      modifies this`fs
      ensures Valid() && Model() == old(Model()).(fs := sampleRate)
    {
      fs := sampleRate;
    }

    /**
     * `process(input, size, decay, damping, modRate, modDepth)`, with `sine` standing for
     * `std::sin`: the new tank and the two outputs are `TankModel.Step` with the LFO sample
     * computed from the phase before the call.
     */
    method Process(sine: real -> real, input: real, size: real, decay: real, damping: real, modRate: real, modDepth: real)
      returns (outL: real, outR: real)
      requires Valid() && fs != 0.0
      requires TankModel.Fits(Model(), size, TankModel.Lfo(sine(TankModel.Angle(modPhase, fs)), modDepth))
      modifies Repr
      ensures Valid()
      ensures (Model(), outL, outR) ==
              TankModel.Step(old(Model()), input, size, decay, damping, modRate,
                             TankModel.Lfo(sine(TankModel.Angle(old(modPhase), old(fs))), modDepth))
    {
      ghost var before := Model();
      var mod := sine(2.0 * 3.141592 * modPhase / fs) * 128.0 * modDepth;
      assert mod == TankModel.Lfo(sine(TankModel.Angle(before.modPhase, before.fs)), modDepth);
      Advance(input, size, decay, damping, modRate, mod);
      ghost var next := TankModel.Advance(before, input, size, decay, damping, modRate, mod);
      outL, outR := Outputs(size);
      assert TankModel.Step(before, input, size, decay, damping, modRate, mod) == (next, outL, outR);
    }

    /**
     * The state changes of `process`, in its order: the phase advances, then the left half
     * runs fed from the right second line as it was, then the right half runs fed from the
     * left second line as the left half left it.
     */
    method Advance(input: real, size: real, decay: real, damping: real, modRate: real, mod: real)
      requires Valid() && TankModel.Fits(Model(), size, mod)
      modifies Repr
      ensures Valid() && Model() == TankModel.Advance(old(Model()), input, size, decay, damping, modRate, mod)
    {
      modPhase := modPhase + 3.0 * modRate;
      Halves(input, size, decay, damping, mod);
    }

    /**
     * The two halves of `process`, left first: the left half is fed from the right second
     * line as it was, the right half from the left second line as the left half left it.
     */
    method Halves(input: real, size: real, decay: real, damping: real, mod: real)
      requires Valid()
      requires TankModel.HalfFits(left.Model(), TankModel.Diffusion1BaseLeft, size, mod)
      requires TankModel.HalfFits(right.Model(), TankModel.Diffusion1BaseRight, size, mod)
      modifies left.Repr, right.Repr
      ensures Valid()
      ensures var l := TankModel.HalfStep(old(left.Model()), TankModel.Diffusion1BaseLeft, input,
                                          TankModel.Fed(old(right.Model()).d2, size, decay), size, decay, damping, mod);
              left.Model() == l &&
              right.Model() == TankModel.HalfStep(old(right.Model()), TankModel.Diffusion1BaseRight, input,
                                                  TankModel.Fed(l.d2, size, decay), size, decay, damping, mod)
    {
      var fedLeft := right.Feed(size, decay);
      left.Process(TankModel.Diffusion1BaseLeft, input, fedLeft, size, decay, damping, mod);
      var fedRight := left.Feed(size, decay);
      right.Process(TankModel.Diffusion1BaseRight, input, fedRight, size, decay, damping, mod);
    }

    /** The fourteen output taps, read from the current state; nothing changes. */
    method Outputs(size: real) returns (outL: real, outR: real)
      requires Valid() && TankModel.TapsFit(size, fs / TankModel.ReferenceRate)
      ensures (outL, outR) == TankModel.Outputs(Model(), size)
    {
      var ratio := fs / TankModel.ReferenceRate;
      TankModel.TapsInRange(size, ratio);
      outL := 0.0;
      outR := 0.0;
      outL := outL + 0.6 * right.d1.Read(TankModel.TapOffset(size, 266.0, ratio));
      outL := outL + 0.6 * right.d1.Read(TankModel.TapOffset(size, 2974.0, ratio));
      outL := outL - 0.6 * right.ap2.Tap(TankModel.TapOffset(size, 1913.0, ratio).Floor);
      outL := outL + 0.6 * right.d2.Read(TankModel.TapOffset(size, 1996.0, ratio));
      outL := outL - 0.6 * left.d1.Read(TankModel.TapOffset(size, 1990.0, ratio));
      outL := outL - 0.6 * left.ap2.Tap(TankModel.TapOffset(size, 187.0, ratio).Floor);
      outL := outL - 0.6 * left.d2.Read(TankModel.TapOffset(size, 1066.0, ratio));

      outR := outR + 0.6 * left.d1.Read(TankModel.TapOffset(size, 353.0, ratio));
      outR := outR + 0.6 * left.d1.Read(TankModel.TapOffset(size, 3627.0, ratio));
      outR := outR - 0.6 * left.ap2.Tap(TankModel.TapOffset(size, 1228.0, ratio).Floor);
      outR := outR + 0.6 * left.d2.Read(TankModel.TapOffset(size, 2673.0, ratio));
      outR := outR - 0.6 * right.d2.Read(TankModel.TapOffset(size, 2111.0, ratio));
      outR := outR - 0.6 * right.ap2.Tap(TankModel.TapOffset(size, 335.0, ratio).Floor);
      outR := outR - 0.6 * right.d2.Read(TankModel.TapOffset(size, 121.0, ratio));
    }
  }

  /** A change to objects outside the tank's `Repr` leaves the tank valid and its value as it was. */
  twostate lemma Untouched(t: ReverbTank)
    requires old(t.Valid()) && unchanged(t.Repr)
    ensures t.Valid() && t.Model() == old(t.Model())
  {
  }
}
