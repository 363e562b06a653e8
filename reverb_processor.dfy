/**
 * The reverb plugin's processor: seven controls, the ramped size, the pre-delay line and
 * its smoothing filter, four input diffusers, the tank and the in-place block loop.
 */
module ReverbPlugin {
  import Ring
  import Ramp
  import AllpassModel
  import TankModel
  import ReverbEffect
  import ReverbBlock
  import Blocks
  import OnePole
  import DelayLines
  import LowPass
  import Allpasses
  import ReverbTanks
  import Parameters

  class ReverbProcessor {
    const mix: Parameters.Param
    const preDelay: Parameters.Param
    const size: Parameters.Param
    const decay: Parameters.Param
    const speed: Parameters.Param
    const depth: Parameters.Param
    const damping: Parameters.Param
    /** `sizeCurrent_`, the ramped size. */
    var sizeCurrent: real
    /** `predelay_`. */
    const predelay: DelayLines.Delay
    /** `predelayFilter_`. */
    const predelayFilter: LowPass.LPFilter
    /** `inputDiffusionAps_`, in processing order. */
    const diffusers: seq<Allpasses.Allpass>
    /** `reverbTank_`. */
    const tank: ReverbTanks.ReverbTank

    /** The four diffusers. */
    ghost const DiffuserRepr: set<object>

    /**
     * How the parts are laid out, none of which ever changes: four distinct diffusers at the
     * capacities and gains of `ReverbEffect.DiffuserSizes` and `ReverbEffect.DiffuserFeedback`,
     * a pre-delay line of `PredelayCapacity`, and no object shared between the parts.
     */
    static ghost predicate Layout(predelay: DelayLines.Delay, filter: LowPass.LPFilter, diffusers: seq<Allpasses.Allpass>,
                                  repr: set<object>, tank: ReverbTanks.ReverbTank)
    {
      |diffusers| == 4 &&
      repr == {diffusers[0], diffusers[1], diffusers[2], diffusers[3]} &&
      (forall a, b :: 0 <= a < b < 4 ==> diffusers[a] != diffusers[b]) &&
      (forall i :: 0 <= i < 4 ==>
         diffusers[i].size == ReverbEffect.DiffuserSizes[i] &&
         diffusers[i].fbGain == ReverbEffect.DiffuserFeedback[i] && diffusers[i].ffGain == -ReverbEffect.DiffuserFeedback[i]) &&
      predelay.size == ReverbEffect.PredelayCapacity &&
      predelay !in tank.Repr && filter !in tank.Repr && repr !! tank.Repr
    }

    /** The layout of this processor's parts, and the processor itself outside the tank. */
    ghost predicate Disjoint()
    {
      Layout(predelay, predelayFilter, diffusers, DiffuserRepr, tank) && this !in tank.Repr
    }

    /** The four diffusers as values. */
    ghost function DiffuserModels(): (aps: seq<AllpassModel.AllpassState>)
      requires Disjoint()
      reads DiffuserRepr
      ensures |aps| == 4
    {
      [diffusers[0].Model(), diffusers[1].Model(), diffusers[2].Model(), diffusers[3].Model()]
    }

    /** The layout holds and every diffuser's cursor is in range. */
    ghost predicate DiffusersReady()
      reads DiffuserRepr
    {
      Disjoint() && diffusers[0].Valid() && diffusers[1].Valid() && diffusers[2].Valid() && diffusers[3].Valid()
    }

    ghost predicate Valid()
      reads predelay, DiffuserRepr, tank.Repr
    {
      DiffusersReady() && predelay.Valid() && tank.Valid()
    }

    /** A change to objects outside `DiffuserRepr` leaves the four diffusers ready and their values as they were. */
    twostate lemma DiffusersUntouched()
      requires old(DiffusersReady()) && unchanged(DiffuserRepr)
      ensures DiffusersReady() && DiffuserModels() == old(DiffuserModels())
    {
    }

    /** A change to objects outside the processor's parts leaves it valid and its value as it was. */
    twostate lemma Untouched()
      requires old(Valid()) && unchanged(this, predelay, predelayFilter)
      requires unchanged(DiffuserRepr) && unchanged(tank.Repr)
      ensures Valid() && Model() == old(Model())
    {
      ReverbTanks.Untouched(tank);
      DiffusersUntouched();
    }

    /** The processor's audio state as a value. */
    ghost function Model(): (s: ReverbEffect.State)
      requires Valid()
      reads this, predelay, predelayFilter, DiffuserRepr, tank.Repr
      ensures ReverbEffect.Valid(s)
    {
      ReverbEffect.State(sizeCurrent, predelay.Model(), predelayFilter.x1, DiffuserModels(), tank.Model())
    }

    /** The seven control values. */
    function Controls(): ReverbEffect.Controls
      reads this, mix, preDelay, size, decay, speed, depth, damping
    {
      ReverbEffect.Controls(mix.value, preDelay.value, size.value, decay.value, speed.value, depth.value, damping.value)
    }

    /**
     * Controls "Mix", "Predelay", "Size", "Feedback" (the decay), "ModRate", "ModDepth" and
     * "Damping" at 0.3, 0.01, 0.5, 0.3, 0.1, 0, 0.05; every line silent, both filters and
     * the size ramp at 0. The sample rate is not set until `PrepareToPlay`.
     */
    constructor ()
      ensures Valid() && fresh(predelay) && fresh(predelayFilter)
      ensures fresh(DiffuserRepr) && fresh(tank.Repr)
      ensures mix.name == "Mix" && preDelay.name == "Predelay" && size.name == "Size" && decay.name == "Feedback"
      ensures speed.name == "ModRate" && depth.name == "ModDepth" && damping.name == "Damping"
      ensures Controls() == ReverbEffect.Controls(0.3, 0.01, 0.5, 0.3, 0.1, 0.0, 0.05)
      ensures Model() == ReverbEffect.Initial(tank.fs)
    {
      var pm, ps, pp, pd, psp, pdp, pdm := NewParams();
      mix, size, preDelay, decay, speed, depth, damping := pm, ps, pp, pd, psp, pdp, pdm;
      sizeCurrent := 0.0;
      var line, filter, ds, repr, t := NewParts();
      predelay, predelayFilter, diffusers, DiffuserRepr, tank := line, filter, ds, repr, t;
      new;
    }

    /** The seven controls, created in the order the processor adds them. */
    static method NewParams() returns (mix: Parameters.Param, size: Parameters.Param, preDelay: Parameters.Param,
                                       decay: Parameters.Param, speed: Parameters.Param, depth: Parameters.Param,
                                       damping: Parameters.Param)
      ensures mix.name == "Mix" && preDelay.name == "Predelay" && size.name == "Size" && decay.name == "Feedback"
      ensures speed.name == "ModRate" && depth.name == "ModDepth" && damping.name == "Damping"
      ensures ReverbEffect.Controls(mix.value, preDelay.value, size.value, decay.value, speed.value, depth.value, damping.value)
              == ReverbEffect.Controls(0.3, 0.01, 0.5, 0.3, 0.1, 0.0, 0.05)
    {
      mix := new Parameters.Param("Mix", 0.3);
      size := new Parameters.Param("Size", 0.5);
      preDelay := new Parameters.Param("Predelay", 0.01);
      decay := new Parameters.Param("Feedback", 0.3);
      speed := new Parameters.Param("ModRate", 0.1);
      depth := new Parameters.Param("ModDepth", 0.0);
      damping := new Parameters.Param("Damping", 0.05);
    }

    /** The audio parts, in declaration order: the pre-delay line and its filter, the diffusers, the tank. */
    static method NewParts() returns (line: DelayLines.Delay, filter: LowPass.LPFilter, ds: seq<Allpasses.Allpass>,
                                      ghost repr: set<object>, t: ReverbTanks.ReverbTank)
      ensures fresh(line) && fresh(filter) && fresh(repr) && fresh(t.Repr)
      ensures Layout(line, filter, ds, repr, t)
      ensures line.Valid() && ds[0].Valid() && ds[1].Valid() && ds[2].Valid() && ds[3].Valid() && t.Valid()
      ensures ReverbEffect.State(0.0, line.Model(), filter.x1, [ds[0].Model(), ds[1].Model(), ds[2].Model(), ds[3].Model()], t.Model())
              == ReverbEffect.Initial(t.fs)
    {
      line := new DelayLines.Delay(ReverbEffect.PredelayCapacity);
      filter := new LowPass.LPFilter();
      ds, repr := NewDiffusers();
      t := new ReverbTanks.ReverbTank();
    }

    /** The four input diffusers, silent, at the capacities and gains the processor gives them. */
    static method NewDiffusers() returns (ds: seq<Allpasses.Allpass>, ghost repr: set<object>)
      ensures |ds| == 4 && fresh(repr)
      ensures repr == {ds[0], ds[1], ds[2], ds[3]}
      ensures forall a, b :: 0 <= a < b < 4 ==> ds[a] != ds[b]
      ensures forall i :: 0 <= i < 4 ==>
                ds[i].size == ReverbEffect.DiffuserSizes[i] &&
                ds[i].fbGain == ReverbEffect.DiffuserFeedback[i] && ds[i].ffGain == -ReverbEffect.DiffuserFeedback[i]
      ensures ds[0].Valid() && ds[1].Valid() && ds[2].Valid() && ds[3].Valid()
      ensures [ds[0].Model(), ds[1].Model(), ds[2].Model(), ds[3].Model()] == ReverbEffect.InitialDiffusers()
    {
      var a0 := new Allpasses.Allpass(2 * 210, -0.75, 0.75);
      var a1 := new Allpasses.Allpass(2 * 148, -0.75, 0.75);
      var a2 := new Allpasses.Allpass(2 * 561, -0.625, 0.625);
      var a3 := new Allpasses.Allpass(2 * 410, -0.625, 0.625);
      ds := [a0, a1, a2, a3];
      repr := {a0, a1, a2, a3};
    }

    /** `prepareToPlay`: the tank takes the sample rate and the size ramp jumps to the Size control. */
    method PrepareToPlay(sampleRate: real, samplesPerBlock: int)
      requires Valid()
      modifies this`sizeCurrent, tank`fs
      ensures Valid()
      ensures Model() == old(Model()).(sizeCurrent := size.value, tank := old(Model()).tank.(fs := sampleRate))
    {
      tank.SetSampleRate(sampleRate);
      sizeCurrent := size.GetValue();
    }

    /**
     * `processBlock`: the controls are read once, then every sample of the two channels is
     * replaced by the reverb's output, in order; the result is `ReverbBlock.Block` on the
     * block's input. The source never checks the read offsets; `Startable` keeps them in range.
     */
    method ProcessBlock(sine: real -> real, left: array<real>, right: array<real>)
      requires Valid() && left != right && left.Length == right.Length
      requires left !in DiffuserRepr && right !in DiffuserRepr && left !in tank.Repr && right !in tank.Repr
      requires ReverbBlock.Startable(sine, Model(), Controls())
      modifies this`sizeCurrent, predelay, predelayFilter, DiffuserRepr, tank.Repr, left, right
      ensures Valid()
      ensures (Model(), left[..], right[..]) == ReverbBlock.Block(sine, old(Model()), old(Controls()), old(left[..]), old(right[..]))
    {
      var mixValue := mix.GetValue();
      var preDelayValue := preDelay.GetValue();
      var dampingValue := damping.GetValue();
      var decayValue := decay.GetValue();
      var speedValue := speed.GetValue();
      var depthValue := depth.GetValue();
      var sizeValue := size.GetValue();
      var c := ReverbEffect.Controls(mixValue, preDelayValue, sizeValue, decayValue, speedValue, depthValue, dampingValue);
      ProcessSamples(sine, c, left, right);
    }

    /** The `processBlock` loop: every sample of the two channels, in order, with the controls `c`. */
    method ProcessSamples(sine: real -> real, c: ReverbEffect.Controls, left: array<real>, right: array<real>)
      requires Valid() && left != right && left.Length == right.Length
      requires left !in DiffuserRepr && right !in DiffuserRepr && left !in tank.Repr && right !in tank.Repr
      requires ReverbBlock.Startable(sine, Model(), c)
      modifies this`sizeCurrent, predelay, predelayFilter, DiffuserRepr, tank.Repr, left, right
      ensures Valid()
      ensures (Model(), left[..], right[..]) == ReverbBlock.Block(sine, old(Model()), c, old(left[..]), old(right[..]))
    {
      ghost var s0 := Model();
      ghost var ls, rs := left[..], right[..];
      ReverbBlock.ProgressEnds(sine, s0, c, ls, rs);
      var i := 0;
      while i < left.Length
        invariant 0 <= i <= left.Length
        invariant Valid()
        invariant (Model(), left[..], right[..]) == ReverbBlock.Progress(sine, s0, c, ls, rs, i)
      {
        ProcessSample(sine, c, left, right, i, s0, ls, rs);
        i := i + 1;
      }
    }

    /**
     * One pass of the `processBlock` loop: with the first `i` samples of the block done,
     * entry `i` of both channels is replaced by the outputs of one more sample.
     */
    method ProcessSample(sine: real -> real, c: ReverbEffect.Controls, left: array<real>, right: array<real>, i: nat,
                         ghost s0: ReverbEffect.State, ghost ls: seq<real>, ghost rs: seq<real>)
      requires Valid() && left != right && i < left.Length == right.Length == |ls| == |rs|
      requires left !in DiffuserRepr && right !in DiffuserRepr && left !in tank.Repr && right !in tank.Repr
      requires ReverbBlock.Startable(sine, s0, c)
      requires (Model(), left[..], right[..]) == ReverbBlock.Progress(sine, s0, c, ls, rs, i)
      modifies this`sizeCurrent, predelay, predelayFilter, DiffuserRepr, tank.Repr, left, right
      ensures Valid()
      ensures (Model(), left[..], right[..]) == ReverbBlock.Progress(sine, s0, c, ls, rs, i + 1)
    {
      ReverbBlock.ProgressNext(sine, s0, c, ls, rs, i);
      var outL, outR := Sample(sine, c, left[i], right[i]);
      label sampled:
      Store(left, right, i, outL, outR);
      Untouched@sampled();
    }

    /** Writes one output pair back into the buffers, which are not part of the processor. */
    static method Store(left: array<real>, right: array<real>, i: nat, outL: real, outR: real)
      requires left != right && i < left.Length == right.Length
      modifies left, right
      ensures left[..] == old(left[..])[i := outL] && right[..] == old(right[..])[i := outR]
    {
      left[i] := outL;
      right[i] := outR;
    }

    /** The body of the `processBlock` loop for one input pair, with the controls `c` read at the top of the block. */
    method Sample(sine: real -> real, c: ReverbEffect.Controls, l: real, r: real) returns (outL: real, outR: real)
      requires Valid() && ReverbBlock.Startable(sine, Model(), c)
      modifies this`sizeCurrent, predelay, predelayFilter, DiffuserRepr, tank.Repr
      ensures Valid()
      ensures (Model(), outL, outR) == ReverbBlock.Sample(sine, old(Model()), c, l, r)
    {
      ghost var before := Model();
      ReverbBlock.StepKeeps(sine, before, c, l, r);
      var wetL, wetR := WetPath(sine, c, l, r);
      ReverbEffect.StepMixesWet(before, c, ReverbBlock.Wave(sine, before), l, r, (Model(), wetL, wetR));
      outL := ReverbEffect.Mix(c.mix, wetL, l);
      outR := ReverbEffect.Mix(c.mix, wetR, r);
    }

    /** The input stage and the tank for one input pair: the two wet outputs. */
    method WetPath(sine: real -> real, c: ReverbEffect.Controls, l: real, r: real) returns (wetL: real, wetR: real)
      requires Valid() && Model().tank.fs != 0.0 && ReverbEffect.StepFits(Model(), c, ReverbBlock.Wave(sine, Model()))
      modifies this`sizeCurrent, predelay, predelayFilter, DiffuserRepr, tank.Repr
      ensures Valid()
      ensures (Model(), wetL, wetR) == ReverbEffect.Wet(old(Model()), c, ReverbBlock.Wave(sine, old(Model())), l, r)
    {
      ghost var s := Model();
      var x := InputPath(c, l, r);
      ghost var d := Model();
      wetL, wetR := Reverberate(sine, x, c);
      ReverbEffect.WetParts(s, c, ReverbBlock.Wave(sine, s), l, r, (d, x));
    }

    /** The size ramp, the pre-delay and the diffusers for one input pair: the diffused mono sample. */
    method InputPath(c: ReverbEffect.Controls, l: real, r: real) returns (y: real)
      requires Valid() && TankModel.ReadFits(20000.0 * c.preDelay, ReverbEffect.PredelayCapacity)
      requires ReverbEffect.DiffusersFit(Model().diffusers, Ramp.Next(sizeCurrent, c.size))
      modifies this`sizeCurrent, predelay, predelayFilter, DiffuserRepr
      ensures Valid()
      ensures (Model(), y) == ReverbEffect.InputStage(old(Model()), c, l, r)
    {
      ghost var s := Model();
      var filtered := PreDelayStage(c, l, r);
      ghost var p := Model();
      y := Diffuse(filtered);
      ReverbEffect.InputStageParts(s, c, l, r, (p, filtered));
    }

    /** The size ramp, then the mono mix of one input pair through the pre-delay: the smoothed delayed sample. */
    method PreDelayStage(c: ReverbEffect.Controls, l: real, r: real) returns (y: real)
      requires Valid() && TankModel.ReadFits(20000.0 * c.preDelay, ReverbEffect.PredelayCapacity)
      modifies this`sizeCurrent, predelay, predelayFilter
      ensures Valid()
      ensures (Model(), y) == ReverbEffect.PreDelayed(old(Model()).(sizeCurrent := Ramp.Next(old(sizeCurrent), c.size)), 0.5 * (l + r), 20000.0 * c.preDelay)
    {
      ghost var s := Model();
      Glide(c.size);
      ghost var g := Model();
      y := PreDelay(0.5 * (l + r), 20000.0 * c.preDelay);
      assert g == s.(sizeCurrent := Ramp.Next(s.sizeCurrent, c.size));
    }

    /** The ramp of `sizeCurrent_` toward `target`, one step of `Ramp.Step` per sample; nothing else changes. */
    method Glide(target: real)
      requires Valid()
      modifies this`sizeCurrent
      ensures Valid()
      ensures Model() == old(Model()).(sizeCurrent := Ramp.Next(old(sizeCurrent), target))
    {
      if sizeCurrent < target {
        sizeCurrent := sizeCurrent + Ramp.Step;
      } else if sizeCurrent > target {
        sizeCurrent := sizeCurrent - Ramp.Step;
      }
    }

    /**
     * `x` written to the pre-delay line, read back `offset` samples later and smoothed by
     * `predelayFilter_` with gains 0.9995 and 0.0005; nothing else changes.
     */
    method PreDelay(x: real, offset: real) returns (y: real)
      requires Valid() && TankModel.ReadFits(offset, ReverbEffect.PredelayCapacity)
      modifies predelay, predelayFilter
      ensures Valid()
      ensures (Model(), y) == ReverbEffect.PreDelayed(old(Model()), x, offset)
    {
      predelay.Write(x);
      var delayed := predelay.Read(offset);
      y := predelayFilter.Process(delayed, 0.9995, 1.0 - 0.9995);
      ReverbTanks.Untouched(tank);
    }

    /** The four diffusers in series on `x`, each read at `sizeCurrent_ * ap.size() - 1`; nothing else changes. */
    method Diffuse(x: real) returns (y: real)
      requires Valid() && ReverbEffect.DiffusersFit(Model().diffusers, sizeCurrent)
      modifies DiffuserRepr
      ensures Valid()
      ensures (Model(), y) == ReverbEffect.Diffused(old(Model()), x)
    {
      y := DiffuseAll(x);
    }

    /** The loop over `inputDiffusionAps_`. */
    method DiffuseAll(x: real) returns (y: real)
      requires DiffusersReady() && ReverbEffect.DiffusersFit(DiffuserModels(), sizeCurrent)
      modifies DiffuserRepr
      ensures DiffusersReady()
      ensures (DiffuserModels(), y) == ReverbEffect.Diffuse(old(DiffuserModels()), x, sizeCurrent)
    {
      ghost var aps := DiffuserModels();
      y := x;
      var i := 0;
      while i < |diffusers|
        invariant 0 <= i <= 4 && DiffusersReady()
        invariant (DiffuserModels(), y) == ReverbEffect.DiffuseUpTo(aps, x, sizeCurrent, i)
      {
        y := DiffuseOne(i, y);
        i := i + 1;
      }
      ReverbEffect.DiffuseUpToAll(aps, x, sizeCurrent);
    }

    /** Diffuser `i` on `x`, read at `sizeCurrent_ * ap.size() - 1`; the other three are untouched. */
    method DiffuseOne(i: nat, x: real) returns (y: real)
      requires DiffusersReady() && i < 4
      requires var n := |DiffuserModels()[i].line.buf|; TankModel.ReadFits(TankModel.LineOffset(sizeCurrent, n), n)
      modifies DiffuserRepr
      ensures DiffusersReady()
      ensures var ap := old(DiffuserModels())[i];
              var next := AllpassModel.Process(ap, x, Ring.Ceil(TankModel.LineOffset(sizeCurrent, |ap.line.buf|)));
              DiffuserModels() == old(DiffuserModels())[i := next.0] && y == next.1
    {
      var ap := diffusers[i];
      var n := ap.Size();
      y := ap.Process(x, TankModel.LineOffset(sizeCurrent, n));
    }

    /** `reverbTank_.process` on `x` at the current size; nothing else changes. */
    method Reverberate(sine: real -> real, x: real, c: ReverbEffect.Controls) returns (wetL: real, wetR: real)
      requires Valid() && Model().tank.fs != 0.0
      requires TankModel.Fits(Model().tank, sizeCurrent, TankModel.Lfo(ReverbBlock.Wave(sine, Model()), c.depth))
      modifies tank.Repr
      ensures Valid()
      ensures (Model(), wetL, wetR) == ReverbEffect.Reverberated(old(Model()), c, ReverbBlock.Wave(sine, old(Model())), x)
    {
      wetL, wetR := tank.Process(sine, x, sizeCurrent, c.decay, c.damping, c.speed, c.depth);
    }

    /** `getStateInformation` saves nothing: the data written is empty and nothing changes. */
    method GetStateInformation() returns (data: seq<bv8>)
      ensures data == []
    {
      data := [];
    }

    /** `setStateInformation` ignores its data: the controls and the audio state stay as they were. */
    method SetStateInformation(data: seq<bv8>)
      ensures Controls() == old(Controls())
    {
    }
  }
}
