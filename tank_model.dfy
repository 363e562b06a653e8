/**
 * Value-level model of `ReverbTank::process`: the figure-eight tank of a plate reverb.
 * Each half is a modulated diffuser, a delay line, a damping filter, a second
 * diffuser and a second delay line; each half is fed by the other half's second line,
 * and fourteen taps on the tank, scaled by the sample-rate ratio, form the two outputs.
 * The LFO value `mod` is an input of a step; `Lfo` says how the tank computes it.
 */
module TankModel {
  import Ring
  import AllpassModel
  import OnePole

  /** `Diffusion1BaseDelayLeft`, the nominal length of the left modulated diffuser. */
  const Diffusion1BaseLeft: nat := 2 * 995
  /** `Diffusion1BaseDelayRight`. */
  const Diffusion1BaseRight: nat := 2 * 1345
  /** The sample rate the output tap positions were chosen for; they scale by `fs / 29761`. */
  const ReferenceRate: real := 29761.0

  /** One half of the tank: first diffuser, second diffuser, first line, damping filter state `filter`, second line. */
  datatype Half = Half(ap1: AllpassModel.AllpassState, ap2: AllpassModel.AllpassState,
                       d1: Ring.Line, filter: real, d2: Ring.Line)

  /** Both halves, the sample rate `fs_` and the LFO phase `modPhase_`. */
  datatype Tank = Tank(left: Half, right: Half, fs: real, modPhase: real)

  /** Capacities and gains of one half as constructed. */
  predicate HalfValid(h: Half, base: nat, ap2Size: nat, d1Size: nat, d2Size: nat)
  {
    AllpassModel.Valid(h.ap1) && |h.ap1.line.buf| == base + 128 && h.ap1.fbGain == 0.7 && h.ap1.ffGain == -0.7 &&
    AllpassModel.Valid(h.ap2) && |h.ap2.line.buf| == ap2Size && h.ap2.fbGain == -0.5 && h.ap2.ffGain == 0.5 &&
    Ring.Valid(h.d1) && |h.d1.buf| == d1Size && Ring.Valid(h.d2) && |h.d2.buf| == d2Size
  }

  /** The left half is sized 2118, 5334, 13196, 11024 and the right half 2818, 7870, 12496, 9374. */
  predicate Valid(t: Tank)
  {
    HalfValid(t.left, Diffusion1BaseLeft, 2 * 2667, 2 * 6598, 2 * 5512) &&
    HalfValid(t.right, Diffusion1BaseRight, 2 * 3935, 2 * 6248, 2 * 4687)
  }

  /** A new tank: every line silent, both damping filters at rest, phase 0; `fs` is whatever was set. */
  function Initial(fs: real): (t: Tank)
    ensures Valid(t)
  {
    Tank(Half(AllpassModel.AllpassState(Ring.Empty(Diffusion1BaseLeft + 128), 0.7, -0.7),
              AllpassModel.AllpassState(Ring.Empty(2 * 2667), -0.5, 0.5),
              Ring.Empty(2 * 6598), 0.0, Ring.Empty(2 * 5512)),
         Half(AllpassModel.AllpassState(Ring.Empty(Diffusion1BaseRight + 128), 0.7, -0.7),
              AllpassModel.AllpassState(Ring.Empty(2 * 3935), -0.5, 0.5),
              Ring.Empty(2 * 6248), 0.0, Ring.Empty(2 * 4687)),
         fs, 0.0)
  }

  /** `2 * 3.141592 * modPhase / fs`, the angle whose sine drives the LFO. */
  function Angle(modPhase: real, fs: real): real
    requires fs != 0.0
  {
    2.0 * 3.141592 * modPhase / fs
  }

  /** The LFO sample `sin(Angle(modPhase, fs)) * 128 * modDepth`, with `wave` the value of the sine. */
  function Lfo(wave: real, modDepth: real): real
  {
    wave * 128.0 * modDepth
  }

  /** `size * line.size() - 1`, the offset at which a line or diffuser of capacity `n` is read. */
  function LineOffset(size: real, n: nat): real
  {
    size * n as real - 1.0
  }

  /** `size * Diffusion1BaseDelay - 1 + mod`, the modulated offset of a first diffuser. */
  function ModOffset(size: real, base: nat, mod: real): real
  {
    size * base as real - 1.0 + mod
  }

  /** `2 * size * k * ratio`, the position of an output tap. */
  function TapOffset(size: real, k: real, ratio: real): real
  {
    2.0 * size * k * ratio
  }

  /** `read(x)` on a line of capacity `n` stays inside the buffer. */
  predicate ReadFits(x: real, n: nat)
  {
    0 <= Ring.Ceil(x) <= n
  }

  /** `tap(x)`: `x` converts to an unsigned index (it is not negative) and that index is in range. */
  predicate TapFits(x: real, n: nat)
  {
    0.0 <= x && x.Floor <= n
  }

  /** Every offset one half reads at is in range. */
  predicate HalfFits(h: Half, base: nat, size: real, mod: real)
  {
    ReadFits(ModOffset(size, base, mod), |h.ap1.line.buf|) &&
    ReadFits(LineOffset(size, |h.d1.buf|), |h.d1.buf|) &&
    ReadFits(LineOffset(size, |h.ap2.line.buf|), |h.ap2.line.buf|) &&
    ReadFits(LineOffset(size, |h.d2.buf|), |h.d2.buf|)
  }

  /**
   * The output taps stay in range. The tap nearest to its line's end relative to the line's
   * length is 3627 on the left first line (13196), so bounding that one bounds all.
   */
  predicate TapsFit(size: real, ratio: real)
  {
    0.0 <= size && 0.0 <= ratio && TapOffset(size, 3627.0, ratio) <= 13196.0
  }

  /** Every read and tap of one `process` call is in range. */
  predicate Fits(t: Tank, size: real, mod: real)
  {
    HalfFits(t.left, Diffusion1BaseLeft, size, mod) &&
    HalfFits(t.right, Diffusion1BaseRight, size, mod) &&
    TapsFit(size, t.fs / ReferenceRate)
  }

  /** The bound on the 3627 tap bounds all fourteen taps. */
  lemma TapsInRange(size: real, ratio: real)
    requires TapsFit(size, ratio)
    ensures ReadFits(TapOffset(size, 266.0, ratio), 2 * 6248) && ReadFits(TapOffset(size, 2974.0, ratio), 2 * 6248)
    ensures TapFits(TapOffset(size, 1913.0, ratio), 2 * 3935) && ReadFits(TapOffset(size, 1996.0, ratio), 2 * 4687)
    ensures ReadFits(TapOffset(size, 1990.0, ratio), 2 * 6598) && TapFits(TapOffset(size, 187.0, ratio), 2 * 2667)
    ensures ReadFits(TapOffset(size, 1066.0, ratio), 2 * 5512)
    ensures ReadFits(TapOffset(size, 353.0, ratio), 2 * 6598) && ReadFits(TapOffset(size, 3627.0, ratio), 2 * 6598)
    ensures TapFits(TapOffset(size, 1228.0, ratio), 2 * 2667) && ReadFits(TapOffset(size, 2673.0, ratio), 2 * 5512)
    ensures ReadFits(TapOffset(size, 2111.0, ratio), 2 * 4687) && TapFits(TapOffset(size, 335.0, ratio), 2 * 3935)
    ensures ReadFits(TapOffset(size, 121.0, ratio), 2 * 4687)
  {
    OnePole.NonNegativeProduct(size, ratio);
  }

  /** One half of `process`: `input` enters the first diffuser and `fed` is the decayed sample from the other half. */
  function HalfStep(h: Half, base: nat, input: real, fed: real, size: real, decay: real, damping: real, mod: real): (r: Half)
    requires AllpassModel.Valid(h.ap1) && AllpassModel.Valid(h.ap2) && Ring.Valid(h.d1) && Ring.Valid(h.d2)
    requires HalfFits(h, base, size, mod)
    ensures AllpassModel.Valid(r.ap1) && AllpassModel.Valid(r.ap2) && Ring.Valid(r.d1) && Ring.Valid(r.d2)
    ensures |r.ap1.line.buf| == |h.ap1.line.buf| && |r.ap2.line.buf| == |h.ap2.line.buf|
    ensures |r.d1.buf| == |h.d1.buf| && |r.d2.buf| == |h.d2.buf|
    ensures r.ap1.fbGain == h.ap1.fbGain && r.ap1.ffGain == h.ap1.ffGain
    ensures r.ap2.fbGain == h.ap2.fbGain && r.ap2.ffGain == h.ap2.ffGain
  {
    var a1 := AllpassModel.Process(h.ap1, input, Ring.Ceil(ModOffset(size, base, mod)));
    var d1 := Ring.Write(h.d1, a1.1 + fed);
    var damped := OnePole.Filter(h.filter, Ring.Read(d1, Ring.Ceil(LineOffset(size, |h.d1.buf|))), 1.0 - damping, damping);
    var a2 := AllpassModel.Process(h.ap2, Ring.Gain(decay, damped), Ring.Ceil(LineOffset(size, |h.ap2.line.buf|)));
    Half(a1.0, a2.0, d1, damped, Ring.Write(h.d2, a2.1))
  }

  /** The fourteen-tap output mix, read from the tank after both halves ran. */
  function Outputs(t: Tank, size: real): (real, real)
    requires Valid(t) && TapsFit(size, t.fs / ReferenceRate)
  {
    var q := t.fs / ReferenceRate;
    TapsInRange(size, q);
    var l, r := t.left, t.right;
    (0.0
     + 0.6 * Ring.Read(r.d1, Ring.Ceil(TapOffset(size, 266.0, q)))
     + 0.6 * Ring.Read(r.d1, Ring.Ceil(TapOffset(size, 2974.0, q)))
     - 0.6 * Ring.Read(r.ap2.line, TapOffset(size, 1913.0, q).Floor)
     + 0.6 * Ring.Read(r.d2, Ring.Ceil(TapOffset(size, 1996.0, q)))
     - 0.6 * Ring.Read(l.d1, Ring.Ceil(TapOffset(size, 1990.0, q)))
     - 0.6 * Ring.Read(l.ap2.line, TapOffset(size, 187.0, q).Floor)
     - 0.6 * Ring.Read(l.d2, Ring.Ceil(TapOffset(size, 1066.0, q))),
     0.0
     + 0.6 * Ring.Read(l.d1, Ring.Ceil(TapOffset(size, 353.0, q)))
     + 0.6 * Ring.Read(l.d1, Ring.Ceil(TapOffset(size, 3627.0, q)))
     - 0.6 * Ring.Read(l.ap2.line, TapOffset(size, 1228.0, q).Floor)
     + 0.6 * Ring.Read(l.d2, Ring.Ceil(TapOffset(size, 2673.0, q)))
     - 0.6 * Ring.Read(r.d2, Ring.Ceil(TapOffset(size, 2111.0, q)))
     - 0.6 * Ring.Read(r.ap2.line, TapOffset(size, 335.0, q).Floor)
     - 0.6 * Ring.Read(r.d2, Ring.Ceil(TapOffset(size, 121.0, q))))
  }

  /** The decayed sample one half receives from the other half's second line. */
  function Fed(other: Ring.Line, size: real, decay: real): real
    requires Ring.Valid(other) && ReadFits(LineOffset(size, |other.buf|), |other.buf|)
  {
    Ring.Gain(decay, Ring.Read(other, Ring.Ceil(LineOffset(size, |other.buf|))))
  }

  /**
   * The state half of `process(input, size, decay, damping, modRate, modDepth)` with the LFO
   * sample `mod`: the phase advances by `3 * modRate`, the left half runs fed from the right
   * half's second line, then the right half runs fed from the left half's second line as the
   * left half has just left it.
   */
  function Advance(t: Tank, input: real, size: real, decay: real, damping: real, modRate: real, mod: real): (r: Tank)
    requires Valid(t) && Fits(t, size, mod)
    ensures Valid(r) && r.fs == t.fs
  {
    var left := HalfStep(t.left, Diffusion1BaseLeft, input, Fed(t.right.d2, size, decay), size, decay, damping, mod);
    var right := HalfStep(t.right, Diffusion1BaseRight, input, Fed(left.d2, size, decay), size, decay, damping, mod);
    Tank(left, right, t.fs, t.modPhase + 3.0 * modRate)
  }

  /** `process`: the tank advances, then the taps are read from the new tank. */
  function Step(t: Tank, input: real, size: real, decay: real, damping: real, modRate: real, mod: real): (r: (Tank, real, real))
    requires Valid(t) && Fits(t, size, mod)
    ensures Valid(r.0) && r.0.fs == t.fs
  {
    var next := Advance(t, input, size, decay, damping, modRate, mod);
    var out := Outputs(next, size);
    (next, out.0, out.1)
  }

  /** Every line of one half took exactly one write. */
  predicate HalfOneWrite(before: Half, after: Half)
  {
    Ring.OneWrite(before.ap1.line, after.ap1.line) && Ring.OneWrite(before.ap2.line, after.ap2.line) &&
    Ring.OneWrite(before.d1, after.d1) && Ring.OneWrite(before.d2, after.d2)
  }

  lemma HalfWritesOnce(h: Half, base: nat, input: real, fed: real, size: real, decay: real, damping: real, mod: real)
    requires AllpassModel.Valid(h.ap1) && AllpassModel.Valid(h.ap2) && Ring.Valid(h.d1) && Ring.Valid(h.d2)
    requires HalfFits(h, base, size, mod)
    ensures HalfOneWrite(h, HalfStep(h, base, input, fed, size, decay, damping, mod))
  {
    var a1 := AllpassModel.Process(h.ap1, input, Ring.Ceil(ModOffset(size, base, mod)));
    Ring.WriteChangesOneSlot(h.ap1.line, input + Ring.Gain(h.ap1.fbGain, a1.1));
    Ring.WriteChangesOneSlot(h.d1, a1.1 + fed);
    var d1 := Ring.Write(h.d1, a1.1 + fed);
    var damped := OnePole.Filter(h.filter, Ring.Read(d1, Ring.Ceil(LineOffset(size, |h.d1.buf|))), 1.0 - damping, damping);
    var a2 := AllpassModel.Process(h.ap2, Ring.Gain(decay, damped), Ring.Ceil(LineOffset(size, |h.ap2.line.buf|)));
    Ring.WriteChangesOneSlot(h.ap2.line, Ring.Gain(decay, damped) + Ring.Gain(h.ap2.fbGain, a2.1));
    Ring.WriteChangesOneSlot(h.d2, a2.1);
  }

  /**
   * One `process` call writes each of the eight lines exactly once (one slot changes and the
   * cursor advances), keeps `fs`, and advances the LFO phase by `3 * modRate`.
   */
  lemma StepWritesOnce(t: Tank, input: real, size: real, decay: real, damping: real, modRate: real, mod: real)
    requires Valid(t) && Fits(t, size, mod)
    ensures var r := Step(t, input, size, decay, damping, modRate, mod).0;
            HalfOneWrite(t.left, r.left) && HalfOneWrite(t.right, r.right) &&
            r.fs == t.fs && r.modPhase == t.modPhase + 3.0 * modRate
  {
    var left := HalfStep(t.left, Diffusion1BaseLeft, input, Fed(t.right.d2, size, decay), size, decay, damping, mod);
    HalfWritesOnce(t.left, Diffusion1BaseLeft, input, Fed(t.right.d2, size, decay), size, decay, damping, mod);
    HalfWritesOnce(t.right, Diffusion1BaseRight, input, Fed(left.d2, size, decay), size, decay, damping, mod);
  }

  /**
   * The order of the halves: what enters the left first line is its diffuser's output plus
   * the decayed read of the right second line as it was before the call; what enters the
   * right first line reads the left second line after the left half wrote it.
   */
  lemma FeedbackOrder(t: Tank, input: real, size: real, decay: real, damping: real, modRate: real, mod: real)
    requires Valid(t) && Fits(t, size, mod)
    ensures var r := Step(t, input, size, decay, damping, modRate, mod).0;
            var yl := AllpassModel.Process(t.left.ap1, input, Ring.Ceil(ModOffset(size, Diffusion1BaseLeft, mod))).1;
            var yr := AllpassModel.Process(t.right.ap1, input, Ring.Ceil(ModOffset(size, Diffusion1BaseRight, mod))).1;
            r.left.d1.buf[t.left.d1.cursor] == yl + Fed(t.right.d2, size, decay) &&
            r.right.d1.buf[t.right.d1.cursor] == yr + Fed(r.left.d2, size, decay)
  {
    var left := HalfStep(t.left, Diffusion1BaseLeft, input, Fed(t.right.d2, size, decay), size, decay, damping, mod);
    var yl := AllpassModel.Process(t.left.ap1, input, Ring.Ceil(ModOffset(size, Diffusion1BaseLeft, mod))).1;
    var yr := AllpassModel.Process(t.right.ap1, input, Ring.Ceil(ModOffset(size, Diffusion1BaseRight, mod))).1;
    Ring.WriteChangesOneSlot(t.left.d1, yl + Fed(t.right.d2, size, decay));
    Ring.WriteChangesOneSlot(t.right.d1, yr + Fed(left.d2, size, decay));
  }

  /** Every line silent and both damping filters at rest. */
  predicate Quiet(t: Tank)
  {
    Ring.Quiet(t.left.ap1.line) && Ring.Quiet(t.left.ap2.line) && Ring.Quiet(t.left.d1) && Ring.Quiet(t.left.d2) &&
    Ring.Quiet(t.right.ap1.line) && Ring.Quiet(t.right.ap2.line) && Ring.Quiet(t.right.d1) && Ring.Quiet(t.right.d2) &&
    t.left.filter == 0.0 && t.right.filter == 0.0
  }

  /** A silent diffuser fed zero outputs zero and stays silent. */
  lemma QuietProcess(a: AllpassModel.AllpassState, d: int)
    requires AllpassModel.Valid(a) && Ring.Quiet(a.line) && 0 <= d <= |a.line.buf|
    ensures var r := AllpassModel.Process(a, 0.0, d);
            r.1 == 0.0 && Ring.Quiet(r.0.line)
  {
    Ring.QuietWrite(a.line);
  }

  lemma HalfSilence(h: Half, base: nat, fed: real, size: real, decay: real, damping: real, mod: real)
    requires AllpassModel.Valid(h.ap1) && AllpassModel.Valid(h.ap2) && Ring.Valid(h.d1) && Ring.Valid(h.d2)
    requires HalfFits(h, base, size, mod) && fed == 0.0
    requires Ring.Quiet(h.ap1.line) && Ring.Quiet(h.ap2.line) && Ring.Quiet(h.d1) && Ring.Quiet(h.d2) && h.filter == 0.0
    ensures var r := HalfStep(h, base, 0.0, fed, size, decay, damping, mod);
            Ring.Quiet(r.ap1.line) && Ring.Quiet(r.ap2.line) && Ring.Quiet(r.d1) && Ring.Quiet(r.d2) && r.filter == 0.0
  {
    QuietProcess(h.ap1, Ring.Ceil(ModOffset(size, base, mod)));
    Ring.QuietWrite(h.d1);
    var d1 := Ring.Write(h.d1, 0.0);
    Ring.QuietWrite(d1);
    QuietProcess(h.ap2, Ring.Ceil(LineOffset(size, |h.ap2.line.buf|)));
    Ring.QuietWrite(h.d2);
  }

  /** A silent tank fed silence stays silent and outputs silence, whatever the controls and the LFO. */
  lemma Silence(t: Tank, size: real, decay: real, damping: real, modRate: real, mod: real)
    requires Valid(t) && Fits(t, size, mod) && Quiet(t)
    ensures var r := Step(t, 0.0, size, decay, damping, modRate, mod);
            Quiet(r.0) && r.1 == 0.0 && r.2 == 0.0
  {
    Ring.QuietWrite(t.right.d2);
    HalfSilence(t.left, Diffusion1BaseLeft, Fed(t.right.d2, size, decay), size, decay, damping, mod);
    var left := HalfStep(t.left, Diffusion1BaseLeft, 0.0, Fed(t.right.d2, size, decay), size, decay, damping, mod);
    Ring.QuietWrite(left.d2);
    HalfSilence(t.right, Diffusion1BaseRight, Fed(left.d2, size, decay), size, decay, damping, mod);
    var right := HalfStep(t.right, Diffusion1BaseRight, 0.0, Fed(left.d2, size, decay), size, decay, damping, mod);
    Ring.QuietWrite(left.d1);
    Ring.QuietWrite(left.ap2.line);
    Ring.QuietWrite(right.d1);
    Ring.QuietWrite(right.d2);
    Ring.QuietWrite(right.ap2.line);
    TapsInRange(size, t.fs / ReferenceRate);
  }
}
