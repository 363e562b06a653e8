/**
 * Value-level model of the ping-pong delay's per-sample loop: the time ramp, the two
 * reads at offset `size*currentTime - 1`, the cross-feedback writes and the wet/dry mix.
 */
module DelayEffect {
  import Ring
  import Ramp

  /** Capacity of each of the two lines, `1024 * 100`. */
  const Capacity: nat := 102400

  /** The three controls as read once at the top of a block. */
  datatype Params = Params(mix: real, time: real, feedback: real)

  /** `currentTime_` and the two delay lines. */
  datatype State = State(time: real, left: Ring.Line, right: Ring.Line)

  predicate Valid(s: State)
  {
    Ring.Valid(s.left) && Ring.Valid(s.right) &&
    |s.left.buf| == Capacity && |s.right.buf| == Capacity
  }

  /** The integer offset both lines are read at for ramp value `time`. */
  function Offset(time: real): int
  {
    Ring.Ceil(Capacity as real * time - 1.0)
  }

  /** The reads stay inside the lines. */
  predicate InRange(time: real)
  {
    0 <= Offset(time) <= Capacity
  }

  /**
   * A block-level condition under which every read of the block stays inside the lines:
   * the ramp's band `[Low, High]` lies in `(0, 1 + 1/Capacity]`. The control range
   * `[0.01, 1]` meets it.
   */
  predicate Safe(current: real, target: real)
  {
    0.0 < Ramp.Low(current, target) &&
    Capacity as real * Ramp.High(current, target) <= Capacity as real + 1.0
  }

  /** Every ramp value a safe block can reach reads in range, and the next sample is safe too. */
  lemma SafeStep(current: real, target: real)
    requires Safe(current, target)
    ensures InRange(Ramp.Next(current, target))
    ensures Safe(Ramp.Next(current, target), target)
  {
    var t := Ramp.Next(current, target);
    Ramp.NextStaysInBand(current, target);
    var hi := Ramp.High(current, target);
    assert Capacity as real * t <= Capacity as real * hi;
    var c := Offset(t);
    assert c as real - 1.0 < Capacity as real * t - 1.0 <= c as real;
  }

  /** One sample: ramp, read both lines, write the cross-fed samples, mix. */
  function Step(s: State, p: Params, left: real, right: real): (r: (State, real, real))
    requires Valid(s) && InRange(Ramp.Next(s.time, p.time))
    ensures Valid(r.0)
  {
    var t := Ramp.Next(s.time, p.time);
    var delayedL := Ring.Read(s.left, Offset(t));
    var delayedR := Ring.Read(s.right, Offset(t));
    (State(t, Ring.Write(s.left, left + Ring.Gain(p.feedback, delayedR)),
              Ring.Write(s.right, right + Ring.Gain(p.feedback, delayedL))),
     Ring.Gain(p.mix, delayedL) + Ring.Gain(1.0 - p.mix, left),
     Ring.Gain(p.mix, delayedR) + Ring.Gain(1.0 - p.mix, right))
  }

  /** A block: the samples `ls`, `rs` in order with the same controls; the new state and both outputs. */
  function Run(s: State, p: Params, ls: seq<real>, rs: seq<real>): (r: (State, seq<real>, seq<real>))
    requires Valid(s) && Safe(s.time, p.time) && |ls| == |rs|
    ensures Valid(r.0) && Safe(r.0.time, p.time)
    ensures |r.1| == |r.2| == |ls|
    decreases |ls|
  {
    if ls == [] then (s, [], [])
    else
      var k := |ls| - 1;
      var prev := Run(s, p, ls[..k], rs[..k]);
      SafeStep(prev.0.time, p.time);
      var next := Step(prev.0, p, ls[k], rs[k]);
      (next.0, prev.1 + [next.1], prev.2 + [next.2])
  }

  /** `Run` on a non-empty block is `Run` on all but the last sample, then one `Step`. */
  lemma RunLast(s: State, p: Params, ls: seq<real>, rs: seq<real>)
    requires Valid(s) && Safe(s.time, p.time) && |ls| == |rs| && ls != []
    ensures var k := |ls| - 1;
            var prev := Run(s, p, ls[..k], rs[..k]);
            InRange(Ramp.Next(prev.0.time, p.time)) &&
            var next := Step(prev.0, p, ls[k], rs[k]);
            Run(s, p, ls, rs) == (next.0, prev.1 + [next.1], prev.2 + [next.2])
  {
    var k := |ls| - 1;
    SafeStep(Run(s, p, ls[..k], rs[..k]).0.time, p.time);
  }

  /** `Run` on the first `i + 1` samples is `Run` on the first `i`, then one `Step`. */
  lemma RunExtend(s: State, p: Params, ls: seq<real>, rs: seq<real>, i: nat)
    requires Valid(s) && Safe(s.time, p.time) && |ls| == |rs| && i < |ls|
    ensures var prev := Run(s, p, ls[..i], rs[..i]);
            InRange(Ramp.Next(prev.0.time, p.time)) &&
            var next := Step(prev.0, p, ls[i], rs[i]);
            Run(s, p, ls[..i + 1], rs[..i + 1]) == (next.0, prev.1 + [next.1], prev.2 + [next.2])
  {
    RunLast(s, p, ls[..i + 1], rs[..i + 1]);
    assert ls[..i + 1][..i] == ls[..i] && rs[..i + 1][..i] == rs[..i];
  }

  /** The ramp after a block is the ramp iterated once per sample; the controls never change inside the block. */
  lemma {:induction false} RunTime(s: State, p: Params, ls: seq<real>, rs: seq<real>)
    requires Valid(s) && Safe(s.time, p.time) && |ls| == |rs|
    ensures Run(s, p, ls, rs).0.time == Ramp.Iterate(s.time, p.time, |ls|)
    decreases |ls|
  {
    if ls != [] {
      var k := |ls| - 1;
      RunTime(s, p, ls[..k], rs[..k]);
      RunLast(s, p, ls, rs);
    }
  }

  /** After `prepareToPlay` the ramp equals its target, and a block with that target never moves it. */
  lemma PreparedRampStaysPut(s: State, p: Params, ls: seq<real>, rs: seq<real>)
    requires Valid(s) && Safe(s.time, p.time) && |ls| == |rs| && s.time == p.time
    ensures Run(s, p, ls, rs).0.time == p.time
  {
    RunTime(s, p, ls, rs);
    Ramp.SettledStaysPut(p.time, |ls|);
  }

  /** With `mix == 0` both outputs are the dry inputs, exactly. */
  lemma {:induction false} MixZeroIsDry(s: State, p: Params, ls: seq<real>, rs: seq<real>)
    requires Valid(s) && Safe(s.time, p.time) && |ls| == |rs| && p.mix == 0.0
    ensures Run(s, p, ls, rs).1 == ls && Run(s, p, ls, rs).2 == rs
    decreases |ls|
  {
    if ls != [] {
      var k := |ls| - 1;
      MixZeroIsDry(s, p, ls[..k], rs[..k]);
      RunLast(s, p, ls, rs);
      assert ls == ls[..k] + [ls[k]] && rs == rs[..k] + [rs[k]];
    }
  }

  /** Silent lines fed silence stay silent and every output sample is zero. */
  lemma {:induction false} Silence(s: State, p: Params, ls: seq<real>, rs: seq<real>)
    requires Valid(s) && Safe(s.time, p.time) && |ls| == |rs|
    requires Ring.Quiet(s.left) && Ring.Quiet(s.right)
    requires forall k :: 0 <= k < |ls| ==> ls[k] == 0.0 && rs[k] == 0.0
    ensures var r := Run(s, p, ls, rs);
            Ring.Quiet(r.0.left) && Ring.Quiet(r.0.right) &&
            (forall k :: 0 <= k < |ls| ==> r.1[k] == 0.0 && r.2[k] == 0.0)
    decreases |ls|
  {
    if ls != [] {
      var k := |ls| - 1;
      Silence(s, p, ls[..k], rs[..k]);
      RunLast(s, p, ls, rs);
      var prev := Run(s, p, ls[..k], rs[..k]).0;
      Ring.QuietWrite(prev.left);
      Ring.QuietWrite(prev.right);
      var d := Offset(Ramp.Next(prev.time, p.time));
      assert Ring.Read(prev.left, d) == 0.0 && Ring.Read(prev.right, d) == 0.0;
      assert Ring.Write(prev.left, ls[k] + Ring.Gain(p.feedback, 0.0)) == Ring.Write(prev.left, 0.0);
      assert Ring.Write(prev.right, rs[k] + Ring.Gain(p.feedback, 0.0)) == Ring.Write(prev.right, 0.0);
    }
  }

  /** What a block writes into the lines and puts out, as signals. */
  datatype Trace = Trace(time: real, wl: seq<real>, wr: seq<real>, outL: seq<real>, outR: seq<real>)

  /**
   * One sample of the loop as a recurrence on signals: `hl`, `hr` are what the lines held
   * before the block, `prev` what the block wrote and put out so far. The sample entering
   * each line is the dry input plus `feedback` times what the other line received `d`
   * samples ago, `d` being the offset of the new ramp value; each output mixes what its own
   * line received `d` samples ago with the dry input.
   */
  function Tick(hl: seq<real>, hr: seq<real>, p: Params, prev: Trace, left: real, right: real): Trace
  {
    var t := Ramp.Next(prev.time, p.time);
    var d := Ring.Lag(Offset(t), Capacity);
    var delayedL := Ring.Past(hl + prev.wl, d);
    var delayedR := Ring.Past(hr + prev.wr, d);
    Trace(t,
          prev.wl + [left + Ring.Gain(p.feedback, delayedR)],
          prev.wr + [right + Ring.Gain(p.feedback, delayedL)],
          prev.outL + [Ring.Gain(p.mix, delayedL) + Ring.Gain(1.0 - p.mix, left)],
          prev.outR + [Ring.Gain(p.mix, delayedR) + Ring.Gain(1.0 - p.mix, right)])
  }

  /** The whole block as that recurrence, starting from the ramp value `c`. */
  function Reference(hl: seq<real>, hr: seq<real>, c: real, p: Params, ls: seq<real>, rs: seq<real>): (t: Trace)
    requires |ls| == |rs|
    ensures |t.wl| == |t.wr| == |t.outL| == |t.outR| == |ls|
    decreases |ls|
  {
    if ls == [] then Trace(c, [], [], [], [])
    else
      var k := |ls| - 1;
      Tick(hl, hr, p, Reference(hl, hr, c, p, ls[..k], rs[..k]), ls[k], rs[k])
  }

  /** The state holding the histories `hl`, `hr` with the ramp at `c`. */
  function Recorded(c: real, hl: seq<real>, hr: seq<real>): (s: State)
    ensures Valid(s)
  {
    State(c, Ring.Record(hl, Capacity), Ring.Record(hr, Capacity))
  }

  /** The ring-buffer loop computes the recurrence: same outputs, and lines holding the histories extended by what was written. */
  lemma {:induction false} RunMatchesReference(hl: seq<real>, hr: seq<real>, c: real, p: Params, ls: seq<real>, rs: seq<real>)
    requires Safe(c, p.time) && |ls| == |rs|
    ensures var t := Reference(hl, hr, c, p, ls, rs);
            Run(Recorded(c, hl, hr), p, ls, rs) == (Recorded(t.time, hl + t.wl, hr + t.wr), t.outL, t.outR)
    decreases |ls|
  {
    if ls == [] {
      assert hl + [] == hl && hr + [] == hr;
    } else {
      var k := |ls| - 1;
      RunMatchesReference(hl, hr, c, p, ls[..k], rs[..k]);
      RunLast(Recorded(c, hl, hr), p, ls, rs);
      var prev := Reference(hl, hr, c, p, ls[..k], rs[..k]);
      StepRecorded(hl, hr, p, prev, ls[k], rs[k]);
    }
  }

  /** One sample on lines that hold the histories `hl + prev.wl`, `hr + prev.wr` is one `Tick`. */
  lemma StepRecorded(hl: seq<real>, hr: seq<real>, p: Params, prev: Trace, left: real, right: real)
    requires InRange(Ramp.Next(prev.time, p.time))
    ensures var t := Tick(hl, hr, p, prev, left, right);
            Step(Recorded(prev.time, hl + prev.wl, hr + prev.wr), p, left, right) ==
              (Recorded(t.time, hl + t.wl, hr + t.wr), t.outL[|prev.outL|], t.outR[|prev.outR|])
  {
    var t := Ramp.Next(prev.time, p.time);
    var d := Offset(t);
    Ring.ReadRecord(hl + prev.wl, Capacity, d);
    Ring.ReadRecord(hr + prev.wr, Capacity, d);
    var next := Tick(hl, hr, p, prev, left, right);
    var wl := next.wl[|prev.wl|];
    var wr := next.wr[|prev.wr|];
    assert hl + next.wl == (hl + prev.wl) + [wl];
    assert hr + next.wr == (hr + prev.wr) + [wr];
    Ring.RecordSnoc(hl + prev.wl, Capacity, wl);
    Ring.RecordSnoc(hr + prev.wr, Capacity, wr);
  }

  /** Sample `k` of a plain echo: the signal `d` samples back (after the history `h`) mixed with the dry sample. */
  function Echo(h: seq<real>, xs: seq<real>, mix: real, d: int, k: nat): real
    requires k < |xs|
  {
    Ring.Gain(mix, Ring.Past(h + xs[..k], d)) + Ring.Gain(1.0 - mix, xs[k])
  }

  /**
   * Without feedback and with the ramp settled on its target, each line receives exactly
   * its dry input, and each output mixes the input `d` samples back (`d` the settled
   * offset, 0 aliasing the capacity) with the current dry input.
   */
  lemma {:induction false} SettledEcho(hl: seq<real>, hr: seq<real>, p: Params, ls: seq<real>, rs: seq<real>)
    requires p.feedback == 0.0 && |ls| == |rs|
    ensures var t := Reference(hl, hr, p.time, p, ls, rs);
            var d := Ring.Lag(Offset(p.time), Capacity);
            t.time == p.time && t.wl == ls && t.wr == rs &&
            (forall k :: 0 <= k < |ls| ==> t.outL[k] == Echo(hl, ls, p.mix, d, k) && t.outR[k] == Echo(hr, rs, p.mix, d, k))
    decreases |ls|
  {
    if ls != [] {
      var k := |ls| - 1;
      var d := Ring.Lag(Offset(p.time), Capacity);
      SettledEcho(hl, hr, p, ls[..k], rs[..k]);
      var prev := Reference(hl, hr, p.time, p, ls[..k], rs[..k]);
      SettledTick(hl, hr, p, prev, ls, rs);
      EchoExtend(hl, ls, p.mix, d, prev.outL);
      EchoExtend(hr, rs, p.mix, d, prev.outR);
    }
  }

  /** Echo samples of all but the last input, followed by the last echo sample, are the echo of the whole input. */
  lemma EchoExtend(h: seq<real>, xs: seq<real>, mix: real, d: int, outs: seq<real>)
    requires xs != [] && |outs| == |xs| - 1
    requires forall j :: 0 <= j < |outs| ==> outs[j] == Echo(h, xs[..|xs| - 1], mix, d, j)
    ensures var all := outs + [Echo(h, xs, mix, d, |xs| - 1)];
            forall j :: 0 <= j < |xs| ==> all[j] == Echo(h, xs, mix, d, j)
  {
    var k := |xs| - 1;
    forall j | 0 <= j < k
      ensures outs[j] == Echo(h, xs, mix, d, j)
    {
      EchoPrefix(h, xs, mix, d, j, k);
    }
  }

  /** One settled, feedback-free `Tick`: each line receives its dry input and each output gains one echo sample. */
  lemma SettledTick(hl: seq<real>, hr: seq<real>, p: Params, prev: Trace, ls: seq<real>, rs: seq<real>)
    requires p.feedback == 0.0 && ls != [] && |ls| == |rs|
    requires prev.time == p.time && prev.wl == ls[..|ls| - 1] && prev.wr == rs[..|rs| - 1]
    ensures var d := Ring.Lag(Offset(p.time), Capacity);
            var k := |ls| - 1;
            Tick(hl, hr, p, prev, ls[k], rs[k]) ==
              Trace(p.time, ls, rs, prev.outL + [Echo(hl, ls, p.mix, d, k)], prev.outR + [Echo(hr, rs, p.mix, d, k)])
  {
    var k := |ls| - 1;
    assert ls[..k] + [ls[k]] == ls && rs[..k] + [rs[k]] == rs;
  }

  /** An echo sample depends only on the signal up to that sample. */
  lemma EchoPrefix(h: seq<real>, xs: seq<real>, mix: real, d: int, j: nat, k: nat)
    requires j < k <= |xs|
    ensures Echo(h, xs[..k], mix, d, j) == Echo(h, xs, mix, d, j)
  {
    assert xs[..k][..j] == xs[..j];
  }

  /**
   * A left impulse into the freshly constructed delay, with `feedback == 0`, `mix == 1`
   * and the ramp settled at an offset `d >= 1`, comes out on the left at sample `d` and
   * nowhere else; the right output stays silent.
   */
  lemma Impulse(p: Params, ls: seq<real>, rs: seq<real>)
    requires p.feedback == 0.0 && p.mix == 1.0 && Safe(p.time, p.time)
    requires 1 <= Offset(p.time) && |ls| == |rs|
    requires ls != [] && ls[0] == 1.0
    requires forall k :: 1 <= k < |ls| ==> ls[k] == 0.0
    requires forall k :: 0 <= k < |rs| ==> rs[k] == 0.0
    ensures var empty := Ring.Empty(Capacity);
            var r := Run(State(p.time, empty, empty), p, ls, rs);
            forall k :: 0 <= k < |ls| ==> r.1[k] == (if k == Offset(p.time) then 1.0 else 0.0) && r.2[k] == 0.0
  {
    var empty := Ring.Empty(Capacity);
    assert Recorded(p.time, [], []) == State(p.time, empty, empty);
    RunMatchesReference([], [], p.time, p, ls, rs);
    ImpulseReference(p, ls, rs);
  }

  /** `Impulse` for the recurrence. */
  lemma ImpulseReference(p: Params, ls: seq<real>, rs: seq<real>)
    requires p.feedback == 0.0 && p.mix == 1.0
    requires 1 <= Offset(p.time) && |ls| == |rs|
    requires ls != [] && ls[0] == 1.0
    requires forall k :: 1 <= k < |ls| ==> ls[k] == 0.0
    requires forall k :: 0 <= k < |rs| ==> rs[k] == 0.0
    ensures var t := Reference([], [], p.time, p, ls, rs);
            forall k :: 0 <= k < |ls| ==> t.outL[k] == (if k == Offset(p.time) then 1.0 else 0.0) && t.outR[k] == 0.0
  {
    SettledEcho([], [], p, ls, rs);
    var t := Reference([], [], p.time, p, ls, rs);
    var d := Offset(p.time);
    assert Ring.Lag(d, Capacity) == d;
    forall k | 0 <= k < |ls|
      ensures t.outL[k] == (if k == d then 1.0 else 0.0) && t.outR[k] == 0.0
    {
      EchoOfImpulse(ls, d, k);
      EchoOfImpulse(rs, d, k);
    }
  }

  /** A fully wet echo at offset `d >= 1` of a signal that is zero after sample 0. */
  lemma EchoOfImpulse(xs: seq<real>, d: int, k: nat)
    requires 1 <= d && k < |xs|
    requires forall j :: 1 <= j < |xs| ==> xs[j] == 0.0
    ensures Echo([], xs, 1.0, d, k) == (if k == d then xs[0] else 0.0)
  {
    assert [] + xs[..k] == xs[..k];
  }
}
