/**
 * The delay plugin's processor: three controls, the ramped delay time, two delay lines,
 * the in-place block loop and the saved-state record.
 */
module DelayPlugin {
  import Ring
  import Blocks
  import Ramp
  import DelayEffect
  import DelayLines
  import Parameters

  datatype Option<T> = None | Some(value: T)

  /** The flat record the state is saved as: a tag name and named numeric attributes. */
  datatype Record = Record(tag: string, attributes: map<string, real>)

  /** `getStateInformation`: a record tagged "Delay" with the three control values. */
  function Save(p: DelayEffect.Params): Record
  {
    Record("Delay", map["Mix" := p.mix, "Time" := p.time, "Feedback" := p.feedback])
  }

  /** `getDoubleAttribute(name, fallback)`: the attribute when present, else the fallback. */
  function Attribute(r: Record, name: string, fallback: real): real
  {
    if name in r.attributes then r.attributes[name] else fallback
  }

  /**
   * `setStateInformation`: `None` stands for data that does not decode to a record. Only a
   * record tagged "Delay" is applied; each missing attribute falls back to 0.3, 0.5, 0.3.
   */
  function Restore(current: DelayEffect.Params, data: Option<Record>): DelayEffect.Params
  {
    match data
    case None => current
    case Some(r) =>
      if r.tag == "Delay" then
        DelayEffect.Params(Attribute(r, "Mix", 0.3), Attribute(r, "Time", 0.5), Attribute(r, "Feedback", 0.3))
      else current
  }

  /** Saving and then restoring reproduces all three values, whatever the controls held before. */
  lemma RestoreSaved(current: DelayEffect.Params, p: DelayEffect.Params)
    ensures Restore(current, Some(Save(p))) == p
  {
  }

  /** Undecodable data or a record with another tag leaves the controls unchanged. */
  lemma RestoreIgnoresForeignData(current: DelayEffect.Params, data: Option<Record>)
    requires data.None? || data.value.tag != "Delay"
    ensures Restore(current, data) == current
  {
  }

  /** A "Delay" record without attributes restores the defaults 0.3, 0.5, 0.3. */
  lemma RestoreMissingAttributes(current: DelayEffect.Params)
    ensures Restore(current, Some(Record("Delay", map[]))) == DelayEffect.Params(0.3, 0.5, 0.3)
  {
  }

  /**
   * A restore from any "Delay" record overrides exactly the attributes the record carries:
   * each control takes its attribute when present and its default (0.3, 0.5, 0.3) when not.
   */
  lemma RestorePartial(current: DelayEffect.Params, r: Record)
    requires r.tag == "Delay"
    ensures var p := Restore(current, Some(r));
            ("Mix" in r.attributes ==> p.mix == r.attributes["Mix"]) &&
            ("Mix" !in r.attributes ==> p.mix == 0.3) &&
            ("Time" in r.attributes ==> p.time == r.attributes["Time"]) &&
            ("Time" !in r.attributes ==> p.time == 0.5) &&
            ("Feedback" in r.attributes ==> p.feedback == r.attributes["Feedback"]) &&
            ("Feedback" !in r.attributes ==> p.feedback == 0.3)
  {
  }

  class DelayProcessor {
    const mix: Parameters.Param
    const time: Parameters.Param
    const feedback: Parameters.Param
    /** `currentTime_`, the ramped delay time. */
    var currentTime: real
    const delayLeft: DelayLines.Delay
    const delayRight: DelayLines.Delay

    ghost predicate Valid()
      reads delayLeft, delayRight
    {
      delayLeft != delayRight &&
      delayLeft.Valid() && delayRight.Valid() &&
      delayLeft.size == DelayEffect.Capacity && delayRight.size == DelayEffect.Capacity &&
      mix != time && mix != feedback && time != feedback
    }

    /** The ramp and both lines as a value. */
    ghost function Model(): DelayEffect.State
      reads this, delayLeft, delayRight
    {
      DelayEffect.State(currentTime, delayLeft.Model(), delayRight.Model())
    }

    /** The three control values. */
    function Controls(): DelayEffect.Params
      reads this, mix, time, feedback
    {
      DelayEffect.Params(mix.value, time.value, feedback.value)
    }

    /** Controls Mix, Time, Feedback at 0.3, 0.5, 0.3; both lines silent; the ramp at 0. */
    constructor ()
      ensures Valid() && fresh(delayLeft) && fresh(delayRight)
      ensures mix.name == "Mix" && time.name == "Time" && feedback.name == "Feedback"
      ensures Controls() == DelayEffect.Params(0.3, 0.5, 0.3)
      ensures Model() == DelayEffect.State(0.0, Ring.Empty(DelayEffect.Capacity), Ring.Empty(DelayEffect.Capacity))
    {
      mix := new Parameters.Param("Mix", 0.3);
      time := new Parameters.Param("Time", 0.5);
      feedback := new Parameters.Param("Feedback", 0.3);
      currentTime := 0.0;
      delayLeft := new DelayLines.Delay(1024 * 100);
      delayRight := new DelayLines.Delay(1024 * 100);
    }

    /** `prepareToPlay`: the ramp jumps to the Time control; nothing else changes. */
    method PrepareToPlay(sampleRate: real, samplesPerBlock: int)
      modifies this`currentTime
      ensures currentTime == time.value
    {
      currentTime := time.GetValue();
    }

    /**
     * `processBlock`: the controls are read once, then every sample of the two channels is
     * replaced by the delay's output, in order; the result is `DelayEffect.Run` on the
     * block's input. The source never checks the read offsets; `Safe` keeps them in range.
     */
    method ProcessBlock(left: array<real>, right: array<real>)
      requires Valid() && left != right && left.Length == right.Length
      requires DelayEffect.Safe(currentTime, time.value)
      modifies this`currentTime, delayLeft, delayRight, left, right
      ensures Valid()
      ensures var r := DelayEffect.Run(old(Model()), old(Controls()), old(left[..]), old(right[..]));
              Model() == r.0 && left[..] == r.1 && right[..] == r.2
    {
      var mixValue := mix.GetValue();
      var timeValue := time.GetValue();
      var feedbackValue := feedback.GetValue();
      var p := DelayEffect.Params(mixValue, timeValue, feedbackValue);
      ghost var s0 := Model();
      ghost var ls, rs := left[..], right[..];
      var i := 0;
      while i < left.Length
        invariant 0 <= i <= left.Length
        invariant Valid()
        invariant var r := DelayEffect.Run(s0, p, ls[..i], rs[..i]);
                  Model() == r.0 && left[..] == r.1 + ls[i..] && right[..] == r.2 + rs[i..]
      {
        ghost var prev := DelayEffect.Run(s0, p, ls[..i], rs[..i]);
        DelayEffect.RunExtend(s0, p, ls, rs, i);
        Blocks.Splice(prev.1, ls[i..]);
        Blocks.Splice(prev.2, rs[i..]);
        var outL, outR := Sample(p, left[i], right[i]);
        left[i] := outL;
        right[i] := outR;
        Blocks.SpliceUpdate(prev.1, outL, ls[i..]);
        Blocks.SpliceUpdate(prev.2, outR, rs[i..]);
        assert ls[i..][1..] == ls[i + 1..] && rs[i..][1..] == rs[i + 1..];
        i := i + 1;
      }
      assert ls[..i] == ls && rs[..i] == rs;
      assert ls[i..] == [] && rs[i..] == [];
    }

    /** The body of the `processBlock` loop for one input pair, with the controls `p` read at the top of the block. */
    method Sample(p: DelayEffect.Params, l: real, r: real) returns (outL: real, outR: real)
      requires Valid() && DelayEffect.InRange(Ramp.Next(currentTime, p.time))
      modifies this`currentTime, delayLeft, delayRight
      ensures Valid()
      ensures (Model(), outL, outR) == DelayEffect.Step(old(Model()), p, l, r)
    {
      Glide(p.time);
      var delayedL, delayedR := Taps();
      Feedback(l + Ring.Gain(p.feedback, delayedR), r + Ring.Gain(p.feedback, delayedL));
      outL := Ring.Gain(p.mix, delayedL) + Ring.Gain(1.0 - p.mix, l);
      outR := Ring.Gain(p.mix, delayedR) + Ring.Gain(1.0 - p.mix, r);
    }

    /** `read(size * currentTime_ - 1)` on both lines: the slot `Offset(currentTime_)` writes ago. */
    method Taps() returns (delayedL: real, delayedR: real)
      requires Valid() && DelayEffect.InRange(currentTime)
      ensures delayedL == Ring.Read(delayLeft.Model(), DelayEffect.Offset(currentTime))
      ensures delayedR == Ring.Read(delayRight.Model(), DelayEffect.Offset(currentTime))
    {
      var offsetL := delayLeft.Size() as real * currentTime - 1.0;
      var offsetR := delayRight.Size() as real * currentTime - 1.0;
      assert Ring.Ceil(offsetL) == Ring.Ceil(offsetR) == DelayEffect.Offset(currentTime);
      delayedL := delayLeft.Read(offsetL);
      delayedR := delayRight.Read(offsetR);
    }

    /** The cross-fed writes: `wl` into the left line, `wr` into the right line. */
    method Feedback(wl: real, wr: real)
      requires Valid()
      modifies delayLeft, delayRight
      ensures Valid()
      ensures delayLeft.Model() == Ring.Write(old(delayLeft.Model()), wl)
      ensures delayRight.Model() == Ring.Write(old(delayRight.Model()), wr)
    {
      delayLeft.Write(wl);
      delayRight.Write(wr);
    }

    /** The ramp of `currentTime_` toward `target`, one step of `Ramp.Step` per sample. */
    method Glide(target: real)
      modifies this`currentTime
      ensures currentTime == Ramp.Next(old(currentTime), target)
    {
      if currentTime < target {
        currentTime := currentTime + Ramp.Step;
      } else if currentTime > target {
        currentTime := currentTime - Ramp.Step;
      }
    }

    /** `getStateInformation`: the record of the three control values; nothing changes. */
    method GetStateInformation() returns (r: Record)
      ensures r == Save(Controls())
      ensures r.tag == "Delay" && r.attributes["Time"] == time.value
    {
      r := Record("Delay", map["Mix" := mix.GetValue(), "Time" := time.GetValue(), "Feedback" := feedback.GetValue()]);
    }

    /** `setStateInformation`: the controls become `Restore` of the decoded data; the ramp and lines are untouched. */
    method SetStateInformation(data: Option<Record>)
      requires Valid()
      modifies mix, time, feedback
      ensures Controls() == Restore(old(Controls()), data)
    {
      if data.Some? && data.value.tag == "Delay" {
        var r := data.value;
        mix.SetValue(Attribute(r, "Mix", 0.3));
        time.SetValue(Attribute(r, "Time", 0.5));
        feedback.SetValue(Attribute(r, "Feedback", 0.3));
      }
    }
  }
}
