# Delay and plate reverb: a Dafny model of the two effects' signal paths

This project models the per-sample signal paths of two stereo audio effects and proves
properties of them. The effects are a ping-pong delay and a plate reverb after J. Dattorro,
"Effect Design Part 1".

## The parts

**Ring-buffer delay line `Delay`.** It is a fixed-capacity, zero-initialised buffer with a write
cursor. The two plugins carry textually identical copies of it.
- Value level: module `Ring`. It proves:
  - the single-slot write law;
  - the FIFO law, which says a read at offset `d` returns the sample written `d` writes ago;
  - offset 0 aliases the full capacity.
- Object level: class `DelayLines.Delay`, whose fields are reassigned by `Write`.

**All-pass diffuser `Allpass`.**
- Value level: module `AllpassModel`. It proves that the ring-buffer implementation computes the
  recurrence `y[k] = w[k-d] + ffGain*x[k]`, `w[k] = x[k] + fbGain*y[k]` exactly. With the paired
  gains every constructed diffuser has, that recurrence is the classic all-pass form.
- Object level: class `Allpasses.Allpass`.

**One-pole filter `LPFilter`.** Module `OnePole` (a fixed point, a range bound, the impulse
response and silence) and class `LowPass.LPFilter`.

**Linear parameter ramp.** Module `Ramp` models `currentTime_` in the delay and `sizeCurrent_` in
the reverb.

**Delay processor.**
- Module `DelayEffect` holds the value-level loop, its recurrence form, and the mix-0, silence,
  settled-echo and impulse properties.
- Class `DelayPlugin.DelayProcessor` holds the in-place `processBlock` loop over two arrays,
  `prepareToPlay`, and the save/restore record.

**Reverb tank.**
- Module `TankModel` holds the two cross-coupled halves and the fourteen output taps. It proves
  that each line is written once per call, the order of the cross-feed, and silence.
- Classes `ReverbTanks.TankHalf` and `ReverbTanks.ReverbTank` are the object level.

**Reverb processor.**
- Module `ReverbEffect` covers the pre-delay, the input diffusers in series, the tank stage and
  the wet/dry mix.
- Module `ReverbBlock` covers one block with fixed controls: the size ramp, the LFO phase, and
  the dry signal at mix 0.
- Module `Blocks` is a generic left fold over a block, with its in-place progress form.
- Class `ReverbPlugin.ReverbProcessor` holds the in-place `processBlock` loop and the loop over
  the four diffusers.

## Modelling choices

**Samples and offsets.**
- Samples are exact `real`s.
- A fractional read offset `x` reaches a slot by truncation of `cursor - x`, plus the capacity
  when that is negative. That slot is the one of the integer offset `Ceil(x)`; see
  `Ring.TruncatedIndex`.
- `Allpass::tap` takes an unsigned index, so its float argument is truncated: `Floor`.

**The LFO sine.**
- `std::sin` is a parameter `sine: real -> real`.
- Wherever the model must know that the reverb's reads stay in range, it assumes `sine` is
  bounded by [-1, 1].

**Read offsets.** The source never checks them. Block-level predicates state conditions under
which every offset of a block stays inside its line:
- `DelayEffect.Safe` for the delay;
- `ReverbEffect.Safe` and `ReverbBlock.Startable` for the reverb.

**Saved state.** The delay's saved state is a record: a tag and a map from attribute names to
values. `None` stands for data that does not decode.

## Model

| member | source | states |
|---|---|---|
| Ring.Empty | delay/delay_processor.h:16-19 | a new line holds `n` zero samples, its cursor is 0 and it is valid |
| Ring.Write | delay/delay_processor.h:28-31 | a write keeps the capacity and advances the cursor to `(cursor + 1) mod size`, so the cursor stays in range |
| Ring.WriteChangesOneSlot | delay/delay_processor.h:28 | a write changes exactly the cursor's slot, to `x`; every other slot is unchanged |
| Ring.Slot | delay/delay_processor.h:22-23 | the slot `read(d)` hits, `cursor - d` plus the capacity at most once, is inside the buffer for `0 <= d <= size` |
| Ring.SlotWraps | delay/delay_processor.h:22-23 | that slot is `(cursor - d) mod size` |
| Ring.Record | delay/delay_processor.h:16-31 | the line after the samples `h` were written into a fresh line: valid, of capacity `n` |
| Ring.RecordEmpty | delay/delay_processor.h:16-19 | recording no samples gives the freshly constructed line |
| Ring.RecordSnoc | delay/delay_processor.h:28-31 | recording one more sample is one `write` on the recorded line |
| Ring.FifoLaw | delay/delay_processor.h:21-26 | for `1 <= d <= size`, `read(d)` returns the sample written `d` writes ago, or 0 if fewer were written |
| Ring.ReadZeroAliases | delay/delay_processor.h:21-26 | `read(0)` hits the slot the next write overwrites, the same slot as `read(size)` |
| Ring.ReadRecord | delay/delay_processor.h:21-26 | the FIFO law for every offset `0 <= d <= size`, with 0 aliasing `size` |
| Ring.ReadAfterWrite | delay/delay_processor.h:21-31 | right after `write(x)`, `read(1)` returns `x` |
| Ring.RecordOfZerosIsQuiet | delay/delay_processor.h:16-31 | a line that only received zeros holds only zeros |
| Ring.QuietWrite | delay/delay_processor.h:21-31 | writing 0 into a silent line keeps it silent, and every read of a silent line is 0 |
| Ring.Ceil | delay/delay_processor.h:22 | the integer offset of a fractional offset is the least integer at or above it |
| Ring.TruncatedIndex | delay/delay_processor.h:22-25 | `cursor - x`, plus the capacity when negative, truncated, is the slot of the integer offset `Ceil(x)` |
| DelayLines.Delay.Model | reverb2/reverb2_processor.h:63-88 | a valid `Delay` object is a valid line of capacity `size_` |
| DelayLines.Delay.constructor | reverb2/reverb2_processor.h:65-68 | a new line is `Empty(size)`, with its capacity fixed |
| DelayLines.Delay.Size | delay/delay_processor.h:33 | `size()` returns the capacity |
| DelayLines.Delay.Read | delay/delay_processor.h:21-26 | `read(float d)` returns the slot of the integer offset `Ceil(d)` and changes nothing |
| DelayLines.Delay.Write | reverb2/reverb2_processor.h:77-80 | the object after `write(x)` is `Ring.Write` of the object before |
| AllpassModel.Process | reverb2/reverb2_processor.h:26-35 | one `process` keeps the capacity, the gains and the cursor range |
| AllpassModel.Run | reverb2/reverb2_processor.h:26-35 | a sequence of `process` calls keeps the capacity and the gains, and yields one output per input |
| AllpassModel.Reference | reverb2/reverb2_processor.h:26-35 | the all-pass recurrence yields one buffer sample and one output per input |
| AllpassModel.RunMatchesReference | reverb2/reverb2_processor.h:26-35 | the ring-buffer diffuser computes the recurrence exactly: same outputs, and the buffer holds the recurrence's `w` signal |
| AllpassModel.ProcessRecord | reverb2/reverb2_processor.h:26-35 | one `process` on a line holding history `h` returns `Past(h, d) + ffGain*x` and records `x + fbGain*y` |
| AllpassModel.ClassicForm | reverb2/reverb2_processor.h:149-150 | with `ffGain == -g`, `fbGain == g`: `y[k] = w[k-d] - g*x[k]` and `w[k] = (1-g*g)*x[k] + g*w[k-d]` |
| AllpassModel.ReferenceAt | reverb2/reverb2_processor.h:30-31 | every sample of the recurrence obeys it, whatever input follows |
| AllpassModel.PrefixReference | reverb2/reverb2_processor.h:26-35 | the recurrence is causal: its value on a prefix of the input is the prefix of its value |
| Allpasses.Allpass.Model | reverb2/reverb2_processor.h:45-50 | a valid `Allpass` object is a valid diffuser of capacity `size_` |
| Allpasses.Allpass.constructor | reverb2/reverb2_processor.h:20-24 | a new diffuser holds `size` zeros with the cursor at 0 and the given gains |
| Allpasses.Allpass.Size | reverb2/reverb2_processor.h:43 | `size()` returns the capacity |
| Allpasses.Allpass.Process | reverb2/reverb2_processor.h:26-35 | the object after `process(in, d)` and its result are `AllpassModel.Process` at offset `Ceil(d)` |
| Allpasses.Allpass.Tap | reverb2/reverb2_processor.h:37-41 | `tap(k)` returns the slot `read(k)` of a line would and changes nothing |
| OnePole.Run | reverb2/reverb2_processor.h:55-57 | the filter yields one output per input |
| OnePole.RunRecurrence | reverb2/reverb2_processor.h:55-57 | output `k` is `gain*x[k] + fbGain*` (the previous output, or the start state) |
| OnePole.ConstantIsFixedPoint | reverb2/reverb2_processor.h:55-57 | with `gain + fbGain == 1`, a filter holding `c` and fed `c` outputs `c` forever |
| OnePole.ConvexStaysInRange | reverb2/reverb2_processor.h:111 | the damping filter (`1 - damping`, `damping`, with `0 <= damping <= 1`) never leaves the interval of its state and inputs |
| OnePole.ConvexStep | reverb2/reverb2_processor.h:55-57 | one convex step stays in that interval |
| OnePole.ImpulseResponse | reverb2/reverb2_processor.h:55-57 | from rest, a unit impulse gives `gain * fbGain^k` |
| OnePole.SilenceStaysSilent | reverb2/reverb2_processor.h:55-57 | from rest, zero input gives zero output |
| LowPass.LPFilter.constructor | reverb2/reverb2_processor.h:60 | a new filter is at rest, `x1_ == 0` |
| LowPass.LPFilter.Process | reverb2/reverb2_processor.h:55-57 | `x1_` becomes `gain*in + fbGain*x1_`, and that value is returned |
| Parameters.Param.constructor | delay/delay_processor.h:43-46 | a new parameter holds its name and its constructor default as its value |
| Parameters.Param.GetValue | reverb2/reverb2_processor.h:174 | `getValue()` returns the stored value |
| Parameters.Param.SetValue | delay/delay_processor.h:50 | after `setValue(v)`, `getValue()` returns `v` |
| Parameters.Param.GetDefaultValue | delay/delay_processor.h:52 | `getDefaultValue()` is 0.5 whatever default was passed in |
| Ramp.NextMovesTowardTarget | delay/delay_processor.cpp:134-138 | one step moves up by exactly 0.000005 below the target, down by exactly that above it, and not at all at it |
| Ramp.NextNeverOvershootsBeyondStep | reverb2/reverb2_processor.cpp:149-153 | a step never passes the target by more than one step, and far from it moves strictly toward it |
| Ramp.NextStaysInBand | reverb2/reverb2_processor.cpp:149-153 | with a fixed target the ramp stays in `[Low, High]`, and that band only shrinks |
| Ramp.IterateIsLinear | delay/delay_processor.cpp:134-135 | far below the target, `k` samples raise the ramp by exactly `k` steps |
| Ramp.IterateIsLinearDown | delay/delay_processor.cpp:136-137 | far above the target, `k` samples lower it by exactly `k` steps |
| Ramp.SettledStaysPut | delay/delay_processor.cpp:134-138 | a ramp at its target stays there |
| DelayEffect.SafeStep | delay/delay_processor.cpp:143-144 | in a safe block the next ramp value reads both lines in range, and the block stays safe |
| DelayEffect.Step | delay/delay_processor.cpp:134-150 | one sample (ramp, two reads, cross-fed writes, mix) keeps both lines valid |
| DelayEffect.Run | delay/delay_processor.cpp:133-151 | a block with fixed controls keeps the lines valid and safe, and yields one output pair per input pair |
| DelayEffect.RunExtend | delay/delay_processor.cpp:133-151 | the first `i + 1` samples are the first `i`, then one `Step` |
| DelayEffect.RunTime | delay/delay_processor.cpp:123-138 | after a block the ramp is the ramp rule iterated once per sample toward the Time read at the block's start |
| DelayEffect.PreparedRampStaysPut | delay/delay_processor.cpp:87 | once `prepareToPlay` has set the ramp to Time, a block with that target never moves it |
| DelayEffect.MixZeroIsDry | delay/delay_processor.cpp:149-150 | with mix 0 both outputs equal the dry inputs exactly |
| DelayEffect.Silence | delay/delay_processor.cpp:133-151 | silent lines fed silence stay silent and output only zeros |
| DelayEffect.Reference | delay/delay_processor.cpp:143-150 | the block as a recurrence on signals yields one written and one output sample per input |
| DelayEffect.Recorded | delay/delay_processor.h:108-109 | lines that hold given histories at capacity 102400 form a valid state |
| DelayEffect.RunMatchesReference | delay/delay_processor.cpp:143-150 | the ring-buffer loop computes the recurrence: the left line receives `left + feedback*delayedR`, the right `right + feedback*delayedL`, and each output is `delayed*mix + dry*(1-mix)` |
| DelayEffect.StepRecorded | delay/delay_processor.cpp:143-150 | both reads happen before either write: one sample on recorded lines is one recurrence step |
| DelayEffect.SettledEcho | delay/delay_processor.cpp:143-150 | with no feedback and a settled ramp each line receives its dry input and each output mixes the input `d` samples back with the dry input |
| DelayEffect.EchoExtend | delay/delay_processor.cpp:149-150 | echo samples extend one sample at a time |
| DelayEffect.SettledTick | delay/delay_processor.cpp:143-150 | one settled sample with no feedback writes the dry input and adds one echo sample |
| DelayEffect.EchoPrefix | delay/delay_processor.cpp:149-150 | an echo sample depends only on the input up to it |
| DelayEffect.Impulse | delay/delay_processor.cpp:143-150 | with feedback 0, mix 1 and the ramp settled at offset `d >= 1`, a left impulse into a fresh delay appears only at left output `d`; the right output stays 0 |
| DelayEffect.ImpulseReference | delay/delay_processor.cpp:143-150 | the same impulse case for the recurrence |
| DelayEffect.EchoOfImpulse | delay/delay_processor.cpp:149 | a fully wet echo at offset `d` of an impulse is the impulse at `d` and 0 elsewhere |
| DelayPlugin.RestoreSaved | delay/delay_processor.cpp:164-183 | restoring a saved record reproduces all three control values |
| DelayPlugin.RestoreIgnoresForeignData | delay/delay_processor.cpp:176-177 | undecodable data or a record not tagged "Delay" leaves the controls unchanged |
| DelayPlugin.RestoreMissingAttributes | delay/delay_processor.cpp:179-181 | a "Delay" record without attributes restores 0.3, 0.5, 0.3 |
| DelayPlugin.RestorePartial | delay/delay_processor.cpp:179-181 | each attribute present overrides its control; each missing one falls back to its default |
| DelayPlugin.DelayProcessor.constructor | delay/delay_processor.cpp:6-22 | controls "Mix", "Time", "Feedback" at 0.3, 0.5, 0.3; two distinct silent lines of 102400 samples; the ramp at 0 |
| DelayPlugin.DelayProcessor.PrepareToPlay | delay/delay_processor.cpp:80-88 | the ramp becomes the Time value; nothing else changes |
| DelayPlugin.DelayProcessor.ProcessBlock | delay/delay_processor.cpp:117-152 | the controls are read once; the new state and both overwritten buffers are `DelayEffect.Run` on the old state and the old buffer contents |
| DelayPlugin.DelayProcessor.Sample | delay/delay_processor.cpp:134-150 | one loop pass: the state and the output pair are `DelayEffect.Step` |
| DelayPlugin.DelayProcessor.Taps | delay/delay_processor.cpp:143-144 | both lines are read at the integer offset of `size*currentTime_ - 1` |
| DelayPlugin.DelayProcessor.Feedback | delay/delay_processor.cpp:146-147 | each line takes one write of its cross-fed sample |
| DelayPlugin.DelayProcessor.Glide | delay/delay_processor.cpp:134-138 | `currentTime_` takes one ramp step toward the target |
| DelayPlugin.DelayProcessor.GetStateInformation | delay/delay_processor.cpp:164-170 | the saved record is tagged "Delay" and carries Mix, Time and Feedback |
| DelayPlugin.DelayProcessor.SetStateInformation | delay/delay_processor.cpp:172-183 | the controls become `Restore` of the decoded data; the ramp and the lines are untouched |
| TankModel.Initial | reverb2/reverb2_processor.h:146-164 | a new tank has the capacities and gains of its members, silent lines, filters at rest and phase 0 |
| TankModel.TapsInRange | reverb2/reverb2_processor.h:126-141 | bounding the 3627 tap bounds all fourteen output taps inside their lines |
| TankModel.HalfStep | reverb2/reverb2_processor.h:106-114 | one half keeps every capacity and gain |
| TankModel.Advance | reverb2/reverb2_processor.h:104-124 | the state part of `process` keeps the tank valid and `fs_` unchanged |
| TankModel.Step | reverb2/reverb2_processor.h:96-144 | `process` keeps the tank valid and `fs_` unchanged |
| TankModel.HalfWritesOnce | reverb2/reverb2_processor.h:106-114 | one half writes each of its two diffusers and two lines exactly once |
| TankModel.StepWritesOnce | reverb2/reverb2_processor.h:104-124 | `process` writes each of the eight lines exactly once, keeps `fs_` and advances `modPhase_` by exactly `3*modRate` |
| TankModel.FeedbackOrder | reverb2/reverb2_processor.h:106-124 | the left half is fed from `delay2Right_` as it was before the call; the right half is fed from `delay2Left_` after the left half wrote it |
| TankModel.QuietProcess | reverb2/reverb2_processor.h:26-35 | a silent diffuser fed 0 outputs 0 and stays silent |
| TankModel.HalfSilence | reverb2/reverb2_processor.h:106-114 | a silent half fed 0 stays silent |
| TankModel.Silence | reverb2/reverb2_processor.h:96-144 | a silent tank fed 0 stays silent and outputs 0, whatever the size, decay, damping and LFO values |
| ReverbTanks.TankHalf.constructor | reverb2/reverb2_processor.h:149-153 | one half: silent lines of the given capacities, gains 0.7/-0.7 and -0.5/0.5, filter at rest |
| ReverbTanks.TankHalf.Feed | reverb2/reverb2_processor.h:108 | the sample sent to the other half is `decay * delay2.read(size*delay2.size() - 1)` |
| ReverbTanks.TankHalf.Process | reverb2/reverb2_processor.h:106-114 | the half becomes `TankModel.HalfStep` |
| ReverbTanks.TankHalf.Front | reverb2/reverb2_processor.h:106-111 | modulated diffuser plus feed into the first line, read back, damped |
| ReverbTanks.TankHalf.Back | reverb2/reverb2_processor.h:112-114 | the second diffuser, then the second line |
| ReverbTanks.ReverbTank.Model | reverb2/reverb2_processor.h:146-164 | a valid tank object is a valid tank value |
| ReverbTanks.ReverbTank.constructor | reverb2/reverb2_processor.h:146-164 | a new tank is `TankModel.Initial(fs_)` |
| ReverbTanks.ReverbTank.SetSampleRate | reverb2/reverb2_processor.h:94 | only `fs_` changes |
| ReverbTanks.ReverbTank.Process | reverb2/reverb2_processor.h:96-144 | the new tank and both outputs are `TankModel.Step`, with the LFO sample taken from the phase before the call |
| ReverbTanks.ReverbTank.Advance | reverb2/reverb2_processor.h:104-124 | the phase advances, then both halves run in order |
| ReverbTanks.ReverbTank.Halves | reverb2/reverb2_processor.h:106-124 | the left half is fed from the old right second line, then the right half is fed from the new left second line |
| ReverbTanks.ReverbTank.Outputs | reverb2/reverb2_processor.h:126-143 | the fourteen taps and signs of `out_l` and `out_r`; nothing changes |
| ReverbTanks.Untouched | reverb2/reverb2_processor.h:146-164 | changes outside the tank's components leave the tank as it was |
| ReverbEffect.InitialDiffusers | reverb2/reverb2_processor.h:236-239 | four silent diffusers of 420, 296, 1122 and 820 samples with gains (-0.75, 0.75) twice, then (-0.625, 0.625) twice |
| ReverbEffect.Initial | reverb2/reverb2_processor.h:233-240 | a new processor state: ramp 0, pre-delay line of 20001 silent samples, filter at rest, the initial diffusers and tank |
| ReverbEffect.Diffuse | reverb2/reverb2_processor.cpp:166-169 | the diffusers in series keep their capacities and gains |
| ReverbEffect.DiffuseUpTo | reverb2/reverb2_processor.cpp:167-169 | after `i` rounds of the loop, the diffusers from `i` on are untouched |
| ReverbEffect.DiffuseUpToAgrees | reverb2/reverb2_processor.cpp:167-169 | after `i` rounds the loop holds the first `i` diffusers in series, followed by the untouched rest |
| ReverbEffect.DiffuseUpToAll | reverb2/reverb2_processor.cpp:166-169 | the whole loop is the cascade |
| ReverbEffect.DiffusersFitParts | reverb2/reverb2_processor.cpp:168 | both parts of a cascade read in range when the whole does |
| ReverbEffect.DiffuseSplit | reverb2/reverb2_processor.cpp:166-169 | a cascade cut anywhere is its front, then its back fed the front's output: the diffusers act in declared order |
| ReverbEffect.DiffuseSilence | reverb2/reverb2_processor.cpp:166-169 | silent diffusers fed 0 output 0 and stay silent |
| ReverbEffect.LfoBound | reverb2/reverb2_processor.h:102-103 | for a sine value in [-1, 1] the LFO sample is at most `128*|modDepth|` in magnitude |
| ReverbEffect.PreDelayed | reverb2/reverb2_processor.cpp:161-163 | the pre-delay stage changes only the line and the filter state, and returns the new filter state |
| ReverbEffect.PreDelayEcho | reverb2/reverb2_processor.cpp:158-163 | the write comes before the read: the filter receives the mono input `Ceil(p) - 1` samples before the current one (an offset of 0 sees the whole 20000-sample line back) |
| ReverbEffect.Diffused | reverb2/reverb2_processor.cpp:166-169 | the diffuser stage changes only the diffusers |
| ReverbEffect.Reverberated | reverb2/reverb2_processor.cpp:172-173 | the tank stage changes only the tank, not its `fs_` |
| ReverbEffect.InputStage | reverb2/reverb2_processor.cpp:149-169 | ramp, pre-delay and diffusers leave the tank alone and move the ramp one step |
| ReverbEffect.Wet | reverb2/reverb2_processor.cpp:149-173 | the wet path keeps the state valid and `fs_` unchanged |
| ReverbEffect.Step | reverb2/reverb2_processor.cpp:149-176 | one sample keeps the state valid and `fs_` unchanged |
| ReverbEffect.LineFits | reverb2/reverb2_processor.cpp:168 | a size in `(0, 1 + Ramp.Step]`, which a ramp toward Size 1 can reach, reads any line at `size*capacity - 1` in range |
| ReverbEffect.TapMonotone | reverb2/reverb2_processor.h:136 | the 3627 tap grows with the size |
| ReverbEffect.SafeNext | reverb2/reverb2_processor.cpp:149-153 | a safe block is still safe one sample later |
| ReverbEffect.ModFits | reverb2/reverb2_processor.h:106-107 | for a size in `[lo, 1 + Ramp.Step]` and an LFO sample below `1990*lo` in magnitude, the modulated offset of a first tank diffuser stays in range |
| ReverbEffect.HalfFitsAt | reverb2/reverb2_processor.h:106-124 | every read of a half stays in range for a size in `[lo, 1 + Ramp.Step]` |
| ReverbEffect.DiffusersFitAt | reverb2/reverb2_processor.cpp:168 | every input diffuser reads in range for a size in `(0, 1 + Ramp.Step]` |
| ReverbEffect.SettledIsSafe | reverb2/reverb2_editor.h:51 | a settled ramp is safe for every Size up to the knob's maximum 1, Depth and PreDelay in [0, 1] and rates up to 48 kHz, whenever `128*Depth < 1990*(Size - Ramp.Step)` |
| ReverbEffect.SafeFits | reverb2/reverb2_processor.cpp:149-173 | in a safe block, for any sine value in [-1, 1], every read of the next sample stays in range |
| ReverbEffect.StepAdvances | reverb2/reverb2_processor.cpp:149-173 | one sample moves the size ramp one step and `modPhase_` by exactly `3*Speed` |
| ReverbEffect.InitialIsQuiet | reverb2/reverb2_processor.h:233-240 | a new processor is silent: every line zero, both the pre-delay and the damping filters at rest |
| ReverbEffect.QuietPreDelayLine | reverb2/reverb2_processor.cpp:161-163 | writing 0 into a silent pre-delay line keeps it silent, and the value read back and filtered from rest is 0 |
| ReverbEffect.PreDelaySilence | reverb2/reverb2_processor.cpp:158-163 | a silent pre-delay stage fed 0 outputs 0 and stays silent |
| ReverbEffect.DiffusedSilence | reverb2/reverb2_processor.cpp:166-169 | a silent diffuser stage fed 0 outputs 0 and stays silent |
| ReverbEffect.InputSilence | reverb2/reverb2_processor.cpp:149-169 | a silent input stage fed two zero inputs outputs 0 and stays silent |
| ReverbEffect.Silence | reverb2/reverb2_processor.cpp:149-176 | from a silent state one sample of silence gives two zero outputs and a silent state, whatever the controls and the LFO value |
| ReverbEffect.MixDry | reverb2/reverb2_processor.cpp:175-176 | with mix 0 a channel is its dry input |
| ReverbEffect.StepDry | reverb2/reverb2_processor.cpp:175-176 | with mix 0 one sample's outputs are its inputs exactly |
| Blocks.Run | reverb2/reverb2_processor.cpp:148-177 | a fold of a per-sample step over a block keeps the step's invariant and yields one output pair per sample |
| Blocks.After | reverb2/reverb2_processor.cpp:148-177 | the block up to and including one sample |
| Blocks.RunExtend | reverb2/reverb2_processor.cpp:148-177 | `n + 1` samples are `n` samples, then one step |
| Blocks.Progress | reverb2/reverb2_processor.cpp:148-177 | the in-place buffers after `n` samples: outputs up to `n`, untouched inputs after |
| Blocks.ProgressEnds | reverb2/reverb2_processor.cpp:148-177 | at 0 samples the buffers are the input; at the end they are the fold |
| Blocks.ProgressNext | reverb2/reverb2_processor.cpp:155-176 | one loop pass overwrites entry `n` of both buffers with one step's outputs |
| Blocks.RunPassesThrough | reverb2/reverb2_processor.cpp:175-176 | a step that outputs its inputs folds to the input itself |
| Blocks.RunSilence | reverb2/reverb2_processor.cpp:148-177 | a step that maps silence to silence from quiet states, folded over a silent block from a quiet state, stays quiet and outputs only zeros |
| ReverbBlock.StepKeeps | reverb2/reverb2_processor.cpp:149-176 | from a ready state one sample reads in range and leaves the state ready |
| ReverbBlock.Sample | reverb2/reverb2_processor.cpp:149-176 | one sample with the sine value of the current phase leaves the state ready |
| ReverbBlock.SampleStepKeeps | reverb2/reverb2_processor.cpp:148-177 | the per-sample step preserves readiness for the whole block |
| ReverbBlock.Run | reverb2/reverb2_processor.cpp:148-177 | the first `n` samples of a block leave the state ready and yield `n` output pairs |
| ReverbBlock.RunExtend | reverb2/reverb2_processor.cpp:148-177 | `n + 1` samples are `n` samples, then one `Sample` |
| ReverbBlock.Block | reverb2/reverb2_processor.cpp:140-177 | a block with the seven controls read once leaves the state ready and yields one output pair per input pair; readiness admits every Size up to 1 (see `SettledIsSafe`) |
| ReverbBlock.Progress | reverb2/reverb2_processor.cpp:148-177 | the in-place buffers part way through a block |
| ReverbBlock.ProgressEnds | reverb2/reverb2_processor.cpp:148-177 | the in-place buffers start as the input and end as `Block` |
| ReverbBlock.ProgressNext | reverb2/reverb2_processor.cpp:155-176 | one loop pass overwrites entry `n` of both buffers with one `Sample`'s outputs |
| ReverbBlock.RunSize | reverb2/reverb2_processor.cpp:149-153 | after `n` samples `sizeCurrent_` is the ramp iterated `n` times toward Size |
| ReverbBlock.PreparedSizeStaysPut | reverb2/reverb2_processor.cpp:97 | once `prepareToPlay` has set `sizeCurrent_` to Size, a block never moves it |
| ReverbBlock.SamplePhase | reverb2/reverb2_processor.h:104 | one sample advances `modPhase_` by exactly `3*Speed` |
| ReverbBlock.RunPhaseStep | reverb2/reverb2_processor.h:104 | each further sample of a block adds `3*Speed` to the phase |
| ReverbBlock.RunDrift | reverb2/reverb2_processor.h:104 | the phase after `n` samples is the start phase plus `3*Speed`, `n` times |
| ReverbBlock.RunPhase | reverb2/reverb2_processor.h:104 | after `n` samples the phase has moved by exactly `n * 3 * Speed` |
| ReverbBlock.MixZeroIsDry | reverb2/reverb2_processor.cpp:175-176 | with mix 0 a whole block outputs its dry input exactly |
| ReverbBlock.SampleSilence | reverb2/reverb2_processor.cpp:149-176 | one silent sample from a silent, ready processor gives two zero outputs and leaves it silent |
| ReverbBlock.Silence | reverb2/reverb2_processor.cpp:148-177 | from a silent, ready processor, every sample of a silent block comes out 0 on both channels and the processor stays silent |
| ReverbPlugin.ReverbProcessor.DiffuserModels | reverb2/reverb2_processor.h:236-239 | the four diffuser objects as values |
| ReverbPlugin.ReverbProcessor.DiffusersUntouched | reverb2/reverb2_processor.h:236-239 | changes outside the diffusers leave them as they were |
| ReverbPlugin.ReverbProcessor.Untouched | reverb2/reverb2_processor.h:232-240 | changes outside the processor's parts leave its state as it was |
| ReverbPlugin.ReverbProcessor.Model | reverb2/reverb2_processor.h:233-240 | a valid processor is a valid `ReverbEffect.State` |
| ReverbPlugin.ReverbProcessor.constructor | reverb2/reverb2_processor.cpp:6-31 | the seven named controls at 0.3, 0.01, 0.5, 0.3, 0.1, 0, 0.05; the state is `ReverbEffect.Initial` |
| ReverbPlugin.ReverbProcessor.NewParams | reverb2/reverb2_processor.cpp:16-30 | the seven controls with their names and constructor defaults |
| ReverbPlugin.ReverbProcessor.NewParts | reverb2/reverb2_processor.h:233-240 | the audio members, fresh, laid out and silent |
| ReverbPlugin.ReverbProcessor.NewDiffusers | reverb2/reverb2_processor.h:236-239 | four distinct silent diffusers with the declared capacities and gains |
| ReverbPlugin.ReverbProcessor.PrepareToPlay | reverb2/reverb2_processor.cpp:89-98 | the tank takes the sample rate and `sizeCurrent_` becomes Size; nothing else changes |
| ReverbPlugin.ReverbProcessor.ProcessBlock | reverb2/reverb2_processor.cpp:128-178 | the controls are read once; the new state and both overwritten buffers are `ReverbBlock.Block` on the old state and the old buffer contents |
| ReverbPlugin.ReverbProcessor.ProcessSamples | reverb2/reverb2_processor.cpp:148-177 | the loop over all samples with fixed controls is `ReverbBlock.Block` |
| ReverbPlugin.ReverbProcessor.ProcessSample | reverb2/reverb2_processor.cpp:149-176 | one loop pass advances `ReverbBlock.Progress` by one sample |
| ReverbPlugin.ReverbProcessor.Store | reverb2/reverb2_processor.cpp:175-176 | entry `i` of each buffer takes its output; the other entries are unchanged |
| ReverbPlugin.ReverbProcessor.Sample | reverb2/reverb2_processor.cpp:149-176 | one input pair: the state and the outputs are `ReverbBlock.Sample` |
| ReverbPlugin.ReverbProcessor.WetPath | reverb2/reverb2_processor.cpp:149-173 | the state and the wet pair are `ReverbEffect.Wet` |
| ReverbPlugin.ReverbProcessor.InputPath | reverb2/reverb2_processor.cpp:149-169 | the state and the diffused sample are `ReverbEffect.InputStage` |
| ReverbPlugin.ReverbProcessor.PreDelayStage | reverb2/reverb2_processor.cpp:149-163 | one ramp step, then the mono mix `0.5*(left+right)` through the pre-delay stage |
| ReverbPlugin.ReverbProcessor.Glide | reverb2/reverb2_processor.cpp:149-153 | `sizeCurrent_` takes one ramp step; nothing else changes |
| ReverbPlugin.ReverbProcessor.PreDelay | reverb2/reverb2_processor.cpp:161-163 | write, read `p` back, and filter with 0.9995 and 0.0005: `ReverbEffect.PreDelayed` |
| ReverbPlugin.ReverbProcessor.Diffuse | reverb2/reverb2_processor.cpp:166-169 | the state and the output are `ReverbEffect.Diffused` |
| ReverbPlugin.ReverbProcessor.DiffuseAll | reverb2/reverb2_processor.cpp:166-169 | the `for` loop over the diffusers is the cascade `ReverbEffect.Diffuse` |
| ReverbPlugin.ReverbProcessor.DiffuseOne | reverb2/reverb2_processor.cpp:168 | diffuser `i` runs at `sizeCurrent_*size() - 1`; the other three are untouched |
| ReverbPlugin.ReverbProcessor.Reverberate | reverb2/reverb2_processor.cpp:172-173 | the state and the wet pair are `ReverbEffect.Reverberated` |
| ReverbPlugin.ReverbProcessor.GetStateInformation | reverb2/reverb2_processor.cpp:190-195 | the saved data is empty |
| ReverbPlugin.ReverbProcessor.SetStateInformation | reverb2/reverb2_processor.cpp:197-203 | restoring changes no control |

## Left out

- IEEE single-precision arithmetic, rounding and `ScopedNoDenormals`: samples and gains are exact reals.
- Float-to-double conversions (`getDoubleAttribute`, `0.5 * (left + right)` in double, `sampleRate` passed as double): all values are reals.
- `std::sin` is a parameter of the reverb's block methods, assumed bounded by [-1, 1] where a bound is needed; the LFO's spectral behaviour is not modelled.
- The atomic `value_` of the parameters, and reads from another thread: each value is a plain field.
- The JUCE XML and binary encoding of the delay's saved state: a record of a tag and named attributes stands for it, and `None` stands for data that does not decode.
- `getName`, `getLabel` and `getValueForText` of the parameter classes, and `getParameters`: framework overrides.
- Editors, buses, MIDI flags, programs, `createEditor`, `createPluginFilter`, `releaseResources` and the destructor: framework glue.
- The `std::cout` logging in both `prepareToPlay`s.
- `fs_`, which the reverb tank's constructor leaves uninitialised: the model leaves it arbitrary until `prepareToPlay`, and a block requires a positive rate.
- Range checks on read offsets: the source has none. A read with a negative or over-capacity offset indexes outside the buffer. The model requires the offsets in range and states block-level conditions that guarantee it.
- ReverbEffect.SettledIsSafe: covers only controls with `128*Depth < 1990*(Size - Ramp.Step)`. The sliders go down to 0.01. At Size 0.01 and Depth 1 the first tank diffuser's offset `size*1990 - 1 + mod` (reverb2/reverb2_processor.h:106-107) can reach about -109, and the source's `process` then indexes past the end of its buffer. No model state reaches such a read.
- Buffers are `seq` fields that each write reassigns, not `std::vector`s written in place; each class is still updated in place through its `modifies` frame.
- The audio buffer is two arrays of equal length: the source's channel count and buffer pointers are not modelled.
- The reverb's `getStateInformation` and `setStateInformation` do nothing in the source; their data is modelled as bytes and ignored.
- The unity-magnitude frequency response of the all-pass and the decay time of the tank: spectral claims outside exact-real buffer models.
