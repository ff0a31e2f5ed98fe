# Wooly Mammoth fuzz engine, modelled in Dafny

This project models the per-sample DSP engine of a Woolly Mammoth bass-fuzz
plugin, and proves properties of that model. The engine is the class
`WoolyMammothDSP` in `Source/WoolyMammothDSP.h`. The same header holds the
factory preset table `WoolyMammothPresets::getFactoryPresets`.

The engine has four knobs: WOOL, PINCH, EQ and OUTPUT. Each setter clamps its
knob to [0, 1] and recomputes the coefficients derived from it: the WOOL and
EQ filter cutoffs, the Q2 bias level and the output gain.

One call of `process` carries one sample through a fixed chain:
- a DC blocker;
- the C1 coupling capacitor;
- transistor Q1;
- the WOOL bass roll-off;
- the C2 coupling capacitor;
- transistor Q2, which gates, clips and adds fuzz harmonics;
- the C6 coupling capacitor;
- the EQ tone control;
- the output gain and a tanh soft limiter.

Every stage keeps its state in the engine between samples.

The project has four files:
- `numerics.dfy` (module `Numerics`): what the header takes from the C++
  standard library.
  - `std::clamp` and `std::round`, modelled exactly. `round` sends halves away
    from zero.
  - `M_PI`.
  - Range predicates for `std::sin` and `std::tanh`.
- `stages.dfy` (module `Stages`): each stage's arithmetic as pure functions,
  with lemmas about them.
  - The knob maps.
  - The one-pole coefficient.
  - The leaky-integrator step `Charge`, shared by the three coupling
    capacitors and the three filter poles.
  - The two transistor transfer curves.
  - The asymmetric shaper, the texture and the 1/64 bit crusher.
  - The EQ blend and the soft limiter.
- `engine.dfy` (module `Engine`): the class `WoolyMammothDSP`, with its knob
  fields and its circuit state.
  - The header's state-changing members are methods that update these fields
    in place: `setSampleRate`, `reset`, the four setters,
    `updateFilterCoefficients`, `process`, `dcBlockingFilter`,
    `transistorQ1`, `woolBassFilter`, `transistorQ2` and `eqToneControl`.
  - `acCouplingFilter` is a method that changes no field. It returns the new
    capacitor voltage, and its caller stores that in the capacitor's field.
  - `addFuzzHarmonics` and `softLimit` only compute a value. They are the
    functions `Stages.AddFuzzHarmonics` and `Stages.SoftLimit`, which the
    methods call.
  - The per-sample methods are proved against the pure functions of `Stages`
    and the pure one-sample function `Step`. `Process` produces exactly
    `Step`'s output and new state.
  - `reset` is proved against the constant `Quiescent`.
  - Lemmas about `Step` show two things: the state downstream of Q2 stays
    bounded, and every output sample lies strictly inside (-0.95, 0.95).
- `presets.dfy` (module `Presets`): the eight factory presets.

## Model

| member | source | states |
|---|---|---|
| Numerics.Abs | Source/WoolyMammothDSP.h:211 | the magnitude is non-negative and equals x or -x |
| Numerics.Pi | Source/WoolyMammothDSP.h:195 | the constant M_PI to 16 significant digits (3.141592653589793) |
| Numerics.SineLike | Source/WoolyMammothDSP.h:238 | what the model assumes of `std::sin` (used again at h:259): every value lies in [-1, 1] |
| Numerics.TanhLike | Source/WoolyMammothDSP.h:290 | what the model assumes of `std::tanh`: every value lies strictly inside (-1, 1) |
| Numerics.Clamp | Source/WoolyMammothDSP.h:47 | the result lies in [lo, hi]; it is v when v is inside, lo below, hi above |
| Numerics.ClampMonotone | Source/WoolyMammothDSP.h:47 | a larger knob value never clamps to a smaller one |
| Numerics.Round | Source/WoolyMammothDSP.h:263 | the result is within 1/2 of y, and a tie goes away from zero |
| Numerics.RoundIsNearest | Source/WoolyMammothDSP.h:263 | no integer is closer to y than the rounded value |
| Numerics.RoundOdd | Source/WoolyMammothDSP.h:263 | rounding commutes with negation |
| Numerics.RoundInteger | Source/WoolyMammothDSP.h:263 | integers are fixed points of rounding |
| Stages.BiasLevel | Source/WoolyMammothDSP.h:56 | a pinch in [0, 1] gives a bias level in [0.1, 0.8]; the pinch is recovered from the level |
| Stages.BiasLevelNonIncreasing | Source/WoolyMammothDSP.h:53-56 | more pinch never raises the bias level (more starvation) |
| Stages.OutputGain | Source/WoolyMammothDSP.h:70 | an output knob in [0, 1] gives a gain in [0.2, 2.2]; the knob is recovered from the gain |
| Stages.WoolCutoff | Source/WoolyMammothDSP.h:141 | a wool knob in [0, 1] gives a cutoff in [50, 350] Hz; the knob is recovered from the cutoff |
| Stages.EqCutoff | Source/WoolyMammothDSP.h:145 | an eq knob in [0, 1] gives a cutoff in [800, 3000] Hz; the knob is recovered from the cutoff |
| Stages.OnePoleAlpha | Source/WoolyMammothDSP.h:195 | the filter coefficient lies in (0, 1], and strictly below 1 for a positive cutoff |
| Stages.OnePoleAlphaRatio | Source/WoolyMammothDSP.h:274 | alpha equals fs / (fs + 2 pi fc) |
| Stages.OnePoleAlphaAntitone | Source/WoolyMammothDSP.h:274 | a higher cutoff gives a smaller alpha (less feedback from history) |
| Stages.Charge | Source/WoolyMammothDSP.h:160 | one leaky-integrator step, shared by the coupling capacitors and the filter poles; its properties are stated by ChargeGap, ChargeBetween and ChargeDecays |
| Stages.ChargeGap | Source/WoolyMammothDSP.h:160-161 | after one Charge step, the gap between the new voltage and the input is k times the old gap |
| Stages.ChargeBetween | Source/WoolyMammothDSP.h:160 | for k in [0, 1] the new voltage lies between the old voltage and the input |
| Stages.ChargeDecays | Source/WoolyMammothDSP.h:157-162 | under a constant input the coupled output decays as k^n, so a capacitor blocks DC |
| Stages.DcBlock | Source/WoolyMammothDSP.h:151 | an unchanged input leaves only 0.995 times the previous output |
| Stages.DcBlockBounded | Source/WoolyMammothDSP.h:151 | the output is at most the input step plus 0.995 times the previous output, in magnitude |
| Stages.DcBlockerSettles | Source/WoolyMammothDSP.h:148-155 | under a constant input the blocker's output decays as 0.995^n |
| Stages.Q1Saturate | Source/WoolyMammothDSP.h:177-181 | the current passes unchanged in [-0.8, 1] and is compressed towards each knee outside it |
| Stages.Q1SaturateIncreasing | Source/WoolyMammothDSP.h:177-181 | the saturation curve is strictly increasing |
| Stages.Q1Transfer | Source/WoolyMammothDSP.h:170-187 | Q1's collector current for a base drive; its properties are stated by Q1TransferSign and Q1TransferIncreasing |
| Stages.Q1TransferSign | Source/WoolyMammothDSP.h:170-187 | Q1's collector current has the sign of its base drive and is 0 for a 0 drive |
| Stages.Q1TransferIncreasing | Source/WoolyMammothDSP.h:173-184 | Q1's transfer curve is strictly increasing, so it never folds the waveform |
| Stages.Activity | Source/WoolyMammothDSP.h:210-219 | activity lies in [0, 1] and equals 1 exactly when the input level reaches the threshold |
| Stages.ActivityBelowThreshold | Source/WoolyMammothDSP.h:217-218 | below the threshold, activity is (level / threshold) squared |
| Stages.ActivityMonotone | Source/WoolyMammothDSP.h:215-218 | a louder input never makes Q2 conduct less |
| Stages.ActivityAntitoneInThreshold | Source/WoolyMammothDSP.h:210-218 | a higher gate threshold never lets the same input level conduct more |
| Stages.AsWrittenPinchOpensGate | Source/WoolyMammothDSP.h:55-56 | as written, more PINCH never lowers Q2's activity for a given level: the threshold falls with the bias level, so the gate opens wider |
| Stages.AsWrittenPinchZeroGatesQuietSample | Source/WoolyMammothDSP.h:207-240 | as written, a 0.005 sample is gated to exactly 0 with PINCH at 0 |
| Stages.AsWrittenPinchOnePassesQuietSample | Source/WoolyMammothDSP.h:207-240 | as written, the same 0.005 sample comes out positive with PINCH at 1 |
| Stages.PinchOneQuietDrive | Source/WoolyMammothDSP.h:207-222 | with PINCH at 1 a 0.005 sample conducts at activity 0.01 and drives Q2 with 0.017, which the clip passes unchanged |
| Stages.HarmonicsPositive | Source/WoolyMammothDSP.h:246-266 | the harmonics stage puts out at least 1/64 for a current in [0.015, 0.1] |
| Stages.StarvedThreshold | Source/WoolyMammothDSP.h:209-210 | the intended threshold rises from 0.05 to 0.4 as the bias level falls from 0.8 to 0.1; the bias level is recovered from it |
| Stages.IntendedPinchTightensGate | Source/WoolyMammothDSP.h:54-56 | with the starved threshold, more PINCH never raises Q2's activity for a given level |
| Stages.Q2Clip | Source/WoolyMammothDSP.h:226-230 | the current passes unchanged in [-0.3, 0.4] and is compressed towards each knee outside it |
| Stages.Q2ClipIncreasing | Source/WoolyMammothDSP.h:226-230 | the hard clip is strictly increasing |
| Stages.AsymmetricShape | Source/WoolyMammothDSP.h:251-256 | a positive input maps into (0, 1/2), and any other input into (-1/3, 0] |
| Stages.ShapeThenUnshape | Source/WoolyMammothDSP.h:251-256 | the shaper is injective: every input is recovered from its shaped value |
| Stages.UnshapeThenShape | Source/WoolyMammothDSP.h:251-256 | the shaper reaches every value in (-1/3, 1/2) |
| Stages.Texture | Source/WoolyMammothDSP.h:259 | the texture keeps the sign and scales the magnitude by a factor in [0.9, 1.1] |
| Stages.Crush | Source/WoolyMammothDSP.h:262-263 | the crushed value is a multiple of 1/64 within 1/128 of its input |
| Stages.CrushIdempotent | Source/WoolyMammothDSP.h:262-263 | crushing a crushed value changes nothing |
| Stages.AddFuzzHarmonics | Source/WoolyMammothDSP.h:246-266 | shaper, texture and bit crusher in the header's order; its properties are stated by AddFuzzHarmonicsBounds |
| Stages.AddFuzzHarmonicsBounds | Source/WoolyMammothDSP.h:246-266 | the harmonics stage keeps the sign of its input and puts out a multiple of 1/64 in [-23/64, 35/64] |
| Stages.GateNoise | Source/WoolyMammothDSP.h:238 | the sputter factor lies in [0.9, 1] |
| Stages.Q2Drive | Source/WoolyMammothDSP.h:207-223 | the drive has the sign of the base current, and is 0 for a silent input with a positive bias |
| Stages.Q2Transfer | Source/WoolyMammothDSP.h:201-244 | Q2's output for a coupled input and bias level; its properties are stated by Q2TransferBounds and Q2GateClosesOnQuietInput |
| Stages.Q2TransferBounds | Source/WoolyMammothDSP.h:201-244 | Q2's output lies in [-23/64, 35/64] and has the sign of its base current; silence gives 0 (the gate closes) |
| Stages.Q2GateClosesOnQuietInput | Source/WoolyMammothDSP.h:210-233 | with a bias level of at least 0.1, every input within 1/400 of silence gives exactly 0 (the gate closes) |
| Stages.QuietDriveSmall | Source/WoolyMammothDSP.h:207-223 | with a bias level of at least 0.1, an input within 1/400 of silence gives a drive in [0, 0.0045] |
| Stages.SmallHarmonicsVanish | Source/WoolyMammothDSP.h:246-266 | the harmonics stage rounds a current in [0, 0.0045] to exactly 0 |
| Stages.EqBlend | Source/WoolyMammothDSP.h:284 | EQ at 0 gives the bass response alone; EQ at 1 gives 0.7 times the treble response |
| Stages.EqBlendBounded | Source/WoolyMammothDSP.h:284 | the blend is no louder than its weighted parts |
| Stages.SoftLimit | Source/WoolyMammothDSP.h:287-291 | 0.95 tanh(0.9 x); its bound is stated by SoftLimitBounded |
| Stages.LimitedOutput | Source/WoolyMammothDSP.h:99-103 | the output gain, then the soft limiter; its bound is stated by StepOutputBounded |
| Stages.SoftLimitBounded | Source/WoolyMammothDSP.h:287-291 | whatever the input, the limiter's output lies strictly inside (-0.95, 0.95) |
| Engine.FrontHalf | Source/WoolyMammothDSP.h:76-88 | the stages before Q2 leave the state after Q2 as bounded as they found it |
| Engine.BackHalf | Source/WoolyMammothDSP.h:93-97 | C6 and the EQ tone control for one sample; its bound is stated by BackHalfKeepsTailBounded |
| Engine.Step | Source/WoolyMammothDSP.h:73-104 | one sample stores the input as the blocker's last input, and never touches the bias points or emitter nodes |
| Engine.BackHalfKeepsTailBounded | Source/WoolyMammothDSP.h:93-97 | with Q2's output bounded, C6 and both tone-filter poles stay bounded |
| Engine.StepKeepsTailBounded | Source/WoolyMammothDSP.h:73-104 | for every input, the state downstream of Q2 stays bounded from sample to sample |
| Engine.StepOutputBounded | Source/WoolyMammothDSP.h:99-103 | every output sample lies strictly inside (-0.95, 0.95) |
| Engine.WoolyMammothDSP.constructor | Source/WoolyMammothDSP.h:107-135 | the defaults are 44.1 kHz, knobs at 0.5, bias level 0.5, gain 1, cutoffs 200 and 2000 Hz, and a quiescent circuit |
| Engine.WoolyMammothDSP.SetSampleRate | Source/WoolyMammothDSP.h:16-21 | stores the rate, recomputes both cutoffs from the knobs, and resets the circuit |
| Engine.WoolyMammothDSP.Reset | Source/WoolyMammothDSP.h:23-42 | nodes, capacitors and histories go to 0 and both biases to 0.5, whatever the old state (so a second reset changes nothing); knobs are untouched |
| Engine.WoolyMammothDSP.SetWool | Source/WoolyMammothDSP.h:44-49 | stores the clamped knob and recomputes both cutoffs; the circuit state is untouched |
| Engine.WoolyMammothDSP.SetPinch | Source/WoolyMammothDSP.h:51-57 | stores the clamped knob and its bias level; the circuit state is untouched |
| Engine.WoolyMammothDSP.SetEQ | Source/WoolyMammothDSP.h:59-64 | stores the clamped knob and recomputes both cutoffs; the circuit state is untouched |
| Engine.WoolyMammothDSP.SetOutput | Source/WoolyMammothDSP.h:66-71 | stores the clamped knob and its output gain; the circuit state is untouched |
| Engine.WoolyMammothDSP.Process | Source/WoolyMammothDSP.h:73-104 | the output and the new state are exactly those of Step; the state after Q2 stays bounded; with a tanh whose values lie in (-1, 1), the output lies strictly inside (-0.95, 0.95) |
| Engine.WoolyMammothDSP.InputStages | Source/WoolyMammothDSP.h:76-88 | the stages before Q2 advance the state exactly as FrontHalf does |
| Engine.WoolyMammothDSP.OutputStages | Source/WoolyMammothDSP.h:93-97 | C6 and the tone control advance the state exactly as BackHalf does |
| Engine.WoolyMammothDSP.UpdateFilterCoefficients | Source/WoolyMammothDSP.h:137-146 | both cutoffs follow their knobs through the linear maps |
| Engine.WoolyMammothDSP.DcBlockingFilter | Source/WoolyMammothDSP.h:148-155 | the output is DcBlock of the input and the remembered pair, and the pair is updated |
| Engine.WoolyMammothDSP.AcCouplingFilter | Source/WoolyMammothDSP.h:157-162 | the new voltage is one Charge step, and for a time constant in [0, 1] it lies between the old voltage and the input; the coupled signal is the input minus it, which is k times the input's departure from the old voltage |
| Engine.WoolyMammothDSP.TransistorQ1 | Source/WoolyMammothDSP.h:164-188 | the base node is input plus bias; the collector node and the result are Q1's transfer of it |
| Engine.WoolyMammothDSP.WoolBassFilter | Source/WoolyMammothDSP.h:190-199 | the history takes one Charge step at the WOOL alpha; the output is the input minus it (a high-pass) |
| Engine.WoolyMammothDSP.TransistorQ2 | Source/WoolyMammothDSP.h:201-244 | the result is Q2's transfer at the current bias level; base and collector nodes record the sample |
| Engine.WoolyMammothDSP.EqToneControl | Source/WoolyMammothDSP.h:268-285 | two cascaded Charge steps at the EQ alpha, and the blend of the low-passed and high-passed parts |
| Presets.GetFactoryPresets | Source/WoolyMammothDSP.h:309-323 | there are eight presets, every knob of each lies in [0, 1], and the first is "Classic Wooly" at 0.6 / 0.4 / 0.3 / 0.7 |
| Presets.PresetsSurviveClamping | Source/WoolyMammothDSP.h:314-321 | the setters' clamp leaves every knob of every factory preset unchanged, so a preset is applied exactly |

## Left out

- Only `Source/WoolyMammothDSP.h` is modelled. These are not part of this model:
  - the plugin processor, the editor and its widgets;
  - the bypass switch;
  - preset loading and program management (declared in `Source/PluginProcessor.h` without bodies);
  - saving and restoring parameter state.
- Floating point: every `double` is a mathematical real. Rounding error, overflow, NaN and infinities are not modelled.
- `std::sin` and `std::tanh` are parameters of `Process`, `TransistorQ2` and the stage functions. The model knows them only by their ranges: [-1, 1] for sin, (-1, 1) for tanh. The limiter's bound needs only the tanh range.
- `M_PI` is the decimal 3.141592653589793, its value to 16 significant digits.
- Engine.WoolyMammothDSP.SetSampleRate requires a positive sample rate. The header divides by it in both one-pole filters and does not check it.
- Engine.WoolyMammothDSP.SetWool, SetPinch, SetEQ, SetOutput, SetSampleRate and Process require the class invariant `Valid()`. The header has no such precondition. `Valid()` holds from construction and every method keeps it, so no reachable engine is excluded.
- The circuit state variables are grouped into one record field, `circuit`, with the header's variable names as its fields.
- `acCouplingFilter` updates the capacitor voltage through a reference parameter. Here it returns the new voltage, and the caller stores it in the named capacitor, as the reference did.
- `process` is split into InputStages, TransistorQ2 and OutputStages, followed by `LimitedOutput`: the output gain, then `softLimit`, in the header's order.
- The constructor keeps the header's initial values. For the default knobs (0.5) these are not what the setters would compute:
  - the Q2 bias level is 0.5, not 0.45;
  - the output gain is 1.0, not 1.2;
  - the EQ cutoff is 2000 Hz, not 1900 Hz.
  
  `Valid()` asks only that each coefficient lie in its range.
- The whole chain's settling under silent input is not proved. Each stage on its own is covered: ChargeDecays shows each capacitor blocks DC, DcBlockerSettles shows the same for the DC blocker, and Q2GateClosesOnQuietInput shows the gate closes on near-silence. Chaining these needs two things the model does not have. The first is a bound on how fast the constant Q1 bias offset drains through the WOOL high-pass and C2, through Q1's nonlinear curve. The second is a limiter that maps 0 to 0, but tanh is known only by its range.
- The header has no supply-sag model, anti-aliasing filter, activity smoother or input pre-drive stage, so the model has none.

## Findings

| source | as written | input that shows it | evidently intended | confidence | as-written member | corrected member |
|---|---|---|---|---|---|---|
| Source/WoolyMammothDSP.h:54-56, 209-210 | the gate threshold is `q2_bias_level * 0.5`, and PINCH lowers `q2_bias_level`, so more PINCH lowers the threshold and gates less | a 0.005 sample: with PINCH 0 (threshold 0.4) Q2 puts out exactly 0; with PINCH 1 (threshold 0.05) it puts out a positive value | the comments say higher PINCH means more starvation and more gating, so the threshold should rise as the bias level falls | medium, not executed | Stages.AsWrittenPinchOpensGate, Stages.AsWrittenPinchZeroGatesQuietSample, Stages.AsWrittenPinchOnePassesQuietSample | Stages.StarvedThreshold, Stages.IntendedPinchTightensGate |

The engine keeps the threshold as written, since that is what the plugin does.
`StarvedThreshold` is one reconstruction of the intent: it keeps the header's
range of thresholds, [0.05, 0.4], and reverses its direction. The header does
not fix any particular corrected formula.
