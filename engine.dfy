/** The per-channel fuzz engine, class WoolyMammothDSP: four knobs, the
    coefficients derived from them, and the circuit state that one call of
    Process advances by one sample. */
module Engine {
  import opened Numerics
  import opened Stages

  /** The knobs and the coefficients derived from them. */
  datatype Settings = Settings(
    sampleRate: real,
    wool: real, pinch: real, eq: real, output: real,
    q2BiasLevel: real, outputGain: real, woolCutoff: real, eqCutoff: real)

  /** Knobs in [0, 1], a positive sample rate, and every derived coefficient
      inside the range its map can produce from such knobs. */
  predicate ValidSettings(k: Settings)
  {
    && k.sampleRate > 0.0
    && 0.0 <= k.wool <= 1.0 && 0.0 <= k.pinch <= 1.0
    && 0.0 <= k.eq <= 1.0 && 0.0 <= k.output <= 1.0
    && 0.1 <= k.q2BiasLevel <= 0.8
    && 0.2 <= k.outputGain <= 2.2
    && 50.0 <= k.woolCutoff <= 350.0
    && 800.0 <= k.eqCutoff <= 3000.0
  }

  /** Everything the circuit carries from one sample to the next. */
  datatype Circuit = Circuit(
    q1Collector: real, q1Base: real, q1Emitter: real,
    q2Collector: real, q2Base: real, q2Emitter: real,
    q1Bias: real, q2Bias: real,
    c1Voltage: real, c2Voltage: real, c6Voltage: real,
    woolFilterZ1: real, eqFilterZ1: real, eqFilterZ2: real,
    dcBlockIn: real, dcBlockOut: real)

  /** The quiescent circuit: every node, capacitor and filter history at 0,
      both transistor bias points at 0.5. */
  const Quiescent: Circuit := Circuit(
    0.0, 0.0, 0.0,
    0.0, 0.0, 0.0,
    0.5, 0.5,
    0.0, 0.0, 0.0,
    0.0, 0.0, 0.0,
    0.0, 0.0)

  /** The largest magnitude Q2 can put out (see Q2Transfer). */
  const TailBound: real := 35.0 / 64.0

  /** The state downstream of Q2 stays bounded: Q2's output and C6 within
      TailBound, both tone-filter poles within twice that. */
  predicate TailBounded(c: Circuit)
  {
    && -TailBound <= c.q2Collector <= TailBound
    && -TailBound <= c.c6Voltage <= TailBound
    && -2.0 * TailBound <= c.eqFilterZ1 <= 2.0 * TailBound
    && -2.0 * TailBound <= c.eqFilterZ2 <= 2.0 * TailBound
  }

  /** DC blocker, C1, Q1, the WOOL high-pass and C2 for one sample: the
      circuit with those stages advanced, and the signal reaching Q2. */
  function FrontHalf(k: Settings, c: Circuit, input: real): (r: (Circuit, real))
    requires ValidSettings(k)
    ensures TailBounded(r.0) == TailBounded(c)
  {
    var dc := DcBlock(input, c.dcBlockIn, c.dcBlockOut);
    var c1 := Charge(c.c1Voltage, dc, 0.999);
    var q1Base := (dc - c1) + c.q1Bias;
    var q1 := Q1Transfer(q1Base);
    var woolZ1 := Charge(c.woolFilterZ1, q1, OnePoleAlpha(k.woolCutoff, k.sampleRate));
    var woolOut := q1 - woolZ1;
    var c2 := Charge(c.c2Voltage, woolOut, 0.995);
    (c.(dcBlockIn := input, dcBlockOut := dc, c1Voltage := c1,
        q1Base := q1Base, q1Collector := q1, woolFilterZ1 := woolZ1, c2Voltage := c2),
     woolOut - c2)
  }

  /** C6 and the EQ tone control for one sample of Q2's output: the circuit
      with those stages advanced, and the tone control's output. */
  function BackHalf(k: Settings, c: Circuit, q2: real): (Circuit, real)
    requires ValidSettings(k)
  {
    var c6 := Charge(c.c6Voltage, q2, 0.995);
    var eqIn := q2 - c6;
    var alpha := OnePoleAlpha(k.eqCutoff, k.sampleRate);
    var z1 := Charge(c.eqFilterZ1, eqIn, alpha);
    var z2 := Charge(c.eqFilterZ2, z1, alpha);
    (c.(c6Voltage := c6, eqFilterZ1 := z1, eqFilterZ2 := z2), EqBlend(z2, eqIn - z1, k.eq))
  }

  /** One sample through the whole chain: the new circuit state and the
      output sample. The DC blocker remembers the input, and the bias points and emitter nodes are never
      touched. */
  function Step(k: Settings, c: Circuit, input: real, sin: real -> real, tanh: real -> real): (r: (Circuit, real))
    requires SineLike(sin)
    requires ValidSettings(k)
    ensures r.0.dcBlockIn == input
    ensures r.0.q1Bias == c.q1Bias && r.0.q2Bias == c.q2Bias
    ensures r.0.q1Emitter == c.q1Emitter && r.0.q2Emitter == c.q2Emitter
  {
    var front := FrontHalf(k, c, input);
    var q2 := Q2Transfer(front.1, k.q2BiasLevel, sin);
    var back := BackHalf(k, front.0.(q2Base := front.1 + k.q2BiasLevel * 0.8, q2Collector := q2), q2);
    (back.0, LimitedOutput(back.1, k.outputGain, tanh))
  }

  /** Once Q2's output is stored in a bounded circuit, C6 and the tone
      control keep the bound on the state after Q2. */
  lemma BackHalfKeepsTailBounded(k: Settings, c: Circuit, q2: real)
    requires ValidSettings(k) && TailBounded(c) && c.q2Collector == q2
    ensures TailBounded(BackHalf(k, c, q2).0)
  {
    var c6 := Charge(c.c6Voltage, q2, 0.995);
    ChargeBetween(c.c6Voltage, q2, 0.995);
    var alpha := OnePoleAlpha(k.eqCutoff, k.sampleRate);
    assert -2.0 * TailBound <= q2 - c6 <= 2.0 * TailBound;
    var z1 := Charge(c.eqFilterZ1, q2 - c6, alpha);
    ChargeBetween(c.eqFilterZ1, q2 - c6, alpha);
    ChargeBetween(c.eqFilterZ2, z1, alpha);
  }

  /** Whatever the input, a step keeps the state after Q2 bounded. */
  lemma StepKeepsTailBounded(k: Settings, c: Circuit, input: real, sin: real -> real, tanh: real -> real)
    requires ValidSettings(k) && SineLike(sin) && TailBounded(c)
    ensures TailBounded(Step(k, c, input, sin, tanh).0)
  {
    var front := FrontHalf(k, c, input);
    var q2 := Q2Transfer(front.1, k.q2BiasLevel, sin);
    Q2TransferBounds(front.1, k.q2BiasLevel, sin);
    BackHalfKeepsTailBounded(k, front.0.(q2Base := front.1 + k.q2BiasLevel * 0.8, q2Collector := q2), q2);
  }

  /** The limiter keeps every output sample strictly inside (-0.95, 0.95). */
  lemma StepOutputBounded(k: Settings, c: Circuit, input: real, sin: real -> real, tanh: real -> real)
    requires ValidSettings(k) && SineLike(sin) && TanhLike(tanh)
    ensures -0.95 < Step(k, c, input, sin, tanh).1 < 0.95
  {
    var front := FrontHalf(k, c, input);
    var q2 := Q2Transfer(front.1, k.q2BiasLevel, sin);
    var back := BackHalf(k, front.0.(q2Base := front.1 + k.q2BiasLevel * 0.8, q2Collector := q2), q2);
    SoftLimitBounded(back.1 * k.outputGain, tanh);
    assert Step(k, c, input, sin, tanh).1 == LimitedOutput(back.1, k.outputGain, tanh);
  }

  /** One channel of the pedal. The knobs and derived coefficients are
      fields of their own; the per-sample circuit state is the record field
      circuit, whose fields carry the names of the circuit's state variables. */
  class WoolyMammothDSP {
    // Knobs
    var sampleRate: real
    var wool: real
    var pinch: real
    var eq: real
    var output: real

    // Derived coefficients
    var q2BiasLevel: real
    var outputGain: real
    var woolCutoff: real
    var eqCutoff: real

    // Transistor nodes, bias points, coupling capacitors, filter and DC-blocker histories
    var circuit: Circuit

    ghost function Knobs(): Settings
      reads this`sampleRate, this`wool, this`pinch, this`eq, this`output
      reads this`q2BiasLevel, this`outputGain, this`woolCutoff, this`eqCutoff
    {
      Settings(sampleRate, wool, pinch, eq, output, q2BiasLevel, outputGain, woolCutoff, eqCutoff)
    }

    ghost predicate Valid()
      reads this
    {
      ValidSettings(Knobs()) && TailBounded(circuit)
    }

    /** The default-constructed engine: 44.1 kHz, every knob at 0.5, the
        derived coefficients at their declared initial values, the circuit quiescent. */
    constructor ()
      ensures Valid()
      ensures Knobs() == Settings(44100.0, 0.5, 0.5, 0.5, 0.5, 0.5, 1.0, 200.0, 2000.0)
      ensures circuit == Quiescent
    {
      sampleRate := 44100.0;
      wool, pinch, eq, output := 0.5, 0.5, 0.5, 0.5;
      q2BiasLevel, outputGain := 0.5, 1.0;
      woolCutoff, eqCutoff := 200.0, 2000.0;
      circuit := Quiescent;
    }

    /** Stores the sample rate, recomputes both cutoffs and resets the circuit. */
    method SetSampleRate(newSampleRate: real)
      requires Valid() && newSampleRate > 0.0
      modifies this`sampleRate, this`woolCutoff, this`eqCutoff, this`circuit
      ensures Valid()
      ensures Knobs() == old(Knobs()).(sampleRate := newSampleRate,
                                       woolCutoff := WoolCutoff(wool), eqCutoff := EqCutoff(eq))
      ensures circuit == Quiescent
    {
      sampleRate := newSampleRate;
      UpdateFilterCoefficients();
      Reset();
    }

    /** Puts every node, capacitor and filter history back to 0 and both bias
        points to 0.5. The knobs are not touched, and the new state does not
        depend on the old one, so a second call changes nothing. */
    method Reset()
      modifies this`circuit
      ensures circuit == Quiescent && TailBounded(circuit)
    {
      circuit := circuit.(q1Collector := 0.0, q1Base := 0.0, q1Emitter := 0.0,
                          q2Collector := 0.0, q2Base := 0.0, q2Emitter := 0.0);
      circuit := circuit.(c1Voltage := 0.0, c2Voltage := 0.0, c6Voltage := 0.0);
      circuit := circuit.(q1Bias := 0.5, q2Bias := 0.5);
      circuit := circuit.(woolFilterZ1 := 0.0, eqFilterZ1 := 0.0, eqFilterZ2 := 0.0);
      circuit := circuit.(dcBlockIn := 0.0, dcBlockOut := 0.0);
    }

    /** WOOL: stores the clamped knob and recomputes both cutoffs. */
    method SetWool(value: real)
      requires Valid()
      modifies this`wool, this`woolCutoff, this`eqCutoff
      ensures Valid()
      ensures wool == Clamp(value, 0.0, 1.0)
      ensures Knobs() == old(Knobs()).(wool := wool, woolCutoff := WoolCutoff(wool),
                                       eqCutoff := EqCutoff(eq))
    {
      wool := Clamp(value, 0.0, 1.0);
      UpdateFilterCoefficients();
    }

    /** PINCH: stores the clamped knob and the Q2 bias level it selects. */
    method SetPinch(value: real)
      requires Valid()
      modifies this`pinch, this`q2BiasLevel
      ensures Valid()
      ensures pinch == Clamp(value, 0.0, 1.0)
      ensures Knobs() == old(Knobs()).(pinch := pinch, q2BiasLevel := BiasLevel(pinch))
    {
      pinch := Clamp(value, 0.0, 1.0);
      q2BiasLevel := BiasLevel(pinch);
    }

    /** EQ: stores the clamped knob and recomputes both cutoffs. */
    method SetEQ(value: real)
      requires Valid()
      modifies this`eq, this`woolCutoff, this`eqCutoff
      ensures Valid()
      ensures eq == Clamp(value, 0.0, 1.0)
      ensures Knobs() == old(Knobs()).(eq := eq, woolCutoff := WoolCutoff(wool),
                                       eqCutoff := EqCutoff(eq))
    {
      eq := Clamp(value, 0.0, 1.0);
      UpdateFilterCoefficients();
    }

    /** OUTPUT: stores the clamped knob and the output gain it selects. */
    method SetOutput(value: real)
      requires Valid()
      modifies this`output, this`outputGain
      ensures Valid()
      ensures output == Clamp(value, 0.0, 1.0)
      ensures Knobs() == old(Knobs()).(output := output, outputGain := OutputGain(output))
    {
      output := Clamp(value, 0.0, 1.0);
      outputGain := OutputGain(output);
    }

    /** One sample through the chain: the output and the new state are those
        of Step, and with a tanh whose values lie in (-1, 1) the output lies
        strictly inside (-0.95, 0.95). */
    method Process(input: real, sin: real -> real, tanh: real -> real) returns (r: real)
      requires Valid() && SineLike(sin)
      modifies this`circuit
      ensures Valid()
      ensures circuit == Step(Knobs(), old(circuit), input, sin, tanh).0
      ensures r == Step(Knobs(), old(circuit), input, sin, tanh).1
      ensures TanhLike(tanh) ==> -0.95 < r < 0.95
    {
      ghost var start, k := circuit, Knobs();
      StepKeepsTailBounded(k, start, input, sin, tanh);
      var c2Coupled := InputStages(input);
      ghost var front := FrontHalf(k, start, input);
      var q2Out := TransistorQ2(c2Coupled, sin);
      assert circuit == front.0.(q2Base := front.1 + k.q2BiasLevel * 0.8, q2Collector := q2Out);
      ghost var back := BackHalf(k, circuit, q2Out);
      assert Step(k, start, input, sin, tanh) == (back.0, LimitedOutput(back.1, k.outputGain, tanh));
      var eqShaped := OutputStages(q2Out);
      r := LimitedOutput(eqShaped, outputGain, tanh);
      if TanhLike(tanh) {
        SoftLimitBounded(eqShaped * outputGain, tanh);
      }
    }

    /** The stages in front of Q2: DC blocker, C1, Q1, the WOOL high-pass and C2. */
    method InputStages(input: real) returns (c2Coupled: real)
      requires ValidSettings(Knobs())
      modifies this`circuit
      ensures (circuit, c2Coupled) == FrontHalf(Knobs(), old(circuit), input)
    {
      var dcBlocked := DcBlockingFilter(input);
      var c1Coupled, c1 := AcCouplingFilter(dcBlocked, circuit.c1Voltage, 0.999);
      circuit := circuit.(c1Voltage := c1);
      var q1Out := TransistorQ1(c1Coupled);
      var woolFiltered := WoolBassFilter(q1Out);
      var c2;
      c2Coupled, c2 := AcCouplingFilter(woolFiltered, circuit.c2Voltage, 0.995);
      circuit := circuit.(c2Voltage := c2);
    }

    /** The stages after Q2: C6 and the EQ tone control. */
    method OutputStages(q2Out: real) returns (eqShaped: real)
      requires ValidSettings(Knobs())
      modifies this`circuit
      ensures (circuit, eqShaped) == BackHalf(Knobs(), old(circuit), q2Out)
    {
      var c6Coupled, c6 := AcCouplingFilter(q2Out, circuit.c6Voltage, 0.995);
      circuit := circuit.(c6Voltage := c6);
      eqShaped := EqToneControl(c6Coupled);
    }

    /** Both cutoffs follow their knobs. */
    method UpdateFilterCoefficients()
      modifies this`woolCutoff, this`eqCutoff
      ensures woolCutoff == WoolCutoff(wool) && eqCutoff == EqCutoff(eq)
    {
      woolCutoff := WoolCutoff(wool);
      eqCutoff := EqCutoff(eq);
    }

    /** The input DC blocker; it remembers the last input and output. */
    method DcBlockingFilter(input: real) returns (filtered: real)
      modifies this`circuit
      ensures filtered == DcBlock(input, old(circuit.dcBlockIn), old(circuit.dcBlockOut))
      ensures circuit == old(circuit).(dcBlockIn := input, dcBlockOut := filtered)
    {
      filtered := input - circuit.dcBlockIn + 0.995 * circuit.dcBlockOut;
      circuit := circuit.(dcBlockIn := input, dcBlockOut := filtered);
    }

    /** One coupling capacitor: given its voltage, it returns the coupled
        signal and its new voltage, which the caller stores back. For a time
        constant in [0, 1] the new voltage lies between the old one and the
        input, and the coupled signal is the input's departure from the old
        voltage, scaled by the time constant. */
    method AcCouplingFilter(input: real, capacitorVoltage: real, timeConstant: real)
      returns (coupled: real, newVoltage: real)
      ensures newVoltage == Charge(capacitorVoltage, input, timeConstant)
      ensures coupled == input - newVoltage
      ensures coupled == timeConstant * (input - capacitorVoltage)
      ensures 0.0 <= timeConstant <= 1.0 ==>
        Min(capacitorVoltage, input) <= newVoltage <= Max(capacitorVoltage, input)
    {
      newVoltage := capacitorVoltage * timeConstant + input * (1.0 - timeConstant);
      coupled := input - newVoltage;
      ChargeGap(capacitorVoltage, input, timeConstant);
      ChargeBetween(capacitorVoltage, input, timeConstant);
    }

    /** Q1: the base node is the input plus Q1's bias; the collector follows Q1Transfer. */
    method TransistorQ1(input: real) returns (r: real)
      modifies this`circuit
      ensures r == Q1Transfer(input + old(circuit.q1Bias))
      ensures circuit == old(circuit).(q1Base := input + old(circuit.q1Bias), q1Collector := r)
    {
      var base := input + circuit.q1Bias;
      var gain := 8.0;
      var collectorCurrent := base * gain;
      if collectorCurrent > 1.0 {
        collectorCurrent := 1.0 + (collectorCurrent - 1.0) * 0.1;
      } else if collectorCurrent < -0.8 {
        collectorCurrent := -0.8 + (collectorCurrent + 0.8) * 0.1;
      }
      collectorCurrent := collectorCurrent + collectorCurrent * collectorCurrent * collectorCurrent * 0.05;
      circuit := circuit.(q1Base := base, q1Collector := collectorCurrent);
      r := collectorCurrent;
    }

    /** The WOOL high-pass: the input minus its one-pole low-passed history. */
    method WoolBassFilter(input: real) returns (r: real)
      requires sampleRate > 0.0 && woolCutoff >= 0.0
      modifies this`circuit
      ensures circuit == old(circuit).(woolFilterZ1 :=
        Charge(old(circuit.woolFilterZ1), input, OnePoleAlpha(woolCutoff, sampleRate)))
      ensures r == input - circuit.woolFilterZ1
    {
      var alpha := OnePoleAlpha(woolCutoff, sampleRate);
      circuit := circuit.(woolFilterZ1 := circuit.woolFilterZ1 * alpha + input * (1.0 - alpha));
      r := input - circuit.woolFilterZ1;
    }

    /** Q2, the bias-gated fuzz stage: its output is Q2Transfer of the
        input at the current bias level (see Q2TransferBounds for its range
        and sign), and the base and collector nodes record the sample. */
    method TransistorQ2(input: real, sin: real -> real) returns (r: real)
      requires SineLike(sin)
      modifies this`circuit
      ensures r == Q2Transfer(input, q2BiasLevel, sin)
      ensures circuit == old(circuit).(q2Base := input + q2BiasLevel * 0.8, q2Collector := r)
    {
      var base := input + (q2BiasLevel * 0.8);
      var inputLevel := Abs(input);
      var transistorActivity := Activity(inputLevel, q2BiasLevel * 0.5);
      var gain := 20.0 * transistorActivity;
      var collectorCurrent := base * gain;
      assert collectorCurrent == Q2Drive(input, q2BiasLevel);
      if collectorCurrent > 0.4 {
        collectorCurrent := 0.4 + (collectorCurrent - 0.4) * 0.02;
      } else if collectorCurrent < -0.3 {
        collectorCurrent := -0.3 + (collectorCurrent + 0.3) * 0.01;
      }
      assert collectorCurrent == Q2Clip(Q2Drive(input, q2BiasLevel));
      collectorCurrent := AddFuzzHarmonics(collectorCurrent, sin);
      if transistorActivity < 0.8 {
        var noiseFactor := 0.95 + 0.05 * sin(inputLevel * 200.0);
        assert noiseFactor == GateNoise(inputLevel, sin);
        collectorCurrent := collectorCurrent * noiseFactor;
      }
      circuit := circuit.(q2Base := base, q2Collector := collectorCurrent);
      r := collectorCurrent;
    }

    /** The EQ tone control: two cascaded one-pole low-passes at the EQ
        cutoff, blended with the high-passed remainder by the EQ knob. */
    method EqToneControl(input: real) returns (r: real)
      requires sampleRate > 0.0 && eqCutoff >= 0.0
      modifies this`circuit
      ensures circuit == old(circuit).(
        eqFilterZ1 := Charge(old(circuit.eqFilterZ1), input, OnePoleAlpha(eqCutoff, sampleRate)),
        eqFilterZ2 := Charge(old(circuit.eqFilterZ2), circuit.eqFilterZ1, OnePoleAlpha(eqCutoff, sampleRate)))
      ensures r == EqBlend(circuit.eqFilterZ2, input - circuit.eqFilterZ1, eq)
    {
      var alpha := OnePoleAlpha(eqCutoff, sampleRate);
      var z1 := circuit.eqFilterZ1 * alpha + input * (1.0 - alpha);
      var z2 := circuit.eqFilterZ2 * alpha + z1 * (1.0 - alpha);
      circuit := circuit.(eqFilterZ1 := z1, eqFilterZ2 := z2);
      var bassResponse := z2;
      var trebleResponse := input - z1;
      r := bassResponse * (1.0 - eq) + trebleResponse * eq * 0.7;
      assert r == EqBlend(bassResponse, trebleResponse, eq);
    }
  }
}
