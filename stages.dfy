/** The pure pieces of the Wooly Mammoth signal chain: the knob-to-coefficient
    maps, the one-pole update shared by the coupling capacitors and the tone
    filters, the two transistor transfer curves, the fuzz shaper and the
    output limiter. The engine in module Engine threads its state through these. */
module Stages {
  import opened Numerics

  function Min(a: real, b: real): real { if a <= b then a else b }
  function Max(a: real, b: real): real { if a <= b then b else a }

  // ---------------------------------------------------------------------------
  // Knob maps (each knob value is already clamped to [0, 1] by its setter)
  // ---------------------------------------------------------------------------

  /** PINCH sets the Q2 bias level; more pinch means a more starved bias. */
  function BiasLevel(pinch: real): (r: real)
    ensures 0.0 <= pinch <= 1.0 ==> 0.1 <= r <= 0.8
    ensures pinch == 1.0 - (r - 0.1) / 0.7
  {
    0.1 + (1.0 - pinch) * 0.7
  }

  /** Turning PINCH up never raises the bias level. */
  lemma BiasLevelNonIncreasing(p: real, q: real)
    requires p <= q
    ensures BiasLevel(q) <= BiasLevel(p)
  {
  }

  /** OUTPUT sets the final gain multiplier. */
  function OutputGain(output: real): (r: real)
    ensures 0.0 <= output <= 1.0 ==> 0.2 <= r <= 2.2
    ensures output == (r - 0.2) / 2.0
  {
    0.2 + output * 2.0
  }

  /** WOOL sets the cutoff of the bass roll-off ahead of Q2, in Hz. */
  function WoolCutoff(wool: real): (r: real)
    ensures 0.0 <= wool <= 1.0 ==> 50.0 <= r <= 350.0
    ensures wool == (r - 50.0) / 300.0
  {
    50.0 + wool * 300.0
  }

  /** EQ sets the cutoff of the tone control's low-pass poles, in Hz. */
  function EqCutoff(eq: real): (r: real)
    ensures 0.0 <= eq <= 1.0 ==> 800.0 <= r <= 3000.0
    ensures eq == (r - 800.0) / 2200.0
  {
    800.0 + eq * 2200.0
  }

  // ---------------------------------------------------------------------------
  // One-pole smoothing
  // ---------------------------------------------------------------------------

  /** Feedback coefficient of the one-pole filters for a cutoff at a sample rate. */
  function OnePoleAlpha(cutoff: real, sampleRate: real): (r: real)
    requires sampleRate > 0.0 && cutoff >= 0.0
    ensures 0.0 < r <= 1.0
    ensures cutoff > 0.0 ==> r < 1.0
  {
    1.0 / (1.0 + (2.0 * Pi * cutoff / sampleRate))
  }

  /** alpha = fs / (fs + 2 pi fc): the coefficient is the sample rate's share
      of the sample rate plus the angular cutoff. */
  lemma OnePoleAlphaRatio(cutoff: real, sampleRate: real)
    requires sampleRate > 0.0 && cutoff >= 0.0
    ensures OnePoleAlpha(cutoff, sampleRate) * (sampleRate + 2.0 * Pi * cutoff) == sampleRate
  {
    var d := 1.0 + (2.0 * Pi * cutoff / sampleRate);
    assert d * sampleRate == sampleRate + 2.0 * Pi * cutoff;
    assert OnePoleAlpha(cutoff, sampleRate) * d == 1.0;
    assert (OnePoleAlpha(cutoff, sampleRate) * d) * sampleRate == sampleRate;
  }

  /** A higher cutoff means less feedback from the filter's history. */
  lemma OnePoleAlphaAntitone(lower: real, higher: real, sampleRate: real)
    requires sampleRate > 0.0 && 0.0 <= lower <= higher
    ensures OnePoleAlpha(higher, sampleRate) <= OnePoleAlpha(lower, sampleRate)
  {
    var a, b := OnePoleAlpha(lower, sampleRate), OnePoleAlpha(higher, sampleRate);
    OnePoleAlphaRatio(lower, sampleRate);
    OnePoleAlphaRatio(higher, sampleRate);
    var lo, hi := sampleRate + 2.0 * Pi * lower, sampleRate + 2.0 * Pi * higher;
    assert b * hi == a * lo;
    assert (a - b) * hi == a * (hi - lo);
    assert a * (hi - lo) >= 0.0;
  }

  /** One step of a leaky integrator with feedback k: the new state moves from
      the old state towards the input, leaving the fraction k of the gap. */
  function Charge(state: real, input: real, k: real): real
  {
    state * k + input * (1.0 - k)
  }

  /** What is left of the gap between state and input after one step. */
  lemma ChargeGap(state: real, input: real, k: real)
    ensures Charge(state, input, k) - input == k * (state - input)
  {
  }

  /** With k in [0, 1] the new state lies between the old state and the input. */
  lemma ChargeBetween(state: real, input: real, k: real)
    ensures 0.0 <= k <= 1.0 ==> Min(state, input) <= Charge(state, input, k) <= Max(state, input)
  {
    ChargeGap(state, input, k);
    var gap := state - input;
    if 0.0 <= k <= 1.0 {
      if gap >= 0.0 {
        assert (1.0 - k) * gap >= 0.0;
        assert 0.0 <= k * gap <= gap;
      } else {
        assert (1.0 - k) * -gap >= 0.0;
        assert gap <= k * gap <= 0.0;
      }
    }
  }

  /** The state after n steps with the same input every step. */
  function ChargeFor(state: real, input: real, k: real, n: nat): real
  {
    if n == 0 then state else Charge(ChargeFor(state, input, k, n - 1), input, k)
  }

  /** Under a constant input the gap to the input shrinks geometrically: the
      coupled output (input minus state) of an AC-coupling stage decays as k^n,
      so the stage blocks DC. */
  lemma {:induction false} ChargeDecays(state: real, input: real, k: real, n: nat)
    ensures input - ChargeFor(state, input, k, n) == Pow(k, n) * (input - state)
  {
    if n > 0 {
      ChargeDecays(state, input, k, n - 1);
      ChargeShrinksGap(ChargeFor(state, input, k, n - 1), input, k, Pow(k, n - 1), input - state);
    }
  }

  /** One step of the induction above: a gap of q * d becomes (k * q) * d. */
  lemma ChargeShrinksGap(p: real, input: real, k: real, q: real, d: real)
    requires input - p == q * d
    ensures input - Charge(p, input, k) == (k * q) * d
  {
    ChargeGap(p, input, k);
    assert k * (q * d) == (k * q) * d;
  }

  /** The input DC blocker: y = x - x[-1] + 0.995 * y[-1]. */
  function DcBlock(input: real, lastIn: real, lastOut: real): (r: real)
    ensures input == lastIn ==> r == 0.995 * lastOut
  {
    input - lastIn + 0.995 * lastOut
  }

  /** The blocker's output never exceeds the step in its input plus 0.995
      times its previous output. */
  lemma DcBlockBounded(input: real, lastIn: real, lastOut: real)
    ensures Abs(DcBlock(input, lastIn, lastOut)) <= Abs(input - lastIn) + 0.995 * Abs(lastOut)
  {
  }

  /** The blocker's output after n further samples of the constant input c,
      starting from the state (c, lastOut). */
  function DcBlockFor(c: real, lastOut: real, n: nat): real
  {
    if n == 0 then lastOut else DcBlock(c, c, DcBlockFor(c, lastOut, n - 1))
  }

  /** A constant input is blocked: the output decays as 0.995^n. */
  lemma {:induction false} DcBlockerSettles(c: real, lastOut: real, n: nat)
    ensures DcBlockFor(c, lastOut, n) == Pow(0.995, n) * lastOut
  {
    if n > 0 {
      DcBlockerSettles(c, lastOut, n - 1);
      assert DcBlockFor(c, lastOut, n) == 0.995 * (Pow(0.995, n - 1) * lastOut);
    }
  }

  // ---------------------------------------------------------------------------
  // Transistor Q1: gain 8, asymmetric hard-knee saturation, cubic term
  // ---------------------------------------------------------------------------

  /** Q1's saturation: slope 1 between -0.8 and 1, slope 0.1 beyond the knees. */
  function Q1Saturate(c: real): (r: real)
    ensures 1.0 < c ==> 1.0 < r < c
    ensures c < -0.8 ==> c < r < -0.8
    ensures -0.8 <= c <= 1.0 ==> r == c
  {
    if c > 1.0 then 1.0 + (c - 1.0) * 0.1
    else if c < -0.8 then -0.8 + (c + 0.8) * 0.1
    else c
  }

  lemma Q1SaturateIncreasing(a: real, b: real)
    requires a < b
    ensures Q1Saturate(a) < Q1Saturate(b)
  {
  }

  lemma CubeIncreasing(x: real, y: real)
    requires x < y
    ensures x * x * x < y * y * y
  {
    var d := y - x;
    assert y * y * y - x * x * x == d * (x * x + x * y + y * y);
    var m := x + y / 2.0;
    assert x * x + x * y + y * y == m * m + 3.0 * (y * y) / 4.0;
    SquareNonNegative(m);
    if y == 0.0 {
      SquarePositive(x);
      assert x * x + x * y + y * y == x * x;
    } else {
      SquarePositive(y);
      assert 3.0 * (y * y) / 4.0 > 0.0;
    }
  }

  lemma SquareNonNegative(m: real)
    ensures m * m >= 0.0
  {
    if m < 0.0 {
      assert m * m == (-m) * (-m);
    }
  }

  lemma SquarePositive(m: real)
    requires m != 0.0
    ensures m * m > 0.0
  {
    if m < 0.0 {
      assert m * m == (-m) * (-m);
    }
  }

  /** Collector current of Q1 for a base drive (input plus bias). */
  function Q1Transfer(base: real): real
  {
    var c := Q1Saturate(base * 8.0);
    c + c * c * c * 0.05
  }

  /** Q1 keeps the sign of its base drive. */
  lemma Q1TransferSign(base: real)
    ensures base > 0.0 ==> Q1Transfer(base) > 0.0
    ensures base < 0.0 ==> Q1Transfer(base) < 0.0
    ensures base == 0.0 ==> Q1Transfer(base) == 0.0
  {
    var c := Q1Saturate(base * 8.0);
    assert c * c >= 0.0;
    assert c > 0.0 ==> c * c * c >= 0.0;
    assert c < 0.0 ==> c * c * c <= 0.0;
  }

  /** Q1 never folds the waveform back: its transfer curve is strictly increasing. */
  lemma Q1TransferIncreasing(a: real, b: real)
    requires a < b
    ensures Q1Transfer(a) < Q1Transfer(b)
  {
    var x, y := Q1Saturate(a * 8.0), Q1Saturate(b * 8.0);
    Q1SaturateIncreasing(a * 8.0, b * 8.0);
    CubeIncreasing(x, y);
  }

  // ---------------------------------------------------------------------------
  // Transistor Q2: bias-gated gain, hard clipping, fuzz harmonics
  // ---------------------------------------------------------------------------

  /** How far Q2 conducts for an input of magnitude level against the bias
      threshold: fully at or above it, quadratically less below it. */
  function Activity(level: real, threshold: real): (r: real)
    requires level >= 0.0
    ensures 0.0 <= r <= 1.0
    ensures r == 1.0 <==> level >= threshold
  {
    if level < threshold then
      var a := level / threshold;
      assert a * threshold == level;
      assert 0.0 <= a < 1.0;
      assert a * a <= a * 1.0;
      a * a
    else 1.0
  }

  /** Below the threshold, activity is the squared ratio of level to threshold. */
  lemma ActivityBelowThreshold(level: real, threshold: real)
    requires 0.0 <= level < threshold
    ensures Activity(level, threshold) * (threshold * threshold) == level * level
  {
    var a := level / threshold;
    assert a * threshold == level;
    assert (a * a) * (threshold * threshold) == (a * threshold) * (a * threshold);
  }

  /** A louder input never makes Q2 conduct less. */
  lemma ActivityMonotone(quieter: real, louder: real, threshold: real)
    requires 0.0 <= quieter <= louder
    ensures Activity(quieter, threshold) <= Activity(louder, threshold)
  {
    if louder < threshold {
      var rq, rl := quieter / threshold, louder / threshold;
      assert rq * threshold == quieter;
      assert rl * threshold == louder;
      assert 0.0 <= rq;
      CancelPositiveFactor(rq, rl, threshold);
      SquaresOrdered(rq, rl);
      ActivityIsRatioSquared(quieter, threshold);
      ActivityIsRatioSquared(louder, threshold);
    }
  }

  lemma CancelPositiveFactor(a: real, b: real, t: real)
    requires t > 0.0 && a * t <= b * t
    ensures a <= b
  {
    assert (b - a) * t == b * t - a * t;
    assert b - a == ((b - a) * t) / t;
  }

  /** Q2's asymmetric hard clip: slope 0.02 above 0.4, slope 0.01 below -0.3. */
  function Q2Clip(c: real): (r: real)
    ensures 0.4 < c ==> 0.4 < r < c
    ensures c < -0.3 ==> c < r < -0.3
    ensures -0.3 <= c <= 0.4 ==> r == c
  {
    if c > 0.4 then 0.4 + (c - 0.4) * 0.02
    else if c < -0.3 then -0.3 + (c + 0.3) * 0.01
    else c
  }

  lemma Q2ClipIncreasing(a: real, b: real)
    requires a < b
    ensures Q2Clip(a) < Q2Clip(b)
  {
  }

  lemma ShapePositiveBounds(x: real)
    requires x > 0.0
    ensures 0.0 < x / (1.0 + x * 2.0) < 0.5 && x / (1.0 + x * 2.0) <= x
  {
    var d := 1.0 + x * 2.0;
    var r := x / d;
    assert r * d == x;
    assert r > 0.0;
    assert (2.0 * r) * d == d - 1.0;
    assert r * 1.0 <= r * d;
  }

  lemma ShapeNonPositiveBounds(x: real)
    requires x <= 0.0
    ensures -1.0 / 3.0 < x / (1.0 - x * 3.0) <= 0.0 && x <= x / (1.0 - x * 3.0)
  {
    var d := 1.0 - x * 3.0;
    var r := x / d;
    assert r * d == x;
    assert r <= 0.0;
    assert (-3.0 * r) * d == d - 1.0;
    assert r * 1.0 >= r * d;
  }

  /** The asymmetric waveshaper: x/(1+2x) for positive x, x/(1-3x) otherwise. */
  function AsymmetricShape(x: real): (r: real)
    ensures x > 0.0 ==> 0.0 < r < 0.5
    ensures x <= 0.0 ==> -1.0 / 3.0 < r <= 0.0
    ensures Abs(r) <= Abs(x)
  {
    if x > 0.0 then
      ShapePositiveBounds(x);
      x / (1.0 + x * 2.0)
    else
      ShapeNonPositiveBounds(x);
      x / (1.0 - x * 3.0)
  }

  /** The inverse of the shaper on its range (-1/3, 1/2). */
  function AsymmetricUnshape(r: real): (x: real)
    requires -1.0 / 3.0 < r < 0.5
  {
    if r > 0.0 then r / (1.0 - 2.0 * r) else r / (1.0 + 3.0 * r)
  }

  /** Shaping loses nothing: every input is recovered from its shaped value. */
  lemma ShapeThenUnshape(x: real)
    ensures AsymmetricUnshape(AsymmetricShape(x)) == x
  {
    var r := AsymmetricShape(x);
    if x > 0.0 {
      assert r * (1.0 + x * 2.0) == x;
      assert x * (1.0 - 2.0 * r) == r;
    } else {
      assert r * (1.0 - x * 3.0) == x;
      assert x * (1.0 + 3.0 * r) == r;
    }
  }

  /** And the shaper reaches all of (-1/3, 1/2). */
  lemma UnshapeThenShape(r: real)
    requires -1.0 / 3.0 < r < 0.5
    ensures AsymmetricShape(AsymmetricUnshape(r)) == r
  {
    if r > 0.0 {
      PositiveBranchInverse(r);
    } else {
      NonPositiveBranchInverse(r);
    }
  }

  lemma PositiveBranchInverse(r: real)
    requires 0.0 < r < 0.5
    ensures r / (1.0 - 2.0 * r) > 0.0
    ensures (r / (1.0 - 2.0 * r)) / (1.0 + (r / (1.0 - 2.0 * r)) * 2.0) == r
  {
    var d := 1.0 - 2.0 * r;
    var x := r / d;
    QuotientSign(r, d);
    assert x * d == r;
    assert x > 0.0;
    var e := 1.0 + x * 2.0;
    assert r * e == x;
  }

  lemma NonPositiveBranchInverse(r: real)
    requires -1.0 / 3.0 < r <= 0.0
    ensures r / (1.0 + 3.0 * r) <= 0.0
    ensures (r / (1.0 + 3.0 * r)) / (1.0 - (r / (1.0 + 3.0 * r)) * 3.0) == r
  {
    var d := 1.0 + 3.0 * r;
    var x := r / d;
    QuotientSign(r, d);
    assert x * d == r;
    var e := 1.0 - x * 3.0;
    assert r * e == x;
  }

  lemma QuotientSign(a: real, b: real)
    requires b > 0.0
    ensures a <= 0.0 ==> a / b <= 0.0
    ensures a >= 0.0 ==> a / b >= 0.0
  {
  }

  lemma ScaledByUnit(s: real, w: real)
    requires -1.0 <= w <= 1.0
    ensures s >= 0.0 ==> -s <= s * w <= s
    ensures s <= 0.0 ==> s <= s * w <= -s
  {
    if s >= 0.0 {
      assert s * w <= s * 1.0 && s * (-1.0) <= s * w;
    } else {
      assert s * w >= s * 1.0 && s * (-1.0) >= s * w;
    }
  }

  /** The high-frequency texture: s scaled by 1 + 0.1 * sin(50 s). */
  function Texture(s: real, sin: real -> real): (r: real)
    requires SineLike(sin)
    ensures s >= 0.0 ==> 0.9 * s <= r <= 1.1 * s
    ensures s <= 0.0 ==> 1.1 * s <= r <= 0.9 * s
  {
    var w := sin(s * 50.0);
    ScaledByUnit(s, w);
    s + s * w * 0.1
  }

  /** The bit crusher: round to the nearest multiple of 1/64. */
  function Crush(s: real): (r: real)
    ensures -1.0 / 128.0 <= r - s <= 1.0 / 128.0
    ensures (r * 64.0).Floor as real == r * 64.0
  {
    Round(s * 64.0) as real / 64.0
  }

  /** Crushing an already crushed value changes nothing. */
  lemma CrushIdempotent(s: real)
    ensures Crush(Crush(s)) == Crush(s)
  {
    var r := Crush(s);
    RoundInteger((r * 64.0).Floor);
  }

  /** addFuzzHarmonics: shaper, texture, bit crusher. */
  function AddFuzzHarmonics(input: real, sin: real -> real): real
    requires SineLike(sin)
  {
    Crush(Texture(AsymmetricShape(input), sin))
  }

  /** The harmonics stage puts out a multiple of 1/64 between -23/64 and
      35/64 with the sign of its input. */
  lemma AddFuzzHarmonicsBounds(input: real, sin: real -> real)
    requires SineLike(sin)
    ensures -23.0 / 64.0 <= AddFuzzHarmonics(input, sin) <= 35.0 / 64.0
    ensures input >= 0.0 ==> AddFuzzHarmonics(input, sin) >= 0.0
    ensures input <= 0.0 ==> AddFuzzHarmonics(input, sin) <= 0.0
    ensures (AddFuzzHarmonics(input, sin) * 64.0).Floor as real == AddFuzzHarmonics(input, sin) * 64.0
  {
    var a := AsymmetricShape(input);
    var t := Texture(a, sin);
    assert -11.0 / 30.0 < t < 0.55;
    assert input >= 0.0 ==> t >= 0.0;
    assert input <= 0.0 ==> t <= 0.0;
    var n := Round(t * 64.0);
    assert -23 <= n <= 35;
    assert t >= 0.0 ==> n >= 0;
    assert t <= 0.0 ==> n <= 0;
    assert AddFuzzHarmonics(input, sin) == n as real / 64.0;
  }

  /** The sputter factor applied while Q2 is starved: 0.95 + 0.05 * sin(200 |x|). */
  function GateNoise(level: real, sin: real -> real): (r: real)
    requires SineLike(sin)
    ensures 0.9 <= r <= 1.0
  {
    0.95 + 0.05 * sin(level * 200.0)
  }

  /** Q2's collector current before clipping: the base drive (input plus
      0.8 * bias level) times the activity-gated gain 20 * activity. */
  function Q2Drive(input: real, biasLevel: real): (c: real)
    ensures input + biasLevel * 0.8 > 0.0 ==> c >= 0.0
    ensures input + biasLevel * 0.8 < 0.0 ==> c <= 0.0
    ensures input == 0.0 && biasLevel > 0.0 ==> c == 0.0
  {
    var base := input + biasLevel * 0.8;
    var activity := Activity(Abs(input), biasLevel * 0.5);
    assert input == 0.0 && biasLevel > 0.0 ==> activity == 0.0;
    assert base > 0.0 ==> base * (20.0 * activity) >= 0.0;
    assert base < 0.0 ==> base * (20.0 * activity) <= 0.0;
    base * (20.0 * activity)
  }

  lemma ScaledTowardsZero(h: real, g: real)
    requires 0.0 <= g <= 1.0
    ensures h >= 0.0 ==> 0.0 <= h * g <= h
    ensures h <= 0.0 ==> h <= h * g <= 0.0
  {
    if h >= 0.0 {
      assert h * g <= h * 1.0;
    } else {
      assert h * g >= h * 1.0;
    }
  }

  /** Q2's collector output for a coupled input at a given bias level: the
      drive, clipped, through the harmonics stage, and scaled by the gate
      noise while Q2 is less than 80 % active. */
  function Q2Transfer(input: real, biasLevel: real, sin: real -> real): real
    requires SineLike(sin)
  {
    var h := AddFuzzHarmonics(Q2Clip(Q2Drive(input, biasLevel)), sin);
    if Activity(Abs(input), biasLevel * 0.5) < 0.8 then h * GateNoise(Abs(input), sin) else h
  }

  /** Silence in gives silence out when the bias is positive (the gate
      closes), the output has the sign of the base drive, and it always lies
      in [-23/64, 35/64]. */
  lemma Q2TransferBounds(input: real, biasLevel: real, sin: real -> real)
    requires SineLike(sin)
    ensures -23.0 / 64.0 <= Q2Transfer(input, biasLevel, sin) <= 35.0 / 64.0
    ensures input + biasLevel * 0.8 > 0.0 ==> Q2Transfer(input, biasLevel, sin) >= 0.0
    ensures input + biasLevel * 0.8 < 0.0 ==> Q2Transfer(input, biasLevel, sin) <= 0.0
    ensures input == 0.0 && biasLevel > 0.0 ==> Q2Transfer(input, biasLevel, sin) == 0.0
  {
    var drive := Q2Drive(input, biasLevel);
    var clipped := Q2Clip(drive);
    assert drive >= 0.0 ==> clipped >= 0.0;
    assert drive <= 0.0 ==> clipped <= 0.0;
    var h := AddFuzzHarmonics(clipped, sin);
    AddFuzzHarmonicsBounds(clipped, sin);
    var r := Q2Transfer(input, biasLevel, sin);
    if Activity(Abs(input), biasLevel * 0.5) < 0.8 {
      var g := GateNoise(Abs(input), sin);
      assert r == h * g;
      GatedTowardsZero(h, g);
    } else {
      assert r == h;
    }
  }

  /** The gate: with the bias level at its floor of 0.1 or above, an input
      within 1/400 of silence gives a drive of at most 0.0045, which the bit
      crusher rounds to exactly 0. */
  lemma Q2GateClosesOnQuietInput(input: real, biasLevel: real, sin: real -> real)
    requires SineLike(sin)
    requires 0.1 <= biasLevel && Abs(input) <= 1.0 / 400.0
    ensures Q2Transfer(input, biasLevel, sin) == 0.0
  {
    var drive := Q2Drive(input, biasLevel);
    QuietDriveSmall(input, biasLevel);
    assert Q2Clip(drive) == drive;
    SmallHarmonicsVanish(drive, sin);
  }

  /** A quiet input barely conducts: the activity falls with the square of
      the level while the base current grows only linearly with the bias. */
  lemma QuietDriveSmall(input: real, biasLevel: real)
    requires 0.1 <= biasLevel && Abs(input) <= 1.0 / 400.0
    ensures 0.0 <= Q2Drive(input, biasLevel) <= 0.0045
  {
    var level, threshold := Abs(input), biasLevel * 0.5;
    var act := Activity(level, threshold);
    var base := input + biasLevel * 0.8;
    ActivityBelowThreshold(level, threshold);
    assert act * (biasLevel * biasLevel) == 4.0 * (level * level);
    assert level * level <= level * (1.0 / 400.0) <= 1.0 / 160000.0;
    var ab := act * biasLevel;
    assert ab * biasLevel <= 1.0 / 40000.0;
    assert ab * 0.1 <= ab * biasLevel;
    assert ab <= 1.0 / 4000.0;
    assert 0.0 < base <= 0.825 * biasLevel;
    assert Q2Drive(input, biasLevel) == base * (20.0 * act);
    assert base * act <= (0.825 * biasLevel) * act;
  }

  /** The harmonics stage rounds a small enough non-negative current to 0. */
  lemma SmallHarmonicsVanish(c: real, sin: real -> real)
    requires SineLike(sin) && 0.0 <= c <= 0.0045
    ensures AddFuzzHarmonics(c, sin) == 0.0
  {
    var a := AsymmetricShape(c);
    if c > 0.0 {
      ShapePositiveBounds(c);
    }
    assert 0.0 <= a <= c;
    var t := Texture(a, sin);
    assert 0.0 <= t * 64.0 <= 0.32;
    assert Round(t * 64.0) == 0;
  }

  // ---------------------------------------------------------------------------
  // PINCH and the gate
  //
  // The header's comments promise that more PINCH starves Q2's bias and gates
  // more. As written, the gate threshold is half the bias level, which PINCH
  // lowers, so more PINCH lets quieter input through. The lemmas below show
  // this, then give a threshold that rises as the bias level falls and prove
  // that with it more PINCH never opens the gate.
  // ---------------------------------------------------------------------------

  /** As written: the gate threshold, and so the gating, falls as PINCH rises. */
  lemma AsWrittenPinchOpensGate(level: real, p: real, q: real)
    requires 0.0 <= level && 0.0 <= p <= q <= 1.0
    ensures Activity(level, BiasLevel(p) * 0.5) <= Activity(level, BiasLevel(q) * 0.5)
  {
    ActivityAntitoneInThreshold(level, BiasLevel(q) * 0.5, BiasLevel(p) * 0.5);
  }

  /** As written: a 0.005 sample is gated to silence with PINCH at 0. */
  lemma AsWrittenPinchZeroGatesQuietSample(sin: real -> real)
    requires SineLike(sin)
    ensures Q2Transfer(0.005, BiasLevel(0.0), sin) == 0.0
  {
    var b := BiasLevel(0.0);
    assert b == 0.8;
    var act := Activity(0.005, 0.4);
    ActivityBelowThreshold(0.005, 0.4);
    assert act == 0.00015625;
    var drive := Q2Drive(0.005, b);
    assert drive == 0.645 * (20.0 * act);
    assert Q2Clip(drive) == drive;
    SmallHarmonicsVanish(drive, sin);
  }

  /** As written: the same sample passes with PINCH at 1, the setting the
      header calls the most starved. */
  lemma AsWrittenPinchOnePassesQuietSample(sin: real -> real)
    requires SineLike(sin)
    ensures Q2Transfer(0.005, BiasLevel(1.0), sin) > 0.0
  {
    PinchOneQuietDrive();
    var h, g := AddFuzzHarmonics(0.017, sin), GateNoise(0.005, sin);
    HarmonicsPositive(0.017, sin);
    assert h * g >= h * 0.9;
    assert Q2Transfer(0.005, 0.1, sin) == h * g;
  }

  /** With PINCH at 1 a 0.005 sample conducts at 1% activity and drives Q2
      with 0.017, inside the clipper's linear range. */
  lemma PinchOneQuietDrive()
    ensures BiasLevel(1.0) == 0.1
    ensures Activity(0.005, 0.05) == 0.01
    ensures Q2Drive(0.005, 0.1) == 0.017 && Q2Clip(0.017) == 0.017
  {
    ActivityBelowThreshold(0.005, 0.05);
    assert Abs(0.005) == 0.005;
  }

  /** A current in [0.015, 0.1] leaves the harmonics stage at 1/64 or above. */
  lemma HarmonicsPositive(c: real, sin: real -> real)
    requires SineLike(sin) && 0.015 <= c <= 0.1
    ensures AddFuzzHarmonics(c, sin) >= 1.0 / 64.0
  {
    var a := AsymmetricShape(c);
    ShapePositiveBounds(c);
    var d := 1.0 + c * 2.0;
    assert a * d == c;
    ShapedAtLeast(a, d, c);
    var y := Texture(a, sin) * 64.0;
    assert y >= 0.72;
    var n := Round(y);
    assert n as real > y - 0.5;
    assert n >= 1;
  }

  /** A higher threshold never lets the same level conduct more. */
  lemma ActivityAntitoneInThreshold(level: real, lower: real, higher: real)
    requires 0.0 <= level && 0.0 < lower <= higher
    ensures Activity(level, higher) <= Activity(level, lower)
  {
    if level < lower {
      ActivityBelowBoth(level, lower, higher);
    }
  }

  /** Below both thresholds the activity is the squared ratio level/threshold,
      and that ratio shrinks as the threshold grows. */
  lemma ActivityBelowBoth(level: real, lower: real, higher: real)
    requires 0.0 <= level < lower <= higher
    ensures Activity(level, higher) <= Activity(level, lower)
  {
    var rh, rl := level / higher, level / lower;
    assert rh * higher == level;
    assert rl * lower == level;
    assert 0.0 <= rh && 0.0 <= rl;
    RatioOrder(rh, rl, level, lower, higher);
    SquaresOrdered(rh, rl);
    ActivityIsRatioSquared(level, higher);
    ActivityIsRatioSquared(level, lower);
  }

  /** Two ratios with the same numerator: the larger denominator gives the
      smaller ratio. */
  lemma RatioOrder(onHigher: real, onLower: real, level: real, lower: real, higher: real)
    requires 0.0 <= onLower && 0.0 < lower <= higher
    requires onHigher * higher == level && onLower * lower == level
    ensures onHigher <= onLower
  {
    ScaleOrder(onLower, lower, higher);
    CancelPositiveFactor(onHigher, onLower, higher);
  }

  /** Below the threshold the activity is (level / threshold) squared. */
  lemma ActivityIsRatioSquared(level: real, threshold: real)
    requires 0.0 <= level < threshold
    ensures Activity(level, threshold) == (level / threshold) * (level / threshold)
  {
  }

  /** Squaring keeps the order of non-negative numbers. */
  lemma SquaresOrdered(lower: real, higher: real)
    requires 0.0 <= lower <= higher
    ensures lower * lower <= higher * higher
  {
    ScaleOrder(lower, lower, higher);
    ScaleOrder(higher, lower, higher);
  }

  /** The shaper's output a = c / d is at least 0.0125 when c >= 0.015 and
      the denominator d is at most 1.2. */
  lemma ShapedAtLeast(a: real, d: real, c: real)
    requires 0.0 <= a && a * d == c && d <= 1.2 && 0.015 <= c
    ensures a >= 0.0125
  {
    ScaleOrder(a, d, 1.2);
  }

  /** Scaling by a non-negative factor keeps order. */
  lemma ScaleOrder(a: real, x: real, y: real)
    requires 0.0 <= a && x <= y
    ensures a * x <= a * y
  {
    assert a * y - a * x == a * (y - x);
  }

  /** The intended threshold: it rises from 0.05 to 0.4 as the bias level
      falls from 0.8 to 0.1, the range the header's threshold covers, reversed. */
  function StarvedThreshold(biasLevel: real): (t: real)
    ensures 0.1 <= biasLevel <= 0.8 ==> 0.05 <= t <= 0.4
    ensures biasLevel == 0.9 - 2.0 * t
  {
    (0.9 - biasLevel) * 0.5
  }

  /** Intended: with the starved threshold, more PINCH never opens the gate. */
  lemma IntendedPinchTightensGate(level: real, p: real, q: real)
    requires 0.0 <= level && 0.0 <= p <= q <= 1.0
    ensures Activity(level, StarvedThreshold(BiasLevel(q))) <= Activity(level, StarvedThreshold(BiasLevel(p)))
  {
    ActivityAntitoneInThreshold(level, StarvedThreshold(BiasLevel(p)), StarvedThreshold(BiasLevel(q)));
  }

  /** The gate noise only scales Q2's output towards 0. */
  lemma GatedTowardsZero(h: real, g: real)
    requires -23.0 / 64.0 <= h <= 35.0 / 64.0 && 0.0 <= g <= 1.0
    ensures -23.0 / 64.0 <= h * g <= 35.0 / 64.0
    ensures h >= 0.0 ==> h * g >= 0.0
    ensures h <= 0.0 ==> h * g <= 0.0
  {
    ScaledTowardsZero(h, g);
  }

  // ---------------------------------------------------------------------------
  // Tone control blend and output limiter
  // ---------------------------------------------------------------------------

  /** The EQ blend: the low-passed signal weighted by 1 - eq, the high-passed
      signal by 0.7 * eq. */
  function EqBlend(bass: real, treble: real, eq: real): (r: real)
    ensures eq == 0.0 ==> r == bass
    ensures eq == 1.0 ==> r == 0.7 * treble
  {
    bass * (1.0 - eq) + treble * eq * 0.7
  }

  /** With the knob in [0, 1] the blend is no louder than its weighted parts. */
  lemma EqBlendBounded(bass: real, treble: real, eq: real)
    requires 0.0 <= eq <= 1.0
    ensures Abs(EqBlend(bass, treble, eq)) <= (1.0 - eq) * Abs(bass) + 0.7 * eq * Abs(treble)
  {
    AbsScaled(bass, 1.0 - eq);
    AbsScaled(treble, eq * 0.7);
  }

  /** Scaling by a non-negative weight scales the magnitude by that weight. */
  lemma AbsScaled(x: real, w: real)
    requires w >= 0.0
    ensures Abs(x * w) == w * Abs(x)
  {
    if x < 0.0 {
      assert x * w == -((-x) * w);
    }
  }

  /** softLimit: 0.95 * tanh(0.9 x). */
  function SoftLimit(input: real, tanh: real -> real): real
  {
    tanh(input * 0.9) * 0.95
  }

  /** The last two steps of a sample: the output gain, then the limiter. */
  function LimitedOutput(eqShaped: real, outputGain: real, tanh: real -> real): real
  {
    SoftLimit(eqShaped * outputGain, tanh)
  }

  /** With a tanh whose values lie inside (-1, 1), the limiter's output lies
      strictly inside (-0.95, 0.95), whatever the input. */
  lemma SoftLimitBounded(input: real, tanh: real -> real)
    requires TanhLike(tanh)
    ensures -0.95 < SoftLimit(input, tanh) < 0.95
  {
    var t := tanh(input * 0.9);
    assert -1.0 < t < 1.0;
  }
}
