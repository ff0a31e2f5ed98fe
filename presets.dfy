/** The factory preset table: eight named knob settings, in the order the
    plugin lists them (index 0 is the startup default). */
module Presets {
  import opened Numerics

  datatype Preset = Preset(
    name: string,
    wool: real,
    pinch: real,
    eq: real,
    output: real,
    description: string)

  /** Every knob of the preset is a normalised value in [0, 1]. */
  predicate InRange(p: Preset)
  {
    0.0 <= p.wool <= 1.0 && 0.0 <= p.pinch <= 1.0 &&
    0.0 <= p.eq <= 1.0 && 0.0 <= p.output <= 1.0
  }

  /** getFactoryPresets: the fixed, ordered table. */
  function GetFactoryPresets(): (r: seq<Preset>)
    ensures |r| == 8
    ensures forall i :: 0 <= i < |r| ==> InRange(r[i])
    ensures r[0] == Preset("Classic Wooly", 0.6, 0.4, 0.3, 0.7, "The authentic Wooly Mammoth sound")
  {
    [
      Preset("Classic Wooly", 0.6, 0.4, 0.3, 0.7, "The authentic Wooly Mammoth sound"),
      Preset("Velcro Rip", 0.7, 0.8, 0.2, 0.6, "Extreme gated fuzz with velcro texture"),
      Preset("Bass Destroyer", 0.8, 0.6, 0.1, 0.8, "Maximum bass fuzz destruction"),
      Preset("Gated Synth", 0.4, 0.9, 0.4, 0.5, "Heavily gated synth bass tones"),
      Preset("Smooth Fuzz", 0.5, 0.2, 0.6, 0.8, "Less gated, more sustained fuzz"),
      Preset("Sputtery Gate", 0.3, 0.7, 0.2, 0.6, "Unstable gated fuzz sputter"),
      Preset("Mild Mammoth", 0.4, 0.3, 0.5, 0.7, "Tamed but still fuzzy"),
      Preset("Extreme Pinch", 0.5, 1.0, 0.3, 0.4, "Maximum bias starvation")
    ]
  }

  /** Setting the knobs from a preset stores them exactly: the setters' clamp
      to [0, 1] leaves every field of every factory preset unchanged. */
  lemma PresetsSurviveClamping(i: nat)
    requires i < |GetFactoryPresets()|
    ensures var p := GetFactoryPresets()[i];
      Clamp(p.wool, 0.0, 1.0) == p.wool && Clamp(p.pinch, 0.0, 1.0) == p.pinch &&
      Clamp(p.eq, 0.0, 1.0) == p.eq && Clamp(p.output, 0.0, 1.0) == p.output
  {
    assert InRange(GetFactoryPresets()[i]);
  }
}
