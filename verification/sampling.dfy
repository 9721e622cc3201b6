/**
 * The sampling frame shared by every encoder and modulator of
 * `src/utils/waveforms.ts`: a bit string becomes `samplesPerBit` samples per
 * bit, sample `i` sits at time `i / sampleRate`, belongs to unit
 * `floor(i / samplesPerBit)` and lies at the fraction
 * `(i % samplesPerBit) / samplesPerBit` of that unit.
 */
module Sampling {
  import opened Numbers

  /** The `{ time, amplitude }` pair every generator returns. */
  datatype Waveform = Waveform(time: seq<real>, amplitude: seq<real>)
  {
    predicate Valid() {
      |time| == |amplitude|
    }
  }

  /** The angle `2 * Math.PI * frequency * t` of a sinusoid at time `t`. */
  function Angle(frequency: real, t: real): real {
    2.0 * PI * frequency * t
  }

  /** `Math.floor(bitDuration * sampleRate)`, never negative for the generators' loop bound. */
  function SamplesPerBit(bitDuration: real, sampleRate: real): (n: nat)
    ensures n > 0 ==> sampleRate != 0.0 && (n as real) <= bitDuration * sampleRate
    ensures n == 0 <==> bitDuration * sampleRate < 1.0
  {
    FloorCount(bitDuration * sampleRate)
  }

  /** The fraction of its unit at which offset `j` lies, `(i % samplesPerBit) / samplesPerBit`. */
  function Position(j: nat, unitLength: nat): real
    requires unitLength > 0
  {
    (j as real) / (unitLength as real)
  }

  lemma DivHalf(x: real, y: real)
    requires y > 0.0
    ensures x / y < 0.5 <==> 2.0 * x < y
  {
    var p := x / y;
    assert p * y == x;
    if p < 0.5 {
      MulStrict(p, 0.5, y);
    } else if 0.5 < p {
      MulStrict(0.5, p, y);
    }
  }

  /** The test `positionInBit < 0.5` holds exactly for the offsets in the first half of the unit. */
  lemma FirstHalf(j: nat, unitLength: nat)
    requires unitLength > 0
    ensures Position(j, unitLength) < 0.5 <==> 2 * j < unitLength
  {
    DivHalf(j as real, unitLength as real);
  }

  /**
   * The common shape of the generators' sampling loop: `|units| * unitLength`
   * samples, sample `i` at time `i / sampleRate` with a level that depends on
   * unit `floor(i / unitLength)`, on the position inside that unit and on the time.
   */
  function Synthesize<T>(units: seq<T>, unitLength: nat, sampleRate: real, level: (T, real, real) -> real): (w: Waveform)
    requires unitLength > 0 ==> sampleRate != 0.0
    ensures w.Valid() && |w.time| == |units| * unitLength
  {
    var n := |units| * unitLength;
    if unitLength == 0 then Waveform([], [])
    else
      Waveform(
        seq(n, i requires 0 <= i < n => (i as real) / sampleRate),
        seq(n, i requires 0 <= i < n =>
          UnitOfIndex(i, |units|, unitLength);
          level(units[i / unitLength], Position(i % unitLength, unitLength), (i as real) / sampleRate)))
  }

  /** Sample `i = k * unitLength + j` is sample `j` of unit `k`: at time `i / sampleRate`, with the level of unit `k` at position `j / unitLength`. */
  lemma SynthesizedSample<T>(units: seq<T>, unitLength: nat, sampleRate: real, level: (T, real, real) -> real, k: nat, j: nat, i: int)
    requires unitLength > 0 ==> sampleRate != 0.0
    requires k < |units| && j < unitLength && i == k * unitLength + j
    ensures var w := Synthesize(units, unitLength, sampleRate, level);
            0 <= i < |w.time| && sampleRate != 0.0
            && w.time[i] == (i as real) / sampleRate
            && w.amplitude[i] == level(units[k], Position(j, unitLength), (i as real) / sampleRate)
  {
    UnitIndex(k, j, unitLength, |units|);
    SynthesizedAt(units, unitLength, sampleRate, level, i);
  }


  /** Sample `i` belongs to unit `floor(i / unitLength)` at position `(i % unitLength) / unitLength`. */
  lemma SynthesizedAt<T>(units: seq<T>, unitLength: nat, sampleRate: real, level: (T, real, real) -> real, i: int)
    requires unitLength > 0 && sampleRate != 0.0
    requires 0 <= i < |units| * unitLength
    ensures 0 <= i / unitLength < |units|
    ensures var w := Synthesize(units, unitLength, sampleRate, level);
            i < |w.time|
            && w.time[i] == (i as real) / sampleRate
            && w.amplitude[i] == level(units[i / unitLength], Position(i % unitLength, unitLength), (i as real) / sampleRate)
  {
    UnitOfIndex(i, |units|, unitLength);
  }
}
