/**
 * `DigitalEncoder` of `src/utils/waveforms.ts`: NRZ, Manchester and
 * differential Manchester line codes. Each bit occupies `samplesPerBit`
 * samples of level +1 or -1. Bits are compared with `=== 1` / `=== 0`, so a
 * value other than 0 and 1 is encoded like the branch it falls into.
 *
 * Each encoder is paired with a decoder reading the first sample of every bit;
 * the round-trip lemmas show that a binary bit string survives encoding.
 */
module LineCoding {
  import opened Numbers
  import opened Sampling

  predicate Binary(bits: seq<int>) {
    forall i :: 0 <= i < |bits| ==> bits[i] == 0 || bits[i] == 1
  }

  // ---------------------------------------------------------------- NRZ

  /** The level of a line-code sample; line codes ignore the sample time. */
  function NrzLevel(b: int, position: real, time: real): real {
    if b == 1 then 1.0 else -1.0
  }

  /** `encodeNRZ`: +1 for the samples of a 1, -1 for everything else. */
  function EncodeNrz(bits: seq<int>, bitDuration: real, sampleRate: real): (w: Waveform)
    ensures w.Valid() && |w.time| == |bits| * SamplesPerBit(bitDuration, sampleRate)
    ensures forall i :: 0 <= i < |w.amplitude| ==> w.amplitude[i] == 1.0 || w.amplitude[i] == -1.0
  {
    Synthesize(bits, SamplesPerBit(bitDuration, sampleRate), sampleRate, NrzLevel)
  }

  /** Every sample of bit `k` is +1 when the bit is 1 and -1 otherwise. */
  lemma NrzSample(bits: seq<int>, bitDuration: real, sampleRate: real, k: nat, j: nat, i: int)
    requires k < |bits| && j < SamplesPerBit(bitDuration, sampleRate)
    requires i == k * SamplesPerBit(bitDuration, sampleRate) + j
    ensures var w := EncodeNrz(bits, bitDuration, sampleRate);
            0 <= i < |w.amplitude| && w.amplitude[i] == (if bits[k] == 1 then 1.0 else -1.0)
  {
    SynthesizedSample(bits, SamplesPerBit(bitDuration, sampleRate), sampleRate, NrzLevel, k, j, i);
  }

  /** Reads bit `k` back from the first of its `samplesPerBit` samples. */
  function DecodeNrz(amplitude: seq<real>, samplesPerBit: nat): (bits: seq<int>)
    requires samplesPerBit > 0
    ensures |bits| == |amplitude| / samplesPerBit
    ensures Binary(bits)
  {
    var n := |amplitude| / samplesPerBit;
    seq(n, k requires 0 <= k < n =>
      FirstSampleIndex(k, samplesPerBit, |amplitude|);
      if amplitude[k * samplesPerBit] > 0.0 then 1 else 0)
  }

  lemma FirstSampleIndex(k: int, samplesPerBit: int, len: int)
    requires samplesPerBit > 0 && 0 <= k < len / samplesPerBit
    ensures 0 <= k * samplesPerBit < len
  {
    UnitIndex(k, 0, samplesPerBit, len / samplesPerBit);
  }

  /** `|bits| * samplesPerBit` samples hold exactly `|bits|` bits. */
  lemma WholeBits(count: nat, samplesPerBit: nat)
    requires samplesPerBit > 0
    ensures (count * samplesPerBit) / samplesPerBit == count
  {
    DivModUnique(count * samplesPerBit, samplesPerBit, count, 0);
  }

  /** A binary bit string survives NRZ encoding whenever a bit gets at least one sample. */
  lemma NrzRoundTrip(bits: seq<int>, bitDuration: real, sampleRate: real)
    requires Binary(bits) && SamplesPerBit(bitDuration, sampleRate) > 0
    ensures DecodeNrz(EncodeNrz(bits, bitDuration, sampleRate).amplitude, SamplesPerBit(bitDuration, sampleRate)) == bits
  {
    var spb := SamplesPerBit(bitDuration, sampleRate);
    var w := EncodeNrz(bits, bitDuration, sampleRate);
    WholeBits(|bits|, spb);
    var d := DecodeNrz(w.amplitude, spb);
    forall k | 0 <= k < |bits|
      ensures d[k] == bits[k]
    {
      NrzSample(bits, bitDuration, sampleRate, k, 0, k * spb);
    }
  }

  // ---------------------------------------------------------------- Manchester

  /** A 0 goes from high to low in the middle of the bit, anything else from low to high. */
  function ManchesterLevel(b: int, position: real, time: real): real {
    if b == 0 then (if position < 0.5 then 1.0 else -1.0)
    else (if position < 0.5 then -1.0 else 1.0)
  }

  /** `encodeManchester`. */
  function EncodeManchester(bits: seq<int>, bitDuration: real, sampleRate: real): (w: Waveform)
    ensures w.Valid() && |w.time| == |bits| * SamplesPerBit(bitDuration, sampleRate)
    ensures forall i :: 0 <= i < |w.amplitude| ==> w.amplitude[i] == 1.0 || w.amplitude[i] == -1.0
  {
    Synthesize(bits, SamplesPerBit(bitDuration, sampleRate), sampleRate, ManchesterLevel)
  }

  /** Sample `j` of bit `k` is +1 exactly when the bit is 0 and `j` lies in the first half of the bit, or the bit is not 0 and `j` lies in the second half. */
  lemma ManchesterSample(bits: seq<int>, bitDuration: real, sampleRate: real, k: nat, j: nat, i: int)
    requires k < |bits| && j < SamplesPerBit(bitDuration, sampleRate)
    requires i == k * SamplesPerBit(bitDuration, sampleRate) + j
    ensures var w := EncodeManchester(bits, bitDuration, sampleRate);
            var spb := SamplesPerBit(bitDuration, sampleRate);
            0 <= i < |w.amplitude| && w.amplitude[i] == (if (bits[k] == 0) == (2 * j < spb) then 1.0 else -1.0)
  {
    var spb := SamplesPerBit(bitDuration, sampleRate);
    SynthesizedSample(bits, spb, sampleRate, ManchesterLevel, k, j, i);
    FirstHalf(j, spb);
  }

  /** With two or more samples per bit, every bit changes level between its first and its last sample. */
  lemma ManchesterMidBitTransition(bits: seq<int>, bitDuration: real, sampleRate: real, k: nat)
    requires k < |bits| && SamplesPerBit(bitDuration, sampleRate) >= 2
    ensures var w := EncodeManchester(bits, bitDuration, sampleRate);
            var spb := SamplesPerBit(bitDuration, sampleRate);
            (k + 1) * spb <= |w.amplitude|
            && w.amplitude[k * spb] == -w.amplitude[k * spb + spb - 1]
  {
    var spb := SamplesPerBit(bitDuration, sampleRate);
    ManchesterSample(bits, bitDuration, sampleRate, k, 0, k * spb);
    ManchesterSample(bits, bitDuration, sampleRate, k, spb - 1, k * spb + spb - 1);
  }

  /** Reads bit `k` back from its first sample: high means 0. */
  function DecodeManchester(amplitude: seq<real>, samplesPerBit: nat): (bits: seq<int>)
    requires samplesPerBit > 0
    ensures |bits| == |amplitude| / samplesPerBit
    ensures Binary(bits)
  {
    var n := |amplitude| / samplesPerBit;
    seq(n, k requires 0 <= k < n =>
      FirstSampleIndex(k, samplesPerBit, |amplitude|);
      if amplitude[k * samplesPerBit] > 0.0 then 0 else 1)
  }

  lemma ManchesterRoundTrip(bits: seq<int>, bitDuration: real, sampleRate: real)
    requires Binary(bits) && SamplesPerBit(bitDuration, sampleRate) > 0
    ensures DecodeManchester(EncodeManchester(bits, bitDuration, sampleRate).amplitude, SamplesPerBit(bitDuration, sampleRate)) == bits
  {
    var spb := SamplesPerBit(bitDuration, sampleRate);
    var w := EncodeManchester(bits, bitDuration, sampleRate);
    WholeBits(|bits|, spb);
    var d := DecodeManchester(w.amplitude, spb);
    forall k | 0 <= k < |bits|
      ensures d[k] == bits[k]
    {
      ManchesterSample(bits, bitDuration, sampleRate, k, 0, k * spb);
    }
  }

  // ---------------------------------------------------------------- Differential Manchester

  /** The phase after a prefix of the bits: it starts at +1 and flips at every 0. */
  function Phase(prefix: seq<int>): real
    decreases |prefix|
  {
    if |prefix| == 0 then 1.0
    else if prefix[|prefix| - 1] == 0 then -Phase(prefix[..|prefix| - 1])
    else Phase(prefix[..|prefix| - 1])
  }

  function ZeroCount(prefix: seq<int>): nat
    decreases |prefix|
  {
    if |prefix| == 0 then 0
    else ZeroCount(prefix[..|prefix| - 1]) + (if prefix[|prefix| - 1] == 0 then 1 else 0)
  }

  /** The phase is +1 after an even number of zeros and -1 after an odd number. */
  lemma {:induction false} PhaseParity(prefix: seq<int>)
    ensures Phase(prefix) == (if ZeroCount(prefix) % 2 == 0 then 1.0 else -1.0)
    decreases |prefix|
  {
    if |prefix| > 0 {
      PhaseParity(prefix[..|prefix| - 1]);
    }
  }

  /** The phase in force during bit `k`: the one after bits `0..k`. */
  function Phases(bits: seq<int>): (r: seq<real>)
    ensures |r| == |bits|
  {
    seq(|bits|, k requires 0 <= k < |bits| => Phase(bits[..k + 1]))
  }

  function DifferentialLevel(phase: real, position: real, time: real): real {
    if position < 0.5 then phase else -phase
  }

  /**
   * `encodeDifferentialManchester`: a running phase, flipped at the first
   * sample of every 0 bit, is sent in the first half of each bit and its
   * negation in the second half.
   */
  function EncodeDifferentialManchester(bits: seq<int>, bitDuration: real, sampleRate: real): (w: Waveform)
    ensures w.Valid() && |w.time| == |bits| * SamplesPerBit(bitDuration, sampleRate)
  {
    Synthesize(Phases(bits), SamplesPerBit(bitDuration, sampleRate), sampleRate, DifferentialLevel)
  }

  /** Sample `j` of bit `k` is the phase after bits `0..k` in the first half of the bit and its negation in the second. */
  lemma DifferentialSample(bits: seq<int>, bitDuration: real, sampleRate: real, k: nat, j: nat, i: int)
    requires k < |bits| && j < SamplesPerBit(bitDuration, sampleRate)
    requires i == k * SamplesPerBit(bitDuration, sampleRate) + j
    ensures var w := EncodeDifferentialManchester(bits, bitDuration, sampleRate);
            var spb := SamplesPerBit(bitDuration, sampleRate);
            0 <= i < |w.amplitude|
            && w.amplitude[i] == (if 2 * j < spb then Phase(bits[..k + 1]) else -Phase(bits[..k + 1]))
  {
    var spb := SamplesPerBit(bitDuration, sampleRate);
    SynthesizedSample(Phases(bits), spb, sampleRate, DifferentialLevel, k, j, i);
    FirstHalf(j, spb);
  }

  /** The number of bits whose first sample lies among the first `i` samples. */
  function Started(i: nat, samplesPerBit: nat): nat
    requires samplesPerBit > 0
  {
    if i == 0 then 0 else (i - 1) / samplesPerBit + 1
  }

  lemma StartedStep(i: nat, samplesPerBit: nat, n: nat)
    requires samplesPerBit > 0 && i < n * samplesPerBit
    ensures i / samplesPerBit < n
    ensures Started(i + 1, samplesPerBit) == i / samplesPerBit + 1
    ensures i % samplesPerBit == 0 ==> Started(i, samplesPerBit) == i / samplesPerBit
    ensures i % samplesPerBit != 0 ==> Started(i, samplesPerBit) == i / samplesPerBit + 1
  {
    UnitOfIndex(i, n, samplesPerBit);
    if i > 0 {
      var q := (i - 1) / samplesPerBit;
      var r := (i - 1) % samplesPerBit;
      if r + 1 < samplesPerBit {
        DivModUnique(i, samplesPerBit, q, r + 1);
      } else {
        DivModUnique(i, samplesPerBit, q + 1, 0);
      }
    }
  }

  /** The update of `lastPhase` at sample `i` leaves the phase after bits `0..floor(i / samplesPerBit)`. */
  lemma PhaseUpdate(bits: seq<int>, samplesPerBit: nat, i: nat, before: real)
    requires samplesPerBit > 0 && i < |bits| * samplesPerBit
    requires i > 0 ==> Started(i, samplesPerBit) <= |bits| && before == Phase(bits[..Started(i, samplesPerBit)])
    requires i == 0 ==> before == 1.0
    ensures i / samplesPerBit < |bits| && Started(i + 1, samplesPerBit) == i / samplesPerBit + 1
    ensures var after := if i % samplesPerBit == 0 && bits[i / samplesPerBit] == 0 then -before else before;
            after == Phase(bits[..i / samplesPerBit + 1])
  {
    StartedStep(i, samplesPerBit, |bits|);
    var k := i / samplesPerBit;
    assert bits[..k + 1][..k] == bits[..k];
  }

  /** Sample `k` sits at `k / sampleRate` with the level of the phase after bits `0..floor(k / samplesPerBit)`. */
  predicate DifferentialSampleAt(bits: seq<int>, samplesPerBit: nat, sampleRate: real, k: nat, t: real, level: real) {
    && samplesPerBit > 0 && sampleRate != 0.0 && k / samplesPerBit < |bits|
    && t == (k as real) / sampleRate
    && level == DifferentialLevel(Phase(bits[..k / samplesPerBit + 1]), Position(k % samplesPerBit, samplesPerBit), t)
  }

  /** Samples that agree with `DifferentialSampleAt` at every index make up the per-bit waveform. */
  lemma {:induction false} DifferentialMatches(bits: seq<int>, bitDuration: real, sampleRate: real, time: seq<real>, amplitude: seq<real>)
    requires |time| == |bits| * SamplesPerBit(bitDuration, sampleRate) && |amplitude| == |time|
    requires forall k :: 0 <= k < |time| ==>
               DifferentialSampleAt(bits, SamplesPerBit(bitDuration, sampleRate), sampleRate, k, time[k], amplitude[k])
    ensures Waveform(time, amplitude) == EncodeDifferentialManchester(bits, bitDuration, sampleRate)
  {
    var spb := SamplesPerBit(bitDuration, sampleRate);
    var f := EncodeDifferentialManchester(bits, bitDuration, sampleRate);
    forall k | 0 <= k < |time|
      ensures time[k] == f.time[k] && amplitude[k] == f.amplitude[k]
    {
      assert DifferentialSampleAt(bits, spb, sampleRate, k, time[k], amplitude[k]);
      SynthesizedAt(Phases(bits), spb, sampleRate, DifferentialLevel, k);
    }
    assert time == f.time && amplitude == f.amplitude;
  }

  /**
   * The loop of `encodeDifferentialManchester` as written: one pass over the
   * samples with a mutable `lastPhase`. It builds the same waveform as the
   * per-bit definition above.
   */
  method DifferentialManchesterLoop(bits: seq<int>, bitDuration: real, sampleRate: real) returns (w: Waveform)
    ensures w == EncodeDifferentialManchester(bits, bitDuration, sampleRate)
  {
    var samplesPerBit := SamplesPerBit(bitDuration, sampleRate);
    var totalSamples := |bits| * samplesPerBit;
    var time: seq<real> := [];
    var amplitude: seq<real> := [];
    var lastPhase := 1.0;
    var i := 0;
    while i < totalSamples
      invariant 0 <= i <= totalSamples
      invariant samplesPerBit == 0 ==> totalSamples == 0
      invariant |time| == i && |amplitude| == i
      invariant forall k :: 0 <= k < i ==> DifferentialSampleAt(bits, samplesPerBit, sampleRate, k, time[k], amplitude[k])
      invariant i > 0 ==> samplesPerBit > 0 && Started(i, samplesPerBit) <= |bits|
                          && lastPhase == Phase(bits[..Started(i, samplesPerBit)])
      invariant i == 0 ==> lastPhase == 1.0
    {
      PhaseUpdate(bits, samplesPerBit, i, lastPhase);
      var bitIndex := i / samplesPerBit;
      var positionInBit := Position(i % samplesPerBit, samplesPerBit);
      var t := (i as real) / sampleRate;
      time := time + [t];
      if i % samplesPerBit == 0 {
        if bits[bitIndex] == 0 {
          lastPhase := -lastPhase;
        }
      }
      var level := if positionInBit < 0.5 then lastPhase else -lastPhase;
      assert DifferentialSampleAt(bits, samplesPerBit, sampleRate, i, t, level);
      amplitude := amplitude + [level];
      i := i + 1;
    }
    DifferentialMatches(bits, bitDuration, sampleRate, time, amplitude);
    w := Waveform(time, amplitude);
  }

  /** Reads bit `k` back: a 1 keeps the phase of the previous bit's first sample (+1 before the first bit), a 0 flips it. */
  function DecodeDifferentialManchester(amplitude: seq<real>, samplesPerBit: nat): (bits: seq<int>)
    requires samplesPerBit > 0
    ensures |bits| == |amplitude| / samplesPerBit
    ensures Binary(bits)
  {
    var n := |amplitude| / samplesPerBit;
    seq(n, k requires 0 <= k < n =>
      FirstSampleIndex(k, samplesPerBit, |amplitude|);
      var previous := if k == 0 then 1.0 else (FirstSampleIndex(k - 1, samplesPerBit, |amplitude|); amplitude[(k - 1) * samplesPerBit]);
      if amplitude[k * samplesPerBit] == previous then 1 else 0)
  }

  lemma PhaseIsSign(prefix: seq<int>)
    ensures Phase(prefix) == 1.0 || Phase(prefix) == -1.0
  {
    PhaseParity(prefix);
  }

  lemma DifferentialManchesterRoundTrip(bits: seq<int>, bitDuration: real, sampleRate: real)
    requires Binary(bits) && SamplesPerBit(bitDuration, sampleRate) > 0
    ensures DecodeDifferentialManchester(EncodeDifferentialManchester(bits, bitDuration, sampleRate).amplitude, SamplesPerBit(bitDuration, sampleRate)) == bits
  {
    var spb := SamplesPerBit(bitDuration, sampleRate);
    var w := EncodeDifferentialManchester(bits, bitDuration, sampleRate);
    WholeBits(|bits|, spb);
    var d := DecodeDifferentialManchester(w.amplitude, spb);
    forall k | 0 <= k < |bits|
      ensures d[k] == bits[k]
    {
      DifferentialSample(bits, bitDuration, sampleRate, k, 0, k * spb);
      assert bits[..k + 1][..k] == bits[..k];
      PhaseIsSign(bits[..k]);
      if k > 0 {
        DifferentialSample(bits, bitDuration, sampleRate, k - 1, 0, (k - 1) * spb);
      }
    }
  }
}
