/**
 * `Modulator` of `src/utils/waveforms.ts`: ASK, FSK, PSK and 4-QAM on a
 * cosine (and, for QAM, sine) carrier. `cos` and `sin` are parameters; the
 * lemmas that need a trigonometric identity take it as a precondition.
 */
module Modulation {
  import opened Wrappers
  import opened Numbers
  import opened Sampling
  import opened LineCoding

  /** The `ModulationType` enumeration. */
  datatype ModulationType = ASK | FSK | PSK | QAM

  /** A constellation point `{ I, Q }`. */
  datatype IQ = IQ(i: real, q: real)

  // ---------------------------------------------------------------- ASK

  /** The carrier amplitude of a bit: 1 for a 1 and 0.1 for anything else. */
  function AskAmplitude(b: int): real {
    if b == 1 then 1.0 else 0.1
  }

  function AskLevel(carrierFreq: real, cos: real -> real): (int, real, real) -> real {
    (b: int, position: real, t: real) => AskAmplitude(b) * cos(Angle(carrierFreq, t))
  }

  /** `modulateASK`. */
  function ModulateAsk(bits: seq<int>, carrierFreq: real, bitDuration: real, sampleRate: real, cos: real -> real): (w: Waveform)
    ensures w.Valid() && |w.time| == |bits| * SamplesPerBit(bitDuration, sampleRate)
  {
    Synthesize(bits, SamplesPerBit(bitDuration, sampleRate), sampleRate, AskLevel(carrierFreq, cos))
  }

  /** Sample `j` of bit `k` is the carrier at that instant, scaled by 1 for a 1 and by 0.1 otherwise; with a carrier in [-1, 1] the samples of a non-1 bit stay within [-0.1, 0.1]. */
  lemma AskSample(bits: seq<int>, carrierFreq: real, bitDuration: real, sampleRate: real, cos: real -> real, k: nat, j: nat, i: int)
    requires k < |bits| && j < SamplesPerBit(bitDuration, sampleRate)
    requires i == k * SamplesPerBit(bitDuration, sampleRate) + j
    ensures var w := ModulateAsk(bits, carrierFreq, bitDuration, sampleRate, cos);
            0 <= i < |w.amplitude| && sampleRate != 0.0
            && w.amplitude[i] == AskAmplitude(bits[k]) * cos(Angle(carrierFreq, (i as real) / sampleRate))
    ensures AskAmplitude(bits[k]) == (if bits[k] == 1 then 1.0 else 0.1)
    ensures var w := ModulateAsk(bits, carrierFreq, bitDuration, sampleRate, cos);
            var c := cos(Angle(carrierFreq, (i as real) / sampleRate));
            -1.0 <= c <= 1.0 && bits[k] != 1 ==> -0.1 <= w.amplitude[i] <= 0.1
  {
    SynthesizedSample(bits, SamplesPerBit(bitDuration, sampleRate), sampleRate, AskLevel(carrierFreq, cos), k, j, i);
  }

  // ---------------------------------------------------------------- FSK

  function FskLevel(freq0: real, freq1: real, cos: real -> real): (int, real, real) -> real {
    (b: int, position: real, t: real) => cos(Angle(if b == 1 then freq1 else freq0, t))
  }

  /** `modulateFSK`: a 1 is sent at `freq1`, anything else at `freq0`. */
  function ModulateFsk(bits: seq<int>, freq0: real, freq1: real, bitDuration: real, sampleRate: real, cos: real -> real): (w: Waveform)
    ensures w.Valid() && |w.time| == |bits| * SamplesPerBit(bitDuration, sampleRate)
  {
    Synthesize(bits, SamplesPerBit(bitDuration, sampleRate), sampleRate, FskLevel(freq0, freq1, cos))
  }

  lemma FskSample(bits: seq<int>, freq0: real, freq1: real, bitDuration: real, sampleRate: real, cos: real -> real, k: nat, j: nat, i: int)
    requires k < |bits| && j < SamplesPerBit(bitDuration, sampleRate)
    requires i == k * SamplesPerBit(bitDuration, sampleRate) + j
    ensures var w := ModulateFsk(bits, freq0, freq1, bitDuration, sampleRate, cos);
            0 <= i < |w.amplitude| && sampleRate != 0.0
            && w.amplitude[i] == cos(Angle(if bits[k] == 1 then freq1 else freq0, (i as real) / sampleRate))
  {
    SynthesizedSample(bits, SamplesPerBit(bitDuration, sampleRate), sampleRate, FskLevel(freq0, freq1, cos), k, j, i);
  }

  /** With equal frequencies for 0 and 1 the FSK waveform carries no information: any two bit strings of the same length give the same samples. */
  lemma FskEqualFrequenciesIgnoreBits(bits1: seq<int>, bits2: seq<int>, freq: real, bitDuration: real, sampleRate: real, cos: real -> real)
    requires |bits1| == |bits2|
    ensures ModulateFsk(bits1, freq, freq, bitDuration, sampleRate, cos) == ModulateFsk(bits2, freq, freq, bitDuration, sampleRate, cos)
  {
    var spb := SamplesPerBit(bitDuration, sampleRate);
    var w1 := ModulateFsk(bits1, freq, freq, bitDuration, sampleRate, cos);
    var w2 := ModulateFsk(bits2, freq, freq, bitDuration, sampleRate, cos);
    if spb > 0 {
      forall i | 0 <= i < |w1.amplitude|
        ensures w1.amplitude[i] == w2.amplitude[i]
      {
        SynthesizedAt(bits1, spb, sampleRate, FskLevel(freq, freq, cos), i);
        SynthesizedAt(bits2, spb, sampleRate, FskLevel(freq, freq, cos), i);
      }
      forall i | 0 <= i < |w1.time|
        ensures w1.time[i] == w2.time[i]
      {
        SynthesizedAt(bits1, spb, sampleRate, FskLevel(freq, freq, cos), i);
        SynthesizedAt(bits2, spb, sampleRate, FskLevel(freq, freq, cos), i);
      }
    }
  }

  // ---------------------------------------------------------------- PSK

  function PskLevel(carrierFreq: real, cos: real -> real): (int, real, real) -> real {
    (b: int, position: real, t: real) => cos(Angle(carrierFreq, t) + (if b == 1 then 0.0 else PI))
  }

  /** `modulatePSK`: phase 0 for a 1 and π for anything else. */
  function ModulatePsk(bits: seq<int>, carrierFreq: real, bitDuration: real, sampleRate: real, cos: real -> real): (w: Waveform)
    ensures w.Valid() && |w.time| == |bits| * SamplesPerBit(bitDuration, sampleRate)
  {
    Synthesize(bits, SamplesPerBit(bitDuration, sampleRate), sampleRate, PskLevel(carrierFreq, cos))
  }

  /** Given `cos(x + π) == -cos(x)`, PSK is the carrier multiplied by the NRZ level of the bit. */
  lemma PskIsNrzTimesCarrier(bits: seq<int>, carrierFreq: real, bitDuration: real, sampleRate: real, cos: real -> real, k: nat, j: nat, i: int)
    requires forall x :: cos(x + PI) == -cos(x)
    requires k < |bits| && j < SamplesPerBit(bitDuration, sampleRate)
    requires i == k * SamplesPerBit(bitDuration, sampleRate) + j
    ensures var w := ModulatePsk(bits, carrierFreq, bitDuration, sampleRate, cos);
            var nrz := EncodeNrz(bits, bitDuration, sampleRate);
            0 <= i < |w.amplitude| && i < |nrz.amplitude| && sampleRate != 0.0
            && w.amplitude[i] == nrz.amplitude[i] * cos(Angle(carrierFreq, (i as real) / sampleRate))
  {
    var spb := SamplesPerBit(bitDuration, sampleRate);
    SynthesizedSample(bits, spb, sampleRate, PskLevel(carrierFreq, cos), k, j, i);
    NrzSample(bits, bitDuration, sampleRate, k, j, i);
    var a := Angle(carrierFreq, (i as real) / sampleRate);
    assert cos(a + PI) == -cos(a);
  }

  // ---------------------------------------------------------------- QAM

  datatype ModulationError = UndefinedConstellationPoint(symbol: int)

  /** The 4-QAM constellation indexed by symbol `2 * bit1 + bit2`. */
  const QamConstellation: seq<IQ> := [IQ(-1.0, -1.0), IQ(-1.0, 1.0), IQ(1.0, -1.0), IQ(1.0, 1.0)]

  /** `bits[i] || 0`: the bit, or 0 past the end of the string. */
  function BitOrZero(bits: seq<int>, i: nat): int {
    if i < |bits| then bits[i] else 0
  }

  /**
   * The grouping loop of `modulateQAM`: bits are taken two at a time and
   * symbol `k` is `2 * bits[2k] + bits[2k + 1]`, a missing last bit counting as 0.
   */
  function QamSymbols(bits: seq<int>): (symbols: seq<int>)
    ensures |symbols| == (|bits| + 1) / 2
    ensures forall k :: 0 <= k < |symbols| ==> symbols[k] == 2 * bits[2 * k] + BitOrZero(bits, 2 * k + 1)
    decreases |bits|
  {
    if |bits| == 0 then []
    else if |bits| == 1 then [2 * bits[0]]
    else [2 * bits[0] + bits[1]] + QamSymbols(bits[2..])
  }

  predicate InConstellation(symbols: seq<int>) {
    forall k :: 0 <= k < |symbols| ==> 0 <= symbols[k] < 4
  }

  /** The constellation point of each symbol; a symbol outside 0..3 has none and is read only when no sample is produced. */
  function Points(symbols: seq<int>): (points: seq<IQ>)
    ensures |points| == |symbols|
    ensures forall k :: 0 <= k < |symbols| && 0 <= symbols[k] < 4 ==> points[k] == QamConstellation[symbols[k]]
  {
    seq(|symbols|, k requires 0 <= k < |symbols| =>
      if 0 <= symbols[k] < 4 then QamConstellation[symbols[k]] else IQ(0.0, 0.0))
  }

  /** `I * cos(ωt) + Q * sin(ωt)`, given the carrier's cosine and sine at that instant. */
  function IqSample(p: IQ, cosine: real, sine: real): real {
    p.i * cosine + p.q * sine
  }

  function QamLevel(carrierFreq: real, cos: real -> real, sin: real -> real): (IQ, real, real) -> real {
    (p: IQ, position: real, t: real) => IqSample(p, cos(Angle(carrierFreq, t)), sin(Angle(carrierFreq, t)))
  }

  /** `Math.floor(bitDuration * 2 * sampleRate)`: a symbol lasts two bit durations. */
  function SamplesPerSymbol(bitDuration: real, sampleRate: real): nat {
    SamplesPerBit(bitDuration * 2.0, sampleRate)
  }

  /** The first symbol outside the constellation. */
  function FirstInvalid(symbols: seq<int>): (k: nat)
    requires !InConstellation(symbols)
    ensures k < |symbols| && !(0 <= symbols[k] < 4)
    ensures forall m :: 0 <= m < k ==> 0 <= symbols[m] < 4
    decreases |symbols|
  {
    if !(0 <= symbols[0] < 4) then 0 else 1 + FirstInvalid(symbols[1..])
  }

  /**
   * `modulateQAM`. A symbol outside 0..3 (a bit other than 0 or 1) has no
   * constellation point, and reading it throws as soon as one of its samples
   * is produced, that is, whenever a symbol gets at least one sample.
   */
  function ModulateQam(bits: seq<int>, carrierFreq: real, bitDuration: real, sampleRate: real, cos: real -> real, sin: real -> real): (r: Result<Waveform, ModulationError>)
    ensures r.Failure? <==> SamplesPerSymbol(bitDuration, sampleRate) > 0 && !InConstellation(QamSymbols(bits))
    ensures r.Failure? ==> !(0 <= r.error.symbol < 4)
    ensures r.Success? ==>
              r.value.Valid() && |r.value.time| == (|bits| + 1) / 2 * SamplesPerSymbol(bitDuration, sampleRate)
  {
    var symbols := QamSymbols(bits);
    var samplesPerSymbol := SamplesPerSymbol(bitDuration, sampleRate);
    if samplesPerSymbol > 0 && !InConstellation(symbols) then
      Failure(UndefinedConstellationPoint(symbols[FirstInvalid(symbols)]))
    else
      Success(Synthesize(Points(symbols), samplesPerSymbol, sampleRate, QamLevel(carrierFreq, cos, sin)))
  }

  lemma BinaryInConstellation(bits: seq<int>)
    requires Binary(bits)
    ensures InConstellation(QamSymbols(bits))
  {
    var s := QamSymbols(bits);
    forall k | 0 <= k < |s|
      ensures 0 <= s[k] < 4
    {
      assert bits[2 * k] == 0 || bits[2 * k] == 1;
    }
  }

  /** Binary bits always map into the constellation, so modulation succeeds. */
  lemma BinaryQamSucceeds(bits: seq<int>, carrierFreq: real, bitDuration: real, sampleRate: real, cos: real -> real, sin: real -> real)
    requires Binary(bits)
    ensures ModulateQam(bits, carrierFreq, bitDuration, sampleRate, cos, sin).Success?
  {
    BinaryInConstellation(bits);
  }

  /** For binary bits the point of symbol `k` is `(2 * bits[2k] - 1, 2 * bits[2k + 1] - 1)`: I carries the first bit and Q the second. */
  lemma {:induction false} QamPointOfBits(bits: seq<int>, k: nat)
    requires Binary(bits) && k < (|bits| + 1) / 2
    ensures var p := Points(QamSymbols(bits))[k];
            p.i == 2.0 * (bits[2 * k] as real) - 1.0
            && p.q == 2.0 * (BitOrZero(bits, 2 * k + 1) as real) - 1.0
  {
    BinaryInConstellation(bits);
    var s := QamSymbols(bits);
    var b0 := bits[2 * k];
    var b1 := BitOrZero(bits, 2 * k + 1);
    assert b0 == 0 || b0 == 1;
    assert b1 == 0 || b1 == 1;
    assert s[k] == 2 * b0 + b1;
    var p := Points(s)[k];
    assert p == QamConstellation[2 * b0 + b1];
    if b0 == 0 {
      assert p.i == -1.0;
    } else {
      assert p.i == 1.0;
    }
    if b1 == 0 {
      assert p.q == -1.0;
    } else {
      assert p.q == 1.0;
    }
  }

  /** Sample `j` of symbol `k` is `I * cos(ωt) + Q * sin(ωt)` for the symbol's constellation point (given by `QamPointOfBits`). */
  lemma QamSample(bits: seq<int>, carrierFreq: real, bitDuration: real, sampleRate: real, cos: real -> real, sin: real -> real, k: nat, j: nat, i: int)
    requires Binary(bits)
    requires k < (|bits| + 1) / 2 && j < SamplesPerSymbol(bitDuration, sampleRate)
    requires i == k * SamplesPerSymbol(bitDuration, sampleRate) + j
    ensures var r := ModulateQam(bits, carrierFreq, bitDuration, sampleRate, cos, sin);
            var p := Points(QamSymbols(bits))[k];
            r.Success? && 0 <= i < |r.value.amplitude| && sampleRate != 0.0
            && r.value.amplitude[i] == IqSample(p, cos(Angle(carrierFreq, (i as real) / sampleRate)), sin(Angle(carrierFreq, (i as real) / sampleRate)))
  {
    BinaryInConstellation(bits);
    var symbols := QamSymbols(bits);
    var spb := SamplesPerSymbol(bitDuration, sampleRate);
    var w := Synthesize(Points(symbols), spb, sampleRate, QamLevel(carrierFreq, cos, sin));
    assert ModulateQam(bits, carrierFreq, bitDuration, sampleRate, cos, sin) == Success(w);
    SynthesizedSample(Points(symbols), spb, sampleRate, QamLevel(carrierFreq, cos, sin), k, j, i);
    assert w.amplitude[i] == QamLevel(carrierFreq, cos, sin)(Points(symbols)[k], Position(j, spb), (i as real) / sampleRate);
  }

  /** Splits each symbol back into its two bits. */
  function Ungroup(symbols: seq<int>): (bits: seq<int>)
    ensures |bits| == 2 * |symbols|
    decreases |symbols|
  {
    if |symbols| == 0 then [] else [symbols[0] / 2, symbols[0] % 2] + Ungroup(symbols[1..])
  }

  lemma {:induction false} UngroupCons(x: int, rest: seq<int>)
    ensures Ungroup([x] + rest) == [x / 2, x % 2] + Ungroup(rest)
  {
    assert ([x] + rest)[0] == x && ([x] + rest)[1..] == rest;
  }

  lemma {:induction false} QamSymbolsCons(bits: seq<int>)
    requires |bits| >= 2
    ensures QamSymbols(bits) == [2 * bits[0] + bits[1]] + QamSymbols(bits[2..])
  {
  }

  lemma {:induction false} BinaryTail(bits: seq<int>, n: nat)
    requires Binary(bits) && n <= |bits|
    ensures Binary(bits[n..])
  {
    var rest := bits[n..];
    forall m | 0 <= m < |rest|
      ensures rest[m] == 0 || rest[m] == 1
    {
      assert rest[m] == bits[m + n];
    }
  }

  /** A symbol `2 * b0 + b1` of two binary digits splits back into them. */
  lemma SplitSymbol(b0: int, b1: int)
    requires (b0 == 0 || b0 == 1) && (b1 == 0 || b1 == 1)
    ensures (2 * b0 + b1) / 2 == b0 && (2 * b0 + b1) % 2 == b1
  {
  }

  /** Ungrouping the symbol of the first two binary digits puts those digits back in front of the rest. */
  lemma GroupStep(b0: int, b1: int, bits: seq<int>, whole: seq<int>, tail: seq<int>, pad: seq<int>)
    requires (b0 == 0 || b0 == 1) && (b1 == 0 || b1 == 1)
    requires |bits| >= 2 && bits[0] == b0 && bits[1] == b1
    requires whole == [(2 * b0 + b1) / 2, (2 * b0 + b1) % 2] + tail
    requires tail == bits[2..] + pad
    ensures whole == bits + pad
  {
    SplitSymbol(b0, b1);
    assert bits == [b0, b1] + bits[2..];
  }

  /** One step of the round trip: the first two bits come back in front of what the rest ungroups to. */
  lemma {:induction false} QamGroupingStep(bits: seq<int>, pad: seq<int>)
    requires |bits| >= 2 && (bits[0] == 0 || bits[0] == 1) && (bits[1] == 0 || bits[1] == 1)
    requires Ungroup(QamSymbols(bits[2..])) == bits[2..] + pad
    ensures Ungroup(QamSymbols(bits)) == bits + pad
  {
    var rest := bits[2..];
    QamSymbolsCons(bits);
    UngroupCons(2 * bits[0] + bits[1], QamSymbols(rest));
    GroupStep(bits[0], bits[1], bits, Ungroup(QamSymbols(bits)), Ungroup(QamSymbols(rest)), pad);
  }

  /** Grouping a binary bit string into symbols loses nothing: ungrouping gives the bits back, with a 0 appended to an odd-length string. */
  lemma {:induction false} QamGroupingRoundTrip(bits: seq<int>)
    requires Binary(bits)
    ensures Ungroup(QamSymbols(bits)) == bits + (if |bits| % 2 == 1 then [0] else [])
    decreases |bits|
  {
    if |bits| == 1 {
      assert QamSymbols(bits) == [2 * bits[0]] + [];
      UngroupCons(2 * bits[0], []);
      SplitSymbol(bits[0], 0);
    } else if |bits| >= 2 {
      var pad: seq<int> := if |bits| % 2 == 1 then [0] else [];
      assert |bits[2..]| % 2 == |bits| % 2;
      BinaryTail(bits, 2);
      QamGroupingRoundTrip(bits[2..]);
      QamGroupingStep(bits, pad);
    }
  }
}
