/**
 * The signal-math kernel: time and frequency axes, complex arithmetic, the
 * recursive radix-2 FFT, attenuation, the single-pole low-pass filter, and the
 * SNR and bit-error-rate statistics.
 */
module SignalMath {
  import opened Wrappers
  import opened Numbers

  /** The error `calculateSNR` and `calculateBER` throw on sequences of different length. */
  datatype SignalError = LengthMismatch

  // ---------------------------------------------------------------- axes

  /** `generateTimeAxis`: `floor(sampleRate * duration)` samples spaced `1 / sampleRate` apart. */
  function TimeAxis(sampleRate: real, duration: real): (r: seq<real>)
    ensures |r| == FloorCount(sampleRate * duration)
    ensures |r| > 0 ==> sampleRate != 0.0
    ensures forall i :: 0 <= i < |r| ==> r[i] == (i as real) * (1.0 / sampleRate)
  {
    var n := FloorCount(sampleRate * duration);
    if n == 0 then [] else seq(n, i => (i as real) * (1.0 / sampleRate))
  }

  /** With a positive rate the time axis starts at 0, increases strictly and stays below `duration`. */
  lemma TimeAxisWithinDuration(sampleRate: real, duration: real)
    requires sampleRate > 0.0
    ensures var r := TimeAxis(sampleRate, duration);
            (|r| > 0 ==> r[0] == 0.0)
            && (forall i :: 0 <= i < |r| ==> 0.0 <= r[i] < duration)
            && (forall i, j :: 0 <= i < j < |r| ==> r[i] < r[j])
  {
    var r := TimeAxis(sampleRate, duration);
    var step := 1.0 / sampleRate;
    assert step > 0.0;
    forall i | 0 <= i < |r|
      ensures 0.0 <= r[i] < duration
    {
      assert (i as real) < sampleRate * duration;
      assert r[i] * sampleRate == i as real;
    }
    forall i, j | 0 <= i < j < |r|
      ensures r[i] < r[j]
    {
      assert r[j] - r[i] == ((j - i) as real) * step;
    }
  }

  /**
   * `generateFrequencyAxis`: bins spaced `sampleRate / samples` apart.
   * `Array.from` truncates the requested length, so a fractional count gives
   * `floor(samples)` bins (none below 1) that keep the fractional spacing.
   */
  function FrequencyAxis(sampleRate: real, samples: real): (r: seq<real>)
    ensures |r| == FloorCount(samples)
    ensures forall i :: 0 <= i < |r| ==> r[i] == (i as real) * (sampleRate / samples)
  {
    var n := FloorCount(samples);
    if n == 0 then [] else seq(n, i => (i as real) * (sampleRate / samples))
  }

  /** With a positive rate the frequency bins start at 0, increase strictly and stay below `sampleRate`. */
  lemma FrequencyAxisBelowRate(sampleRate: real, samples: real)
    requires sampleRate > 0.0
    ensures var r := FrequencyAxis(sampleRate, samples);
            (|r| > 0 ==> r[0] == 0.0)
            && (forall i :: 0 <= i < |r| ==> 0.0 <= r[i] < sampleRate)
            && (forall i, j :: 0 <= i < j < |r| ==> r[i] < r[j])
  {
    var r := FrequencyAxis(sampleRate, samples);
    if |r| > 0 {
      var step := sampleRate / samples;
      assert step * samples == sampleRate;
      assert step > 0.0;
      forall i | 0 <= i < |r|
        ensures r[i] < sampleRate
      {
        assert (samples - (i as real)) * step > 0.0;
      }
      forall i, j | 0 <= i < j < |r|
        ensures r[i] < r[j]
      {
        assert r[j] - r[i] == ((j - i) as real) * step;
      }
    }
  }

  // ---------------------------------------------------------------- complex numbers

  datatype Complex = Complex(re: real, im: real)

  const One := Complex(1.0, 0.0)
  const MinusOne := Complex(-1.0, 0.0)

  function Neg(a: Complex): Complex {
    Complex(-a.re, -a.im)
  }

  function Sub(a: Complex, b: Complex): Complex {
    Complex(a.re - b.re, a.im - b.im)
  }

  /** `Complex.add`; subtracting the addend again gives back `a`. */
  function Add(a: Complex, b: Complex): (r: Complex)
    ensures Sub(r, b) == a
    ensures Sub(r, a) == b
  {
    Complex(a.re + b.re, a.im + b.im)
  }

  /** `Complex.multiply`; (1, 0) is its identity and (-1, 0) negates. */
  function Mul(a: Complex, b: Complex): (r: Complex)
    ensures b == One ==> r == a
    ensures a == One ==> r == b
    ensures b == MinusOne ==> r == Neg(a)
  {
    Complex(a.re * b.re - a.im * b.im, a.re * b.im + a.im * b.re)
  }

  // ---------------------------------------------------------------- FFT

  predicate IsPowerOfTwo(n: nat)
    decreases n
  {
    n == 1 || (n > 1 && n % 2 == 0 && IsPowerOfTwo(n / 2))
  }

  /** The elements at even indices, `signal.filter((_, i) => i % 2 === 0)`. */
  function Evens<T>(s: seq<T>): (r: seq<T>)
    ensures |r| == (|s| + 1) / 2
    ensures forall i :: 0 <= i < |r| ==> r[i] == s[2 * i]
  {
    seq((|s| + 1) / 2, i requires 0 <= i < (|s| + 1) / 2 => s[2 * i])
  }

  /** The elements at odd indices, `signal.filter((_, i) => i % 2 === 1)`. */
  function Odds<T>(s: seq<T>): (r: seq<T>)
    ensures |r| == |s| / 2
    ensures forall i :: 0 <= i < |r| ==> r[i] == s[2 * i + 1]
  {
    seq(|s| / 2, i requires 0 <= i < |s| / 2 => s[2 * i + 1])
  }

  /** The twiddle factor `cos(-2πk/N) + i·sin(-2πk/N)`. */
  function Twiddle(k: nat, n: nat, cos: real -> real, sin: real -> real): Complex
    requires n > 0
  {
    var angle := -2.0 * PI * (k as real) / (n as real);
    Complex(cos(angle), sin(angle))
  }

  /**
   * `fft`: radix-2 decimation in time. Inputs of length 0 or 1 are returned as
   * they are; for a longer input the two halves of the result are the
   * butterflies of the transforms of the even- and odd-indexed elements.
   * Any other length makes the source read past the end of a half-length
   * transform and throw, so a power-of-two length is required.
   */
  function Fft(x: seq<Complex>, cos: real -> real, sin: real -> real): (r: seq<Complex>)
    requires |x| == 0 || IsPowerOfTwo(|x|)
    ensures |r| == |x|
    ensures |x| <= 1 ==> r == x
    decreases |x|
  {
    if |x| <= 1 then x
    else
      Combine(Fft(Evens(x), cos, sin), Fft(Odds(x), cos, sin), cos, sin)
  }

  /** The recombination loop of `fft`: entry `k` and entry `k + N/2` built from `even[k]` and `odd[k]`. */
  function Combine(e: seq<Complex>, o: seq<Complex>, cos: real -> real, sin: real -> real): (r: seq<Complex>)
    requires |e| == |o|
    ensures |r| == 2 * |e|
  {
    var h := |e|;
    var n := 2 * h;
    seq(n, j requires 0 <= j < n =>
      if j < h then Add(e[j], Mul(Twiddle(j, n, cos, sin), o[j]))
      else Add(e[j - h], Mul(Mul(Twiddle(j - h, n, cos, sin), o[j - h]), MinusOne)))
  }

  lemma CombineAt(e: seq<Complex>, o: seq<Complex>, cos: real -> real, sin: real -> real, k: nat)
    requires |e| == |o| && k < |e|
    ensures var t := Mul(Twiddle(k, 2 * |e|, cos, sin), o[k]);
            Combine(e, o, cos, sin)[k] == Add(e[k], t)
            && Combine(e, o, cos, sin)[k + |e|] == Sub(e[k], t)
  {
    var t := Mul(Twiddle(k, 2 * |e|, cos, sin), o[k]);
    assert Combine(e, o, cos, sin)[k + |e|] == Add(e[k], Mul(t, MinusOne));
  }

  /** Both halves of a power-of-two length of at least two are the same power of two. */
  lemma HalvesArePowers(n: nat)
    requires IsPowerOfTwo(n) && n >= 2
    ensures n % 2 == 0 && (n + 1) / 2 == n / 2 && IsPowerOfTwo(n / 2)
  {
  }

  lemma FftUnfold(x: seq<Complex>, cos: real -> real, sin: real -> real)
    requires IsPowerOfTwo(|x|) && |x| >= 2
    ensures IsPowerOfTwo(|Evens(x)|) && IsPowerOfTwo(|Odds(x)|)
    ensures Fft(x, cos, sin) == Combine(Fft(Evens(x), cos, sin), Fft(Odds(x), cos, sin), cos, sin)
  {
    HalvesArePowers(|x|);
  }

  /** The butterfly: `result[k] = even[k] + t` and `result[k + N/2] = even[k] - t`. */
  lemma {:induction false} FftButterfly(x: seq<Complex>, cos: real -> real, sin: real -> real, k: nat)
    requires IsPowerOfTwo(|x|) && |x| >= 2 && k < |x| / 2
    ensures IsPowerOfTwo(|Evens(x)|) && IsPowerOfTwo(|Odds(x)|)
    ensures var e := Fft(Evens(x), cos, sin);
            var t := Mul(Twiddle(k, |x|, cos, sin), Fft(Odds(x), cos, sin)[k]);
            Fft(x, cos, sin)[k] == Add(e[k], t)
            && Fft(x, cos, sin)[k + |x| / 2] == Sub(e[k], t)
  {
    FftUnfold(x, cos, sin);
    CombineAt(Fft(Evens(x), cos, sin), Fft(Odds(x), cos, sin), cos, sin, k);
  }

  /** The complex sum of a sequence. */
  function Sum(xs: seq<Complex>): Complex
    decreases |xs|
  {
    if |xs| == 0 then Complex(0.0, 0.0) else Add(xs[0], Sum(xs[1..]))
  }

  /** Summing the even- and odd-indexed halves separately gives the whole sum. */
  lemma {:induction false} SumOfHalves(x: seq<Complex>)
    ensures Sum(x) == Add(Sum(Evens(x)), Sum(Odds(x)))
    decreases |x|
  {
    if |x| > 0 {
      var tail := x[1..];
      assert Evens(x) == [x[0]] + Odds(tail);
      assert Odds(x) == Evens(tail);
      assert ([x[0]] + Odds(tail))[1..] == Odds(tail);
      SumOfHalves(tail);
    }
  }

  /** Bin 0 of the transform is the sum of all inputs, because the k = 0 twiddle is 1. */
  lemma {:induction false} FftDcBin(x: seq<Complex>, cos: real -> real, sin: real -> real)
    requires IsPowerOfTwo(|x|)
    requires cos(0.0) == 1.0 && sin(0.0) == 0.0
    ensures Fft(x, cos, sin)[0] == Sum(x)
    decreases |x|
  {
    if |x| == 1 {
      assert x[1..] == [];
    } else {
      var n := |x|;
      assert -2.0 * PI * (0 as real) / (n as real) == 0.0;
      assert Twiddle(0, n, cos, sin) == One;
      FftDcBin(Evens(x), cos, sin);
      FftDcBin(Odds(x), cos, sin);
      SumOfHalves(x);
    }
  }

  // ---------------------------------------------------------------- attenuation and filtering

  /** `applyAttenuation`: every sample scaled by the factor. */
  function ApplyAttenuation(signal: seq<real>, factor: real): (r: seq<real>)
    ensures |r| == |signal|
    ensures forall i :: 0 <= i < |r| ==> r[i] == signal[i] * factor
    ensures factor == 1.0 ==> r == signal
  {
    seq(|signal|, i requires 0 <= i < |signal| => signal[i] * factor)
  }

  /** Attenuating twice is attenuating once by the product of the factors. */
  lemma AttenuationComposes(signal: seq<real>, a: real, b: real)
    ensures ApplyAttenuation(ApplyAttenuation(signal, a), b) == ApplyAttenuation(signal, a * b)
  {
    var lhs := ApplyAttenuation(ApplyAttenuation(signal, a), b);
    forall i | 0 <= i < |signal|
      ensures lhs[i] == signal[i] * (a * b)
    {
      assert lhs[i] == (signal[i] * a) * b;
    }
  }

  predicate IsConstant(s: seq<real>) {
    forall i :: 0 <= i < |s| ==> s[i] == s[0]
  }

  /** The smoothing coefficient `cutoff / (cutoff + sampleRate)`. */
  function FilterAlpha(cutoffFreq: real, sampleRate: real): real
    requires cutoffFreq + sampleRate != 0.0
  {
    cutoffFreq / (cutoffFreq + sampleRate)
  }

  /** One step of the filter, `α·x + (1 − α)·previous`. */
  function Smooth(alpha: real, x: real, previous: real): real {
    alpha * x + (1.0 - alpha) * previous
  }

  /** A constant input is a fixed point of the step, whatever `α`. */
  lemma SmoothFixed(alpha: real, c: real)
    ensures Smooth(alpha, c, c) == c
  {
    assert alpha * c + (1.0 - alpha) * c == (alpha + (1.0 - alpha)) * c;
  }

  /**
   * `lowPassFilter`: `y[0] = x[0]`, `y[i] = α·x[i] + (1 − α)·y[i−1]`. The
   * source seeds the output with `signal[0]`, so an empty input yields the
   * one-element array `[undefined]`, modelled as `[None]`.
   */
  method LowPassFilter(signal: seq<real>, cutoffFreq: real, sampleRate: real) returns (filtered: seq<Option<real>>)
    requires cutoffFreq + sampleRate != 0.0
    ensures |signal| == 0 ==> filtered == [None]
    ensures |signal| > 0 ==> |filtered| == |signal|
    ensures |signal| > 0 ==> forall i :: 0 <= i < |filtered| ==> filtered[i].Some?
    ensures |signal| > 0 ==> filtered[0] == Some(signal[0])
    ensures |signal| > 0 ==> forall i :: 1 <= i < |signal| ==>
              filtered[i].value == Smooth(FilterAlpha(cutoffFreq, sampleRate), signal[i], filtered[i - 1].value)
    ensures |signal| > 0 && IsConstant(signal) ==> forall i :: 0 <= i < |filtered| ==> filtered[i] == Some(signal[0])
  {
    var alpha := FilterAlpha(cutoffFreq, sampleRate);
    if |signal| == 0 {
      return [None];
    }
    filtered := [Some(signal[0])];
    var i := 1;
    while i < |signal|
      invariant 1 <= i <= |signal|
      invariant |filtered| == i
      invariant forall m :: 0 <= m < i ==> filtered[m].Some?
      invariant filtered[0] == Some(signal[0])
      invariant forall m :: 1 <= m < i ==>
                  filtered[m].value == Smooth(alpha, signal[m], filtered[m - 1].value)
      invariant IsConstant(signal) ==> forall m :: 0 <= m < i ==> filtered[m] == Some(signal[0])
    {
      var y := Smooth(alpha, signal[i], filtered[i - 1].value);
      if IsConstant(signal) {
        SmoothFixed(alpha, signal[0]);
      }
      filtered := filtered + [Some(y)];
      i := i + 1;
    }
  }

  // ---------------------------------------------------------------- statistics

  /** Sum of `x[i]²`. */
  function SumSquares(x: seq<real>): real
    decreases |x|
  {
    if |x| == 0 then 0.0 else SumSquares(x[..|x| - 1]) + x[|x| - 1] * x[|x| - 1]
  }

  /** Sum of `(y[i] − x[i])²` over the common prefix. */
  function SumSquaredError(x: seq<real>, y: seq<real>): real
    requires |x| == |y|
    decreases |x|
  {
    if |x| == 0 then 0.0
    else
      var d := y[|x| - 1] - x[|x| - 1];
      SumSquaredError(x[..|x| - 1], y[..|y| - 1]) + d * d
  }

  /** Number of positions where the two sequences differ. */
  function Mismatches(a: seq<int>, b: seq<int>): nat
    requires |a| == |b|
    decreases |a|
  {
    if |a| == 0 then 0
    else Mismatches(a[..|a| - 1], b[..|b| - 1]) + (if a[|a| - 1] != b[|b| - 1] then 1 else 0)
  }

  lemma {:induction false} MismatchesBounds(a: seq<int>, b: seq<int>)
    requires |a| == |b|
    ensures Mismatches(a, b) <= |a|
    ensures a == b ==> Mismatches(a, b) == 0
    decreases |a|
  {
    if |a| > 0 {
      MismatchesBounds(a[..|a| - 1], b[..|b| - 1]);
    }
  }

  lemma {:induction false} NonNegSumSquares(x: seq<real>)
    ensures SumSquares(x) >= 0.0
    decreases |x|
  {
    if |x| > 0 {
      NonNegSumSquares(x[..|x| - 1]);
      SquareNonNegative(x[|x| - 1]);
    }
  }

  lemma SquareNonNegative(v: real)
    ensures v * v >= 0.0
  {
    if v < 0.0 {
      assert v * v == (-v) * (-v);
    }
  }

  lemma {:induction false} NoErrorAgainstItself(x: seq<real>)
    ensures SumSquaredError(x, x) == 0.0
    decreases |x|
  {
    if |x| > 0 {
      NoErrorAgainstItself(x[..|x| - 1]);
    }
  }

  /** The SNR value `calculateSNR` returns for equal-length inputs: the per-sample
      mean powers of `x` and of `y − x`, compared in decibels. */
  function SnrOf(x: seq<real>, y: seq<real>, log10: real -> real): Number
    requires |x| == |y|
  {
    var n := |x| as real;
    if |x| == 0 then NaN
    else Decibels(SumSquares(x) / n, SumSquaredError(x, y) / n, log10)
  }

  /** A received copy identical to the original has no finite SNR: +Infinity, or NaN when the original is silent. */
  lemma PerfectCopySnr(x: seq<real>, log10: real -> real)
    ensures SnrOf(x, x, log10) == PosInf || SnrOf(x, x, log10) == NaN
    ensures |x| > 0 && SumSquares(x) != 0.0 ==> SnrOf(x, x, log10) == PosInf
  {
    NoErrorAgainstItself(x);
    NonNegSumSquares(x);
    if |x| > 0 {
      var n := |x| as real;
      assert 0.0 / n == 0.0;
      var p := SumSquares(x) / n;
      assert p * n == SumSquares(x);
      if SumSquares(x) != 0.0 {
        assert p > 0.0;
      } else {
        assert p == 0.0;
      }
    }
  }

  /** `calculateSNR`: throws on a length mismatch, otherwise `10·log10(Psignal / Pnoise)`. */
  method CalculateSNR(original: seq<real>, noisy: seq<real>, log10: real -> real) returns (r: Result<Number, SignalError>)
    ensures r.Failure? <==> |original| != |noisy|
    ensures r.Failure? ==> r.error == LengthMismatch
    ensures r.Success? ==> r.value == SnrOf(original, noisy, log10)
  {
    if |original| != |noisy| {
      return Failure(LengthMismatch);
    }
    var signalPower := 0.0;
    var noisePower := 0.0;
    var i := 0;
    while i < |original|
      invariant 0 <= i <= |original|
      invariant signalPower == SumSquares(original[..i])
      invariant noisePower == SumSquaredError(original[..i], noisy[..i])
    {
      assert original[..i + 1][..i] == original[..i];
      assert noisy[..i + 1][..i] == noisy[..i];
      signalPower := signalPower + original[i] * original[i];
      var noise := noisy[i] - original[i];
      noisePower := noisePower + noise * noise;
      i := i + 1;
    }
    assert original[..i] == original && noisy[..i] == noisy;
    if |original| == 0 {
      return Success(NaN);
    }
    var n := |original| as real;
    r := Success(Decibels(signalPower / n, noisePower / n, log10));
  }

  /** `calculateBER`: throws on a length mismatch, otherwise the fraction of differing positions. */
  method CalculateBER(originalBits: seq<int>, receivedBits: seq<int>) returns (r: Result<Number, SignalError>)
    ensures r.Failure? <==> |originalBits| != |receivedBits|
    ensures r.Failure? ==> r.error == LengthMismatch
    ensures r.Success? ==> r.value == Div(Mismatches(originalBits, receivedBits) as real, |originalBits| as real)
    ensures r.Success? && |originalBits| == 0 ==> r.value == NaN
    ensures r.Success? && |originalBits| > 0 ==> r.value.Finite? && 0.0 <= r.value.value <= 1.0
    ensures r.Success? && |originalBits| > 0 && originalBits == receivedBits ==> r.value == Finite(0.0)
  {
    if |originalBits| != |receivedBits| {
      return Failure(LengthMismatch);
    }
    var errors := 0;
    var i := 0;
    while i < |originalBits|
      invariant 0 <= i <= |originalBits|
      invariant errors == Mismatches(originalBits[..i], receivedBits[..i])
    {
      assert originalBits[..i + 1][..i] == originalBits[..i];
      assert receivedBits[..i + 1][..i] == receivedBits[..i];
      if originalBits[i] != receivedBits[i] {
        errors := errors + 1;
      }
      i := i + 1;
    }
    assert originalBits[..i] == originalBits && receivedBits[..i] == receivedBits;
    MismatchesBounds(originalBits, receivedBits);
    if |originalBits| > 0 {
      RatioWithinUnit(errors as real, |originalBits| as real);
      assert Div(errors as real, |originalBits| as real) == Finite((errors as real) / (|originalBits| as real));
    }
    r := Success(Div(errors as real, |originalBits| as real));
  }
}
