/**
 * `WaveformGenerator` and `WaveformProcessor` of `src/utils/waveforms.ts`:
 * sine, cosine and square waves on the time axis, the conversion to
 * three-dimensional plot points and the downsampler.
 */
module WaveformTools {
  import opened Wrappers
  import opened Numbers
  import opened Sampling
  import opened SignalMath

  /** `SignalParams` of `src/utils/signalMath.ts`. */
  datatype SignalParams = SignalParams(amplitude: real, frequency: real, phase: real, sampleRate: real, duration: real)

  // ---------------------------------------------------------------- Generators

  /** The shape both sinusoid generators share: `amplitude * wave(2π f t + phase)` at every instant of the time axis. */
  function Sinusoid(p: SignalParams, wave: real -> real): (w: Waveform)
    ensures w.Valid() && w.time == TimeAxis(p.sampleRate, p.duration)
    ensures forall i :: 0 <= i < |w.amplitude| ==> w.amplitude[i] == p.amplitude * wave(Angle(p.frequency, w.time[i]) + p.phase)
  {
    var time := TimeAxis(p.sampleRate, p.duration);
    Waveform(time, seq(|time|, i requires 0 <= i < |time| => p.amplitude * wave(Angle(p.frequency, time[i]) + p.phase)))
  }

  /** `generateSineWave`. */
  function SineWave(p: SignalParams, sin: real -> real): Waveform {
    Sinusoid(p, sin)
  }

  /** `generateCosineWave`. */
  function CosineWave(p: SignalParams, cos: real -> real): Waveform {
    Sinusoid(p, cos)
  }

  /** Given `cos(x) == sin(x + π/2)`, the cosine wave is the sine wave with its phase advanced by π/2. */
  lemma CosineIsShiftedSine(p: SignalParams, sin: real -> real, cos: real -> real)
    requires forall x :: cos(x) == sin(x + PI / 2.0)
    ensures CosineWave(p, cos) == SineWave(p.(phase := p.phase + PI / 2.0), sin)
  {
    var c := CosineWave(p, cos);
    var s := SineWave(p.(phase := p.phase + PI / 2.0), sin);
    forall i | 0 <= i < |c.amplitude|
      ensures c.amplitude[i] == s.amplitude[i]
    {
      var a := Angle(p.frequency, c.time[i]);
      assert cos(a + p.phase) == sin(a + p.phase + PI / 2.0);
    }
  }

  /** `Math.sign` on a real. */
  function Sign(x: real): (r: real)
    ensures r == 1.0 <==> x > 0.0
    ensures r == -1.0 <==> x < 0.0
    ensures r == 0.0 <==> x == 0.0
  {
    if x > 0.0 then 1.0 else if x < 0.0 then -1.0 else 0.0
  }

  /** `generateSquareWave`: the amplitude times the sign of the sine. */
  function SquareWave(p: SignalParams, sin: real -> real): (w: Waveform)
    ensures w.Valid() && w.time == TimeAxis(p.sampleRate, p.duration)
    ensures forall i :: 0 <= i < |w.amplitude| ==>
              w.amplitude[i] == p.amplitude || w.amplitude[i] == -p.amplitude || w.amplitude[i] == 0.0
  {
    var time := TimeAxis(p.sampleRate, p.duration);
    Waveform(time, seq(|time|, i requires 0 <= i < |time| => p.amplitude * Sign(sin(Angle(p.frequency, time[i]) + p.phase))))
  }

  lemma PositiveScale(a: real, s: real)
    requires a > 0.0
    ensures a * s > 0.0 <==> s > 0.0
    ensures a * s < 0.0 <==> s < 0.0
    ensures a * s == 0.0 <==> s == 0.0
  {
  }

  /** With a positive amplitude the square wave is high exactly where the sine wave is positive and low exactly where it is negative. */
  lemma SquareFollowsSine(p: SignalParams, sin: real -> real, i: nat)
    requires p.amplitude > 0.0
    requires i < |TimeAxis(p.sampleRate, p.duration)|
    ensures var square := SquareWave(p, sin).amplitude;
            var sine := SineWave(p, sin).amplitude;
            (square[i] == p.amplitude <==> sine[i] > 0.0)
            && (square[i] == -p.amplitude <==> sine[i] < 0.0)
            && (square[i] == 0.0 <==> sine[i] == 0.0)
  {
    var s := sin(Angle(p.frequency, TimeAxis(p.sampleRate, p.duration)[i]) + p.phase);
    PositiveScale(p.amplitude, s);
  }

  // ---------------------------------------------------------------- Plot points

  /** A `[x, y, 0]` point; `y` reads `amplitude[i]`, which is `undefined` (giving NaN) past the end of the amplitudes. */
  datatype Point3 = Point3(x: real, y: Number, z: real)

  /** `toThreeJSPoints`: one point per time value, scaled by `scaleX` and `scaleY` (1 and 1 by default). */
  function ToPoints(time: seq<real>, amplitude: seq<real>, scaleX: real, scaleY: real): (points: seq<Point3>)
    ensures |points| == |time|
    ensures forall i :: 0 <= i < |points| ==> points[i].z == 0.0 && (points[i].y.Finite? <==> i < |amplitude|)
  {
    seq(|time|, i requires 0 <= i < |time| =>
      Point3(time[i] * scaleX, if i < |amplitude| then Finite(amplitude[i] * scaleY) else NaN, 0.0))
  }

  lemma MulDivCancel(a: real, b: real)
    requires b != 0.0
    ensures (a * b) / b == a
  {
  }

  /** With non-zero scales and an amplitude for every time value, dividing a point by the scales gives back the sample. */
  lemma ToPointsUnproject(time: seq<real>, amplitude: seq<real>, scaleX: real, scaleY: real, i: nat)
    requires scaleX != 0.0 && scaleY != 0.0
    requires i < |time| && |time| <= |amplitude|
    ensures var pt := ToPoints(time, amplitude, scaleX, scaleY)[i];
            pt.y.Finite? && pt.x / scaleX == time[i] && pt.y.value / scaleY == amplitude[i]
  {
    MulDivCancel(time[i], scaleX);
    MulDivCancel(amplitude[i], scaleY);
  }

  // ---------------------------------------------------------------- Downsampling

  /** The downsampled `{ time, amplitude }`; an amplitude read past the end of the array is `undefined`, here `None`. */
  datatype Sampled = Sampled(time: seq<real>, amplitude: seq<Option<real>>)

  /** `amplitude[i]` in JavaScript: the value, or `undefined` past the end. */
  function At(s: seq<real>, i: nat): (r: Option<real>)
    ensures r.Some? <==> i < |s|
  {
    if i < |s| then Some(s[i]) else None
  }

  function Lift(s: seq<real>): (r: seq<Option<real>>)
    ensures |r| == |s| && forall i :: 0 <= i < |s| ==> r[i] == Some(s[i])
  {
    seq(|s|, i requires 0 <= i < |s| => Some(s[i]))
  }

  /**
   * The indices visited by `for (let i = start; i < len; i += step)`: every
   * `step`-th index below `len`, and as many of them as it takes to pass `len`.
   */
  function Indices(len: nat, step: nat, start: nat): (r: seq<nat>)
    requires step > 0
    ensures forall m :: 0 <= m < |r| ==> r[m] == start + m * step && r[m] < len
    ensures start >= len ==> |r| == 0
    ensures start < len ==> |r| > 0 && (|r| - 1) * step + start < len <= |r| * step + start
    decreases len - start
  {
    if start >= len then []
    else
      var rest := Indices(len, step, start + step);
      StepShift(|rest|, step, start);
      [start] + rest
  }

  /** One more step from `start` is the next multiple from `start + step`. */
  lemma StepShift(n: nat, step: nat, start: nat)
    ensures (n + 1) * step + start == n * step + (start + step)
    ensures n * step + start == (n - 1) * step + (start + step)
    ensures forall m :: 1 <= m <= n ==> start + m * step == (start + step) + (m - 1) * step
  {
    forall m | 1 <= m <= n
      ensures start + m * step == (start + step) + (m - 1) * step
    {
      assert m * step == (m - 1) * step + step;
    }
  }

  /** The samples at the given indices. */
  function Select(time: seq<real>, amplitude: seq<real>, indices: seq<nat>): (r: Sampled)
    requires forall m :: 0 <= m < |indices| ==> indices[m] < |time|
    ensures |r.time| == |indices| && |r.amplitude| == |indices|
    ensures forall m :: 0 <= m < |indices| ==> r.time[m] == time[indices[m]] && r.amplitude[m] == At(amplitude, indices[m])
  {
    Sampled(
      seq(|indices|, m requires 0 <= m < |indices| => time[indices[m]]),
      seq(|indices|, m requires 0 <= m < |indices| => At(amplitude, indices[m])))
  }

  /**
   * `downsample` as written: arrays no longer than `maxPoints` are returned
   * unchanged, otherwise every `floor(len / maxPoints)`-th sample is kept.
   * A limit of 0 makes the step infinite, so only the first sample is kept; a
   * negative limit on a non-empty array makes the step negative and the loop
   * never ends, so it is excluded.
   */
  function Downsample(time: seq<real>, amplitude: seq<real>, maxPoints: int): (r: Sampled)
    requires maxPoints >= 0 || |time| == 0
    ensures |time| <= maxPoints ==> r == Sampled(time, Lift(amplitude))
    ensures |time| == 0 ==> r.time == []
    ensures 0 < |time| && maxPoints < |time| ==> |r.time| == |r.amplitude| && 0 < |r.time| <= |time| && r.time[0] == time[0]
    ensures maxPoints == 0 && |time| > 0 ==> |r.time| == 1
  {
    if |time| <= maxPoints then Sampled(time, Lift(amplitude))
    else if |time| == 0 then Sampled([], [])
    else if maxPoints == 0 then Select(time, amplitude, [0])
    else
      var step := |time| / maxPoints;
      QuotientPositive(|time|, maxPoints);
      StrideNonEmpty(|time|, step);
      Select(time, amplitude, Indices(|time|, step, 0))
  }

  /** A stride from 0 through a non-empty array keeps index 0 and at most every index. */
  lemma StrideNonEmpty(len: nat, step: nat)
    requires len > 0 && step > 0
    ensures var idx := Indices(len, step, 0);
            0 < |idx| <= len && idx[0] == 0
  {
    var idx := Indices(len, step, 0);
    var n := |idx| - 1;
    assert n * step < len;
    MulAtLeastSelf(n, step);
  }

  lemma MulAtLeastSelf(n: nat, step: nat)
    requires step > 0
    ensures n <= n * step
  {
    assert n * step == n + n * (step - 1);
  }

  /** `kept` is every `step`-th sample of `time` from the first: `ceil(len / step)` of them, the one at `m * step` in place `m`. */
  predicate StridedFrom(time: seq<real>, kept: seq<real>, step: nat) {
    && step >= 1
    && (|kept| - 1) * step < |time| <= |kept| * step
    && forall m :: 0 <= m < |kept| ==> m * step < |time| && kept[m] == time[m * step]
  }

  /** Above the limit the kept samples are those at multiples of `step = floor(len / maxPoints)`. */
  lemma {:induction false} DownsampleStride(time: seq<real>, amplitude: seq<real>, maxPoints: int)
    requires 0 < maxPoints < |time|
    ensures StridedFrom(time, Downsample(time, amplitude, maxPoints).time, |time| / maxPoints)
  {
    var step := |time| / maxPoints;
    QuotientPositive(|time|, maxPoints);
    StrideSelect(time, amplitude, step);
    assert Downsample(time, amplitude, maxPoints) == Select(time, amplitude, Indices(|time|, step, 0));
  }

  /** Selecting at the stride's indices keeps every `step`-th sample. */
  lemma {:induction false} StrideSelect(time: seq<real>, amplitude: seq<real>, step: nat)
    requires 0 < |time| && step >= 1
    ensures StridedFrom(time, Select(time, amplitude, Indices(|time|, step, 0)).time, step)
  {
    var idx := Indices(|time|, step, 0);
    var kept := Select(time, amplitude, idx).time;
    assert (|idx| - 1) * step + 0 < |time| <= |idx| * step + 0;
    forall m | 0 <= m < |kept|
      ensures m * step < |time| && kept[m] == time[m * step]
    {
      assert idx[m] == 0 + m * step && idx[m] < |time|;
    }
  }

  /** The limit is not a bound: 1999 samples with a limit of 1000 give a step of 1 and all 1999 samples back. */
  lemma DownsampleExceedsLimit()
    ensures var time := seq(1999, i => 0.0);
            |Downsample(time, time, 1000).time| == 1999
  {
    var time := seq(1999, i => 0.0);
    assert |time| / 1000 == 1;
    var idx := Indices(1999, 1, 0);
    assert |idx| == 1999;
  }

  lemma MulLessCancel(a: int, b: int, c: int)
    requires c > 0 && a * c < b * c
    ensures a < b
  {
    if a >= b {
      MulAtLeastDiff(a, b, c);
    }
  }

  lemma MulAtLeastDiff(a: int, b: int, c: int)
    requires c > 0 && a >= b
    ensures a * c >= b * c
  {
    if a > b {
      MulAtLeast(a - b, c);
      assert a * c == (a - b) * c + b * c;
    }
  }

  /**
   * Downsampling with the step rounded up, `ceil(len / maxPoints)`: the
   * reading of `downsample` that keeps its promise of at most `maxPoints`
   * samples.
   */
  function DownsampleWithin(time: seq<real>, amplitude: seq<real>, maxPoints: int): (r: Sampled)
    requires maxPoints >= 1
    ensures |time| <= maxPoints ==> r == Sampled(time, Lift(amplitude))
    ensures |r.time| <= maxPoints
    ensures |time| > maxPoints ==> |r.time| == |r.amplitude| && 0 < |r.time| && r.time[0] == time[0]
  {
    if |time| <= maxPoints then Sampled(time, Lift(amplitude))
    else
      var step := (|time| + maxPoints - 1) / maxPoints;
      CeilingStep(|time|, maxPoints);
      var idx := Indices(|time|, step, 0);
      MulLessCancel(|idx| - 1, maxPoints, step);
      Select(time, amplitude, idx)
  }

  /** `ceil(len / maxPoints)` steps of that size cover `len`: `maxPoints * step >= len`. */
  lemma CeilingStep(len: nat, maxPoints: int)
    requires maxPoints >= 1 && len > maxPoints
    ensures (len + maxPoints - 1) / maxPoints >= 1
    ensures maxPoints * ((len + maxPoints - 1) / maxPoints) >= len
  {
    QuotientPositive(len + maxPoints - 1, maxPoints);
  }

  /** A quotient `n / d` with `n >= d >= 1` is at least 1. */
  lemma QuotientPositive(n: int, d: int)
    requires d >= 1 && n >= d
    ensures n / d >= 1
  {
    var q := n / d;
    assert 0 * d < q * d;
    MulLessCancel(0, q, d);
  }
}
