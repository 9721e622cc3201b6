/**
 * The computations of the `ModulationSystem` panel in
 * `src/components/ModulationSystem.ts`: the modulation metrics it displays
 * (spectral efficiency, power efficiency, minimum distance, symbol error
 * rate) and the edits it makes to the QAM constellation (reset, optimise, a
 * click that snaps the nearest point to a 0.5 grid). `sqrt`, `exp`, `log2`
 * and `log10` are parameters.
 */
module ModulationSystem {
  import opened Wrappers
  import opened Numbers
  import opened Modulation

  /** `ModulationSystemConfig`. */
  datatype Config = Config(
    modulationType: ModulationType,
    carrierFreq: real,
    amplitude: real,
    phase: real,
    askAmplitude0: real,
    askAmplitude1: real,
    fskFreq0: real,
    fskFreq1: real,
    pskPhase0: real,
    pskPhase1: real,
    qamConstellation: seq<IQ>)

  /** A `Partial<ModulationSystemConfig>`: `None` for a field that is absent. */
  datatype ConfigPatch = ConfigPatch(
    modulationType: Option<ModulationType>,
    carrierFreq: Option<real>,
    amplitude: Option<real>,
    phase: Option<real>,
    askAmplitude0: Option<real>,
    askAmplitude1: Option<real>,
    fskFreq0: Option<real>,
    fskFreq1: Option<real>,
    pskPhase0: Option<real>,
    pskPhase1: Option<real>,
    qamConstellation: Option<seq<IQ>>)

  /** `updateConfig`: `{ ...config, ...newConfig }`. */
  function UpdateConfig(c: Config, patch: ConfigPatch): (r: Config)
    ensures r.modulationType == patch.modulationType.GetOr(c.modulationType)
    ensures r.carrierFreq == patch.carrierFreq.GetOr(c.carrierFreq)
    ensures r.amplitude == patch.amplitude.GetOr(c.amplitude)
    ensures r.phase == patch.phase.GetOr(c.phase)
    ensures r.askAmplitude0 == patch.askAmplitude0.GetOr(c.askAmplitude0)
    ensures r.askAmplitude1 == patch.askAmplitude1.GetOr(c.askAmplitude1)
    ensures r.fskFreq0 == patch.fskFreq0.GetOr(c.fskFreq0)
    ensures r.fskFreq1 == patch.fskFreq1.GetOr(c.fskFreq1)
    ensures r.pskPhase0 == patch.pskPhase0.GetOr(c.pskPhase0)
    ensures r.pskPhase1 == patch.pskPhase1.GetOr(c.pskPhase1)
    ensures r.qamConstellation == patch.qamConstellation.GetOr(c.qamConstellation)
  {
    Config(
      patch.modulationType.GetOr(c.modulationType),
      patch.carrierFreq.GetOr(c.carrierFreq),
      patch.amplitude.GetOr(c.amplitude),
      patch.phase.GetOr(c.phase),
      patch.askAmplitude0.GetOr(c.askAmplitude0),
      patch.askAmplitude1.GetOr(c.askAmplitude1),
      patch.fskFreq0.GetOr(c.fskFreq0),
      patch.fskFreq1.GetOr(c.fskFreq1),
      patch.pskPhase0.GetOr(c.pskPhase0),
      patch.pskPhase1.GetOr(c.pskPhase1),
      patch.qamConstellation.GetOr(c.qamConstellation))
  }

  const EmptyPatch := ConfigPatch(None, None, None, None, None, None, None, None, None, None, None)

  /** An empty patch changes nothing, and a patch applied twice is applied once. */
  lemma UpdateConfigLaws(c: Config, patch: ConfigPatch)
    ensures UpdateConfig(c, EmptyPatch) == c
    ensures UpdateConfig(UpdateConfig(c, patch), patch) == UpdateConfig(c, patch)
  {
  }

  // ---------------------------------------------------------------- Metrics

  /** `calculateSpectralEfficiency`: one bit per symbol, `log2(M)` for an M-point QAM constellation (`-Infinity` for none). */
  function SpectralEfficiency(c: Config, log2: real -> real): (r: Number)
    ensures c.modulationType != QAM ==> r == Finite(1.0)
    ensures c.modulationType == QAM && |c.qamConstellation| > 0 ==> r == Finite(log2(|c.qamConstellation| as real))
    ensures r == NegInf <==> c.modulationType == QAM && |c.qamConstellation| == 0
  {
    match c.modulationType
    case QAM =>
      if |c.qamConstellation| == 0 then NegInf else Finite(log2(|c.qamConstellation| as real))
    case _ => Finite(1.0)
  }

  /** `1 / x` on a JavaScript number. */
  function Reciprocal(x: Number): (r: Number)
    ensures x.Finite? && x.value != 0.0 ==> r.Finite? && r.value * x.value == 1.0
    ensures x == Finite(0.0) ==> r == PosInf
    ensures x == NaN <==> r == NaN
  {
    match x
    case Finite(v) => Div(1.0, v)
    case NaN => NaN
    case _ => Finite(0.0)
  }

  /** `(a0 ** 2 + a1 ** 2) / 2`. */
  function AskAveragePower(c: Config): (p: real)
    ensures p >= 0.0
  {
    (c.askAmplitude0 * c.askAmplitude0 + c.askAmplitude1 * c.askAmplitude1) / 2.0
  }

  /** The power `I ** 2 + Q ** 2` of a point. */
  function Power(p: IQ): (e: real)
    ensures e >= 0.0
  {
    p.i * p.i + p.q * p.q
  }

  /** The `reduce` of the QAM branch: the total power of the points. */
  function SumPower(points: seq<IQ>): (s: real)
    ensures s >= 0.0
  {
    if |points| == 0 then 0.0 else Power(points[0]) + SumPower(points[1..])
  }

  /** `10 * Math.log10(1 / averagePower)`. */
  function Efficiency(averagePower: Number, log10: real -> real): Number {
    Scale(10.0, Log10(Reciprocal(averagePower), log10))
  }

  /** `calculatePowerEfficiency`: 0 dB for FSK and PSK, the inverse of the average symbol power in decibels for ASK and QAM. */
  function PowerEfficiency(c: Config, log10: real -> real): (r: Number)
    ensures c.modulationType == FSK || c.modulationType == PSK ==> r == Finite(0.0)
    ensures c.modulationType == ASK && AskAveragePower(c) == 0.0 ==> r == PosInf
    ensures c.modulationType == QAM && |c.qamConstellation| == 0 ==> r == NaN
  {
    match c.modulationType
    case ASK => Efficiency(Finite(AskAveragePower(c)), log10)
    case QAM => Efficiency(Div(SumPower(c.qamConstellation), |c.qamConstellation| as real), log10)
    case _ => Finite(0.0)
  }

  /** A positive average power `p` gives `10 * log10(1 / p)`; this is the case of every ASK amplitude pair that is not all zero and of every QAM constellation with a point off the origin. */
  lemma PowerEfficiencyOfPositivePower(c: Config, log10: real -> real)
    requires c.modulationType == ASK || c.modulationType == QAM
    requires c.modulationType == ASK ==> AskAveragePower(c) > 0.0
    requires c.modulationType == QAM ==> |c.qamConstellation| > 0 && SumPower(c.qamConstellation) > 0.0
    ensures var p := if c.modulationType == ASK then AskAveragePower(c) else SumPower(c.qamConstellation) / (|c.qamConstellation| as real);
            p > 0.0 && PowerEfficiency(c, log10) == Finite(10.0 * log10(1.0 / p))
  {
    if c.modulationType == QAM {
      var n := |c.qamConstellation| as real;
      var q := SumPower(c.qamConstellation) / n;
      assert q * n == SumPower(c.qamConstellation);
      DivAtLeast(SumPower(c.qamConstellation), n, 0.0);
      assert q != 0.0;
    }
  }

  /** The distance `Math.sqrt((p1.I - p2.I) ** 2 + (p1.Q - p2.Q) ** 2)`. */
  function Dist(a: IQ, b: IQ, sqrt: real -> real): real {
    sqrt(Power(IQ(a.i - b.i, a.q - b.q)))
  }

  /** `Math.min(m, d)` where `m` starts at `Infinity`. */
  function MinWith(m: Number, d: real): (r: Number)
    requires m.Finite? || m == PosInf
    ensures r.Finite? && r.value <= d
    ensures m.Finite? ==> r.value <= m.value
    ensures r.value == d || (m.Finite? && r.value == m.value)
  {
    if m.Finite? then Finite(Min(m.value, d)) else Finite(d)
  }

  /** Pair `(a, b)` comes before position `(i, j)` of the double loop. */
  predicate Scanned(a: int, b: int, i: int, j: int) {
    a < i || (a == i && b < j)
  }

  /** `d` is at most the distance of every pair scanned before `(i, j)`, and equal to one of them. */
  predicate MinOfScanned(points: seq<IQ>, d: real, sqrt: real -> real, i: int, j: int) {
    BelowScanned(points, d, sqrt, i, j) && AttainedScanned(points, d, sqrt, i, j)
  }

  /** `d` is at most the distance of every pair scanned before `(i, j)`. */
  predicate BelowScanned(points: seq<IQ>, d: real, sqrt: real -> real, i: int, j: int) {
    forall a, b :: 0 <= a < b < |points| && Scanned(a, b, i, j) ==> d <= Dist(points[a], points[b], sqrt)
  }

  /** `d` is the distance of some pair scanned before `(i, j)`. */
  predicate AttainedScanned(points: seq<IQ>, d: real, sqrt: real -> real, i: int, j: int) {
    exists a, b :: 0 <= a < b < |points| && Scanned(a, b, i, j) && d == Dist(points[a], points[b], sqrt)
  }

  /** `d` is the smallest distance between two distinct points of the constellation. */
  predicate IsMinPairDistance(points: seq<IQ>, d: real, sqrt: real -> real) {
    BelowAllPairs(points, d, sqrt) && AttainedByPair(points, d, sqrt)
  }

  predicate BelowAllPairs(points: seq<IQ>, d: real, sqrt: real -> real) {
    forall a, b :: 0 <= a < b < |points| ==> d <= Dist(points[a], points[b], sqrt)
  }

  predicate AttainedByPair(points: seq<IQ>, d: real, sqrt: real -> real) {
    exists a, b :: 0 <= a < b < |points| && d == Dist(points[a], points[b], sqrt)
  }

  /** Finishing row `i` is starting row `i + 1`. */
  lemma {:induction false} NextRow(points: seq<IQ>, d: real, sqrt: real -> real, i: int)
    requires MinOfScanned(points, d, sqrt, i, |points|)
    ensures MinOfScanned(points, d, sqrt, i + 1, i + 2)
  {
    var a, b :| 0 <= a < b < |points| && Scanned(a, b, i, |points|) && d == Dist(points[a], points[b], sqrt);
    assert Scanned(a, b, i + 1, i + 2);
    forall a', b' | 0 <= a' < b' < |points| && Scanned(a', b', i + 1, i + 2)
      ensures d <= Dist(points[a'], points[b'], sqrt)
    {
      assert Scanned(a', b', i, |points|);
    }
  }

  /** Once every row is done, every pair has been scanned. */
  lemma {:induction false} AllRows(points: seq<IQ>, d: real, sqrt: real -> real)
    requires MinOfScanned(points, d, sqrt, |points|, |points| + 1)
    ensures IsMinPairDistance(points, d, sqrt)
  {
    var a, b :| 0 <= a < b < |points| && Scanned(a, b, |points|, |points| + 1) && d == Dist(points[a], points[b], sqrt);
    forall a', b' | 0 <= a' < b' < |points|
      ensures d <= Dist(points[a'], points[b'], sqrt)
    {
      assert Scanned(a', b', |points|, |points| + 1);
    }
  }

  /** One step of the double loop: taking the minimum with the distance of pair `(i, j)` keeps the running value the minimum over every pair scanned so far. */
  lemma {:induction false} ExtendScan(points: seq<IQ>, m: Number, sqrt: real -> real, i: int, j: int)
    requires 0 <= i < j < |points|
    requires m.Finite? || (m == PosInf && i == 0 && j == 1)
    requires m.Finite? ==> MinOfScanned(points, m.value, sqrt, i, j)
    ensures MinOfScanned(points, MinWith(m, Dist(points[i], points[j], sqrt)).value, sqrt, i, j + 1)
  {
    ExtendScanBound(points, m, sqrt, i, j);
    ExtendScanWitness(points, m, sqrt, i, j);
  }

  /** The running minimum stays below every scanned distance, the new pair's included. */
  lemma {:induction false} ExtendScanBound(points: seq<IQ>, m: Number, sqrt: real -> real, i: int, j: int)
    requires 0 <= i < j < |points|
    requires m.Finite? || (m == PosInf && i == 0 && j == 1)
    requires m.Finite? ==> MinOfScanned(points, m.value, sqrt, i, j)
    ensures BelowScanned(points, MinWith(m, Dist(points[i], points[j], sqrt)).value, sqrt, i, j + 1)
  {
    var r := MinWith(m, Dist(points[i], points[j], sqrt)).value;
    forall a, b | 0 <= a < b < |points| && Scanned(a, b, i, j + 1)
      ensures r <= Dist(points[a], points[b], sqrt)
    {
      if Scanned(a, b, i, j) {
        assert m.Finite?;
        assert m.value <= Dist(points[a], points[b], sqrt);
      } else {
        assert a == i && b == j;
      }
    }
  }

  /** The running minimum is the distance of some scanned pair: the new one, or the earlier witness. */
  lemma {:induction false} ExtendScanWitness(points: seq<IQ>, m: Number, sqrt: real -> real, i: int, j: int)
    requires 0 <= i < j < |points|
    requires m.Finite? || (m == PosInf && i == 0 && j == 1)
    requires m.Finite? ==> MinOfScanned(points, m.value, sqrt, i, j)
    ensures AttainedScanned(points, MinWith(m, Dist(points[i], points[j], sqrt)).value, sqrt, i, j + 1)
  {
    var d := Dist(points[i], points[j], sqrt);
    var r := MinWith(m, d).value;
    if r == d {
      assert Scanned(i, j, i, j + 1);
    } else {
      var a, b :| 0 <= a < b < |points| && Scanned(a, b, i, j) && m.value == Dist(points[a], points[b], sqrt);
      assert Scanned(a, b, i, j + 1);
    }
  }

  /** The inner loop's invariant at `(i, j)`: the running value is still `Infinity` only before the first pair, and is otherwise the minimum over the pairs scanned so far. */
  predicate RowScanned(points: seq<IQ>, r: Number, sqrt: real -> real, i: int, j: int) {
    && (r.Finite? || (r == PosInf && i == 0 && j == 1))
    && (r.Finite? ==> MinOfScanned(points, r.value, sqrt, i, j))
  }

  lemma {:induction false} ScanStep(points: seq<IQ>, r: Number, sqrt: real -> real, i: int, j: int)
    requires 0 <= i < j < |points|
    requires RowScanned(points, r, sqrt, i, j)
    ensures RowScanned(points, MinWith(r, Dist(points[i], points[j], sqrt)), sqrt, i, j + 1)
  {
    ExtendScan(points, r, sqrt, i, j);
  }

  /** The inner loop of `calculateMinimumDistance`: pairs `(i, j)` for `j` from `i + 1`. */
  method ScanRow(points: seq<IQ>, i: nat, start: Number, sqrt: real -> real) returns (r: Number)
    requires i < |points|
    requires start.Finite? || (start == PosInf && i == 0)
    requires start.Finite? ==> MinOfScanned(points, start.value, sqrt, i, i + 1)
    ensures r.Finite? || (r == PosInf && |points| == 1)
    ensures r.Finite? ==> MinOfScanned(points, r.value, sqrt, i + 1, i + 2)
  {
    r := start;
    var j := i + 1;
    while j < |points|
      invariant i + 1 <= j <= |points|
      invariant RowScanned(points, r, sqrt, i, j)
    {
      ScanStep(points, r, sqrt, i, j);
      r := MinWith(r, Dist(points[i], points[j], sqrt));
      j := j + 1;
    }
    if r.Finite? {
      NextRow(points, r.value, sqrt, i);
    }
  }

  /**
   * `calculateMinimumDistance`: 2.0 outside QAM; for QAM the double loop
   * over pairs `i < j`, which leaves `Infinity` when there are fewer than two
   * points.
   */
  method MinimumDistance(c: Config, sqrt: real -> real) returns (r: Number)
    ensures c.modulationType != QAM ==> r == Finite(2.0)
    ensures c.modulationType == QAM && |c.qamConstellation| < 2 ==> r == PosInf
    ensures c.modulationType == QAM && |c.qamConstellation| >= 2 ==> r.Finite? && IsMinPairDistance(c.qamConstellation, r.value, sqrt)
  {
    if c.modulationType != QAM {
      return Finite(2.0);
    }
    var points := c.qamConstellation;
    r := PosInf;
    var i := 0;
    while i < |points|
      invariant 0 <= i <= |points|
      invariant r.Finite? || (r == PosInf && (i == 0 || |points| == 1))
      invariant r.Finite? ==> MinOfScanned(points, r.value, sqrt, i, i + 1)
    {
      r := ScanRow(points, i, r, sqrt);
      i := i + 1;
    }
    if r.Finite? {
      AllRows(points, r.value, sqrt);
    }
  }

  /** `calculateSymbolErrorRate`: `0.5 * exp(-(minDist ** 2) * snr / 4)` at an assumed SNR of 20. An infinite distance gives 0. */
  function SymbolErrorRate(minDistance: Number, exp: real -> real): (r: Number)
    ensures r.Finite? <==> minDistance != NaN
    ensures minDistance == PosInf ==> r == Finite(0.0)
  {
    match minDistance
    case Finite(d) => Finite(0.5 * exp(-(d * d) * 20.0 / 4.0))
    case NaN => NaN
    case _ => Finite(0.0)
  }

  /** With `exp` mapping the non-positive reals into `[0, 1]`, the estimate never exceeds 0.5. */
  lemma SymbolErrorRateAtMostHalf(minDistance: Number, exp: real -> real)
    requires forall x :: x <= 0.0 ==> 0.0 <= exp(x) <= 1.0
    requires minDistance != NaN
    ensures var r := SymbolErrorRate(minDistance, exp);
            r.Finite? && 0.0 <= r.value <= 0.5
  {
    if minDistance.Finite? {
      var d := minDistance.value;
      assert -(d * d) * 20.0 / 4.0 <= 0.0;
    }
  }

  /** With a monotone `exp`, points farther apart never raise the estimate. */
  lemma SymbolErrorRateAntitone(d1: real, d2: real, exp: real -> real)
    requires forall x, y :: x <= y ==> exp(x) <= exp(y)
    requires 0.0 <= d1 <= d2
    ensures SymbolErrorRate(Finite(d2), exp).value <= SymbolErrorRate(Finite(d1), exp).value
  {
    assert d1 * d1 <= d2 * d2 by {
      assert d1 * d1 <= d1 * d2;
      assert d1 * d2 <= d2 * d2;
    }
    assert -(d2 * d2) * 20.0 / 4.0 <= -(d1 * d1) * 20.0 / 4.0;
  }

  // ---------------------------------------------------------------- Constellation editing

  /** `Math.round`: the nearest integer, halves rounded up. */
  function Round(x: real): (n: int)
    ensures x - 0.5 < n as real <= x + 0.5
  {
    (x + 0.5).Floor
  }

  /** `Math.round(x * 2) / 2`: the nearest multiple of 0.5. */
  function Snap(x: real): (r: real)
    ensures x - 0.25 < r <= x + 0.25
  {
    (Round(x * 2.0) as real) / 2.0
  }

  /** A snapped value lies on the 0.5 grid, so snapping it again changes nothing. */
  lemma SnapIdempotent(x: real)
    ensures Snap(Snap(x)) == Snap(x)
  {
    var n := Round(x * 2.0);
    assert Snap(x) * 2.0 == n as real;
    assert (n as real + 0.5).Floor == n;
  }

  function SnapPoint(p: IQ): IQ {
    IQ(Snap(p.i), Snap(p.q))
  }

  /** The canvas is 80 pixels per unit around its centre, with the Q axis pointing up. */
  const PixelsPerUnit: real := 80.0

  /** The I-Q coordinates of a click at `(x, y)` on a `width` by `height` canvas. */
  function ClickPoint(x: real, y: real, width: real, height: real): (p: IQ)
    ensures x == width / 2.0 && y == height / 2.0 ==> p == IQ(0.0, 0.0)
    ensures p.i * PixelsPerUnit == x - width / 2.0 && p.q * PixelsPerUnit == height / 2.0 - y
  {
    IQ((x - width / 2.0) / PixelsPerUnit, -(y - height / 2.0) / PixelsPerUnit)
  }

  /** `k` is the first index at the smallest distance from `click`, as found by the strict `<` of the scan. */
  predicate IsFirstNearest(points: seq<IQ>, click: IQ, k: int, sqrt: real -> real) {
    && 0 <= k < |points|
    && (forall m :: 0 <= m < |points| ==> Dist(points[k], click, sqrt) <= Dist(points[m], click, sqrt))
    && (forall m :: 0 <= m < k ==> Dist(points[k], click, sqrt) < Dist(points[m], click, sqrt))
  }

  /** There is only one first nearest point. */
  lemma FirstNearestUnique(points: seq<IQ>, click: IQ, k1: int, k2: int, sqrt: real -> real)
    requires IsFirstNearest(points, click, k1, sqrt) && IsFirstNearest(points, click, k2, sqrt)
    ensures k1 == k2
  {
    assert Dist(points[k1], click, sqrt) == Dist(points[k2], click, sqrt);
  }

  /** The `forEach` of `handleQAMCanvasClick` that keeps the closest index and its distance, starting from `Infinity` and index 0. */
  method Nearest(points: seq<IQ>, click: IQ, sqrt: real -> real) returns (index: nat, minDistance: Number)
    ensures |points| == 0 ==> index == 0 && minDistance == PosInf
    ensures |points| > 0 ==> IsFirstNearest(points, click, index, sqrt) && minDistance == Finite(Dist(points[index], click, sqrt))
  {
    index, minDistance := 0, PosInf;
    var k := 0;
    while k < |points|
      invariant 0 <= k <= |points|
      invariant k == 0 ==> index == 0 && minDistance == PosInf
      invariant k > 0 ==> index < k && minDistance == Finite(Dist(points[index], click, sqrt))
      invariant k > 0 ==> forall m :: 0 <= m < k ==> Dist(points[index], click, sqrt) <= Dist(points[m], click, sqrt)
      invariant k > 0 ==> forall m :: 0 <= m < index ==> Dist(points[index], click, sqrt) < Dist(points[m], click, sqrt)
    {
      var distance := Dist(points[k], click, sqrt);
      if minDistance == PosInf || distance < minDistance.value {
        index, minDistance := k, Finite(distance);
      }
      k := k + 1;
    }
  }

  /**
   * The edit of `handleQAMCanvasClick`: the first nearest point moves to the
   * click snapped to the 0.5 grid when it lies within 0.5 of the click;
   * otherwise nothing changes. Only that point is replaced.
   */
  method HandleClick(c: Config, click: IQ, sqrt: real -> real) returns (r: Config, edited: Option<nat>)
    ensures r == c.(qamConstellation := r.qamConstellation)
    ensures |r.qamConstellation| == |c.qamConstellation|
    ensures edited.None? <==> forall m :: 0 <= m < |c.qamConstellation| ==> Dist(c.qamConstellation[m], click, sqrt) >= 0.5
    ensures edited.None? ==> r == c
    ensures edited.Some? ==>
              && IsFirstNearest(c.qamConstellation, click, edited.value, sqrt)
              && Dist(c.qamConstellation[edited.value], click, sqrt) < 0.5
              && r.qamConstellation == c.qamConstellation[edited.value := SnapPoint(click)]
  {
    var points := c.qamConstellation;
    var index, minDistance := Nearest(points, click, sqrt);
    if minDistance.Finite? && minDistance.value < 0.5 {
      r := c.(qamConstellation := points[index := SnapPoint(click)]);
      edited := Some(index);
    } else {
      r, edited := c, None;
    }
  }

  /** The standard 4-QAM constellation restored by reset and optimise. */
  const StandardConstellation: seq<IQ> := [IQ(-1.0, -1.0), IQ(-1.0, 1.0), IQ(1.0, -1.0), IQ(1.0, 1.0)]

  /** `resetQAMConstellation`. */
  function ResetConstellation(c: Config): (r: Config)
    ensures r == c.(qamConstellation := StandardConstellation)
    ensures r.qamConstellation == Modulation.QamConstellation
  {
    c.(qamConstellation := StandardConstellation)
  }

  /** `optimizeQAMConstellation`: the fixed optimum it sets is the standard constellation again. */
  function OptimizeConstellation(c: Config): (r: Config)
    ensures r == c.(qamConstellation := StandardConstellation)
  {
    c.(qamConstellation := [IQ(-1.0, -1.0), IQ(-1.0, 1.0), IQ(1.0, -1.0), IQ(1.0, 1.0)])
  }

  /** Reset and optimise have the same effect, and repeating either changes nothing more. */
  lemma ResetOptimizeAgree(c: Config)
    ensures OptimizeConstellation(c) == ResetConstellation(c)
    ensures ResetConstellation(ResetConstellation(c)) == ResetConstellation(c)
    ensures OptimizeConstellation(OptimizeConstellation(c)) == OptimizeConstellation(c)
  {
  }

  /** After a reset a QAM configuration carries 2 bits per symbol, given `log2(4) = 2`. */
  lemma StandardSpectralEfficiency(c: Config, log2: real -> real)
    requires c.modulationType == QAM && log2(4.0) == 2.0
    ensures SpectralEfficiency(ResetConstellation(c), log2) == Finite(2.0)
  {
  }

  /** The standard constellation has mean power 2, so its power efficiency is `10 * log10(1 / 2)`. */
  lemma StandardPowerEfficiency(c: Config, log10: real -> real)
    requires c.modulationType == QAM
    ensures PowerEfficiency(ResetConstellation(c), log10) == Finite(10.0 * log10(0.5))
  {
    var s := StandardConstellation;
    assert s[1..][1..][1..][1..] == [];
    assert SumPower(s) == 8.0;
  }

  /** Two distinct points of the standard constellation are neighbours (squared distance 4) or opposite corners (squared distance 8). */
  lemma {:induction false} StandardPairs(a: int, b: int)
    requires 0 <= a < b < 4
    ensures var s := StandardConstellation;
            var e := Power(IQ(s[a].i - s[b].i, s[a].q - s[b].q));
            e == 4.0 || e == 8.0
  {
  }

  /** The closest points of the standard constellation are its neighbours at distance 2, given `sqrt(4) = 2` and `sqrt(8) >= 2`. */
  lemma {:induction false} StandardMinimumDistance(d: real, sqrt: real -> real)
    requires sqrt(4.0) == 2.0 && sqrt(8.0) >= 2.0
    requires IsMinPairDistance(StandardConstellation, d, sqrt)
    ensures d == 2.0
  {
    StandardAttained(d, sqrt);
    StandardNeighbours(sqrt);
    assert d <= Dist(StandardConstellation[0], StandardConstellation[1], sqrt);
  }

  /** Every distance between two standard points is `sqrt(4)` or `sqrt(8)`. */
  lemma {:induction false} StandardAttained(d: real, sqrt: real -> real)
    requires AttainedByPair(StandardConstellation, d, sqrt)
    ensures d == sqrt(4.0) || d == sqrt(8.0)
  {
    var s := StandardConstellation;
    var a, b :| 0 <= a < b < |s| && d == Dist(s[a], s[b], sqrt);
    StandardPairs(a, b);
    var e := Power(IQ(s[a].i - s[b].i, s[a].q - s[b].q));
    assert d == sqrt(e);
  }

  /** The first two standard points are neighbours, at distance `sqrt(4)`. */
  lemma StandardNeighbours(sqrt: real -> real)
    ensures Dist(StandardConstellation[0], StandardConstellation[1], sqrt) == sqrt(4.0)
  {
    assert StandardConstellation[0] == IQ(-1.0, -1.0) && StandardConstellation[1] == IQ(-1.0, 1.0);
    assert Power(IQ(0.0, -2.0)) == 4.0;
  }
}
