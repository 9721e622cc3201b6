/**
 * The configuration rules of the `TransmissionMedium` panel in
 * `src/components/TransmissionMedium.ts`: the table of medium
 * characteristics, the distance clamp applied whenever the panel refreshes,
 * validation into errors and warnings, the optimise and reset presets, the
 * cost formula, the cost and complexity indicators and the parts of the
 * performance estimate that do not involve logarithms.
 */
module TransmissionMedium {
  import opened Wrappers
  import opened Numbers
  import Scene = TransmissionScene

  /** The medium kinds, as declared next to the scene that animates them. */
  type MediumType = Scene.MediumType

  /** `TransmissionMediumConfig`. */
  datatype Config = Config(
    mediumType: MediumType,
    distance: real,
    attenuation: real,
    noiseLevel: real,
    distortion: real,
    bandwidth: real,
    showEyeDiagram: bool,
    showSpectrum: bool,
    realTimeAnalysis: bool)

  /** The numeric part of `MediumCharacteristics`; the display name and description are left out. */
  datatype Characteristics = Characteristics(
    maxDistance: real,
    typicalAttenuation: real,
    bandwidth: real,
    cost: int,
    complexity: int)

  /** The `mediumCharacteristics` table. */
  function Table(m: MediumType): (ch: Characteristics)
    ensures 1 <= ch.cost <= 5 && 1 <= ch.complexity <= 5
    ensures ch.maxDistance > 0.0 && ch.typicalAttenuation > 0.0 && ch.bandwidth > 0.0
  {
    match m
    case Coaxial => Characteristics(500.0, 20.0, 1000000.0, 2, 2)
    case TwistedPair => Characteristics(100.0, 50.0, 100000.0, 1, 1)
    case OpticalFiber => Characteristics(40000.0, 0.2, 100000000.0, 4, 4)
    case Wireless => Characteristics(10000.0, 100.0, 10000000.0, 3, 5)
  }

  /** Fibre reaches farthest, with the least attenuation and the widest band; twisted pair is the cheapest and simplest. */
  lemma TableOrdering(m: MediumType)
    ensures Table(m).maxDistance <= Table(Scene.OpticalFiber).maxDistance
    ensures Table(Scene.OpticalFiber).typicalAttenuation <= Table(m).typicalAttenuation
    ensures Table(m).bandwidth <= Table(Scene.OpticalFiber).bandwidth
    ensures Table(Scene.TwistedPair).cost <= Table(m).cost && Table(Scene.TwistedPair).complexity <= Table(m).complexity
  {
  }

  // ---------------------------------------------------------------- Indicators

  const Filled: char := '●'
  const Empty: char := '○'

  /** `String.prototype.repeat`, which throws a `RangeError` on a negative count. */
  function Repeat(ch: char, count: int): (r: Result<string, string>)
    ensures r.Success? <==> count >= 0
    ensures r.Success? ==> |r.value| == count && forall i :: 0 <= i < |r.value| ==> r.value[i] == ch
  {
    if count < 0 then Failure("RangeError") else Success(seq(count, _ => ch))
  }

  /** `updateIndicator`: `level` filled marks followed by `5 - level` empty ones; out of 0..5 one of the repeats throws. */
  function Indicator(level: int): (r: Result<string, string>)
    ensures r.Success? <==> 0 <= level <= 5
    ensures r.Success? ==> |r.value| == 5
    ensures r.Success? ==> forall i :: 0 <= i < 5 ==> (r.value[i] == Filled <==> i < level)
  {
    var filled := Repeat(Filled, level);
    var empty := Repeat(Empty, 5 - level);
    if filled.Failure? then filled
    else if empty.Failure? then empty
    else Success(filled.value + empty.value)
  }

  /** The number of filled marks in a string. */
  function CountFilled(s: string): (n: nat)
    ensures n <= |s|
  {
    if |s| == 0 then 0 else (if s[0] == Filled then 1 else 0) + CountFilled(s[1..])
  }

  /** Reading an indicator back: the number of filled marks is the level it was drawn for. */
  lemma IndicatorRoundTrip(level: int)
    requires 0 <= level <= 5
    ensures Indicator(level).Success? && CountFilled(Indicator(level).value) == level
  {
    var s := Indicator(level).value;
    assert s == s[..level] + s[level..];
    FilledCount(s[..level], s[level..]);
  }

  lemma {:induction false} FilledCount(a: string, b: string)
    requires forall i :: 0 <= i < |a| ==> a[i] == Filled
    requires forall i :: 0 <= i < |b| ==> b[i] != Filled
    ensures CountFilled(a + b) == |a|
    decreases |a| + |b|
  {
    if |a| > 0 {
      assert (a + b)[1..] == a[1..] + b;
      FilledCount(a[1..], b);
    } else if |b| > 0 {
      assert a + b == b && a + b[1..] == b[1..];
      assert b[0] != Filled;
      FilledCount(a, b[1..]);
    }
  }

  /** Every medium's cost and complexity indicator renders. */
  lemma IndicatorsRender(m: MediumType)
    ensures CountFilled(Indicator(Table(m).cost).value) == Table(m).cost
    ensures CountFilled(Indicator(Table(m).complexity).value) == Table(m).complexity
  {
    IndicatorRoundTrip(Table(m).cost);
    IndicatorRoundTrip(Table(m).complexity);
  }

  // ---------------------------------------------------------------- Clamp and updates

  /** The clamp of `updateMediumCharacteristics`: a distance beyond the medium's maximum becomes the maximum. */
  function Clamp(c: Config): (r: Config)
    ensures r.distance <= Table(c.mediumType).maxDistance
    ensures c.distance <= Table(c.mediumType).maxDistance ==> r == c
    ensures r == c.(distance := Min(c.distance, Table(c.mediumType).maxDistance))
  {
    var maxDistance := Table(c.mediumType).maxDistance;
    if c.distance > maxDistance then c.(distance := maxDistance) else c
  }

  /** Clamping twice is clamping once. */
  lemma ClampIdempotent(c: Config)
    ensures Clamp(Clamp(c)) == Clamp(c)
  {
  }

  /** The medium-type change handler: the new type, then the refresh that clamps the distance. */
  function ChangeMedium(c: Config, m: MediumType): (r: Config)
    ensures r.mediumType == m && r.distance <= Table(m).maxDistance
    ensures c.distance <= Table(m).maxDistance ==> r.distance == c.distance
    ensures c.distance > Table(m).maxDistance ==> r.distance == Table(m).maxDistance
    ensures r.(distance := c.distance) == c.(mediumType := m)
  {
    Clamp(c.(mediumType := m))
  }

  /** A `Partial<TransmissionMediumConfig>`. */
  datatype ConfigPatch = ConfigPatch(
    mediumType: Option<MediumType>,
    distance: Option<real>,
    attenuation: Option<real>,
    noiseLevel: Option<real>,
    distortion: Option<real>,
    bandwidth: Option<real>,
    showEyeDiagram: Option<bool>,
    showSpectrum: Option<bool>,
    realTimeAnalysis: Option<bool>)

  /** `updateConfig`: the merge `{ ...config, ...newConfig }` followed by the refresh's clamp. */
  function UpdateConfig(c: Config, patch: ConfigPatch): (r: Config)
    ensures r.mediumType == patch.mediumType.GetOr(c.mediumType)
    ensures r.distance == Min(patch.distance.GetOr(c.distance), Table(r.mediumType).maxDistance)
    ensures r.attenuation == patch.attenuation.GetOr(c.attenuation)
    ensures r.noiseLevel == patch.noiseLevel.GetOr(c.noiseLevel)
    ensures r.distortion == patch.distortion.GetOr(c.distortion)
    ensures r.bandwidth == patch.bandwidth.GetOr(c.bandwidth)
    ensures r.showEyeDiagram == patch.showEyeDiagram.GetOr(c.showEyeDiagram)
    ensures r.showSpectrum == patch.showSpectrum.GetOr(c.showSpectrum)
    ensures r.realTimeAnalysis == patch.realTimeAnalysis.GetOr(c.realTimeAnalysis)
  {
    Clamp(Config(
      patch.mediumType.GetOr(c.mediumType),
      patch.distance.GetOr(c.distance),
      patch.attenuation.GetOr(c.attenuation),
      patch.noiseLevel.GetOr(c.noiseLevel),
      patch.distortion.GetOr(c.distortion),
      patch.bandwidth.GetOr(c.bandwidth),
      patch.showEyeDiagram.GetOr(c.showEyeDiagram),
      patch.showSpectrum.GetOr(c.showSpectrum),
      patch.realTimeAnalysis.GetOr(c.realTimeAnalysis)))
  }

  // ---------------------------------------------------------------- Validation

  datatype ValidationError = DistanceExceedsMaximum

  datatype Warning = DistanceNearLimit | BandwidthExceeded | AttenuationHigh | NoiseHigh | DistortionHigh

  datatype Validation = Validation(isValid: bool, warnings: seq<Warning>, errors: seq<ValidationError>)

  /** `[w]` when the rule fires, `[]` otherwise. */
  function When(fires: bool, w: Warning): seq<Warning> {
    if fires then [w] else []
  }

  /** `validateConfiguration`: one error for a distance beyond the maximum, and five independent warning rules checked in order. */
  function Validate(c: Config): (v: Validation)
    ensures v.isValid <==> |v.errors| == 0
    ensures |v.errors| <= 1 && (v.errors == [DistanceExceedsMaximum] <==> c.distance > Table(c.mediumType).maxDistance)
    ensures |v.warnings| <= 5
  {
    var ch := Table(c.mediumType);
    var errors := if c.distance > ch.maxDistance then [DistanceExceedsMaximum] else [];
    var warnings :=
      When(c.distance > ch.maxDistance * 0.8, DistanceNearLimit)
      + When(c.bandwidth > ch.bandwidth, BandwidthExceeded)
      + When(c.attenuation > ch.typicalAttenuation * 2.0, AttenuationHigh)
      + When(c.noiseLevel > 0.5, NoiseHigh)
      + When(c.distortion > 0.3, DistortionHigh);
    Validation(|errors| == 0, warnings, errors)
  }

  /** The rule behind each warning. */
  predicate Fires(c: Config, w: Warning) {
    var ch := Table(c.mediumType);
    match w
    case DistanceNearLimit => c.distance > ch.maxDistance * 0.8
    case BandwidthExceeded => c.bandwidth > ch.bandwidth
    case AttenuationHigh => c.attenuation > ch.typicalAttenuation * 2.0
    case NoiseHigh => c.noiseLevel > 0.5
    case DistortionHigh => c.distortion > 0.3
  }

  lemma InWhen(fires: bool, w: Warning, x: Warning)
    ensures x in When(fires, w) <==> fires && x == w
  {
  }

  lemma InFive(a: seq<Warning>, b: seq<Warning>, d: seq<Warning>, e: seq<Warning>, f: seq<Warning>, x: Warning)
    ensures x in a + b + d + e + f <==> x in a || x in b || x in d || x in e || x in f
  {
  }

  /** Warning `x` is reported exactly when its rule fires. */
  lemma WarningFires(c: Config, x: Warning)
    ensures x in Validate(c).warnings <==> Fires(c, x)
  {
    var ch := Table(c.mediumType);
    var a := When(c.distance > ch.maxDistance * 0.8, DistanceNearLimit);
    var b := When(c.bandwidth > ch.bandwidth, BandwidthExceeded);
    var d := When(c.attenuation > ch.typicalAttenuation * 2.0, AttenuationHigh);
    var e := When(c.noiseLevel > 0.5, NoiseHigh);
    var f := When(c.distortion > 0.3, DistortionHigh);
    assert Validate(c).warnings == a + b + d + e + f;
    InFive(a, b, d, e, f, x);
    InWhen(c.distance > ch.maxDistance * 0.8, DistanceNearLimit, x);
    InWhen(c.bandwidth > ch.bandwidth, BandwidthExceeded, x);
    InWhen(c.attenuation > ch.typicalAttenuation * 2.0, AttenuationHigh, x);
    InWhen(c.noiseLevel > 0.5, NoiseHigh, x);
    InWhen(c.distortion > 0.3, DistortionHigh, x);
  }

  /** Each warning is reported exactly when its own rule fires, whatever the other rules do. */
  lemma WarningRules(c: Config)
    ensures forall w :: w in Validate(c).warnings <==> Fires(c, w)
  {
    forall x: Warning
      ensures x in Validate(c).warnings <==> Fires(c, x)
    {
      WarningFires(c, x);
    }
  }

  /** An over-long distance is always also warned about, and a refreshed configuration is always valid. */
  lemma ErrorImpliesWarning(c: Config)
    ensures !Validate(c).isValid ==> DistanceNearLimit in Validate(c).warnings
    ensures Validate(Clamp(c)).isValid
  {
    WarningRules(c);
  }

  /** `optimizeConfiguration`: typical attenuation, low noise and distortion, 80% of the medium's bandwidth, then the refresh's clamp. */
  function Optimize(c: Config): (r: Config)
    ensures r.mediumType == c.mediumType && r.distance <= c.distance
    ensures r.distance == Min(c.distance, Table(c.mediumType).maxDistance)
    ensures r.attenuation == Table(c.mediumType).typicalAttenuation && r.noiseLevel == 0.05 && r.distortion == 0.02
    ensures r.bandwidth == FloorCount(Table(c.mediumType).bandwidth * 0.8) as real
    ensures r.showEyeDiagram == c.showEyeDiagram && r.showSpectrum == c.showSpectrum && r.realTimeAnalysis == c.realTimeAnalysis
  {
    var ch := Table(c.mediumType);
    Clamp(c.(attenuation := ch.typicalAttenuation,
             noiseLevel := 0.05,
             distortion := 0.02,
             bandwidth := FloorCount(ch.bandwidth * 0.8) as real))
  }

  /** After optimising only the distance rule can still warn, and the configuration is valid. */
  lemma OptimizedIsValid(c: Config)
    ensures var v := Validate(Optimize(c));
            v.isValid && (forall w :: w in v.warnings ==> w == DistanceNearLimit)
  {
    var ch := Table(c.mediumType);
    assert FloorCount(ch.bandwidth * 0.8) as real <= ch.bandwidth;
    WarningRules(Optimize(c));
  }

  /** `resetToDefaults`: at most 100 m, typical attenuation, noise and distortion 0.1, at most 1 MHz, every display flag off. */
  function Reset(c: Config): (r: Config)
    ensures r.mediumType == c.mediumType
    ensures r.distance == Min(100.0, Table(c.mediumType).maxDistance)
    ensures r.bandwidth == Min(1000000.0, Table(c.mediumType).bandwidth)
    ensures r.attenuation == Table(c.mediumType).typicalAttenuation && r.noiseLevel == 0.1 && r.distortion == 0.1
    ensures !r.showEyeDiagram && !r.showSpectrum && !r.realTimeAnalysis
  {
    var ch := Table(c.mediumType);
    Clamp(c.(distance := Min(100.0, ch.maxDistance),
             attenuation := ch.typicalAttenuation,
             noiseLevel := 0.1,
             distortion := 0.1,
             bandwidth := Min(1000000.0, ch.bandwidth),
             showEyeDiagram := false,
             showSpectrum := false,
             realTimeAnalysis := false))
  }

  /** The defaults are valid; the only warning left is the distance one on twisted pair, whose maximum is the default 100 m itself. */
  lemma ResetIsValid(c: Config)
    ensures Validate(Reset(c)).isValid
    ensures Validate(Reset(c)).warnings == When(c.mediumType == Scene.TwistedPair, DistanceNearLimit)
  {
  }

  /** Resetting depends only on the medium, so it is idempotent and forgets every other setting. */
  lemma ResetForgets(c: Config, d: Config)
    requires c.mediumType == d.mediumType
    ensures Reset(c) == Reset(d)
    ensures Reset(Reset(c)) == Reset(c)
  {
  }

  // ---------------------------------------------------------------- Cost and performance

  /** `calculateTotalCost`: a base cost, a cost per metre and a complexity cost. */
  function TotalCost(c: Config): (cost: real)
    ensures c.distance >= 0.0 ==> cost >= 150.0
  {
    var ch := Table(c.mediumType);
    (ch.cost as real) * 100.0 + c.distance * (ch.cost as real) + (ch.complexity as real) * 50.0
  }

  /** A longer line never costs less: each extra metre costs the medium's cost factor. */
  lemma CostMonotone(c: Config, d: real)
    requires c.distance <= d
    ensures TotalCost(c) <= TotalCost(c.(distance := d))
    ensures TotalCost(c.(distance := d)) - TotalCost(c) == (d - c.distance) * (Table(c.mediumType).cost as real)
  {
    var k := Table(c.mediumType).cost as real;
    assert d * k - c.distance * k == (d - c.distance) * k;
    assert (d - c.distance) * k >= 0.0;
  }

  /** The bandwidth utilisation in percent, `Math.min(100, bandwidth / maxBandwidth * 100)`. */
  function Utilization(c: Config): (u: real)
    ensures u <= 100.0
    ensures 0.0 <= c.bandwidth <= Table(c.mediumType).bandwidth ==> 0.0 <= u
  {
    var b := Table(c.mediumType).bandwidth;
    DivAtLeast(Max(c.bandwidth, 0.0), b, 0.0);
    Min(100.0, (c.bandwidth / b) * 100.0)
  }

  /** The propagation speed in m/s: the speed of light for wireless, two thirds of it in every guided medium. */
  function PropagationSpeed(m: MediumType): (v: real)
    ensures v == (if m == Scene.Wireless then 300000000.0 else 200000000.0)
  {
    match m
    case OpticalFiber => 200000000.0
    case Wireless => 300000000.0
    case _ => 200000000.0
  }

  /** The one-way delay in microseconds. */
  function Delay(c: Config): (us: real)
    ensures us * PropagationSpeed(c.mediumType) == c.distance * 1000000.0
  {
    (c.distance / PropagationSpeed(c.mediumType)) * 1000000.0
  }

  /** Over the same positive distance a wireless link is faster than every guided medium. */
  lemma WirelessIsFastest(c: Config, m: MediumType)
    requires c.distance > 0.0 && m != Scene.Wireless
    ensures Delay(c.(mediumType := Scene.Wireless)) < Delay(c.(mediumType := m))
  {
    var d := c.distance;
    assert d / 300000000.0 < d / 200000000.0;
  }
}
