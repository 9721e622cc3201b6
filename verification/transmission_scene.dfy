/**
 * The simulation logic of `src/scenes/TransmissionScene.ts`: packets travel
 * from position 0 to position 1 along the medium, their amplitude is
 * impaired on the way, and on arrival they are counted, checked for errors
 * and recorded for the eye diagram. Rendering is not modelled; `Math.random`,
 * `Math.pow(10, ·)`, `Math.sin` and `Math.log10` are parameters.
 */
module TransmissionScene {
  import opened Wrappers
  import opened Numbers

  datatype MediumType = Coaxial | TwistedPair | OpticalFiber | Wireless

  /** `TransmissionConfig`. */
  datatype Config = Config(
    mediumType: MediumType,
    distance: real,
    attenuation: real,
    noiseLevel: real,
    distortion: real,
    showEyeDiagram: bool,
    animationSpeed: real)

  /** A `Partial<TransmissionConfig>`: `None` for a field that is absent. */
  datatype ConfigPatch = ConfigPatch(
    mediumType: Option<MediumType>,
    distance: Option<real>,
    attenuation: Option<real>,
    noiseLevel: Option<real>,
    distortion: Option<real>,
    showEyeDiagram: Option<bool>,
    animationSpeed: Option<real>)

  /** `{ ...config, ...patch }`: a field given in the patch wins, every other field is kept. */
  function UpdateConfig(c: Config, patch: ConfigPatch): (r: Config)
    ensures r.mediumType == patch.mediumType.GetOr(c.mediumType)
    ensures r.distance == patch.distance.GetOr(c.distance)
    ensures r.attenuation == patch.attenuation.GetOr(c.attenuation)
    ensures r.noiseLevel == patch.noiseLevel.GetOr(c.noiseLevel)
    ensures r.distortion == patch.distortion.GetOr(c.distortion)
    ensures r.showEyeDiagram == patch.showEyeDiagram.GetOr(c.showEyeDiagram)
    ensures r.animationSpeed == patch.animationSpeed.GetOr(c.animationSpeed)
  {
    Config(
      patch.mediumType.GetOr(c.mediumType),
      patch.distance.GetOr(c.distance),
      patch.attenuation.GetOr(c.attenuation),
      patch.noiseLevel.GetOr(c.noiseLevel),
      patch.distortion.GetOr(c.distortion),
      patch.showEyeDiagram.GetOr(c.showEyeDiagram),
      patch.animationSpeed.GetOr(c.animationSpeed))
  }

  const EmptyPatch := ConfigPatch(None, None, None, None, None, None, None)

  /** Applying an empty patch changes nothing, and applying the same patch twice is the same as once. */
  lemma UpdateConfigLaws(c: Config, patch: ConfigPatch)
    ensures UpdateConfig(c, EmptyPatch) == c
    ensures UpdateConfig(UpdateConfig(c, patch), patch) == UpdateConfig(c, patch)
  {
  }

  /** A `SignalPacket` without its colour. */
  datatype Packet = Packet(id: nat, data: seq<real>, time: seq<real>, position: real, amplitude: real)

  /** One entry of `eyeData`. */
  datatype EyeTrace = EyeTrace(time: seq<real>, amplitude: seq<real>)

  const MaxEyeTraces: nat := 50
  const ErrorThreshold: real := 0.1
  const AmplitudeFloor: real := 0.01
  /** `deltaTime * 0.2`: the fraction of `animationSpeed` a packet moves per frame. */
  const FrameStep: real := 0.016 * 0.2

  /**
   * The scene's state. `packets` is the `signalPackets` map in insertion
   * order, which is also increasing id order.
   */
  datatype Scene = Scene(
    config: Config,
    packets: seq<Packet>,
    nextId: nat,
    eye: seq<EyeTrace>,
    transmitting: bool,
    transmitted: nat,
    received: nat,
    errors: nat)

  predicate IdsIncreasing(packets: seq<Packet>) {
    forall i, j :: 0 <= i < j < |packets| ==> packets[i].id < packets[j].id
  }

  predicate IdsBetween(packets: seq<Packet>, lo: int, hi: int) {
    forall i :: 0 <= i < |packets| ==> lo <= packets[i].id < hi
  }

  /** Every packet is short of the receiver and above the amplitude floor. */
  predicate InFlight(packets: seq<Packet>) {
    forall i :: 0 <= i < |packets| ==> packets[i].position < 1.0 && packets[i].amplitude >= AmplitudeFloor
  }

  /** What every operation keeps: ids issued by the counter in increasing order, packets in flight below position 1 with at least the amplitude floor, errors among the received packets and at most 50 eye traces. */
  predicate Valid(s: Scene) {
    && IdsIncreasing(s.packets)
    && IdsBetween(s.packets, 0, s.nextId)
    && InFlight(s.packets)
    && s.errors <= s.received
    && |s.eye| <= MaxEyeTraces
  }

  function Init(config: Config): (s: Scene)
    ensures Valid(s) && s.packets == [] && !s.transmitting
  {
    Scene(config, [], 0, [], false, 0, 0, 0)
  }

  // ---------------------------------------------------------------- Commands

  /** `transmitSignal`: a new packet with the next id at position 0 and amplitude 1 joins the end of the map. */
  function Transmit(s: Scene, data: seq<real>, time: seq<real>): (r: Scene)
    ensures Valid(s) ==> Valid(r)
    ensures |r.packets| == |s.packets| + 1 && r.packets[..|s.packets|] == s.packets
    ensures r.packets[|s.packets|] == Packet(s.nextId, data, time, 0.0, 1.0)
    ensures r.nextId == s.nextId + 1 && r.transmitted == s.transmitted + 1
    ensures r.received == s.received && r.errors == s.errors && r.eye == s.eye
    ensures r.transmitting == s.transmitting && r.config == s.config
  {
    var packet := Packet(s.nextId, data, time, 0.0, 1.0);
    s.(packets := s.packets + [packet], nextId := s.nextId + 1, transmitted := s.transmitted + 1)
  }

  /** `startTransmission`. */
  function Start(s: Scene): (r: Scene)
    ensures r.transmitting && r == s.(transmitting := true)
  {
    s.(transmitting := true)
  }

  /** `stopTransmission`: stops and drops every packet in flight; the statistics stay. */
  function Stop(s: Scene): (r: Scene)
    ensures Valid(s) ==> Valid(r)
    ensures !r.transmitting && r.packets == []
    ensures r.transmitted == s.transmitted && r.received == s.received && r.errors == s.errors && r.nextId == s.nextId
    ensures r.eye == s.eye && r.config == s.config
  {
    s.(transmitting := false, packets := [])
  }

  /** Stopping a stopped scene changes nothing, and a stop undoes a start except for the dropped packets. */
  lemma StopIdempotent(s: Scene)
    ensures Stop(Stop(s)) == Stop(s)
    ensures Stop(Start(s)) == Stop(s)
  {
  }

  /** `resetStats`: zeroes the counters and empties the eye diagram; packets in flight stay. */
  function ResetStats(s: Scene): (r: Scene)
    ensures Valid(s) ==> Valid(r)
    ensures r.transmitted == 0 && r.received == 0 && r.errors == 0 && r.eye == []
    ensures r.packets == s.packets && r.nextId == s.nextId && r.transmitting == s.transmitting && r.config == s.config
  {
    s.(transmitted := 0, received := 0, errors := 0, eye := [])
  }

  /** `updateConfig`. */
  function Configure(s: Scene, patch: ConfigPatch): (r: Scene)
    ensures Valid(s) ==> Valid(r)
    ensures r.config == UpdateConfig(s.config, patch) && r.packets == s.packets
  {
    s.(config := UpdateConfig(s.config, patch))
  }

  // ---------------------------------------------------------------- Channel

  /**
   * `applyTransmissionEffects` at `position`, with `random` the value drawn
   * from `Math.random()`: path loss of `attenuation` dB/km over
   * `position * distance` metres, additive noise, a position-dependent
   * distortion factor, and never less than 0.01.
   */
  function Impairment(c: Config, position: real, random: real, pow10: real -> real, sin: real -> real): (a: real)
    ensures a >= AmplitudeFloor && a >= Attenuated(c, position, random, pow10, sin)
    ensures a == AmplitudeFloor || a == Attenuated(c, position, random, pow10, sin)
  {
    Max(AmplitudeFloor, Attenuated(c, position, random, pow10, sin))
  }

  /** The amplitude before the floor is applied. */
  function Attenuated(c: Config, position: real, random: real, pow10: real -> real, sin: real -> real): real {
    (PathLoss(c, position, pow10) + Noise(c, random)) * DistortionFactor(c, position, sin)
  }

  /** `1 * 10^(-loss / 20)` for a loss of `attenuation` dB/km over `position * distance` metres. */
  function PathLoss(c: Config, position: real, pow10: real -> real): real {
    var distance := position * c.distance;
    var attenuationLoss := c.attenuation * distance / 1000.0;
    1.0 * pow10(-attenuationLoss / 20.0)
  }

  /** `(Math.random() - 0.5) * noiseLevel * 0.1`. */
  function Noise(c: Config, random: real): real {
    (random - 0.5) * c.noiseLevel * 0.1
  }

  function DistortionFactor(c: Config, position: real, sin: real -> real): real {
    1.0 + sin(position * PI * 4.0) * c.distortion * 0.1
  }

  /** Without noise and distortion the channel applies the path loss alone, floored at 0.01. */
  lemma CleanChannel(c: Config, position: real, random: real, pow10: real -> real, sin: real -> real)
    requires c.noiseLevel == 0.0 && c.distortion == 0.0
    ensures Impairment(c, position, random, pow10, sin) == Max(AmplitudeFloor, PathLoss(c, position, pow10))
  {
    assert Noise(c, random) == 0.0;
    assert DistortionFactor(c, position, sin) == 1.0;
  }

  /** With no attenuation, noise or distortion a packet keeps amplitude 1 wherever it is. */
  lemma IdealChannel(c: Config, position: real, random: real, pow10: real -> real, sin: real -> real)
    requires c.attenuation == 0.0 && c.noiseLevel == 0.0 && c.distortion == 0.0
    requires pow10(0.0) == 1.0
    ensures Impairment(c, position, random, pow10, sin) == 1.0
  {
    CleanChannel(c, position, random, pow10, sin);
    assert PathLoss(c, position, pow10) == 1.0;
  }

  /** The outcome of one frame for the packets in flight. */
  datatype Outcome = Outcome(inFlight: seq<Packet>, arrived: seq<Packet>)

  /** A packet moved by `step` that has reached the receiver: its amplitude is the one it last had. */
  function Arrived(p: Packet, step: real): Packet {
    p.(position := p.position + step)
  }

  /** A packet moved by `step` that is still travelling, with its amplitude recomputed at the new position. */
  function Travelling(p: Packet, c: Config, step: real, random: nat -> real, pow10: real -> real, sin: real -> real): Packet {
    var moved := p.position + step;
    p.(position := moved, amplitude := Impairment(c, moved, random(p.id), pow10, sin))
  }

  /**
   * The `forEach` of `updateSignalPackets`: each packet moves by `step`; at
   * position 1 or beyond it has arrived, keeping the amplitude it last had,
   * otherwise its amplitude is recomputed with the noise value `random(id)`.
   * The order of the map is kept in both results.
   */
  function Advance(packets: seq<Packet>, c: Config, step: real, random: nat -> real, pow10: real -> real, sin: real -> real): (o: Outcome)
    ensures |o.inFlight| + |o.arrived| == |packets|
    ensures InFlight(o.inFlight)
    ensures forall i :: 0 <= i < |o.arrived| ==> o.arrived[i].position >= 1.0
    decreases |packets|
  {
    if |packets| == 0 then Outcome([], [])
    else
      var p := packets[0];
      var rest := Advance(packets[1..], c, step, random, pow10, sin);
      if p.position + step >= 1.0 then
        Outcome(rest.inFlight, [Arrived(p, step)] + rest.arrived)
      else
        Outcome([Travelling(p, c, step, random, pow10, sin)] + rest.inFlight, rest.arrived)
  }

  /** Advancing keeps every id within the bounds of the ids it started from. */
  lemma {:induction false} AdvanceIdsBetween(packets: seq<Packet>, c: Config, step: real, random: nat -> real, pow10: real -> real, sin: real -> real, lo: int, hi: int)
    requires IdsBetween(packets, lo, hi)
    ensures var o := Advance(packets, c, step, random, pow10, sin);
            IdsBetween(o.inFlight, lo, hi) && IdsBetween(o.arrived, lo, hi)
    decreases |packets|
  {
    if |packets| > 0 {
      AdvanceIdsBetween(packets[1..], c, step, random, pow10, sin, lo, hi);
    }
  }

  /** Advancing keeps the packets in flight in increasing id order. */
  lemma {:induction false} AdvanceIdsIncreasing(packets: seq<Packet>, c: Config, step: real, random: nat -> real, pow10: real -> real, sin: real -> real)
    requires IdsIncreasing(packets)
    ensures IdsIncreasing(Advance(packets, c, step, random, pow10, sin).inFlight)
    decreases |packets|
  {
    if |packets| > 0 {
      AdvanceIdsIncreasing(packets[1..], c, step, random, pow10, sin);
      var hi := packets[|packets| - 1].id + 1;
      assert IdsBetween(packets[1..], packets[0].id + 1, hi);
      AdvanceIdsBetween(packets[1..], c, step, random, pow10, sin, packets[0].id + 1, hi);
    }
  }

  /** Every packet ends up in exactly the part its advanced position selects: still travelling below 1, arrived at 1 or beyond. */
  lemma {:induction false} AdvanceSplits(packets: seq<Packet>, c: Config, step: real, random: nat -> real, pow10: real -> real, sin: real -> real, k: nat)
    requires k < |packets|
    ensures var o := Advance(packets, c, step, random, pow10, sin);
            var p := packets[k];
            (p.position + step < 1.0 <==> Travelling(p, c, step, random, pow10, sin) in o.inFlight)
            && (p.position + step >= 1.0 <==> Arrived(p, step) in o.arrived)
    decreases |packets|
  {
    if k > 0 {
      AdvanceSplits(packets[1..], c, step, random, pow10, sin, k - 1);
    }
  }

  /** The number of arrived packets whose amplitude is below the error threshold. */
  function CountErrors(arrived: seq<Packet>): (n: nat)
    ensures n <= |arrived|
  {
    if |arrived| == 0 then 0
    else (if arrived[0].amplitude < ErrorThreshold then 1 else 0) + CountErrors(arrived[1..])
  }

  /** Errors counted over two batches add up. */
  lemma {:induction false} CountErrorsAppend(a: seq<Packet>, b: seq<Packet>)
    ensures CountErrors(a + b) == CountErrors(a) + CountErrors(b)
    decreases |a|
  {
    if |a| > 0 {
      assert (a + b)[0] == a[0] && (a + b)[1..] == a[1..] + b;
      CountErrorsAppend(a[1..], b);
    } else {
      assert a + b == b;
    }
  }

  /** A packet is an error exactly when its amplitude is below the threshold: a batch has no errors iff every amplitude reaches 0.1. */
  lemma {:induction false} NoErrorsIffAllStrong(arrived: seq<Packet>)
    ensures CountErrors(arrived) == 0 <==> forall i :: 0 <= i < |arrived| ==> arrived[i].amplitude >= ErrorThreshold
    decreases |arrived|
  {
    if |arrived| > 0 {
      NoErrorsIffAllStrong(arrived[1..]);
      assert forall i :: 1 <= i < |arrived| ==> arrived[1..][i - 1] == arrived[i];
    }
  }

  /** `updateEyeDiagram` for one trace: append, then drop the oldest beyond 50. */
  function PushEye(eye: seq<EyeTrace>, t: EyeTrace): (r: seq<EyeTrace>)
    requires |eye| <= MaxEyeTraces
    ensures |r| <= MaxEyeTraces
  {
    if |eye + [t]| > MaxEyeTraces then (eye + [t])[1..] else eye + [t]
  }

  /** The eye traces of the arrived packets, pushed in order of arrival. */
  function PushAll(eye: seq<EyeTrace>, arrived: seq<Packet>): (r: seq<EyeTrace>)
    requires |eye| <= MaxEyeTraces
    ensures |r| <= MaxEyeTraces
    decreases |arrived|
  {
    if |arrived| == 0 then eye
    else PushAll(PushEye(eye, EyeTrace(arrived[0].time, arrived[0].data)), arrived[1..])
  }

  function Traces(arrived: seq<Packet>): (r: seq<EyeTrace>)
    ensures |r| == |arrived|
  {
    seq(|arrived|, i requires 0 <= i < |arrived| => EyeTrace(arrived[i].time, arrived[i].data))
  }

  /** The last `n` elements, or all of them when there are fewer. */
  function LastN<T>(s: seq<T>, n: nat): seq<T> {
    if |s| <= n then s else s[|s| - n..]
  }

  /** The eye diagram always holds the 50 most recent traces. */
  lemma {:induction false} PushAllKeepsLatest(eye: seq<EyeTrace>, arrived: seq<Packet>)
    requires |eye| <= MaxEyeTraces
    ensures PushAll(eye, arrived) == LastN(eye + Traces(arrived), MaxEyeTraces)
    decreases |arrived|
  {
    if |arrived| > 0 {
      var t := EyeTrace(arrived[0].time, arrived[0].data);
      var rest := Traces(arrived[1..]);
      PushEyeIsLastN(eye, t);
      PushAllKeepsLatest(PushEye(eye, t), arrived[1..]);
      TracesCons(arrived);
      assert eye + Traces(arrived) == (eye + [t]) + rest;
      LastNAppend(eye + [t], rest, MaxEyeTraces);
    }
  }

  /** Pushing one trace keeps the last 50 of the traces so far. */
  lemma PushEyeIsLastN(eye: seq<EyeTrace>, t: EyeTrace)
    requires |eye| <= MaxEyeTraces
    ensures PushEye(eye, t) == LastN(eye + [t], MaxEyeTraces)
  {
  }

  lemma TracesCons(arrived: seq<Packet>)
    requires |arrived| > 0
    ensures Traces(arrived) == [EyeTrace(arrived[0].time, arrived[0].data)] + Traces(arrived[1..])
  {
  }

  lemma {:induction false} LastNAppend<T>(a: seq<T>, b: seq<T>, n: nat)
    ensures LastN(LastN(a, n) + b, n) == LastN(a + b, n)
  {
    if |a| > n {
      var a' := a[|a| - n..];
      if |a' + b| > n {
        var lhs := (a' + b)[|a' + b| - n..];
        var rhs := (a + b)[|a + b| - n..];
        forall k | 0 <= k < n
          ensures lhs[k] == rhs[k]
        {
          if |b| + k < n {
            assert lhs[k] == a'[|b| + k] == a[|a| - n + |b| + k];
          } else {
            assert lhs[k] == b[|b| + k - n];
          }
        }
        assert lhs == rhs;
      } else {
        assert b == [];
        assert a + b == a;
      }
    }
  }

  /**
   * One animation frame. While transmitting, `updateSignalPackets` moves every
   * packet; the arrived ones are counted as received, those with an amplitude
   * below 0.1 as errors, and their traces go to the eye diagram when it is
   * shown. Otherwise nothing changes.
   */
  function Tick(s: Scene, random: nat -> real, pow10: real -> real, sin: real -> real): (r: Scene)
    requires Valid(s)
    ensures Valid(r)
    ensures !s.transmitting ==> r == s
    ensures r.transmitted == s.transmitted && r.nextId == s.nextId && r.config == s.config
    ensures r.received + |r.packets| == s.received + |s.packets|
    ensures r.errors - s.errors <= r.received - s.received
  {
    if !s.transmitting then s
    else
      var o := Advance(s.packets, s.config, s.config.animationSpeed * FrameStep, random, pow10, sin);
      AdvanceIdsBetween(s.packets, s.config, s.config.animationSpeed * FrameStep, random, pow10, sin, 0, s.nextId);
      AdvanceIdsIncreasing(s.packets, s.config, s.config.animationSpeed * FrameStep, random, pow10, sin);
      var eye := if s.config.showEyeDiagram then PushAll(s.eye, o.arrived) else s.eye;
      s.(packets := o.inFlight,
         received := s.received + |o.arrived|,
         errors := s.errors + CountErrors(o.arrived),
         eye := eye)
  }

  /** What one frame does to the counters and the eye diagram, in terms of the packets that arrived. */
  lemma TickEffect(s: Scene, random: nat -> real, pow10: real -> real, sin: real -> real)
    requires Valid(s) && s.transmitting
    ensures var o := Advance(s.packets, s.config, s.config.animationSpeed * FrameStep, random, pow10, sin);
            var r := Tick(s, random, pow10, sin);
            && r.packets == o.inFlight
            && r.received == s.received + |o.arrived|
            && r.errors == s.errors + CountErrors(o.arrived)
            && r.eye == (if s.config.showEyeDiagram then LastN(s.eye + Traces(o.arrived), MaxEyeTraces) else s.eye)
  {
    var o := Advance(s.packets, s.config, s.config.animationSpeed * FrameStep, random, pow10, sin);
    PushAllKeepsLatest(s.eye, o.arrived);
  }

  /** A packet that arrives within its first frame still carries amplitude 1 and is never an error. */
  lemma FreshPacketArrivingIsNotAnError(s: Scene, data: seq<real>, time: seq<real>, random: nat -> real, pow10: real -> real, sin: real -> real)
    requires Valid(s) && s.transmitting && s.packets == []
    requires s.config.animationSpeed * FrameStep >= 1.0
    ensures var r := Tick(Transmit(s, data, time), random, pow10, sin);
            r.received == s.received + 1 && r.errors == s.errors && r.packets == []
  {
  }

  // ---------------------------------------------------------------- Statistics

  datatype Stats = Stats(transmitted: nat, received: nat, errors: nat, ber: real, snr: real)

  /** `Math.max(0.001, noiseLevel ** 2)`. */
  function NoisePower(noiseLevel: real): (p: real)
    ensures p >= 0.001
    ensures p == 0.001 || p == noiseLevel * noiseLevel
  {
    Max(0.001, noiseLevel * noiseLevel)
  }

  /** `calculateSNR`: unit signal power over the noise power, in decibels. */
  function SceneSnr(noiseLevel: real, log10: real -> real): (snr: real)
    ensures noiseLevel * noiseLevel <= 0.001 ==> snr == 10.0 * log10(1000.0)
    ensures noiseLevel * noiseLevel >= 0.001 ==> snr == 10.0 * log10(1.0 / (noiseLevel * noiseLevel))
  {
    10.0 * log10(1.0 / NoisePower(noiseLevel))
  }

  lemma Reciprocal(m: real)
    requires m >= 0.001
    ensures 0.0 < 1.0 / m <= 1000.0
  {
    var q := 1.0 / m;
    assert q * m == 1.0;
    if q > 1000.0 {
      MulStrict(1000.0, q, m);
    }
  }

  /** With a monotone `log10` the noise floor of 0.001 caps the SNR at `10 * log10(1000)`, 30 dB, and that cap is reached for any noise level whose square is at most 0.001. */
  lemma SnrCapped(noiseLevel: real, log10: real -> real)
    requires forall x, y :: 0.0 < x <= y ==> log10(x) <= log10(y)
    requires log10(1000.0) == 3.0
    ensures SceneSnr(noiseLevel, log10) <= 30.0
    ensures noiseLevel * noiseLevel <= 0.001 ==> SceneSnr(noiseLevel, log10) == 30.0
  {
    Reciprocal(NoisePower(noiseLevel));
    var x := 1.0 / NoisePower(noiseLevel);
    assert log10(x) <= log10(1000.0);
  }

  /** `getTransmissionStats`: the BER is errors over received packets, 0 before anything arrived. */
  function GetStats(s: Scene, log10: real -> real): (st: Stats)
    requires Valid(s)
    ensures st.transmitted == s.transmitted && st.received == s.received && st.errors == s.errors
    ensures 0.0 <= st.ber <= 1.0
    ensures st.ber == 0.0 <==> s.errors == 0
    ensures s.received > 0 ==> st.ber * (s.received as real) == s.errors as real
    ensures st.snr == SceneSnr(s.config.noiseLevel, log10)
  {
    var ber := if s.received > 0 then (s.errors as real) / (s.received as real) else 0.0;
    RatioWithinUnitAt(s.errors, s.received);
    Stats(s.transmitted, s.received, s.errors, ber, SceneSnr(s.config.noiseLevel, log10))
  }

  lemma RatioWithinUnitAt(errors: nat, received: nat)
    requires errors <= received
    ensures received > 0 ==> 0.0 <= (errors as real) / (received as real) <= 1.0
    ensures received > 0 ==> ((errors as real) / (received as real) == 0.0 <==> errors == 0)
  {
    if received > 0 {
      var e := errors as real;
      var r := received as real;
      RatioWithinUnit(e, r);
      var q := e / r;
      assert q * r == e;
    }
  }

  function SumAmplitudes(packets: seq<Packet>): real
    decreases |packets|
  {
    if |packets| == 0 then 0.0 else packets[0].amplitude + SumAmplitudes(packets[1..])
  }

  /** `getAverageReceivedAmplitude`: the mean amplitude of the packets in flight, 0 when there are none. */
  function AverageAmplitude(s: Scene): (a: real)
    ensures |s.packets| == 0 ==> a == 0.0
    ensures |s.packets| > 0 ==> a * (|s.packets| as real) == SumAmplitudes(s.packets)
  {
    if |s.packets| == 0 then 0.0 else SumAmplitudes(s.packets) / (|s.packets| as real)
  }

  lemma {:induction false} SumAtLeastFloor(packets: seq<Packet>)
    requires InFlight(packets)
    ensures SumAmplitudes(packets) >= AmplitudeFloor * (|packets| as real)
    decreases |packets|
  {
    if |packets| > 0 {
      SumAtLeastFloor(packets[1..]);
    }
  }

  /** In a valid scene with packets in flight the average amplitude is at least the floor of 0.01. */
  lemma AverageAboveFloor(s: Scene)
    requires Valid(s) && |s.packets| > 0
    ensures AverageAmplitude(s) >= AmplitudeFloor
  {
    SumAtLeastFloor(s.packets);
    DivAtLeast(SumAmplitudes(s.packets), |s.packets| as real, AmplitudeFloor);
  }
}
