/**
 * A simulated cable between two processing units: it stamps each message with a sampled distance
 * and the latency that distance and the network add, then delivers it into the receiving store
 * after that latency. Random draws come from sampler parameters; the simulation clock and the
 * wait itself are not modelled.
 */
module Cables {
  import opened Wrappers
  import opened Messages

  const SpeedOfLightMPerS: real := 299792458.0
  /** Kilometres per millisecond. */
  const SpeedOfLightKmPerMs: real := SpeedOfLightMPerS / 1000.0 / 1000.0
  /** Light in optical fibre travels at 67% of its speed in vacuum. */
  const OpticalFiberOffset: real := 0.67
  /** The signal goes back and forth. */
  const RoundTripOffset: real := 0.5
  /** Cables do not follow a straight line: 1/√2, as the double the simulator computes. */
  const NoLineOfSightOffset: real := 0.7071067811865475
  const SpeedOfSignalKmPerMs: real := SpeedOfLightKmPerMs * NoLineOfSightOffset * RoundTripOffset * OpticalFiberOffset

  /** The extra delay near clients (a weak, wireless network) and on the backbone. */
  const ExtraMeanDelayForWeakNetwork: real := 12.0
  const ExtraStdDelayForWeakNetwork: real := 8.0
  const ExtraMeanDelayForRobustNetwork: real := 3.0
  const ExtraStdDelayForRobustNetwork: real := 1.0

  /** A Gaussian distribution by its mean and standard deviation. */
  datatype Gaussian = Gaussian(mean: real, std: real)

  /**
   * A sampler of positive Gaussian values: the simulator redraws until the value is not
   * negative, so every draw is at least 0.
   */
  ghost predicate IsPositiveSampler(draw: Gaussian -> real) {
    forall g :: draw(g) >= 0.0
  }

  /** The distribution of the network delay: the weak profile near clients, the robust one elsewhere. */
  function NetworkDelayProfile(isWeakNetwork: bool): (g: Gaussian)
    ensures g.mean > 0.0 && g.std > 0.0
    ensures isWeakNetwork <==> g.mean == ExtraMeanDelayForWeakNetwork
  {
    if isWeakNetwork then Gaussian(ExtraMeanDelayForWeakNetwork, ExtraStdDelayForWeakNetwork)
    else Gaussian(ExtraMeanDelayForRobustNetwork, ExtraStdDelayForRobustNetwork)
  }

  /** The time a signal needs over `distance` kilometres, in milliseconds. */
  function DistanceDelay(distance: real): real {
    distance / SpeedOfSignalKmPerMs
  }

  /**
   * get_cable_distance_and_delay: a sampled distance, and the sampled network delay plus the
   * distance's signal time. The network delay is the first draw and the distance the second;
   * they come from separate samplers, so equal parameters do not force equal samples.
   */
  function GetCableDistanceAndDelay(meanDistanceKm: real, stdDistanceKm: real, isWeakNetwork: bool,
                                    firstDraw: Gaussian -> real, secondDraw: Gaussian -> real): (r: (real, real))
    requires IsPositiveSampler(firstDraw) && IsPositiveSampler(secondDraw)
    ensures r.0 == secondDraw(Gaussian(meanDistanceKm, stdDistanceKm))
    ensures r.1 - DistanceDelay(r.0) == firstDraw(NetworkDelayProfile(isWeakNetwork))
    ensures 0.0 <= r.0 && 0.0 <= DistanceDelay(r.0) <= r.1
  {
    var networkDelay := firstDraw(NetworkDelayProfile(isWeakNetwork));
    var distance := secondDraw(Gaussian(meanDistanceKm, stdDistanceKm));
    (distance, networkDelay + DistanceDelay(distance))
  }

  /**
   * No message outruns the signal: the distance stamped on it is at most the latency stamped
   * on it times the signal speed, so at most 71.1 km per millisecond of latency.
   */
  lemma SignalSpeedLimit(meanDistanceKm: real, stdDistanceKm: real, isWeakNetwork: bool,
                         firstDraw: Gaussian -> real, secondDraw: Gaussian -> real)
    requires IsPositiveSampler(firstDraw) && IsPositiveSampler(secondDraw)
    ensures var r := GetCableDistanceAndDelay(meanDistanceKm, stdDistanceKm, isWeakNetwork, firstDraw, secondDraw);
      r.0 <= SpeedOfSignalKmPerMs * r.1 <= 71.1 * r.1
  {
    var r := GetCableDistanceAndDelay(meanDistanceKm, stdDistanceKm, isWeakNetwork, firstDraw, secondDraw);
    var networkDelay := firstDraw(NetworkDelayProfile(isWeakNetwork));
    assert 71.0 < SpeedOfSignalKmPerMs < 71.1;
    assert SpeedOfSignalKmPerMs * DistanceDelay(r.0) == r.0;
    assert SpeedOfSignalKmPerMs * r.1 == SpeedOfSignalKmPerMs * networkDelay + r.0;
  }

  class Transmission {
    const meanDistanceKm: real
    const stdDistanceKm: real
    const isWeakNetwork: bool
    /** The messages delivered at the receiving end, oldest first. */
    var store: seq<DataMessage>

    /** A cable needs a positive mean and standard deviation of its length. */
    constructor(meanDistanceKm: real, stdDistanceKm: real, hasWeakNetworkInitialDelay: bool)
      requires meanDistanceKm > 0.0 && stdDistanceKm > 0.0
      ensures this.meanDistanceKm == meanDistanceKm && this.stdDistanceKm == stdDistanceKm
      ensures isWeakNetwork == hasWeakNetworkInitialDelay
      ensures store == []
    {
      this.meanDistanceKm := meanDistanceKm;
      this.stdDistanceKm := stdDistanceKm;
      isWeakNetwork := hasWeakNetworkInitialDelay;
      store := [];
    }

    /**
     * put_with_latency: stamps the sampled distance and latency on the message, then (after
     * waiting `delay`) appends it to the store; the message in the store is already stamped.
     */
    method PutWithLatency(message: DataMessage, firstDraw: Gaussian -> real, secondDraw: Gaussian -> real) returns (delay: real)
      requires IsPositiveSampler(firstDraw) && IsPositiveSampler(secondDraw)
      modifies this, message
      ensures var stamps := GetCableDistanceAndDelay(meanDistanceKm, stdDistanceKm, isWeakNetwork, firstDraw, secondDraw);
        && message.distanceTraveled == Some(stamps.0)
        && message.latencyAcquired == Some(stamps.1)
        && delay == stamps.1
      ensures message.Stamped()
      ensures store == old(store) + [message]
    {
      var stamps := GetCableDistanceAndDelay(meanDistanceKm, stdDistanceKm, isWeakNetwork, firstDraw, secondDraw);
      var distance := stamps.0;
      delay := stamps.1;
      message.SetDistanceTraveled(distance);
      message.SetLatencyAcquired(delay);
      store := store + [message];
    }
  }
}
