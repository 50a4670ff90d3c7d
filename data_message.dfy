/**
 * A message travelling through the simulated network: its size and timestamps are fixed when it
 * is created; the distance it travelled and the latency it acquired are stamped later by the
 * cable that carries it.
 */
module Messages {
  import opened Wrappers

  class DataMessage {
    const megabytesOfData: real
    const originalDataCreationTime: real
    const dataSentTime: real
    /** None until a cable stamps it. */
    var distanceTraveled: Option<real>
    /** None until a cable stamps it. */
    var latencyAcquired: Option<real>

    /** A new message carries its size and times and no stamps yet. */
    constructor(megabytesOfData: real, originalDataCreationTime: real, dataSentTime: real)
      ensures this.megabytesOfData == megabytesOfData
      ensures this.originalDataCreationTime == originalDataCreationTime
      ensures this.dataSentTime == dataSentTime
      ensures distanceTraveled == None && latencyAcquired == None
    {
      this.megabytesOfData := megabytesOfData;
      this.originalDataCreationTime := originalDataCreationTime;
      this.dataSentTime := dataSentTime;
      distanceTraveled := None;
      latencyAcquired := None;
    }

    /** Stamps a non-negative distance; the latency stamp is untouched. */
    method SetDistanceTraveled(distanceTraveled: real)
      requires distanceTraveled >= 0.0
      modifies this
      ensures this.distanceTraveled == Some(distanceTraveled)
      ensures latencyAcquired == old(latencyAcquired)
    {
      this.distanceTraveled := Some(distanceTraveled);
    }

    /** Stamps a non-negative latency; the distance stamp is untouched. */
    method SetLatencyAcquired(latencyAcquired: real)
      requires latencyAcquired >= 0.0
      modifies this
      ensures this.latencyAcquired == Some(latencyAcquired)
      ensures distanceTraveled == old(distanceTraveled)
    {
      this.latencyAcquired := Some(latencyAcquired);
    }

    /** Both stamps are present and non-negative, as every delivered message has them. */
    predicate Stamped()
      reads this
    {
      && distanceTraveled.Some? && distanceTraveled.value >= 0.0
      && latencyAcquired.Some? && latencyAcquired.value >= 0.0
    }
  }
}
