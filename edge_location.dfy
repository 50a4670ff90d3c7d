/**
 * An edge location of the simulator: it records the link statistics of every message it receives,
 * takes a sampled start delay plus size over bandwidth to process it, records the processing
 * latency, and then either forwards one new processed message per aggregator cable, records the
 * message's total latency, or does nothing. The simulation clock `now` and the random draws are
 * parameters; handing a message to a cable is returned rather than scheduled.
 */
module EdgeLocations {
  import opened Wrappers
  import opened Messages
  import opened Cables
  import opened SimulationResults

  /** The size of a processed message, in megabytes. */
  const MeanSizeForProcessedData: real := 0.010
  const StdSizeForProcessedData: real := 0.001

  /** What a location does once a message is processed. */
  datatype OnProcessingEnded = SendToAggregator | SaveTotalLatency | DoNothing

  class EdgeLocation {
    const resultContainer: ResultContainer
    const name: string
    const numberOfCores: int
    /** Megabytes a core processes per millisecond. */
    const bandwidthCapability: real
    const meanProcessingStartDelay: real
    const stdProcessingStartDelay: real
    /** True for data coming over the first link (from users), false for the second link. */
    const isDataComingFromFirstLink: bool
    /** The cable bringing data in; the first link crosses a weak network. */
    const incomingTransmission: Transmission
    const onProcessingEndedSpecification: OnProcessingEnded
    const transmissionsToAggregators: Option<seq<Transmission>>

    /** The constructor's checks, kept by every location. */
    predicate Valid() {
      && numberOfCores > 0
      && bandwidthCapability > 0.0
      && meanProcessingStartDelay >= 0.0
      && stdProcessingStartDelay >= 0.0
      && (onProcessingEndedSpecification == SendToAggregator ==> transmissionsToAggregators.Some?)
    }

    /**
     * A location needs at least one core, a positive bandwidth, a non-negative start-delay
     * distribution, a positive incoming cable length distribution, and aggregator cables when it
     * forwards.
     */
    constructor(resultContainer: ResultContainer, name: string, numberOfCores: int, bandwidthCapability: real,
                meanProcessingStartDelay: real, stdProcessingStartDelay: real, isDataComingFromFirstLink: bool,
                meanDistanceKm: real, stdDistanceKm: real, onProcessingEndedSpecification: OnProcessingEnded,
                transmissionsToAggregators: Option<seq<Transmission>>)
      requires numberOfCores > 0 && meanDistanceKm > 0.0 && stdDistanceKm > 0.0
      requires bandwidthCapability > 0.0 && meanProcessingStartDelay >= 0.0 && stdProcessingStartDelay >= 0.0
      requires onProcessingEndedSpecification == SendToAggregator ==> transmissionsToAggregators.Some?
      ensures Valid()
      ensures this.resultContainer == resultContainer && this.name == name && this.numberOfCores == numberOfCores
      ensures this.bandwidthCapability == bandwidthCapability
      ensures this.meanProcessingStartDelay == meanProcessingStartDelay && this.stdProcessingStartDelay == stdProcessingStartDelay
      ensures this.isDataComingFromFirstLink == isDataComingFromFirstLink
      ensures this.onProcessingEndedSpecification == onProcessingEndedSpecification
      ensures this.transmissionsToAggregators == transmissionsToAggregators
      ensures fresh(incomingTransmission) && incomingTransmission.store == []
      ensures incomingTransmission.meanDistanceKm == meanDistanceKm && incomingTransmission.stdDistanceKm == stdDistanceKm
      ensures incomingTransmission.isWeakNetwork == isDataComingFromFirstLink
    {
      this.resultContainer := resultContainer;
      this.name := name;
      this.numberOfCores := numberOfCores;
      incomingTransmission := new Transmission(meanDistanceKm, stdDistanceKm, isDataComingFromFirstLink);
      this.bandwidthCapability := bandwidthCapability;
      this.meanProcessingStartDelay := meanProcessingStartDelay;
      this.stdProcessingStartDelay := stdProcessingStartDelay;
      this.isDataComingFromFirstLink := isDataComingFromFirstLink;
      this.onProcessingEndedSpecification := onProcessingEndedSpecification;
      this.transmissionsToAggregators := transmissionsToAggregators;
    }

    /**
     * on_data_message_received: the message's latency, size and distance go to the first-link
     * statistics for first-link data and to the second-link statistics otherwise.
     */
    method OnDataMessageReceived(incomingMessage: DataMessage)
      requires incomingMessage.Stamped()
      modifies resultContainer
      ensures isDataComingFromFirstLink ==>
                resultContainer.State() ==
                  old(resultContainer.State()).(
                    latencyFirstLinkList := old(resultContainer.latencyFirstLinkList) + [incomingMessage.latencyAcquired.value],
                    trafficPerDistanceFirstLinkList := old(resultContainer.trafficPerDistanceFirstLinkList)
                                                       + [incomingMessage.megabytesOfData * incomingMessage.distanceTraveled.value],
                    distanceFirstLinkList := old(resultContainer.distanceFirstLinkList) + [incomingMessage.distanceTraveled.value])
      ensures !isDataComingFromFirstLink ==>
                resultContainer.State() ==
                  old(resultContainer.State()).(
                    latencySecondLinkList := old(resultContainer.latencySecondLinkList) + [incomingMessage.latencyAcquired.value],
                    trafficPerDistanceSecondLinkList := old(resultContainer.trafficPerDistanceSecondLinkList)
                                                        + [incomingMessage.megabytesOfData * incomingMessage.distanceTraveled.value],
                    distanceSecondLinkList := old(resultContainer.distanceSecondLinkList) + [incomingMessage.distanceTraveled.value])
    {
      ghost var before := resultContainer.State();
      var latency := incomingMessage.latencyAcquired.value;
      var traffic := incomingMessage.megabytesOfData;
      var distance := incomingMessage.distanceTraveled.value;
      if isDataComingFromFirstLink {
        resultContainer.ReportFirstLinkLatencyTrafficAndDistance(latency, traffic, distance);
        assert resultContainer.State() == before.(latencyFirstLinkList := before.latencyFirstLinkList + [latency],
                                                  trafficPerDistanceFirstLinkList := before.trafficPerDistanceFirstLinkList + [traffic * distance],
                                                  distanceFirstLinkList := before.distanceFirstLinkList + [distance]);
      } else {
        resultContainer.ReportSecondLinkLatencyTrafficAndDistance(latency, traffic, distance);
        assert resultContainer.State() == before.(latencySecondLinkList := before.latencySecondLinkList + [latency],
                                                  trafficPerDistanceSecondLinkList := before.trafficPerDistanceSecondLinkList + [traffic * distance],
                                                  distanceSecondLinkList := before.distanceSecondLinkList + [distance]);
      }
      assert traffic * distance == incomingMessage.megabytesOfData * incomingMessage.distanceTraveled.value;
    }

    /**
     * get_processing_time: a sampled start delay plus the message's megabytes over the bandwidth,
     * so never less than the transfer time alone.
     */
    function GetProcessingTime(incomingMessage: DataMessage, draw: Gaussian -> real): (timeToProcess: real)
      requires Valid() && IsPositiveSampler(draw)
      ensures timeToProcess - draw(Gaussian(meanProcessingStartDelay, stdProcessingStartDelay))
              == incomingMessage.megabytesOfData / bandwidthCapability
      ensures timeToProcess >= incomingMessage.megabytesOfData / bandwidthCapability
    {
      var startDelay := draw(Gaussian(meanProcessingStartDelay, stdProcessingStartDelay));
      startDelay + incomingMessage.megabytesOfData / bandwidthCapability
    }

    /**
     * on_processing_ended: the processing latency goes to the first- or second-processing
     * statistics; then a forwarding location hands one new message per aggregator cable (all of
     * the same sampled size, carrying the original creation time and sent now), a final location
     * records now minus the creation time as the total latency, and any other does nothing more.
     */
    method OnProcessingEnded(incomingMessage: DataMessage, totalProcessingTime: real, now: real, draw: Gaussian -> real)
      returns (sent: seq<(Transmission, DataMessage)>)
      requires Valid()
      modifies resultContainer
      ensures var s := old(resultContainer.State());
        var processed :=
          if isDataComingFromFirstLink then s.(latencyFirstProcessingList := s.latencyFirstProcessingList + [totalProcessingTime])
          else s.(latencySecondProcessingList := s.latencySecondProcessingList + [totalProcessingTime]);
        resultContainer.State() ==
          if onProcessingEndedSpecification == SaveTotalLatency then
            processed.(latencyTotalFinishedList := processed.latencyTotalFinishedList + [now - incomingMessage.originalDataCreationTime])
          else processed
      ensures onProcessingEndedSpecification != SendToAggregator ==> sent == []
      ensures onProcessingEndedSpecification == SendToAggregator ==>
                && |sent| == |transmissionsToAggregators.value|
                && (forall k :: 0 <= k < |sent| ==>
                      && sent[k].0 == transmissionsToAggregators.value[k]
                      && fresh(sent[k].1)
                      && sent[k].1.megabytesOfData == draw(Gaussian(MeanSizeForProcessedData, StdSizeForProcessedData))
                      && sent[k].1.originalDataCreationTime == incomingMessage.originalDataCreationTime
                      && sent[k].1.dataSentTime == now
                      && sent[k].1.distanceTraveled.None? && sent[k].1.latencyAcquired.None?)
                && (forall p, q :: 0 <= p < q < |sent| ==> sent[p].1 != sent[q].1)
    {
      if isDataComingFromFirstLink {
        resultContainer.ReportFirstProcessingLatency(totalProcessingTime);
      } else {
        resultContainer.ReportSecondProcessingLatency(totalProcessingTime);
      }

      sent := [];
      if onProcessingEndedSpecification == SendToAggregator {
        var processedDataSize := draw(Gaussian(MeanSizeForProcessedData, StdSizeForProcessedData));
        sent := SendProcessedData(transmissionsToAggregators.value, processedDataSize, incomingMessage.originalDataCreationTime, now);
      } else if onProcessingEndedSpecification == SaveTotalLatency {
        var totalLatency := now - incomingMessage.originalDataCreationTime;
        resultContainer.ReportTotalFinishedLatency(totalLatency);
      }
    }
  }

  /**
   * The forwarding loop of on_processing_ended: a different new message for every cable, so that
   * the stamps one cable puts on its message never overwrite another's.
   */
  method SendProcessedData(transmissions: seq<Transmission>, processedDataSize: real, originalDataCreationTime: real, now: real)
    returns (sent: seq<(Transmission, DataMessage)>)
    ensures |sent| == |transmissions|
    ensures forall k :: 0 <= k < |sent| ==>
              && sent[k].0 == transmissions[k]
              && fresh(sent[k].1)
              && sent[k].1.megabytesOfData == processedDataSize
              && sent[k].1.originalDataCreationTime == originalDataCreationTime
              && sent[k].1.dataSentTime == now
              && sent[k].1.distanceTraveled.None? && sent[k].1.latencyAcquired.None?
    ensures forall p, q :: 0 <= p < q < |sent| ==> sent[p].1 != sent[q].1
  {
    sent := [];
    for k := 0 to |transmissions|
      invariant |sent| == k
      invariant forall j :: 0 <= j < k ==>
                  && sent[j].0 == transmissions[j]
                  && fresh(sent[j].1)
                  && sent[j].1.megabytesOfData == processedDataSize
                  && sent[j].1.originalDataCreationTime == originalDataCreationTime
                  && sent[j].1.dataSentTime == now
                  && sent[j].1.distanceTraveled.None? && sent[j].1.latencyAcquired.None?
      invariant forall p, q :: 0 <= p < q < k ==> sent[p].1 != sent[q].1
    {
      var message := new DataMessage(processedDataSize, originalDataCreationTime, now);
      sent := sent + [(transmissions[k], message)];
    }
  }
}
