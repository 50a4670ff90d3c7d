/**
 * The result container of the earlier simulator: per-stage packet counters and latency totals,
 * which callers update directly, and the averages read from them. Some averages guard against a
 * zero count and some do not; the unguarded ones fail with ZeroDivisionError.
 */
module CounterResults {
  import opened Wrappers
  import opened SimulationResults

  const ZeroDivisionError: string := "ZeroDivisionError"

  /** total / count as Python evaluates it: a zero count raises. */
  function Divide(total: real, count: int): (r: Result<real, string>)
    ensures r.Err? <==> count == 0
    ensures r.Err? ==> r.error == ZeroDivisionError
    ensures r.Ok? ==> r.value * count as real == total
  {
    if count == 0 then Err(ZeroDivisionError) else Ok(total / count as real)
  }

  /** total / count behind the `count <= 0` guard of the second-stage getters. */
  function GuardedDivide(total: real, count: int): (r: real)
    ensures count <= 0 ==> r == 0.0
    ensures count > 0 ==> r * count as real == total
  {
    if count <= 0 then 0.0 else total / count as real
  }

  class ResultContainer {
    const simulationName: string
    const simulationType: string

    var dataPackagesProduced: int

    var dataPackagesPassingFirstLink: int
    var totalLatencyFirstLink: real
    var dataPackagesPassingFirstProcessing: int
    var totalLatencyFirstProcessing: real
    var dataPackagesPassingSecondLink: int
    var totalLatencySecondLink: real
    var dataPackagesPassingSecondProcessing: int
    var totalLatencySecondProcessing: real
    var dataPackagesAggregated: int
    var totalLatencyFromCreationToAggregation: real

    var trafficPerDistanceFirstLink: real
    var trafficPerDistanceSecondLink: real

    /** A fresh container: every counter 0 and every total 0.0. */
    constructor(simulationName: string, simulationType: string)
      ensures this.simulationName == simulationName && this.simulationType == simulationType
      ensures dataPackagesProduced == 0
      ensures dataPackagesPassingFirstLink == 0 && totalLatencyFirstLink == 0.0
      ensures dataPackagesPassingFirstProcessing == 0 && totalLatencyFirstProcessing == 0.0
      ensures dataPackagesPassingSecondLink == 0 && totalLatencySecondLink == 0.0
      ensures dataPackagesPassingSecondProcessing == 0 && totalLatencySecondProcessing == 0.0
      ensures dataPackagesAggregated == 0 && totalLatencyFromCreationToAggregation == 0.0
      ensures trafficPerDistanceFirstLink == 0.0 && trafficPerDistanceSecondLink == 0.0
    {
      this.simulationName := simulationName;
      this.simulationType := simulationType;
      dataPackagesProduced := 0;
      dataPackagesPassingFirstLink := 0;
      totalLatencyFirstLink := 0.0;
      dataPackagesPassingFirstProcessing := 0;
      totalLatencyFirstProcessing := 0.0;
      dataPackagesPassingSecondLink := 0;
      totalLatencySecondLink := 0.0;
      dataPackagesPassingSecondProcessing := 0;
      totalLatencySecondProcessing := 0.0;
      dataPackagesAggregated := 0;
      totalLatencyFromCreationToAggregation := 0.0;
      trafficPerDistanceFirstLink := 0.0;
      trafficPerDistanceSecondLink := 0.0;
    }

    /**
     * print_result's check, always on: it fails with ZeroDivisionError when an unguarded average
     * meets a zero count (the first link first, then the first processing, then the total average),
     * and with AssertionError when the average total is 0.5 or more away from the sum of the stage
     * averages.
     */
    function PrintResultCheck(): (error: Option<string>)
      reads this
      ensures error.None? <==>
                && dataPackagesAggregated != 0
                && dataPackagesPassingFirstLink != 0
                && dataPackagesPassingFirstProcessing != 0
                && Abs(totalLatencyFromCreationToAggregation / dataPackagesAggregated as real
                       - (totalLatencyFirstLink / dataPackagesPassingFirstLink as real
                          + totalLatencyFirstProcessing / dataPackagesPassingFirstProcessing as real
                          + GetAverageSecondLinkLatency() + GetAverageSecondProcessingLatency())) < SumTolerance
      ensures error.Some? ==> error.value in {ZeroDivisionError, AssertionError}
      ensures dataPackagesPassingFirstLink == 0 || dataPackagesPassingFirstProcessing == 0 ==> error == Some(ZeroDivisionError)
    {
      match GetAverageFirstLinkLatency()
      case Err(e) => Some(e)
      case Ok(firstLink) =>
        match GetAverageFirstProcessingLatency()
        case Err(e) => Some(e)
        case Ok(firstProcessing) =>
          var totalAsSum := firstLink + firstProcessing + GetAverageSecondLinkLatency() + GetAverageSecondProcessingLatency();
          match GetAverageTotalLatency()
          case Err(e) => Some(e)
          case Ok(total) => if Abs(total - totalAsSum) < SumTolerance then None else Some(AssertionError)
    }

    function GetAverageTotalLatency(): (r: Result<real, string>)
      reads this
      ensures r.Err? <==> dataPackagesAggregated == 0
      ensures r.Ok? ==> r.value * dataPackagesAggregated as real == totalLatencyFromCreationToAggregation
    {
      Divide(totalLatencyFromCreationToAggregation, dataPackagesAggregated)
    }

    function GetAverageFirstLinkLatency(): (r: Result<real, string>)
      reads this
      ensures r.Err? <==> dataPackagesPassingFirstLink == 0
      ensures r.Ok? ==> r.value * dataPackagesPassingFirstLink as real == totalLatencyFirstLink
    {
      Divide(totalLatencyFirstLink, dataPackagesPassingFirstLink)
    }

    function GetAverageFirstProcessingLatency(): (r: Result<real, string>)
      reads this
      ensures r.Err? <==> dataPackagesPassingFirstProcessing == 0
      ensures r.Ok? ==> r.value * dataPackagesPassingFirstProcessing as real == totalLatencyFirstProcessing
    {
      Divide(totalLatencyFirstProcessing, dataPackagesPassingFirstProcessing)
    }

    function GetAverageSecondLinkLatency(): (r: real)
      reads this
      ensures dataPackagesPassingSecondLink <= 0 ==> r == 0.0
      ensures dataPackagesPassingSecondLink > 0 ==> r * dataPackagesPassingSecondLink as real == totalLatencySecondLink
    {
      GuardedDivide(totalLatencySecondLink, dataPackagesPassingSecondLink)
    }

    function GetAverageSecondProcessingLatency(): (r: real)
      reads this
      ensures dataPackagesPassingSecondProcessing <= 0 ==> r == 0.0
      ensures dataPackagesPassingSecondProcessing > 0 ==> r * dataPackagesPassingSecondProcessing as real == totalLatencySecondProcessing
    {
      GuardedDivide(totalLatencySecondProcessing, dataPackagesPassingSecondProcessing)
    }

    function GetAverageFirstLinkTrafficPerDistance(): (r: Result<real, string>)
      reads this
      ensures r.Err? <==> dataPackagesPassingFirstLink == 0
      ensures r.Ok? ==> r.value * dataPackagesPassingFirstLink as real == trafficPerDistanceFirstLink
    {
      Divide(trafficPerDistanceFirstLink, dataPackagesPassingFirstLink)
    }

    function GetAverageSecondLinkTrafficPerDistance(): (r: real)
      reads this
      ensures dataPackagesPassingSecondLink <= 0 ==> r == 0.0
      ensures dataPackagesPassingSecondLink > 0 ==> r * dataPackagesPassingSecondLink as real == trafficPerDistanceSecondLink
    {
      GuardedDivide(trafficPerDistanceSecondLink, dataPackagesPassingSecondLink)
    }
  }

  /** The guarded and unguarded averages agree wherever both are defined and the count is positive. */
  lemma GuardAgreesWithDivision(total: real, count: int)
    requires count > 0
    ensures Divide(total, count) == Ok(GuardedDivide(total, count))
  {
  }

  /** print_result on a container nothing was reported to fails: its first-link average divides by zero. */
  lemma FreshContainerCheckFails(rc: ResultContainer)
    requires rc.dataPackagesPassingFirstLink == 0
    ensures rc.PrintResultCheck() == Some(ZeroDivisionError)
  {
  }

  /**
   * A run whose every aggregated packet took exactly the sum of the average stage latencies
   * passes print_result's check.
   */
  lemma ConsistentTotalsPassCheck(rc: ResultContainer)
    requires rc.dataPackagesAggregated > 0 && rc.dataPackagesPassingFirstLink > 0 && rc.dataPackagesPassingFirstProcessing > 0
    requires rc.totalLatencyFromCreationToAggregation
             == rc.dataPackagesAggregated as real
                * (rc.totalLatencyFirstLink / rc.dataPackagesPassingFirstLink as real
                   + rc.totalLatencyFirstProcessing / rc.dataPackagesPassingFirstProcessing as real
                   + rc.GetAverageSecondLinkLatency() + rc.GetAverageSecondProcessingLatency())
    ensures rc.PrintResultCheck() == None
  {
  }
}
