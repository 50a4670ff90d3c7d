/**
 * The result container of the evaluation simulator: append-only lists of per-packet latencies,
 * traffic and distances, and the statistics read from them. Floating point is modelled by exact
 * reals; the square root is a parameter.
 */
module SimulationResults {
  import opened Wrappers

  /** The z-value of a 99.9% two-sided confidence interval. */
  const ZValue: real := 3.291
  /** The largest gap print_result tolerates between the average total and the sum of the stage averages. */
  const SumTolerance: real := 0.5
  /** The error statistics.stdev raises for a single sample. */
  const StdevTooFewPoints: string := "stdev requires at least two data points"
  const AssertionError: string := "AssertionError"

  function Sum(xs: seq<real>): real {
    if xs == [] then 0.0 else Sum(xs[..|xs| - 1]) + xs[|xs| - 1]
  }

  /** The arithmetic mean, which every getter replaces by 0 for an empty list. */
  function Mean(xs: seq<real>): (m: real)
    ensures |xs| == 0 ==> m == 0.0
    ensures |xs| > 0 ==> m * |xs| as real == Sum(xs)
  {
    if |xs| == 0 then 0.0 else Sum(xs) / |xs| as real
  }

  /** The sum of squared deviations of the samples from `m`. */
  function SquaredDeviations(xs: seq<real>, m: real): (r: real)
    ensures r >= 0.0
  {
    if xs == [] then 0.0
    else
      var deviation := xs[|xs| - 1] - m;
      SquareNonNegative(deviation);
      SquaredDeviations(xs[..|xs| - 1], m) + deviation * deviation
  }

  lemma SquareNonNegative(x: real)
    ensures x * x >= 0.0
  {
    if x < 0.0 {
      assert x * x == (-x) * (-x);
    }
  }

  /** The sample variance (n - 1 in the denominator), the square of statistics.stdev. */
  function SampleVariance(xs: seq<real>): real
    requires |xs| >= 2
  {
    SquaredDeviations(xs, Sum(xs) / |xs| as real) / (|xs| - 1) as real
  }

  function Abs(x: real): real {
    if x < 0.0 then -x else x
  }

  /** A square root: non-negative on non-negative inputs and positive on positive ones. */
  ghost predicate IsSquareRoot(sqrt: real -> real) {
    forall x :: x >= 0.0 ==> sqrt(x) >= 0.0 && (x > 0.0 ==> sqrt(x) > 0.0)
  }

  /** The mutable fields of a container, in declaration order. */
  datatype Snapshot = Snapshot(
    dataPackagesProduced: int,
    latencyFirstLinkList: seq<real>,
    latencyFirstProcessingList: seq<real>,
    latencySecondLinkList: seq<real>,
    latencySecondProcessingList: seq<real>,
    latencyTotalFinishedList: seq<real>,
    trafficPerDistanceFirstLinkList: seq<real>,
    trafficPerDistanceSecondLinkList: seq<real>,
    distanceFirstLinkList: seq<real>,
    distanceSecondLinkList: seq<real>)

  class ResultContainer {
    const simulationName: string
    const simulationType: string

    var dataPackagesProduced: int

    var latencyFirstLinkList: seq<real>
    var latencyFirstProcessingList: seq<real>
    var latencySecondLinkList: seq<real>
    var latencySecondProcessingList: seq<real>
    var latencyTotalFinishedList: seq<real>

    var trafficPerDistanceFirstLinkList: seq<real>
    var trafficPerDistanceSecondLinkList: seq<real>

    var distanceFirstLinkList: seq<real>
    var distanceSecondLinkList: seq<real>

    /** A fresh container: nothing produced, every list empty. */
    constructor(simulationName: string, simulationType: string)
      ensures this.simulationName == simulationName && this.simulationType == simulationType
      ensures dataPackagesProduced == 0
      ensures latencyFirstLinkList == [] && latencyFirstProcessingList == [] && latencySecondLinkList == []
      ensures latencySecondProcessingList == [] && latencyTotalFinishedList == []
      ensures trafficPerDistanceFirstLinkList == [] && trafficPerDistanceSecondLinkList == []
      ensures distanceFirstLinkList == [] && distanceSecondLinkList == []
    {
      this.simulationName := simulationName;
      this.simulationType := simulationType;
      dataPackagesProduced := 0;
      latencyFirstLinkList := [];
      latencyFirstProcessingList := [];
      latencySecondLinkList := [];
      latencySecondProcessingList := [];
      latencyTotalFinishedList := [];
      trafficPerDistanceFirstLinkList := [];
      trafficPerDistanceSecondLinkList := [];
      distanceFirstLinkList := [];
      distanceSecondLinkList := [];
    }

    /** Every mutable field at once, so that a report can state its whole effect. */
    function State(): Snapshot
      reads this
    {
      Snapshot(dataPackagesProduced,
               latencyFirstLinkList, latencyFirstProcessingList, latencySecondLinkList,
               latencySecondProcessingList, latencyTotalFinishedList,
               trafficPerDistanceFirstLinkList, trafficPerDistanceSecondLinkList,
               distanceFirstLinkList, distanceSecondLinkList)
    }

    /** One packet crossed the first link: its latency, traffic times distance, and distance are recorded. */
    method ReportFirstLinkLatencyTrafficAndDistance(latency: real, traffic: real, distance: real)
      modifies this
      ensures State() == old(State()).(latencyFirstLinkList := old(latencyFirstLinkList) + [latency],
                                       trafficPerDistanceFirstLinkList := old(trafficPerDistanceFirstLinkList) + [traffic * distance],
                                       distanceFirstLinkList := old(distanceFirstLinkList) + [distance])
      ensures Sum(trafficPerDistanceFirstLinkList) == old(Sum(trafficPerDistanceFirstLinkList)) + traffic * distance
    {
      latencyFirstLinkList := latencyFirstLinkList + [latency];
      var trafficPerDistance := traffic * distance;
      trafficPerDistanceFirstLinkList := trafficPerDistanceFirstLinkList + [trafficPerDistance];
      distanceFirstLinkList := distanceFirstLinkList + [distance];
      SumAppend(old(trafficPerDistanceFirstLinkList), trafficPerDistance);
    }

    /** One packet finished its first processing: its latency is recorded. */
    method ReportFirstProcessingLatency(latency: real)
      modifies this
      ensures State() == old(State()).(latencyFirstProcessingList := old(latencyFirstProcessingList) + [latency])
    {
      latencyFirstProcessingList := latencyFirstProcessingList + [latency];
    }

    /** One packet crossed the second link: its latency, traffic times distance, and distance are recorded. */
    method ReportSecondLinkLatencyTrafficAndDistance(latency: real, traffic: real, distance: real)
      modifies this
      ensures State() == old(State()).(latencySecondLinkList := old(latencySecondLinkList) + [latency],
                                       trafficPerDistanceSecondLinkList := old(trafficPerDistanceSecondLinkList) + [traffic * distance],
                                       distanceSecondLinkList := old(distanceSecondLinkList) + [distance])
      ensures Sum(trafficPerDistanceSecondLinkList) == old(Sum(trafficPerDistanceSecondLinkList)) + traffic * distance
    {
      latencySecondLinkList := latencySecondLinkList + [latency];
      var trafficPerDistance := traffic * distance;
      trafficPerDistanceSecondLinkList := trafficPerDistanceSecondLinkList + [trafficPerDistance];
      distanceSecondLinkList := distanceSecondLinkList + [distance];
      SumAppend(old(trafficPerDistanceSecondLinkList), trafficPerDistance);
    }

    /** One packet finished its second processing: its latency is recorded. */
    method ReportSecondProcessingLatency(latency: real)
      modifies this
      ensures State() == old(State()).(latencySecondProcessingList := old(latencySecondProcessingList) + [latency])
    {
      latencySecondProcessingList := latencySecondProcessingList + [latency];
    }

    /** One packet reached its end: its creation-to-finish latency is recorded. */
    method ReportTotalFinishedLatency(latency: real)
      modifies this
      ensures State() == old(State()).(latencyTotalFinishedList := old(latencyTotalFinishedList) + [latency])
    {
      latencyTotalFinishedList := latencyTotalFinishedList + [latency];
    }

    /**
     * The consistency check of print_result: with the flag on it fails (AssertionError) unless the
     * average total latency is within 0.5 of the sum of the four stage averages.
     */
    function PrintResultCheck(shouldTotalBeEqualToSumOfParts: bool): (error: Option<string>)
      reads this
      ensures error.None? <==>
                !shouldTotalBeEqualToSumOfParts
                || Abs(Mean(latencyTotalFinishedList) - StageAverageSum()) < SumTolerance
      ensures error.Some? ==> error.value == AssertionError
    {
      if shouldTotalBeEqualToSumOfParts then
        var totalAsSum := GetAverageFirstLinkLatency() + GetAverageFirstProcessingLatency()
                          + GetAverageSecondLinkLatency() + GetAverageSecondProcessingLatency();
        if Abs(GetAverageTotalLatency() - totalAsSum) < SumTolerance then None else Some(AssertionError)
      else None
    }

    /** The sum of the four stage averages. */
    function StageAverageSum(): real
      reads this
    {
      Mean(latencyFirstLinkList) + Mean(latencyFirstProcessingList)
      + Mean(latencySecondLinkList) + Mean(latencySecondProcessingList)
    }

    function GetAverageFirstLinkLatency(): (r: real)
      reads this
      ensures |latencyFirstLinkList| == 0 ==> r == 0.0
      ensures |latencyFirstLinkList| > 0 ==> r * |latencyFirstLinkList| as real == Sum(latencyFirstLinkList)
    {
      if |latencyFirstLinkList| == 0 then 0.0 else Mean(latencyFirstLinkList)
    }

    function GetAverageFirstProcessingLatency(): (r: real)
      reads this
      ensures |latencyFirstProcessingList| == 0 ==> r == 0.0
      ensures |latencyFirstProcessingList| > 0 ==> r * |latencyFirstProcessingList| as real == Sum(latencyFirstProcessingList)
    {
      if |latencyFirstProcessingList| == 0 then 0.0 else Mean(latencyFirstProcessingList)
    }

    function GetAverageSecondLinkLatency(): (r: real)
      reads this
      ensures |latencySecondLinkList| == 0 ==> r == 0.0
      ensures |latencySecondLinkList| > 0 ==> r * |latencySecondLinkList| as real == Sum(latencySecondLinkList)
    {
      if |latencySecondLinkList| == 0 then 0.0 else Mean(latencySecondLinkList)
    }

    function GetAverageSecondProcessingLatency(): (r: real)
      reads this
      ensures |latencySecondProcessingList| == 0 ==> r == 0.0
      ensures |latencySecondProcessingList| > 0 ==> r * |latencySecondProcessingList| as real == Sum(latencySecondProcessingList)
    {
      if |latencySecondProcessingList| == 0 then 0.0 else Mean(latencySecondProcessingList)
    }

    function GetAverageTotalLatency(): (r: real)
      reads this
      ensures |latencyTotalFinishedList| == 0 ==> r == 0.0
      ensures |latencyTotalFinishedList| > 0 ==> r * |latencyTotalFinishedList| as real == Sum(latencyTotalFinishedList)
    {
      if |latencyTotalFinishedList| == 0 then 0.0 else Mean(latencyTotalFinishedList)
    }

    /**
     * The half-width of the 99.9% confidence interval of the average total latency: 0 without
     * samples, the stdev error with one sample, and z times stdev over the root of n otherwise.
     */
    function GetAverageTotalLatencyConfidence(sqrt: real -> real): (r: Result<real, string>)
      reads this
      requires IsSquareRoot(sqrt)
      ensures |latencyTotalFinishedList| == 0 ==> r == Ok(0.0)
      ensures r.Err? <==> |latencyTotalFinishedList| == 1
      ensures r.Err? ==> r.error == StdevTooFewPoints
      ensures |latencyTotalFinishedList| >= 2 ==>
                r.Ok? && r.value * sqrt(|latencyTotalFinishedList| as real)
                         == ZValue * sqrt(SampleVariance(latencyTotalFinishedList))
      ensures r.Ok? ==> r.value >= 0.0
    {
      var n := |latencyTotalFinishedList|;
      if n == 0 then Ok(0.0)
      else if n == 1 then Err(StdevTooFewPoints)
      else
        var std := sqrt(SampleVariance(latencyTotalFinishedList));
        Ok(ZValue * std / sqrt(n as real))
    }

    function GetTotalFirstLinkTrafficPerDistance(): (r: real)
      reads this
      ensures trafficPerDistanceFirstLinkList == [] ==> r == 0.0
      ensures (forall i :: 0 <= i < |trafficPerDistanceFirstLinkList| ==> trafficPerDistanceFirstLinkList[i] >= 0.0) ==> r >= 0.0
    {
      SumBounds(trafficPerDistanceFirstLinkList, 0.0, 0.0);
      Sum(trafficPerDistanceFirstLinkList)
    }

    function GetTotalSecondLinkTrafficPerDistance(): (r: real)
      reads this
      ensures trafficPerDistanceSecondLinkList == [] ==> r == 0.0
      ensures (forall i :: 0 <= i < |trafficPerDistanceSecondLinkList| ==> trafficPerDistanceSecondLinkList[i] >= 0.0) ==> r >= 0.0
    {
      SumBounds(trafficPerDistanceSecondLinkList, 0.0, 0.0);
      Sum(trafficPerDistanceSecondLinkList)
    }

    function GetAverageFirstLinkDistance(): (r: real)
      reads this
      ensures |distanceFirstLinkList| == 0 ==> r == 0.0
      ensures |distanceFirstLinkList| > 0 ==> r * |distanceFirstLinkList| as real == Sum(distanceFirstLinkList)
    {
      if |distanceFirstLinkList| == 0 then 0.0 else Mean(distanceFirstLinkList)
    }

    function GetAverageSecondLinkDistance(): (r: real)
      reads this
      ensures |distanceSecondLinkList| == 0 ==> r == 0.0
      ensures |distanceSecondLinkList| > 0 ==> r * |distanceSecondLinkList| as real == Sum(distanceSecondLinkList)
    {
      if |distanceSecondLinkList| == 0 then 0.0 else Mean(distanceSecondLinkList)
    }
  }

  // ---------------------------------------------------------------------------------------------
  // Properties of the statistics.
  // ---------------------------------------------------------------------------------------------

  /** Appending a sample adds it to the sum. */
  lemma SumAppend(xs: seq<real>, x: real)
    ensures Sum(xs + [x]) == Sum(xs) + x
  {
    assert (xs + [x])[..|xs|] == xs;
  }

  /**
   * Samples between `lo` and `hi` sum to between n·lo and n·hi. (Used with lo = hi = 0 for the
   * lower bound only.)
   */
  lemma {:induction false} SumBounds(xs: seq<real>, lo: real, hi: real)
    ensures (forall i :: 0 <= i < |xs| ==> lo <= xs[i]) ==> |xs| as real * lo <= Sum(xs)
    ensures (forall i :: 0 <= i < |xs| ==> xs[i] <= hi) ==> Sum(xs) <= |xs| as real * hi
  {
    if xs != [] {
      var init := xs[..|xs| - 1];
      SumBounds(init, lo, hi);
      assert forall i :: 0 <= i < |init| ==> init[i] == xs[i];
    }
  }

  /** Every average lies between the smallest and the largest sample. */
  lemma MeanBounds(xs: seq<real>, lo: real, hi: real)
    requires |xs| > 0
    requires forall i :: 0 <= i < |xs| ==> lo <= xs[i] <= hi
    ensures lo <= Mean(xs) <= hi
  {
    SumBounds(xs, lo, hi);
    var n := |xs| as real;
    assert Mean(xs) * n >= lo * n;
    assert Mean(xs) * n <= hi * n;
  }

  /** The sum of a pointwise sum of four sample lists is the sum of their sums. */
  lemma {:induction false} SumPointwise(a: seq<real>, b: seq<real>, c: seq<real>, d: seq<real>, t: seq<real>)
    requires |a| == |b| == |c| == |d| == |t|
    requires forall i :: 0 <= i < |t| ==> t[i] == a[i] + b[i] + c[i] + d[i]
    ensures Sum(t) == Sum(a) + Sum(b) + Sum(c) + Sum(d)
  {
    if t != [] {
      var k := |t| - 1;
      SumPointwise(a[..k], b[..k], c[..k], d[..k], t[..k]);
    }
  }

  /**
   * When every finished packet's total latency is exactly the sum of its four stage latencies
   * (the lists aligned packet by packet), print_result's check passes.
   */
  lemma ConsistentStagesPassCheck(rc: ResultContainer, shouldCheck: bool)
    requires |rc.latencyTotalFinishedList| > 0
    requires |rc.latencyFirstLinkList| == |rc.latencyFirstProcessingList| == |rc.latencySecondLinkList|
             == |rc.latencySecondProcessingList| == |rc.latencyTotalFinishedList|
    requires forall i :: 0 <= i < |rc.latencyTotalFinishedList| ==>
               rc.latencyTotalFinishedList[i] == rc.latencyFirstLinkList[i] + rc.latencyFirstProcessingList[i]
                                                 + rc.latencySecondLinkList[i] + rc.latencySecondProcessingList[i]
    ensures rc.PrintResultCheck(shouldCheck) == None
  {
    SumPointwise(rc.latencyFirstLinkList, rc.latencyFirstProcessingList, rc.latencySecondLinkList,
                 rc.latencySecondProcessingList, rc.latencyTotalFinishedList);
    var n := |rc.latencyTotalFinishedList| as real;
    assert rc.StageAverageSum() * n == Mean(rc.latencyTotalFinishedList) * n;
  }

  /** A constant list of samples sums to n times the constant. */
  lemma {:induction false} SumConstant(xs: seq<real>, c: real)
    requires forall i :: 0 <= i < |xs| ==> xs[i] == c
    ensures Sum(xs) == |xs| as real * c
  {
    if xs != [] {
      SumConstant(xs[..|xs| - 1], c);
    }
  }

  /** Samples equal to `m` have no deviation from it. */
  lemma {:induction false} NoDeviation(xs: seq<real>, m: real)
    requires forall i :: 0 <= i < |xs| ==> xs[i] == m
    ensures SquaredDeviations(xs, m) == 0.0
  {
    if xs != [] {
      NoDeviation(xs[..|xs| - 1], m);
    }
  }

  /** Identical total latencies leave no uncertainty: the confidence half-width is 0. */
  lemma ConfidenceOfIdenticalLatencies(rc: ResultContainer, sqrt: real -> real, c: real)
    requires IsSquareRoot(sqrt) && sqrt(0.0) == 0.0
    requires |rc.latencyTotalFinishedList| >= 2
    requires forall i :: 0 <= i < |rc.latencyTotalFinishedList| ==> rc.latencyTotalFinishedList[i] == c
    ensures rc.GetAverageTotalLatencyConfidence(sqrt) == Ok(0.0)
  {
    var xs := rc.latencyTotalFinishedList;
    SumConstant(xs, c);
    assert Sum(xs) / |xs| as real == c;
    NoDeviation(xs, c);
  }
}
