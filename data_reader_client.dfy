/**
 * The simulated client that reads data: it waits a sampled time, picks the cable of one tier
 * (always the same cable, or one drawn by cumulative probabilities), sends a new read request on
 * it and counts the request as produced. The waits, the uniform draw and the sizes are supplied
 * as a sequence of samples, one per request; the clock is their running sum.
 */
module DataReaders {
  import opened Wrappers
  import opened Messages
  import opened Cables
  import opened SimulationResults

  /** Waiting time between reads and size of a read request (milliseconds, megabytes). */
  const MeanTimeForNewDataRead: real := 5000.0
  const StdTimeForNewDataRead: real := 2000.0
  const MeanSizeForNewDataReadRequest: real := 0.010
  const StdSizeForNewDataReadRequest: real := 0.001

  const ProbabilitiesNotSummingToOne: string := "Probabilities not summing to one"
  /** Calling put_in_cable on a tier whose cable was not given. */
  const NoCableForTier: string := "AttributeError: 'NoneType' object has no attribute 'put_in_cable'"

  /** The tiers a read can be addressed to, nearest first. */
  datatype Tier = District | City | Territory | Country | Continent | Central

  function TierIndex(t: Tier): nat {
    match t
    case District => 0
    case City => 1
    case Territory => 2
    case Country => 3
    case Continent => 4
    case Central => 5
  }

  /** The sum of the first `n` probabilities. */
  function PrefixSum(ps: seq<real>, n: nat): real
    requires n <= |ps|
  {
    if n == 0 then 0.0 else PrefixSum(ps, n - 1) + ps[n - 1]
  }

  /** The tier cascade: the first tier whose cumulative probability reaches the uniform draw. */
  function SelectTier(probabilities: seq<real>, extraction: real): Result<Tier, string>
    requires |probabilities| == 6
  {
    var p := probabilities;
    if extraction - p[0] <= 0.0 then Ok(District)
    else if extraction - (p[0] + p[1]) <= 0.0 then Ok(City)
    else if extraction - (p[0] + p[1] + p[2]) <= 0.0 then Ok(Territory)
    else if extraction - (p[0] + p[1] + p[2] + p[3]) <= 0.0 then Ok(Country)
    else if extraction - (p[0] + p[1] + p[2] + p[3] + p[4]) <= 0.0 then Ok(Continent)
    else if extraction - (p[0] + p[1] + p[2] + p[3] + p[4] + p[5]) <= 0.0 then Ok(Central)
    else Err(ProbabilitiesNotSummingToOne)
  }

  /**
   * The cascade picks the first tier i with draw ≤ p0 + … + pi, and raises exactly when no
   * cumulative sum reaches the draw.
   */
  lemma SelectTierIsFirstCoveringPrefix(probabilities: seq<real>, extraction: real)
    requires |probabilities| == 6
    ensures var r := SelectTier(probabilities, extraction);
      && (r.Ok? ==> && extraction <= PrefixSum(probabilities, TierIndex(r.value) + 1)
                    && forall n :: 1 <= n <= TierIndex(r.value) ==> extraction > PrefixSum(probabilities, n))
      && (r.Err? <==> forall n :: 1 <= n <= 6 ==> extraction > PrefixSum(probabilities, n))
      && (r.Err? ==> r.error == ProbabilitiesNotSummingToOne)
  {
    var p := probabilities;
    assert PrefixSum(p, 1) == p[0];
    assert PrefixSum(p, 2) == p[0] + p[1];
    assert PrefixSum(p, 3) == p[0] + p[1] + p[2];
    assert PrefixSum(p, 4) == p[0] + p[1] + p[2] + p[3];
    assert PrefixSum(p, 5) == p[0] + p[1] + p[2] + p[3] + p[4];
    assert PrefixSum(p, 6) == p[0] + p[1] + p[2] + p[3] + p[4] + p[5];
  }

  /** With non-negative probabilities the cumulative sums never decrease. */
  lemma {:induction false} PrefixSumMonotone(ps: seq<real>, m: nat, n: nat)
    requires m <= n <= |ps|
    requires forall i :: 0 <= i < |ps| ==> ps[i] >= 0.0
    ensures PrefixSum(ps, m) <= PrefixSum(ps, n)
  {
    if m < n {
      PrefixSumMonotone(ps, m, n - 1);
    }
  }

  /**
   * With non-negative probabilities the selection raises exactly when the draw exceeds their
   * total, so a draw from [0, 1] never raises when they sum to one.
   */
  lemma SelectTierRaisesAboveTotal(probabilities: seq<real>, extraction: real)
    requires |probabilities| == 6
    requires forall i :: 0 <= i < 6 ==> probabilities[i] >= 0.0
    ensures SelectTier(probabilities, extraction).Err? <==> extraction > PrefixSum(probabilities, 6)
    ensures PrefixSum(probabilities, 6) == 1.0 && 0.0 <= extraction <= 1.0 ==> SelectTier(probabilities, extraction).Ok?
  {
    SelectTierIsFirstCoveringPrefix(probabilities, extraction);
    forall n | 1 <= n <= 6
      ensures PrefixSum(probabilities, n) <= PrefixSum(probabilities, 6)
    {
      PrefixSumMonotone(probabilities, n, 6);
    }
  }

  /** The samples drawn for one request. */
  datatype ReadSample = ReadSample(wait: real, extraction: real, size: real)

  /** The clock after the first `n` waits. */
  function Clock(start: real, samples: seq<ReadSample>, n: nat): real
    requires n <= |samples|
  {
    if n == 0 then start else Clock(start, samples, n - 1) + samples[n - 1].wait
  }

  class DataReaderClient {
    const resultContainer: ResultContainer
    const name: string
    /** True: every request goes on `transmission`; false: the tier is drawn by `probabilities`. */
    const useSingleTransmission: bool
    const transmission: Option<Transmission>
    const probabilities: Option<seq<real>>
    const transmissionToDistrict: Option<Transmission>
    const transmissionToCity: Option<Transmission>
    const transmissionToTerritory: Option<Transmission>
    const transmissionToCountry: Option<Transmission>
    const transmissionToContinent: Option<Transmission>
    const transmissionToCentral: Option<Transmission>
    /** None: read for ever. */
    const numberOfPackagesToRead: Option<int>

    /** The construction check: a single cable given, or exactly six probabilities. */
    predicate Valid() {
      || (useSingleTransmission && transmission.Some?)
      || (!useSingleTransmission && probabilities.Some? && |probabilities.value| == 6)
    }

    constructor(resultContainer: ResultContainer, name: string, useSingleTransmission: bool,
                transmission: Option<Transmission>, probabilities: Option<seq<real>>,
                transmissionToDistrict: Option<Transmission>, transmissionToCity: Option<Transmission>,
                transmissionToTerritory: Option<Transmission>, transmissionToCountry: Option<Transmission>,
                transmissionToContinent: Option<Transmission>, transmissionToCentral: Option<Transmission>,
                numberOfPackagesToRead: Option<int>)
      requires || (useSingleTransmission && transmission.Some?)
               || (!useSingleTransmission && probabilities.Some? && |probabilities.value| == 6)
      ensures Valid()
      ensures this.resultContainer == resultContainer && this.name == name
      ensures this.useSingleTransmission == useSingleTransmission
      ensures this.transmission == transmission && this.probabilities == probabilities
      ensures this.transmissionToDistrict == transmissionToDistrict && this.transmissionToCity == transmissionToCity
      ensures this.transmissionToTerritory == transmissionToTerritory && this.transmissionToCountry == transmissionToCountry
      ensures this.transmissionToContinent == transmissionToContinent && this.transmissionToCentral == transmissionToCentral
      ensures this.numberOfPackagesToRead == numberOfPackagesToRead
    {
      this.resultContainer := resultContainer;
      this.name := name;
      this.useSingleTransmission := useSingleTransmission;
      this.transmission := transmission;
      this.probabilities := probabilities;
      this.transmissionToDistrict := transmissionToDistrict;
      this.transmissionToCity := transmissionToCity;
      this.transmissionToTerritory := transmissionToTerritory;
      this.transmissionToCountry := transmissionToCountry;
      this.transmissionToContinent := transmissionToContinent;
      this.transmissionToCentral := transmissionToCentral;
      this.numberOfPackagesToRead := numberOfPackagesToRead;
    }

    /** The cable configured for a tier, if any. */
    function TransmissionFor(tier: Tier): Option<Transmission> {
      match tier
      case District => transmissionToDistrict
      case City => transmissionToCity
      case Territory => transmissionToTerritory
      case Country => transmissionToCountry
      case Continent => transmissionToContinent
      case Central => transmissionToCentral
    }

    /**
     * The cable a request goes on: the single cable, or the cable of the tier the draw selects;
     * a draw beyond the probabilities or a tier without a cable is an error.
     */
    function ChooseTransmission(extraction: real): (r: Result<Transmission, string>)
      requires Valid()
      ensures useSingleTransmission ==> r == Ok(transmission.value)
      ensures !useSingleTransmission ==>
                (r.Ok? <==> SelectTier(probabilities.value, extraction).Ok?
                            && TransmissionFor(SelectTier(probabilities.value, extraction).value).Some?)
      ensures !useSingleTransmission && r.Ok? ==> r.value == TransmissionFor(SelectTier(probabilities.value, extraction).value).value
      ensures r.Err? ==> r.error in {ProbabilitiesNotSummingToOne, NoCableForTier}
    {
      if useSingleTransmission then Ok(transmission.value)
      else
        match SelectTier(probabilities.value, extraction)
        case Err(e) => Err(e)
        case Ok(tier) =>
          var chosen := TransmissionFor(tier);
          if chosen.None? then Err(NoCableForTier) else Ok(chosen.value)
    }

    /** How many requests the loop makes: the bound, or every supplied sample when unbounded. */
    function Runs(samples: seq<ReadSample>): nat {
      if numberOfPackagesToRead.None? then |samples|
      else if numberOfPackagesToRead.value < 0 then 0
      else numberOfPackagesToRead.value
    }

    /**
     * data_producer_process: request k waits its sample, goes on the chosen cable as a new
     * message created and sent at the current clock, and adds one to the produced counter; an
     * error stops the loop before its request is counted.
     */
    method DataProducerProcess(start: real, samples: seq<ReadSample>)
      returns (sent: seq<(Transmission, DataMessage)>, error: Option<string>)
      requires Valid()
      requires numberOfPackagesToRead.Some? ==> numberOfPackagesToRead.value <= |samples|
      modifies resultContainer
      ensures resultContainer.State() == old(resultContainer.State()).(dataPackagesProduced := old(resultContainer.dataPackagesProduced) + |sent|)
      ensures error.None? ==> |sent| == Runs(samples)
      ensures error.Some? ==> |sent| < Runs(samples) && ChooseTransmission(samples[|sent|].extraction) == Err(error.value)
      ensures |sent| <= Runs(samples) <= |samples|
      ensures forall k :: 0 <= k < |sent| ==>
                && ChooseTransmission(samples[k].extraction) == Ok(sent[k].0)
                && fresh(sent[k].1)
                && sent[k].1.megabytesOfData == samples[k].size
                && sent[k].1.originalDataCreationTime == Clock(start, samples, k + 1)
                && sent[k].1.dataSentTime == Clock(start, samples, k + 1)
                && sent[k].1.distanceTraveled.None? && sent[k].1.latencyAcquired.None?
    {
      sent := [];
      error := None;
      var numberOfPackagesRead := 0;
      var now := start;
      while numberOfPackagesRead < Runs(samples)
        invariant 0 <= numberOfPackagesRead <= Runs(samples) <= |samples|
        invariant |sent| == numberOfPackagesRead
        invariant now == Clock(start, samples, numberOfPackagesRead)
        invariant resultContainer.State() == old(resultContainer.State()).(dataPackagesProduced := old(resultContainer.dataPackagesProduced) + |sent|)
        invariant forall k :: 0 <= k < |sent| ==>
                    && ChooseTransmission(samples[k].extraction) == Ok(sent[k].0)
                    && fresh(sent[k].1)
                    && sent[k].1.megabytesOfData == samples[k].size
                    && sent[k].1.originalDataCreationTime == Clock(start, samples, k + 1)
                    && sent[k].1.dataSentTime == Clock(start, samples, k + 1)
                    && sent[k].1.distanceTraveled.None? && sent[k].1.latencyAcquired.None?
      {
        var sample := samples[numberOfPackagesRead];
        now := now + sample.wait;
        var chosen := ChooseTransmission(sample.extraction);
        if chosen.Err? {
          error := Some(chosen.error);
          return;
        }
        var message := new DataMessage(sample.size, now, now);
        sent := sent + [(chosen.value, message)];
        resultContainer.dataPackagesProduced := resultContainer.dataPackagesProduced + 1;
        numberOfPackagesRead := numberOfPackagesRead + 1;
      }
    }
  }
}
