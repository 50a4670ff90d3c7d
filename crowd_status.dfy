/**
 * The video-footage handler's crowd analysis: the footage value itself, clamped to [0, 1], is the
 * crowd status it stores for the camera. Together with the less-crowded-path handler this means a
 * stored status always qualifies for a pick.
 */
module CrowdStatus {
  import opened Wrappers
  import opened LessCrowdedPath

  /** analyzeCrowdStatus: values above 1 become 1, values below 0 become 0, the rest pass through. */
  function AnalyzeCrowdStatus(footage: real): (status: real)
    ensures 0.0 <= status <= 1.0
    ensures footage > 1.0 ==> status == 1.0
    ensures footage < 0.0 ==> status == 0.0
    ensures 0.0 <= footage <= 1.0 ==> status == footage
  {
    if footage > 1.0 then 1.0
    else if footage < 0.0 then 0.0
    else footage
  }

  /** Clamping a status again changes nothing. */
  lemma AnalyzeCrowdStatusIdempotent(footage: real)
    ensures AnalyzeCrowdStatus(AnalyzeCrowdStatus(footage)) == AnalyzeCrowdStatus(footage)
  {
  }

  /**
   * When every stored status came from the crowd analysis (or is missing, and so read as 1.0),
   * every camera qualifies: with one camera there is a first pick, with two a second as well.
   */
  lemma {:induction false} AnalyzedStatusesQualify(statuses: seq<real>)
    requires forall i :: 0 <= i < |statuses| ==> 0.0 <= statuses[i] <= 1.0
    ensures |statuses| >= 1 ==> Pick(statuses, None).Some?
    ensures |statuses| >= 2 ==> Pick(statuses, Pick(statuses, None)).Some?
  {
    PickSpec(statuses, None);
    PickSpec(statuses, Pick(statuses, None));
    if |statuses| >= 2 && Pick(statuses, None).Some? {
      var other := if Pick(statuses, None).value == 0 then 1 else 0;
      assert statuses[other] < Threshold;
    }
  }

  /**
   * With a store filled only by the video-footage handler, the less-crowded-path handler always
   * answers two cameras of its fixed list, and two different ones.
   */
  lemma BestPathAlwaysFound(stored: string -> Option<real>, statuses: seq<real>)
    requires forall key :: stored(key).Some? ==> stored(key).value == AnalyzeCrowdStatus(stored(key).value)
    requires |statuses| == |PossiblePathCameraIds|
    requires forall i :: 0 <= i < |statuses| ==> statuses[i] == StatusOf(stored(CrowdKey(PossiblePathCameraIds[i])))
    ensures var first := Pick(statuses, None);
      var second := Pick(statuses, first);
      && IdAt(PossiblePathCameraIds, first).Some?
      && IdAt(PossiblePathCameraIds, second).Some?
      && IdAt(PossiblePathCameraIds, first) != IdAt(PossiblePathCameraIds, second)
  {
    AnalyzedStatusesQualify(statuses);
    BestPathDistinctCameras(PossiblePathCameraIds, statuses);
  }
}
