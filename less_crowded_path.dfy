/**
 * The less-crowded-path handler: it reads the crowd status of every camera on the possible paths
 * (a missing status counts as fully crowded, 1.0) and returns the cameras of the two least crowded
 * spots whose status is below 1.001. Statuses are real numbers here; the store lookup is a
 * function parameter.
 */
module LessCrowdedPath {
  import opened Wrappers

  /** Every status strictly below this bound can be picked. */
  const Threshold: real := 1.001
  /** The status used for a camera without a stored status. */
  const DefaultStatus: real := 1.0

  /** The cameras of the possible paths (a fixed list in the handler). */
  const PossiblePathCameraIds: seq<string> := ["camera1", "camera2", "camera3"]

  /** The store key of a camera's crowd status. */
  function CrowdKey(cameraId: string): string {
    "crowd_" + cameraId
  }

  /** The status recorded for one store reply; `None` stands for null or undefined. */
  function StatusOf(reply: Option<real>): real {
    if reply.None? then DefaultStatus else reply.value
  }

  /** The status the running minimum of a loop compares against: the threshold until a pick exists. */
  function Running(statuses: seq<real>, pick: Option<nat>): real
    requires pick.Some? ==> pick.value < |statuses|
  {
    if pick.None? then Threshold else statuses[pick.value]
  }

  /**
   * The index a scan of `statuses` settles on, skipping `excluded`: an index replaces the current
   * pick when its status is strictly smaller than the running minimum.
   */
  function Pick(statuses: seq<real>, excluded: Option<nat>): (r: Option<nat>)
    ensures r.Some? ==> r.value < |statuses|
  {
    if statuses == [] then None
    else
      var i := |statuses| - 1;
      var before := Pick(statuses[..i], excluded);
      if statuses[i] < Running(statuses, before) && Some(i) != excluded then Some(i) else before
  }

  /** `k` is the earliest index other than `excluded` holding a least status, and that status is below the threshold. */
  predicate IsEarliestLeast(statuses: seq<real>, excluded: Option<nat>, k: nat) {
    && k < |statuses|
    && Some(k) != excluded
    && statuses[k] < Threshold
    && (forall j :: 0 <= j < |statuses| && Some(j) != excluded ==> statuses[k] <= statuses[j])
    && (forall j :: 0 <= j < k && Some(j) != excluded ==> statuses[k] < statuses[j])
  }

  /** No index other than `excluded` has a status below the threshold. */
  predicate NoneBelow(statuses: seq<real>, excluded: Option<nat>) {
    forall j :: 0 <= j < |statuses| && Some(j) != excluded ==> statuses[j] >= Threshold
  }

  /** The id at a pick; an absent pick or an index past the ids reads as undefined. */
  function IdAt(cameraIds: seq<string>, pick: Option<nat>): Option<string> {
    if pick.Some? && pick.value < |cameraIds| then Some(cameraIds[pick.value]) else None
  }

  /** The status list of the handler: one status per camera, in camera order. */
  method FillStatuses(cameraIds: seq<string>, stored: string -> Option<real>) returns (statuses: seq<real>)
    ensures |statuses| == |cameraIds|
    ensures forall i :: 0 <= i < |cameraIds| ==>
              statuses[i] == (if stored(CrowdKey(cameraIds[i])).None? then DefaultStatus else stored(CrowdKey(cameraIds[i])).value)
  {
    statuses := [];
    for i := 0 to |cameraIds|
      invariant |statuses| == i
      invariant forall k :: 0 <= k < i ==> statuses[k] == StatusOf(stored(CrowdKey(cameraIds[k])))
    {
      var crowdStatus := stored(CrowdKey(cameraIds[i]));
      if crowdStatus.None? {
        statuses := statuses + [DefaultStatus];
      } else {
        statuses := statuses + [crowdStatus.value];
      }
    }
  }

  /** computeBestPath: the ids at the first pick and at the second pick, which skips the first. */
  method ComputeBestPath(cameraIds: seq<string>, statuses: seq<real>) returns (bestPath: seq<Option<string>>)
    ensures var first := Pick(statuses, None);
      bestPath == [IdAt(cameraIds, first), IdAt(cameraIds, Pick(statuses, first))]
  {
    var first: Option<nat> := None;
    var firstStatus := Threshold;
    for i := 0 to |statuses|
      invariant first == Pick(statuses[..i], None)
      invariant firstStatus == Running(statuses, first)
    {
      assert statuses[..i + 1][..i] == statuses[..i];
      if statuses[i] < firstStatus {
        firstStatus := statuses[i];
        first := Some(i);
      }
    }
    assert statuses[..|statuses|] == statuses;

    var second: Option<nat> := None;
    var secondStatus := Threshold;
    for i := 0 to |statuses|
      invariant second == Pick(statuses[..i], first)
      invariant secondStatus == Running(statuses, second)
    {
      assert statuses[..i + 1][..i] == statuses[..i];
      if statuses[i] < secondStatus && Some(i) != first {
        secondStatus := statuses[i];
        second := Some(i);
      }
    }
    assert statuses[..|statuses|] == statuses;

    bestPath := [IdAt(cameraIds, first), IdAt(cameraIds, second)];
  }

  /** The handler: statuses from the store for the fixed camera list, then the best path. */
  method GetLessCrowdedPath(stored: string -> Option<real>) returns (bestPath: seq<Option<string>>)
    ensures exists statuses: seq<real> ::
              && |statuses| == |PossiblePathCameraIds|
              && (forall i :: 0 <= i < |statuses| ==> statuses[i] == StatusOf(stored(CrowdKey(PossiblePathCameraIds[i]))))
              && bestPath == [IdAt(PossiblePathCameraIds, Pick(statuses, None)),
                              IdAt(PossiblePathCameraIds, Pick(statuses, Pick(statuses, None)))]
  {
    var statuses := FillStatuses(PossiblePathCameraIds, stored);
    bestPath := ComputeBestPath(PossiblePathCameraIds, statuses);
  }

  // ---------------------------------------------------------------------------------------------
  // Properties.
  // ---------------------------------------------------------------------------------------------

  /** A scan picks the earliest least status below the threshold, and picks nothing when there is none. */
  lemma {:induction false} PickSpec(statuses: seq<real>, excluded: Option<nat>)
    ensures Pick(statuses, excluded).None? <==> NoneBelow(statuses, excluded)
    ensures Pick(statuses, excluded).Some? ==> IsEarliestLeast(statuses, excluded, Pick(statuses, excluded).value)
  {
    if statuses != [] {
      var i := |statuses| - 1;
      var init := statuses[..i];
      PickSpec(init, excluded);
      var before := Pick(init, excluded);
      assert forall j :: 0 <= j < i ==> init[j] == statuses[j];
      if before.Some? {
        assert Running(statuses, before) == init[before.value];
      }
    }
  }

  /**
   * The two picks: the second exists only when the first does, they are different indices, and
   * the first is at most as crowded as the second.
   */
  lemma BestPathPicks(statuses: seq<real>)
    ensures var first := Pick(statuses, None);
      var second := Pick(statuses, first);
      && (second.Some? ==> first.Some?)
      && (first.Some? && second.Some? ==> first.value != second.value && statuses[first.value] <= statuses[second.value])
      && (first.None? <==> forall j :: 0 <= j < |statuses| ==> statuses[j] >= Threshold)
  {
    var first := Pick(statuses, None);
    PickSpec(statuses, None);
    PickSpec(statuses, first);
  }

  /** The returned path names two different cameras whenever the ids are distinct and both picks exist. */
  lemma BestPathDistinctCameras(cameraIds: seq<string>, statuses: seq<real>)
    requires forall p, q :: 0 <= p < q < |cameraIds| ==> cameraIds[p] != cameraIds[q]
    ensures var first := Pick(statuses, None);
      var second := Pick(statuses, first);
      IdAt(cameraIds, first).Some? && IdAt(cameraIds, second).Some? ==> IdAt(cameraIds, first) != IdAt(cameraIds, second)
  {
    BestPathPicks(statuses);
  }
}
