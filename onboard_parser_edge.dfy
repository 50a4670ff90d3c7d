/**
 * The on-board infrastructure lookups shipped with the edge functions: the main-location of the
 * referring area of the own location, and the record of a location by name.
 *
 * Both searches walk the hierarchy depth first in for-in order and skip "main-location" keys;
 * each is specified against the leaf listing `Leaves` of the hierarchy.
 */
module EdgeOnBoardParser {
  import opened Wrappers
  import opened JsValues
  import opened Hierarchy

  // ---------------------------------------------------------------------------------------------
  // Referring-area main-location.
  // ---------------------------------------------------------------------------------------------

  /**
   * The main-location the search below container `c` (at depth `level`) hands back once it has met
   * the own location, or null. A value other than null (undefined included) counts as found.
   */
  function ReferringIdIn(c: JsValue, n: nat, level: nat, own: string, ref: int): JsValue
    decreases c, 1
  {
    if n > level then ReferringIdInAreas(c, n, level, own, ref, 0) else ReferringIdInLocations(c, own, 0)
  }

  function ReferringIdInAreas(c: JsValue, n: nat, level: nat, own: string, ref: int, i: nat): JsValue
    requires i <= |Props(c)|
    decreases c, 0, |Props(c)| - i
  {
    if i == |Props(c)| then Null
    else
      var (key, child) := Props(c)[i];
      if key == MainLocationKey then ReferringIdInAreas(c, n, level, own, ref, i + 1)
      else
        var lower := ReferringIdIn(child, n, level + 1, own, ref);
        if lower != Null then (if ref == level - 1 then Get(c, MainLocationKey) else lower)
        else ReferringIdInAreas(c, n, level, own, ref, i + 1)
  }

  function ReferringIdInLocations(c: JsValue, own: string, i: nat): JsValue
    requires i <= |Props(c)|
    decreases |Props(c)| - i
  {
    if i == |Props(c)| then Null
    else if Props(c)[i].0 != MainLocationKey && Props(c)[i].0 == own then Get(c, MainLocationKey)
    else ReferringIdInLocations(c, own, i + 1)
  }

  /** getLocationIdOfReferringAreaInInfrastructure: the search from the root at depth 0. */
  function ReferringIdOf(infra: Infrastructure, own: string, ref: int): JsValue {
    ReferringIdIn(infra.hierarchy, |infra.areaTypes|, 0, own, ref)
  }

  /** The main-location a leaf path holds at depth `d`; undefined past its end. */
  function MainAt(l: Leaf, d: nat): JsValue {
    if d < |l.mains| then l.mains[d] else Undefined
  }

  /**
   * The depth whose container's main-location is returned for referring level `ref`: the container
   * just below the referring area, or the own locations container when `ref` names no area above it.
   */
  function ReferringDepth(ref: int, n: nat): (k: nat)
    ensures k <= n
    ensures 0 <= ref < n ==> k == ref + 1
  {
    if 0 <= ref + 1 <= n then ref + 1 else n
  }

  /** The depth whose main-location a container at depth `level` passes up: `k` at or above it, else `n`. */
  function PassedDepth(k: nat, n: nat, level: nat): nat {
    if level <= k < n then k else n
  }

  /**
   * Declarative reading of the search: the first leaf named `own` whose locations container and
   * whose depth-`d` container both have a main-location other than null gives that depth-`d` value.
   */
  function FirstReferring(leaves: seq<Leaf>, own: string, n: nat, d: nat): (r: JsValue)
    ensures r != Null ==> exists l :: l in leaves && l.name == own && r == MainAt(l, d)
    ensures (forall l :: l in leaves ==> l.name != own) ==> r == Null
  {
    if leaves == [] then Null
    else if leaves[0].name == own && MainAt(leaves[0], n) != Null && MainAt(leaves[0], d) != Null
    then MainAt(leaves[0], d)
    else FirstReferring(leaves[1..], own, n, d)
  }

  lemma {:induction false} FirstReferringConcat(a: seq<Leaf>, b: seq<Leaf>, own: string, n: nat, d: nat)
    ensures FirstReferring(a + b, own, n, d)
      == if FirstReferring(a, own, n, d) != Null then FirstReferring(a, own, n, d) else FirstReferring(b, own, n, d)
  {
    if a != [] {
      assert (a + b)[1..] == a[1..] + b;
      FirstReferringConcat(a[1..], b, own, n, d);
    } else {
      assert a + b == b;
    }
  }

  /** When all leaves share the main-location `m` at depth `d`, the search by `d` yields `m` or null. */
  lemma {:induction false} FirstReferringShared(leaves: seq<Leaf>, own: string, n: nat, d: nat, m: JsValue)
    requires forall l :: l in leaves ==> MainAt(l, d) == m
    ensures FirstReferring(leaves, own, n, d)
      == if m != Null && FirstReferring(leaves, own, n, n) != Null then m else Null
  {
    if leaves != [] {
      assert forall l :: l in leaves[1..] ==> l in leaves;
      FirstReferringShared(leaves[1..], own, n, d, m);
    }
  }

  lemma {:induction false} ReferringIdInSpec(c: JsValue, n: nat, level: nat, own: string, ref: int,
                                              parents: seq<string>, mains: seq<JsValue>)
    requires |mains| == level <= n
    ensures ReferringIdIn(c, n, level, own, ref)
      == FirstReferring(Leaves(c, n, level, parents, mains), own, n, PassedDepth(ReferringDepth(ref, n), n, level))
    decreases c, 1
  {
    var mains' := mains + [Get(c, MainLocationKey)];
    if n > level {
      ReferringIdInAreasSpec(c, n, level, own, ref, parents, mains', 0);
    } else {
      ReferringIdInLocationsSpec(c, own, n, parents, mains', 0);
    }
  }

  lemma {:induction false} ReferringIdInAreasSpec(c: JsValue, n: nat, level: nat, own: string, ref: int,
                                                   parents: seq<string>, mains: seq<JsValue>, i: nat)
    requires |mains| == level + 1 && level < n && i <= |Props(c)|
    requires mains[level] == Get(c, MainLocationKey)
    ensures ReferringIdInAreas(c, n, level, own, ref, i)
      == FirstReferring(AreaLeaves(c, n, level, parents, mains, i), own, n, PassedDepth(ReferringDepth(ref, n), n, level))
    decreases c, 0, |Props(c)| - i
  {
    if i < |Props(c)| {
      var (key, child) := Props(c)[i];
      ReferringIdInAreasSpec(c, n, level, own, ref, parents, mains, i + 1);
      if key != MainLocationKey {
        ReferringIdInSpec(child, n, level + 1, own, ref, parents + [key], mains);
        ReferringIdInAreasStep(c, n, level, own, ref, parents, mains, i);
      }
    }
  }

  /** One area of the loop: its subtree's answer, combined with the rest as the loop combines them. */
  lemma ReferringIdInAreasStep(c: JsValue, n: nat, level: nat, own: string, ref: int,
                               parents: seq<string>, mains: seq<JsValue>, i: nat)
    requires |mains| == level + 1 && level < n && i < |Props(c)| && Props(c)[i].0 != MainLocationKey
    requires mains[level] == Get(c, MainLocationKey)
    requires var (key, child) := Props(c)[i];
      ReferringIdIn(child, n, level + 1, own, ref)
      == FirstReferring(Leaves(child, n, level + 1, parents + [key], mains), own, n,
                        PassedDepth(ReferringDepth(ref, n), n, level + 1))
    requires ReferringIdInAreas(c, n, level, own, ref, i + 1)
      == FirstReferring(AreaLeaves(c, n, level, parents, mains, i + 1), own, n, PassedDepth(ReferringDepth(ref, n), n, level))
    ensures ReferringIdInAreas(c, n, level, own, ref, i)
      == FirstReferring(AreaLeaves(c, n, level, parents, mains, i), own, n, PassedDepth(ReferringDepth(ref, n), n, level))
  {
    var (key, child) := Props(c)[i];
    var k := ReferringDepth(ref, n);
    var d := PassedDepth(k, n, level);
    var below := Leaves(child, n, level + 1, parents + [key], mains);
    var rest := AreaLeaves(c, n, level, parents, mains, i + 1);
    assert AreaLeaves(c, n, level, parents, mains, i) == below + rest;
    FirstReferringConcat(below, rest, own, n, d);
    if k == level {
      assert ref == level - 1;
      SharedMainBelow(c, n, level, own, parents, mains, i);
    } else {
      assert ref != level - 1;
      assert d == PassedDepth(k, n, level + 1);
    }
  }

  /** Below an area container every leaf carries that container's main-location at its depth. */
  lemma SharedMainBelow(c: JsValue, n: nat, level: nat, own: string,
                        parents: seq<string>, mains: seq<JsValue>, i: nat)
    requires |mains| == level + 1 && level < n && i < |Props(c)| && Props(c)[i].0 != MainLocationKey
    requires mains[level] == Get(c, MainLocationKey)
    ensures var (key, child) := Props(c)[i];
      var m := Get(c, MainLocationKey);
      var below := Leaves(child, n, level + 1, parents + [key], mains);
      var rest := AreaLeaves(c, n, level, parents, mains, i + 1);
      && FirstReferring(below, own, n, level) == (if m != Null && FirstReferring(below, own, n, n) != Null then m else Null)
      && FirstReferring(rest, own, n, level) == (if m != Null && FirstReferring(rest, own, n, n) != Null then m else Null)
  {
    var (key, child) := Props(c)[i];
    var m := Get(c, MainLocationKey);
    var below := Leaves(child, n, level + 1, parents + [key], mains);
    var rest := AreaLeaves(c, n, level, parents, mains, i + 1);
    LeafMains(child, n, level + 1, parents + [key], mains);
    forall l | l in below
      ensures MainAt(l, level) == m
    {
      assert l.mains[..level + 2][level] == l.mains[level];
    }
    AreaLeafMains(c, n, level, parents, mains, i + 1);
    forall l | l in rest
      ensures MainAt(l, level) == m
    {
      assert l.mains[..level + 1][level] == l.mains[level];
    }
    FirstReferringShared(below, own, n, level, m);
    FirstReferringShared(rest, own, n, level, m);
  }

  lemma {:induction false} ReferringIdInLocationsSpec(c: JsValue, own: string, n: nat,
                                                       parents: seq<string>, mains: seq<JsValue>, i: nat)
    requires |mains| == n + 1 && mains[n] == Get(c, MainLocationKey) && i <= |Props(c)|
    ensures ReferringIdInLocations(c, own, i) == FirstReferring(LocationLeaves(c, parents, mains, i), own, n, n)
    decreases |Props(c)| - i
  {
    if i < |Props(c)| {
      ReferringIdInLocationsSpec(c, own, n, parents, mains, i + 1);
      var rest := LocationLeaves(c, parents, mains, i + 1);
      LocationLeafMains(c, parents, mains, i + 1);
      FirstReferringShared(rest, own, n, n, Get(c, MainLocationKey));
    }
  }

  /**
   * The referring-area search returns, for the first location named `own` whose path gives a value
   * other than null, the main-location of its container at depth `ReferringDepth(ref, n)`; null
   * when no location is named `own`. Any result other than null is some container's main-location.
   */
  lemma ReferringIdOfSpec(infra: Infrastructure, own: string, ref: int)
    ensures var n := |infra.areaTypes|;
      var leaves := Leaves(infra.hierarchy, n, 0, [], []);
      var r := ReferringIdOf(infra, own, ref);
      && r == FirstReferring(leaves, own, n, ReferringDepth(ref, n))
      && ((forall l :: l in leaves ==> l.name != own) ==> r == Null)
      && (r != Null ==> exists l :: l in leaves && l.name == own && |l.mains| == n + 1
                                   && r == l.mains[ReferringDepth(ref, n)])
  {
    var n := |infra.areaTypes|;
    var leaves := Leaves(infra.hierarchy, n, 0, [], []);
    ReferringIdInSpec(infra.hierarchy, n, 0, own, ref, [], []);
    LeafMains(infra.hierarchy, n, 0, [], []);
  }

  // ---------------------------------------------------------------------------------------------
  // Location record by name.
  // ---------------------------------------------------------------------------------------------

  /** The record of the first location named `name` below container `c`; areas never match. */
  function RecordIn(c: JsValue, n: nat, level: nat, name: string): Option<JsValue>
    decreases c, 1
  {
    if n > level then RecordInAreas(c, n, level, name, 0) else RecordInLocations(c, name, 0)
  }

  function RecordInAreas(c: JsValue, n: nat, level: nat, name: string, i: nat): Option<JsValue>
    requires i <= |Props(c)|
    decreases c, 0, |Props(c)| - i
  {
    if i == |Props(c)| then None
    else
      var (key, child) := Props(c)[i];
      if key == MainLocationKey then RecordInAreas(c, n, level, name, i + 1)
      else
        var lower := RecordIn(child, n, level + 1, name);
        if lower.Some? then lower else RecordInAreas(c, n, level, name, i + 1)
  }

  function RecordInLocations(c: JsValue, name: string, i: nat): Option<JsValue>
    requires i <= |Props(c)|
    decreases |Props(c)| - i
  {
    if i == |Props(c)| then None
    else if Props(c)[i].0 != MainLocationKey && Props(c)[i].0 == name then Some(Props(c)[i].1)
    else RecordInLocations(c, name, i + 1)
  }

  /** The record of a leaf found, if any. */
  function RecordOf(l: Option<Leaf>): Option<JsValue> {
    if l.Some? then Some(l.value.record) else None
  }

  lemma {:induction false} RecordInSpec(c: JsValue, n: nat, level: nat, name: string,
                                         parents: seq<string>, mains: seq<JsValue>)
    ensures RecordIn(c, n, level, name) == RecordOf(FirstLeafNamed(Leaves(c, n, level, parents, mains), name))
    decreases c, 1
  {
    var mains' := mains + [Get(c, MainLocationKey)];
    if n > level {
      RecordInAreasSpec(c, n, level, name, parents, mains', 0);
    } else {
      RecordInLocationsSpec(c, name, parents, mains', 0);
    }
  }

  lemma {:induction false} RecordInAreasSpec(c: JsValue, n: nat, level: nat, name: string,
                                              parents: seq<string>, mains: seq<JsValue>, i: nat)
    requires i <= |Props(c)|
    ensures RecordInAreas(c, n, level, name, i) == RecordOf(FirstLeafNamed(AreaLeaves(c, n, level, parents, mains, i), name))
    decreases c, 0, |Props(c)| - i
  {
    if i < |Props(c)| {
      var (key, child) := Props(c)[i];
      var rest := AreaLeaves(c, n, level, parents, mains, i + 1);
      if key == MainLocationKey {
        assert AreaLeaves(c, n, level, parents, mains, i) == rest;
        RecordInAreasSpec(c, n, level, name, parents, mains, i + 1);
      } else {
        var below := Leaves(child, n, level + 1, parents + [key], mains);
        assert AreaLeaves(c, n, level, parents, mains, i) == below + rest;
        RecordInSpec(child, n, level + 1, name, parents + [key], mains);
        FirstLeafNamedConcat(below, rest, name);
        if RecordIn(child, n, level + 1, name).None? {
          RecordInAreasSpec(c, n, level, name, parents, mains, i + 1);
        }
      }
    }
  }

  lemma {:induction false} RecordInLocationsSpec(c: JsValue, name: string, parents: seq<string>, mains: seq<JsValue>, i: nat)
    requires i <= |Props(c)|
    ensures RecordInLocations(c, name, i) == RecordOf(FirstLeafNamed(LocationLeaves(c, parents, mains, i), name))
    decreases |Props(c)| - i
  {
    if i < |Props(c)| {
      var (key, record) := Props(c)[i];
      var rest := LocationLeaves(c, parents, mains, i + 1);
      if key == MainLocationKey {
        assert LocationLeaves(c, parents, mains, i) == rest;
        RecordInLocationsSpec(c, name, parents, mains, i + 1);
      } else {
        assert LocationLeaves(c, parents, mains, i) == [Leaf(parents, key, mains, record)] + rest;
        if key != name {
          RecordInLocationsSpec(c, name, parents, mains, i + 1);
        }
      }
    }
  }

  /** `record.location_id = id` on the record found: TypeError unless it is an object or an array. */
  function StampLocationId(record: JsValue, id: string): (r: Result<Option<JsValue>, JsError>)
    ensures r.Err? <==> !(record.Obj? || record.Arr?)
    ensures r.Ok? ==> r.value.Some? && Get(r.value.value, LocationIdKey) == Str(id)
    ensures r.Ok? ==> forall k :: k != LocationIdKey ==> Get(r.value.value, k) == Get(record, k)
    ensures r.Ok? ==> r.value.value.Obj? == record.Obj?
  {
    match SetProp(record, LocationIdKey, Str(id))
    case Ok(v) => Ok(Some(v))
    case Err(e) => Err(e)
  }

  /** getLocationObject: the stamped record of the first location named `id`, or null. */
  function LocationObject(infra: Infrastructure, id: string): Result<Option<JsValue>, JsError> {
    match RecordIn(infra.hierarchy, |infra.areaTypes|, 0, id)
    case None => Ok(None)
    case Some(record) => StampLocationId(record, id)
  }

  /**
   * getLocationObject finds only locations: it returns null exactly when no location (leaf) is
   * named `id`, and otherwise the first such record, stamped with `id` as its location_id.
   */
  lemma LocationObjectSpec(infra: Infrastructure, id: string)
    ensures var leaves := Leaves(infra.hierarchy, |infra.areaTypes|, 0, [], []);
      var r := LocationObject(infra, id);
      && (r == Ok(None) <==> forall l :: l in leaves ==> l.name != id)
      && (FirstLeafNamed(leaves, id).Some? ==> r == StampLocationId(FirstLeafNamed(leaves, id).value.record, id))
  {
    RecordInSpec(infra.hierarchy, |infra.areaTypes|, 0, id, [], []);
  }
}
