/**
 * The deployer's view of an infrastructure (edge-deployer-cli/main/utils/infrastructureParser.js):
 * the reserved names, the depth of an area or location, the check of the deployment input
 * (`--inEvery`, `--inAreas`, `--exceptIn`) and the list of locations a deployment targets.
 */
module InfrastructureParser {
  import opened Wrappers
  import opened JsValues
  import opened Hierarchy

  /** Names that are fields of a location record (or the main-location key) and so cannot name an area type or an area. */
  const ReservedKeywords: seq<string> :=
    ["location_id", "openfaas_gateway", "openfaas_password", "redis_host", "redis_port", "redis_password", "main-location"]

  predicate CanBeValidAreaType(areaType: JsValue) {
    areaType.Str? && areaType.s !in ReservedKeywords
  }

  /** Area and location names are the keys of the hierarchy, hence always strings. */
  predicate CanBeValidAreaName(name: string, areaTypes: seq<JsValue>) {
    name !in ReservedKeywords && Str(name) !in areaTypes
  }

  /** The five connection fields of a location record must all be truthy. */
  predicate CanBeValidLocation(location: JsValue) {
    Truthy(Get(location, "openfaas_gateway")) && Truthy(Get(location, "openfaas_password"))
    && Truthy(Get(location, "redis_host")) && Truthy(Get(location, "redis_port"))
    && Truthy(Get(location, "redis_password"))
  }

  // ---------------------------------------------------------------------------
  // Depth of an area or location.
  // ---------------------------------------------------------------------------

  /** The depth at which the search from container `c` (at depth `level`) first meets `name`, or null. */
  function LevelIn(c: JsValue, n: nat, level: nat, name: string): Option<nat>
    decreases c, 1
  {
    if n > level then LevelInAreas(c, n, level, name, 0) else LevelInLocations(c, level, name, 0)
  }

  function LevelInAreas(c: JsValue, n: nat, level: nat, name: string, i: nat): Option<nat>
    requires i <= |Props(c)|
    decreases c, 0, |Props(c)| - i
  {
    if i == |Props(c)| then None
    else
      var (key, child) := Props(c)[i];
      if key == MainLocationKey then LevelInAreas(c, n, level, name, i + 1)
      else if key == name then Some(level)
      else
        var lower := LevelIn(child, n, level + 1, name);
        if lower.Some? then lower else LevelInAreas(c, n, level, name, i + 1)
  }

  function LevelInLocations(c: JsValue, level: nat, name: string, i: nat): Option<nat>
    requires i <= |Props(c)|
    decreases |Props(c)| - i
  {
    if i == |Props(c)| then None
    else if Props(c)[i].0 == MainLocationKey then LevelInLocations(c, level, name, i + 1)
    else if Props(c)[i].0 == name then Some(level)
    else LevelInLocations(c, level, name, i + 1)
  }

  /** getAreaLevel: depth of `name` in the whole hierarchy (0 for a top-level area). */
  function GetAreaLevel(infra: Infrastructure, name: string): Option<nat> {
    LevelIn(infra.hierarchy, |infra.areaTypes|, 0, name)
  }

  function LevelOfNode(nd: Option<Node>): Option<nat> {
    if nd.Some? then Some(nd.value.level) else None
  }

  /** The level search returns the depth of the first area or location named `name` in pre-order. */
  lemma {:induction false} LevelInIsFirstNode(c: JsValue, n: nat, level: nat, parents: seq<string>, name: string)
    ensures LevelIn(c, n, level, name) == LevelOfNode(FirstNamed(Nodes(c, n, level, parents), name))
    decreases c, 1
  {
    if n > level {
      LevelInAreasIsFirstNode(c, n, level, parents, name, 0);
    } else {
      LevelInLocationsIsFirstNode(c, level, parents, name, 0);
    }
  }

  lemma {:induction false} LevelInAreasIsFirstNode(c: JsValue, n: nat, level: nat, parents: seq<string>, name: string, i: nat)
    requires i <= |Props(c)|
    ensures LevelInAreas(c, n, level, name, i) == LevelOfNode(FirstNamed(AreaNodes(c, n, level, parents, i), name))
    decreases c, 0, |Props(c)| - i
  {
    if i < |Props(c)| {
      var (key, child) := Props(c)[i];
      if key == MainLocationKey {
        assert AreaNodes(c, n, level, parents, i) == AreaNodes(c, n, level, parents, i + 1);
        LevelInAreasIsFirstNode(c, n, level, parents, name, i + 1);
      } else {
        FirstNamedAreaStep(c, n, level, parents, i, name);
        if key != name {
          LevelInIsFirstNode(child, n, level + 1, parents + [key], name);
          if LevelIn(child, n, level + 1, name).None? {
            LevelInAreasIsFirstNode(c, n, level, parents, name, i + 1);
          }
        }
      }
    }
  }

  lemma {:induction false} LevelInLocationsIsFirstNode(c: JsValue, level: nat, parents: seq<string>, name: string, i: nat)
    requires i <= |Props(c)|
    ensures LevelInLocations(c, level, name, i) == LevelOfNode(FirstNamed(LocationNodes(c, level, parents, i), name))
    decreases |Props(c)| - i
  {
    if i < |Props(c)| {
      LevelInLocationsIsFirstNode(c, level, parents, name, i + 1);
      var rest := LocationNodes(c, level, parents, i + 1);
      if Props(c)[i].0 != MainLocationKey {
        var nodes := [Node(parents, Props(c)[i].0, level, Props(c)[i].1)] + rest;
        assert LocationNodes(c, level, parents, i) == nodes;
        assert nodes[1..] == rest;
      }
    }
  }

  /**
   * getAreaLevel answers null exactly for names that occur nowhere, a depth between 0 and the
   * number of area types otherwise, and exactly that number when the first occurrence is a location.
   */
  lemma GetAreaLevelSpec(infra: Infrastructure, name: string)
    ensures GetAreaLevel(infra, name).None? <==>
      forall nd :: nd in Nodes(infra.hierarchy, |infra.areaTypes|, 0, []) ==> nd.name != name
    ensures GetAreaLevel(infra, name).Some? ==> GetAreaLevel(infra, name).value <= |infra.areaTypes|
    ensures GetAreaLevel(infra, name).Some? ==>
      (GetAreaLevel(infra, name).value == |infra.areaTypes| <==>
       |FirstNamed(Nodes(infra.hierarchy, |infra.areaTypes|, 0, []), name).value.parents| == |infra.areaTypes|)
  {
    LevelInIsFirstNode(infra.hierarchy, |infra.areaTypes|, 0, [], name);
    NodeLevels(infra.hierarchy, |infra.areaTypes|, 0, []);
  }

  // ---------------------------------------------------------------------------
  // Deployment input.
  // ---------------------------------------------------------------------------

  /** The level of `--inEvery`, -1 when it is not a possible area type. */
  function InEveryLevel(infra: Infrastructure, inEvery: JsValue): int {
    IndexOf(PossibleAreaTypes(infra), inEvery)
  }

  /** Level of an element of `--inAreas`/`--exceptIn`; only a string can equal an area name. */
  function LevelOfValue(infra: Infrastructure, areaName: JsValue): Option<nat> {
    if areaName.Str? then GetAreaLevel(infra, areaName.s) else None
  }

  /** A list argument is acceptable when absent, or an array of existing names no deeper than `inEveryLevel`. */
  predicate AreaListAccepted(infra: Infrastructure, areas: JsValue, inEveryLevel: int) {
    areas.Null? || areas.Undefined? ||
    (areas.Arr? && forall a :: a in areas.items ==>
       LevelOfValue(infra, a).Some? && LevelOfValue(infra, a).value <= inEveryLevel)
  }

  predicate DeploymentInputAccepted(infra: Infrastructure, inEvery: JsValue, inAreas: JsValue, exceptIn: JsValue) {
    inEvery in PossibleAreaTypes(infra)
    && AreaListAccepted(infra, inAreas, InEveryLevel(infra, inEvery))
    && AreaListAccepted(infra, exceptIn, InEveryLevel(infra, inEvery))
  }

  /** isDeploymentInputCorrect: true iff `--inEvery` is known and both lists are acceptable. */
  method IsDeploymentInputCorrect(infra: Infrastructure, inEvery: JsValue, inAreas: JsValue, exceptIn: JsValue)
    returns (ok: bool)
    ensures ok <==> DeploymentInputAccepted(infra, inEvery, inAreas, exceptIn)
  {
    var possible := PossibleAreaTypes(infra);
    var inEveryLevel := IndexOf(possible, inEvery);
    if inEvery !in possible {
      return false;
    }
    ok := CheckAreaList(infra, inAreas, inEveryLevel);
    if !ok {
      return;
    }
    ok := CheckAreaList(infra, exceptIn, inEveryLevel);
  }

  /** One of the two identical loops of isDeploymentInputCorrect. */
  method CheckAreaList(infra: Infrastructure, areas: JsValue, inEveryLevel: int) returns (ok: bool)
    ensures ok <==> AreaListAccepted(infra, areas, inEveryLevel)
  {
    if areas.Null? || areas.Undefined? {
      return true;
    }
    if !areas.Arr? {
      return false;
    }
    var i := 0;
    while i < |areas.items|
      invariant 0 <= i <= |areas.items|
      invariant forall j :: 0 <= j < i ==>
        LevelOfValue(infra, areas.items[j]).Some? && LevelOfValue(infra, areas.items[j]).value <= inEveryLevel
    {
      var areaLevel := LevelOfValue(infra, areas.items[i]);
      if areaLevel.None? {
        return false;
      }
      if inEveryLevel < areaLevel.value {
        return false;
      }
      i := i + 1;
    }
    return true;
  }

  // ---------------------------------------------------------------------------
  // Locations targeted by a deployment.
  // ---------------------------------------------------------------------------

  /** `--inAreas`/`--exceptIn` as the command line hands them over: absent or an array. */
  predicate ListArgument(v: JsValue) {
    v.Null? || v.Undefined? || v.Arr?
  }

  predicate ShouldBeIncluded(path: seq<string>, inAreas: JsValue)
    requires ListArgument(inAreas)
  {
    inAreas.Null? || inAreas.Undefined? || exists a :: a in path && Str(a) in inAreas.items
  }

  predicate ShouldBeExcluded(path: seq<string>, exceptIn: JsValue)
    requires ListArgument(exceptIn)
  {
    !(exceptIn.Null? || exceptIn.Undefined?) && exists a :: a in path && Str(a) in exceptIn.items
  }

  /**
   * `locationObject.location_id = name` in strict mode: an object or an array gets the field,
   * every other field and every array element unchanged; any other value throws a TypeError.
   */
  function Stamp(record: JsValue, name: string): (r: Result<JsValue, JsError>)
    ensures r.Ok? <==> record.Obj? || record.Arr?
    ensures r.Err? ==> r.error == TypeError
    ensures r.Ok? ==> Get(r.value, LocationIdKey) == Str(name)
    ensures r.Ok? ==> forall k :: k != LocationIdKey ==> Get(r.value, k) == Get(record, k)
    ensures record.Obj? ==> r.value.Obj?
    ensures record.Arr? ==> r.value.Arr? && r.value.items == record.items
  {
    SetProp(record, LocationIdKey, Str(name))
  }

  /** The one-element list holding a stamped record, or the error of stamping it. */
  function StampedList(record: JsValue, name: string): (r: Result<seq<JsValue>, JsError>)
    ensures r.Ok? <==> Stamp(record, name).Ok?
    ensures r.Ok? ==> r.value == [Stamp(record, name).value]
    ensures r.Err? ==> r.error == TypeError
  {
    match Stamp(record, name)
    case Ok(stamped) => Ok([stamped])
    case Err(err) => Err(err)
  }

  /** `a.concat(b)` where computing `a` is done first: the first error wins. */
  function JoinLists(a: Result<seq<JsValue>, JsError>, b: Result<seq<JsValue>, JsError>): (r: Result<seq<JsValue>, JsError>)
    ensures r.Ok? <==> a.Ok? && b.Ok?
    ensures r.Ok? ==> r.value == a.value + b.value
    ensures a.Err? ==> r == a
  {
    match a
    case Err(_) => a
    case Ok(front) =>
      match b
      case Err(_) => b
      case Ok(back) => Ok(front + back)
  }

  lemma JoinListsAssociative(a: seq<JsValue>, b: seq<JsValue>, rest: Result<seq<JsValue>, JsError>)
    ensures JoinLists(Ok(a), JoinLists(Ok(b), rest)) == JoinLists(Ok(a + b), rest)
  {
    if rest.Ok? {
      assert a + (b + rest.value) == a + b + rest.value;
    }
  }

  lemma JoinListsGrouping(a: Result<seq<JsValue>, JsError>, b: Result<seq<JsValue>, JsError>, rest: Result<seq<JsValue>, JsError>)
    ensures JoinLists(a, JoinLists(b, rest)) == JoinLists(JoinLists(a, b), rest)
  {
    if a.Ok? && b.Ok? {
      JoinListsAssociative(a.value, b.value, rest);
    }
  }

  lemma JoinListsEmpty(r: Result<seq<JsValue>, JsError>)
    ensures JoinLists(Ok([]), r) == r
  {
    if r.Ok? {
      assert [] + r.value == r.value;
    }
  }

  /**
   * The main-location a leaf must be, when `--inEvery` is above the location level: the one of
   * its container at depth inEveryLevel + 1; null when there is no such container.
   */
  function SingleMainLocation(leaf: Leaf, inEveryLevel: int): JsValue {
    if 0 <= inEveryLevel + 1 < |leaf.mains| then leaf.mains[inEveryLevel + 1] else Null
  }

  predicate Selected(leaf: Leaf, inEveryLevel: int, inAreas: JsValue, exceptIn: JsValue)
    requires ListArgument(inAreas) && ListArgument(exceptIn)
  {
    var single := SingleMainLocation(leaf, inEveryLevel);
    (single == Null || single == Str(leaf.name))
    && ShouldBeIncluded(leaf.parents + [leaf.name], inAreas)
    && !ShouldBeExcluded(leaf.parents + [leaf.name], exceptIn)
  }

  /**
   * The selected leaves, in order, each as its stamped record; a TypeError as soon as a
   * selected record cannot be stamped.
   */
  function SelectedRecords(leaves: seq<Leaf>, inEveryLevel: int, inAreas: JsValue, exceptIn: JsValue)
    : (r: Result<seq<JsValue>, JsError>)
    requires ListArgument(inAreas) && ListArgument(exceptIn)
    ensures r.Err? ==> r.error == TypeError
  {
    if leaves == [] then Ok([])
    else
      JoinLists(if Selected(leaves[0], inEveryLevel, inAreas, exceptIn) then StampedList(leaves[0].record, leaves[0].name) else Ok([]),
                SelectedRecords(leaves[1..], inEveryLevel, inAreas, exceptIn))
  }

  /** The selection fails exactly when a selected leaf's record is neither an object nor an array. */
  lemma {:induction false} SelectedRecordsFails(leaves: seq<Leaf>, e: int, inAreas: JsValue, exceptIn: JsValue)
    requires ListArgument(inAreas) && ListArgument(exceptIn)
    ensures SelectedRecords(leaves, e, inAreas, exceptIn).Err?
            <==> exists l :: l in leaves && Selected(l, e, inAreas, exceptIn) && !(l.record.Obj? || l.record.Arr?)
  {
    if leaves != [] {
      SelectedRecordsFails(leaves[1..], e, inAreas, exceptIn);
      assert forall m :: m in leaves <==> m == leaves[0] || m in leaves[1..];
    }
  }

  /** Otherwise the selection lists the stamped record of every selected leaf, in order. */
  lemma {:induction false} SelectedRecordsStamps(leaves: seq<Leaf>, e: int, inAreas: JsValue, exceptIn: JsValue)
    requires ListArgument(inAreas) && ListArgument(exceptIn)
    ensures var r := SelectedRecords(leaves, e, inAreas, exceptIn);
      var chosen := Chosen(leaves, e, inAreas, exceptIn);
      r.Ok? ==>
        && |r.value| == |chosen|
        && forall k :: 0 <= k < |r.value| ==> Stamp(chosen[k].record, chosen[k].name) == Ok(r.value[k])
  {
    if leaves != [] {
      var l := leaves[0];
      SelectedRecordsStamps(leaves[1..], e, inAreas, exceptIn);
      var r := SelectedRecords(leaves, e, inAreas, exceptIn);
      var tail := SelectedRecords(leaves[1..], e, inAreas, exceptIn);
      var chosen, rest := Chosen(leaves, e, inAreas, exceptIn), Chosen(leaves[1..], e, inAreas, exceptIn);
      if !Selected(l, e, inAreas, exceptIn) {
        assert chosen == rest;
        JoinListsEmpty(tail);
      } else if r.Ok? {
        assert chosen == [l] + rest;
        assert r == JoinLists(StampedList(l.record, l.name), tail);
        assert r.value == [Stamp(l.record, l.name).value] + tail.value;
        forall k | 0 <= k < |r.value|
          ensures Stamp(chosen[k].record, chosen[k].name) == Ok(r.value[k])
        {
          if k > 0 {
            assert chosen[k] == rest[k - 1] && r.value[k] == tail.value[k - 1];
          }
        }
      }
    }
  }

  /** The selected leaves themselves, in order. */
  function Chosen(leaves: seq<Leaf>, e: int, inAreas: JsValue, exceptIn: JsValue): (r: seq<Leaf>)
    requires ListArgument(inAreas) && ListArgument(exceptIn)
    ensures forall l :: l in r <==> l in leaves && Selected(l, e, inAreas, exceptIn)
  {
    if leaves == [] then []
    else (if Selected(leaves[0], e, inAreas, exceptIn) then [leaves[0]] else []) + Chosen(leaves[1..], e, inAreas, exceptIn)
  }

  lemma {:induction false} SelectedRecordsConcat(a: seq<Leaf>, b: seq<Leaf>, e: int, inAreas: JsValue, exceptIn: JsValue)
    requires ListArgument(inAreas) && ListArgument(exceptIn)
    ensures SelectedRecords(a + b, e, inAreas, exceptIn)
            == JoinLists(SelectedRecords(a, e, inAreas, exceptIn), SelectedRecords(b, e, inAreas, exceptIn))
  {
    if a == [] {
      assert a + b == b;
      JoinListsEmpty(SelectedRecords(b, e, inAreas, exceptIn));
    } else {
      var head := if Selected(a[0], e, inAreas, exceptIn) then StampedList(a[0].record, a[0].name) else Ok([]);
      assert (a + b)[0] == a[0];
      assert (a + b)[1..] == a[1..] + b;
      SelectedRecordsConcat(a[1..], b, e, inAreas, exceptIn);
      var x, y := SelectedRecords(a[1..], e, inAreas, exceptIn), SelectedRecords(b, e, inAreas, exceptIn);
      assert SelectedRecords(a + b, e, inAreas, exceptIn) == JoinLists(head, JoinLists(x, y));
      JoinListsGrouping(head, x, y);
    }
  }

  predicate Nullish(v: JsValue) {
    v.Null? || v.Undefined?
  }

  /**
   * Some container at depth inEveryLevel + 1 that the search enters is null or undefined, so
   * reading its "main-location" throws: `c` itself when it is at that depth, or the value of an
   * area one level above it.
   */
  predicate MainReadThrows(c: JsValue, n: nat, e: int, level: nat, parents: seq<string>) {
    (level == e + 1 && Nullish(c)) || NullishAreaAt(Nodes(c, n, level, parents), n, e)
  }

  predicate NullishAreaAt(nodes: seq<Node>, n: nat, e: int) {
    exists nd :: nd in nodes && nd.level == e < n && Nullish(nd.value)
  }

  /** What getListOfLocationsInAreasContainer computes, following its recursion. */
  function ListInContainer(c: JsValue, n: nat, e: int, inAreas: JsValue, exceptIn: JsValue,
                           parents: seq<string>, level: nat, single: JsValue): Result<seq<JsValue>, JsError>
    requires ListArgument(inAreas) && ListArgument(exceptIn)
    decreases c, 1
  {
    var main := if level == e + 1 then ReadProp(c, MainLocationKey) else Ok(single);
    if main.Err? then Err(main.error)
    else if n > level then ListInAreas(c, n, e, inAreas, exceptIn, parents, level, main.value, 0)
    else ListInLocations(c, e, inAreas, exceptIn, parents, main.value, 0)
  }

  function ListInAreas(c: JsValue, n: nat, e: int, inAreas: JsValue, exceptIn: JsValue,
                       parents: seq<string>, level: nat, single: JsValue, i: nat): Result<seq<JsValue>, JsError>
    requires ListArgument(inAreas) && ListArgument(exceptIn)
    requires i <= |Props(c)|
    decreases c, 0, |Props(c)| - i
  {
    if i == |Props(c)| then Ok([])
    else
      var (key, child) := Props(c)[i];
      if key == MainLocationKey then ListInAreas(c, n, e, inAreas, exceptIn, parents, level, single, i + 1)
      else JoinLists(ListInContainer(child, n, e, inAreas, exceptIn, parents + [key], level + 1, single),
                     ListInAreas(c, n, e, inAreas, exceptIn, parents, level, single, i + 1))
  }

  function ListInLocations(c: JsValue, e: int, inAreas: JsValue, exceptIn: JsValue,
                           parents: seq<string>, single: JsValue, i: nat): Result<seq<JsValue>, JsError>
    requires ListArgument(inAreas) && ListArgument(exceptIn)
    requires i <= |Props(c)|
    decreases |Props(c)| - i
  {
    if i == |Props(c)| then Ok([])
    else
      var (key, record) := Props(c)[i];
      if key == MainLocationKey || (single != Null && single != Str(key)) then
        ListInLocations(c, e, inAreas, exceptIn, parents, single, i + 1)
      else if ShouldBeIncluded(parents + [key], inAreas) && !ShouldBeExcluded(parents + [key], exceptIn) then
        JoinLists(StampedList(record, key), ListInLocations(c, e, inAreas, exceptIn, parents, single, i + 1))
      else ListInLocations(c, e, inAreas, exceptIn, parents, single, i + 1)
  }

  /**
   * The recursion throws a TypeError exactly when a container at depth inEvery+1 is null or
   * undefined or a selected record cannot be stamped; otherwise it lists exactly the leaves
   * satisfying Selected, in pre-order, stamped.
   */
  lemma {:induction false} ListInContainerIsSelection(c: JsValue, n: nat, e: int, inAreas: JsValue, exceptIn: JsValue,
                                                       parents: seq<string>, level: nat, single: JsValue, mains: seq<JsValue>)
    requires ListArgument(inAreas) && ListArgument(exceptIn)
    requires |mains| == level
    requires single == if 0 <= e + 1 < level then mains[e + 1] else Null
    ensures ListInContainer(c, n, e, inAreas, exceptIn, parents, level, single)
            == if MainReadThrows(c, n, e, level, parents) then Err(TypeError)
               else SelectedRecords(Leaves(c, n, level, parents, mains), e, inAreas, exceptIn)
    decreases c, 2
  {
    if level == e + 1 && Nullish(c) {
    } else if n > level {
      AreasContainerIsSelection(c, n, e, inAreas, exceptIn, parents, level, single, mains);
    } else {
      LocationsContainerIsSelection(c, n, e, inAreas, exceptIn, parents, level, single, mains);
    }
  }

  lemma {:induction false} AreasContainerIsSelection(c: JsValue, n: nat, e: int, inAreas: JsValue, exceptIn: JsValue,
                                                     parents: seq<string>, level: nat, single: JsValue, mains: seq<JsValue>)
    requires ListArgument(inAreas) && ListArgument(exceptIn)
    requires |mains| == level < n && !(level == e + 1 && Nullish(c))
    requires single == if 0 <= e + 1 < level then mains[e + 1] else Null
    ensures ListInContainer(c, n, e, inAreas, exceptIn, parents, level, single)
            == if MainReadThrows(c, n, e, level, parents) then Err(TypeError)
               else SelectedRecords(Leaves(c, n, level, parents, mains), e, inAreas, exceptIn)
    decreases c, 1
  {
    var mains' := mains + [Get(c, MainLocationKey)];
    var single' := if level == e + 1 then Get(c, MainLocationKey) else single;
    assert single' == if 0 <= e + 1 < level + 1 then mains'[e + 1] else Null;
    assert ListInContainer(c, n, e, inAreas, exceptIn, parents, level, single)
           == ListInAreas(c, n, e, inAreas, exceptIn, parents, level, single', 0);
    assert Nodes(c, n, level, parents) == AreaNodes(c, n, level, parents, 0);
    assert Leaves(c, n, level, parents, mains) == AreaLeaves(c, n, level, parents, mains', 0);
    ListInAreasIsSelection(c, n, e, inAreas, exceptIn, parents, level, single', mains', 0);
  }

  lemma {:induction false} LocationsContainerIsSelection(c: JsValue, n: nat, e: int, inAreas: JsValue, exceptIn: JsValue,
                                                         parents: seq<string>, level: nat, single: JsValue, mains: seq<JsValue>)
    requires ListArgument(inAreas) && ListArgument(exceptIn)
    requires |mains| == level >= n && !(level == e + 1 && Nullish(c))
    requires single == if 0 <= e + 1 < level then mains[e + 1] else Null
    ensures ListInContainer(c, n, e, inAreas, exceptIn, parents, level, single)
            == if MainReadThrows(c, n, e, level, parents) then Err(TypeError)
               else SelectedRecords(Leaves(c, n, level, parents, mains), e, inAreas, exceptIn)
  {
    var mains' := mains + [Get(c, MainLocationKey)];
    var single' := if level == e + 1 then Get(c, MainLocationKey) else single;
    assert single' == if 0 <= e + 1 < |mains'| then mains'[e + 1] else Null;
    assert ListInContainer(c, n, e, inAreas, exceptIn, parents, level, single)
           == ListInLocations(c, e, inAreas, exceptIn, parents, single', 0);
    assert Nodes(c, n, level, parents) == LocationNodes(c, level, parents, 0);
    assert Leaves(c, n, level, parents, mains) == LocationLeaves(c, parents, mains', 0);
    LocationNodeLevels(c, level, parents, 0);
    assert !NullishAreaAt(LocationNodes(c, level, parents, 0), n, e);
    ListInLocationsIsSelection(c, e, inAreas, exceptIn, parents, single', mains', 0);
  }

  lemma {:induction false} ListInAreasIsSelection(c: JsValue, n: nat, e: int, inAreas: JsValue, exceptIn: JsValue,
                                                   parents: seq<string>, level: nat, single: JsValue, mains: seq<JsValue>, i: nat)
    requires ListArgument(inAreas) && ListArgument(exceptIn)
    requires level < n && i <= |Props(c)|
    requires |mains| == level + 1
    requires single == if 0 <= e + 1 < level + 1 then mains[e + 1] else Null
    ensures ListInAreas(c, n, e, inAreas, exceptIn, parents, level, single, i)
            == if NullishAreaAt(AreaNodes(c, n, level, parents, i), n, e) then Err(TypeError)
               else SelectedRecords(AreaLeaves(c, n, level, parents, mains, i), e, inAreas, exceptIn)
    decreases c, 0, |Props(c)| - i, 1
  {
    if i < |Props(c)| {
      if Props(c)[i].0 == MainLocationKey {
        ListInAreasIsSelection(c, n, e, inAreas, exceptIn, parents, level, single, mains, i + 1);
      } else {
        AreaIsSelection(c, n, e, inAreas, exceptIn, parents, level, single, mains, i);
      }
    }
  }

  /** One area of the loop: its own listing, then the rest, joined. */
  lemma {:induction false} AreaIsSelection(c: JsValue, n: nat, e: int, inAreas: JsValue, exceptIn: JsValue,
                                           parents: seq<string>, level: nat, single: JsValue, mains: seq<JsValue>, i: nat)
    requires ListArgument(inAreas) && ListArgument(exceptIn)
    requires level < n && i < |Props(c)| && Props(c)[i].0 != MainLocationKey
    requires |mains| == level + 1
    requires single == if 0 <= e + 1 < level + 1 then mains[e + 1] else Null
    ensures ListInAreas(c, n, e, inAreas, exceptIn, parents, level, single, i)
            == if NullishAreaAt(AreaNodes(c, n, level, parents, i), n, e) then Err(TypeError)
               else SelectedRecords(AreaLeaves(c, n, level, parents, mains, i), e, inAreas, exceptIn)
    decreases c, 0, |Props(c)| - i, 0
  {
    var (key, child) := Props(c)[i];
    var below := Leaves(child, n, level + 1, parents + [key], mains);
    var rest := AreaLeaves(c, n, level, parents, mains, i + 1);
    ListInAreasIsSelection(c, n, e, inAreas, exceptIn, parents, level, single, mains, i + 1);
    ListInContainerIsSelection(child, n, e, inAreas, exceptIn, parents + [key], level + 1, single, mains);
    assert AreaLeaves(c, n, level, parents, mains, i) == below + rest;
    SelectedRecordsConcat(below, rest, e, inAreas, exceptIn);
    NullishAreaStep(c, n, e, parents, level, i);
    JoinListsThrows(MainReadThrows(child, n, e, level + 1, parents + [key]),
                    NullishAreaAt(AreaNodes(c, n, level, parents, i + 1), n, e),
                    SelectedRecords(below, e, inAreas, exceptIn), SelectedRecords(rest, e, inAreas, exceptIn));
  }

  /** An area's subtree throws when its own container does or a container below it does. */
  lemma NullishAreaStep(c: JsValue, n: nat, e: int, parents: seq<string>, level: nat, i: nat)
    requires level < n && i < |Props(c)| && Props(c)[i].0 != MainLocationKey
    ensures NullishAreaAt(AreaNodes(c, n, level, parents, i), n, e)
            <==> MainReadThrows(Props(c)[i].1, n, e, level + 1, parents + [Props(c)[i].0])
                 || NullishAreaAt(AreaNodes(c, n, level, parents, i + 1), n, e)
  {
    var (key, child) := Props(c)[i];
    var here := Node(parents, key, level, child);
    var below := Nodes(child, n, level + 1, parents + [key]);
    var rest := AreaNodes(c, n, level, parents, i + 1);
    assert AreaNodes(c, n, level, parents, i) == [here] + below + rest;
    NullishAreaAtConcat([here] + below, rest, n, e);
    NullishAreaAtConcat([here], below, n, e);
    assert forall nd :: nd in [here] <==> nd == here;
  }

  /** Joining two listings that each throw a TypeError or give their selection. */
  lemma JoinListsThrows(throwsA: bool, throwsB: bool, a: Result<seq<JsValue>, JsError>, b: Result<seq<JsValue>, JsError>)
    requires a.Err? ==> a.error == TypeError
    ensures JoinLists(if throwsA then Err(TypeError) else a, if throwsB then Err(TypeError) else b)
            == if throwsA || throwsB then Err(TypeError) else JoinLists(a, b)
  {
  }

  lemma NullishAreaAtConcat(a: seq<Node>, b: seq<Node>, n: nat, e: int)
    ensures NullishAreaAt(a + b, n, e) <==> NullishAreaAt(a, n, e) || NullishAreaAt(b, n, e)
  {
    assert forall nd :: nd in a + b <==> nd in a || nd in b;
  }

  lemma {:induction false} ListInLocationsIsSelection(c: JsValue, e: int, inAreas: JsValue, exceptIn: JsValue,
                                                       parents: seq<string>, single: JsValue, mains: seq<JsValue>, i: nat)
    requires ListArgument(inAreas) && ListArgument(exceptIn)
    requires i <= |Props(c)|
    requires single == if 0 <= e + 1 < |mains| then mains[e + 1] else Null
    ensures ListInLocations(c, e, inAreas, exceptIn, parents, single, i)
            == SelectedRecords(LocationLeaves(c, parents, mains, i), e, inAreas, exceptIn)
    decreases |Props(c)| - i
  {
    if i < |Props(c)| {
      var (key, record) := Props(c)[i];
      ListInLocationsIsSelection(c, e, inAreas, exceptIn, parents, single, mains, i + 1);
      if key != MainLocationKey {
        var leaves := LocationLeaves(c, parents, mains, i);
        assert leaves[0] == Leaf(parents, key, mains, record);
        assert leaves[1..] == LocationLeaves(c, parents, mains, i + 1);
        JoinListsEmpty(SelectedRecords(leaves[1..], e, inAreas, exceptIn));
      }
    }
  }

  /**
   * Two inputs on which the listing throws: a location record that is a number (areas []
   * and inEvery "location", so inEveryLevel 0), and a null area below the root with
   * inEvery at that area's type (inEveryLevel 0, the null container at depth 1).
   */
  lemma ListingTypeErrorExamples()
    ensures ListInContainer(Obj([(MainLocationKey, Str("x")), ("x", Int(5))]), 0, 0, Null, Null, [], 0, Null) == Err(TypeError)
    ensures ListInContainer(Obj([("europe", Null)]), 1, 0, Null, Null, [], 0, Null) == Err(TypeError)
  {
    var a := Obj([(MainLocationKey, Str("x")), ("x", Int(5))]);
    assert ListInLocations(a, 0, Null, Null, [], Null, 2) == Ok([]);
    assert ListInLocations(a, 0, Null, Null, [], Null, 1) == Err(TypeError);
    var b := Obj([("europe", Null)]);
    assert ListInContainer(Null, 1, 0, Null, Null, ["europe"], 1, Null) == Err(TypeError);
  }

  /**
   * getAllLocations: the records of the locations selected by the deployment input, in
   * for-in order, each stamped with its own name as `location_id`; a TypeError when a container
   * at depth inEvery+1 is null or undefined or a selected record is not an object.
   */
  method GetAllLocations(infra: Infrastructure, inEvery: JsValue, inAreas: JsValue, exceptIn: JsValue)
    returns (locations: Result<seq<JsValue>, JsError>)
    requires ListArgument(inAreas) && ListArgument(exceptIn)
    ensures var e := InEveryLevel(infra, inEvery);
      locations == if MainReadThrows(infra.hierarchy, |infra.areaTypes|, e, 0, []) then Err(TypeError)
                   else SelectedRecords(Leaves(infra.hierarchy, |infra.areaTypes|, 0, [], []), e, inAreas, exceptIn)
  {
    var inEveryLevel := IndexOf(PossibleAreaTypes(infra), inEvery);
    var listOfLocations: seq<JsValue> := [];
    var sub := ListOfLocationsInAreasContainer(infra.hierarchy, |infra.areaTypes|, inEveryLevel, inAreas, exceptIn, [], 0, Null);
    ListInContainerIsSelection(infra.hierarchy, |infra.areaTypes|, inEveryLevel, inAreas, exceptIn, [], 0, Null, []);
    if sub.Err? {
      return sub;
    }
    listOfLocations := listOfLocations + sub.value;
    assert listOfLocations == sub.value;
    locations := Ok(listOfLocations);
  }

  method ListOfLocationsInAreasContainer(c: JsValue, n: nat, e: int, inAreas: JsValue, exceptIn: JsValue,
                                         parents: seq<string>, level: nat, single: JsValue)
    returns (locations: Result<seq<JsValue>, JsError>)
    requires ListArgument(inAreas) && ListArgument(exceptIn)
    ensures locations == ListInContainer(c, n, e, inAreas, exceptIn, parents, level, single)
    decreases c, 1
  {
    var singleMain := if level == e + 1 then ReadProp(c, MainLocationKey) else Ok(single);
    if singleMain.Err? {
      return Err(singleMain.error);
    }
    assert ListInContainer(c, n, e, inAreas, exceptIn, parents, level, single)
           == if n > level then ListInAreas(c, n, e, inAreas, exceptIn, parents, level, singleMain.value, 0)
              else ListInLocations(c, e, inAreas, exceptIn, parents, singleMain.value, 0);
    if n > level {
      locations := ListOfLocationsInAreas(c, n, e, inAreas, exceptIn, parents, level, singleMain.value);
    } else {
      locations := ListOfLocationsInLocationsContainer(c, e, inAreas, exceptIn, parents, singleMain.value);
    }
  }

  /** The for-in loop over the areas of a container above the location level. */
  method ListOfLocationsInAreas(c: JsValue, n: nat, e: int, inAreas: JsValue, exceptIn: JsValue,
                                parents: seq<string>, level: nat, singleMain: JsValue)
    returns (locations: Result<seq<JsValue>, JsError>)
    requires ListArgument(inAreas) && ListArgument(exceptIn)
    ensures locations == ListInAreas(c, n, e, inAreas, exceptIn, parents, level, singleMain, 0)
    decreases c, 0
  {
    var listOfLocations: seq<JsValue> := [];
    var props := Props(c);
    var i := 0;
    JoinListsEmpty(ListInAreas(c, n, e, inAreas, exceptIn, parents, level, singleMain, 0));
    while i < |props|
      invariant 0 <= i <= |props|
      invariant JoinLists(Ok(listOfLocations), ListInAreas(c, n, e, inAreas, exceptIn, parents, level, singleMain, i))
                == ListInAreas(c, n, e, inAreas, exceptIn, parents, level, singleMain, 0)
    {
      var (areaName, child) := props[i];
      if areaName != MainLocationKey {
        var sub := ListOfLocationsInAreasContainer(child, n, e, inAreas, exceptIn, parents + [areaName], level + 1, singleMain);
        if sub.Err? {
          return sub;
        }
        JoinListsAssociative(listOfLocations, sub.value, ListInAreas(c, n, e, inAreas, exceptIn, parents, level, singleMain, i + 1));
        listOfLocations := listOfLocations + sub.value;
      }
      i := i + 1;
    }
    assert listOfLocations + [] == listOfLocations;
    locations := Ok(listOfLocations);
  }

  method ListOfLocationsInLocationsContainer(c: JsValue, e: int, inAreas: JsValue, exceptIn: JsValue,
                                             parents: seq<string>, single: JsValue)
    returns (locations: Result<seq<JsValue>, JsError>)
    requires ListArgument(inAreas) && ListArgument(exceptIn)
    ensures locations == ListInLocations(c, e, inAreas, exceptIn, parents, single, 0)
  {
    var listOfLocations: seq<JsValue> := [];
    var props := Props(c);
    var i := 0;
    JoinListsEmpty(ListInLocations(c, e, inAreas, exceptIn, parents, single, 0));
    while i < |props|
      invariant 0 <= i <= |props|
      invariant JoinLists(Ok(listOfLocations), ListInLocations(c, e, inAreas, exceptIn, parents, single, i))
                == ListInLocations(c, e, inAreas, exceptIn, parents, single, 0)
    {
      var (locationName, record) := props[i];
      if locationName != MainLocationKey && !(single != Null && single != Str(locationName)) {
        var path := parents + [locationName];
        if ShouldBeIncluded(path, inAreas) && !ShouldBeExcluded(path, exceptIn) {
          var stamped := Stamp(record, locationName);
          if stamped.Err? {
            return Err(stamped.error);
          }
          JoinListsAssociative(listOfLocations, [stamped.value], ListInLocations(c, e, inAreas, exceptIn, parents, single, i + 1));
          listOfLocations := listOfLocations + [stamped.value];
        }
      }
      i := i + 1;
    }
    assert listOfLocations + [] == listOfLocations;
    locations := Ok(listOfLocations);
  }
}
