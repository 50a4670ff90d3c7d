/**
 * The on-board infrastructure lookup used by the edge database client: the location object of the
 * referring area of the own location.
 *
 * The path of the own location is found bottom-up (an inverted list that each enclosing area
 * pushes its name onto) and then reversed in place; the path element at the referring level is
 * looked up again in the hierarchy, and the object found gets `location_id` set to that name.
 */
module MainOnBoardParser {
  import opened Wrappers
  import opened JsValues
  import opened Hierarchy
  import opened EdgeOnBoardParser

  /** The sequence read backwards. */
  function Reverse<T>(s: seq<T>): (r: seq<T>)
    ensures |r| == |s|
    ensures forall k :: 0 <= k < |s| ==> r[k] == s[|s| - 1 - k]
  {
    if s == [] then [] else Reverse(s[1..]) + [s[0]]
  }

  lemma ReverseSnoc<T>(s: seq<T>, x: T)
    ensures Reverse(s + [x]) == [x] + Reverse(s)
  {
    var a, b := Reverse(s + [x]), [x] + Reverse(s);
    assert |a| == |b|;
    forall k | 0 <= k < |a|
      ensures a[k] == b[k]
    {
      if k > 0 {
        assert (s + [x])[|s| - k] == s[|s| - 1 - (k - 1)];
      }
    }
  }

  /** Pushing an enclosing area onto an inverted path puts it right after the names above it. */
  lemma PathPush(parents: seq<string>, key: string, inverted: seq<string>)
    ensures parents + Reverse(inverted + [key]) == (parents + [key]) + Reverse(inverted)
  {
    ReverseSnoc(inverted, key);
    assert parents + ([key] + Reverse(inverted)) == (parents + [key]) + Reverse(inverted);
  }

  // ---------------------------------------------------------------------------------------------
  // Path of the own location.
  // ---------------------------------------------------------------------------------------------

  /**
   * The inverted path (own name first, then each enclosing area) of the first area or location
   * named `own` below container `c`. Unlike every other loop, the scan of a locations container
   * does not skip the "main-location" key.
   */
  function InvertedPathIn(c: JsValue, n: nat, level: nat, own: string): Option<seq<string>>
    decreases c, 1
  {
    if n > level then InvertedPathInAreas(c, n, level, own, 0) else InvertedPathInLocations(c, own, 0)
  }

  function InvertedPathInAreas(c: JsValue, n: nat, level: nat, own: string, i: nat): Option<seq<string>>
    requires i <= |Props(c)|
    decreases c, 0, |Props(c)| - i
  {
    if i == |Props(c)| then None
    else
      var (key, child) := Props(c)[i];
      if key == MainLocationKey then InvertedPathInAreas(c, n, level, own, i + 1)
      else if key == own then Some([key])
      else
        var lower := InvertedPathIn(child, n, level + 1, own);
        if lower.Some? then Some(lower.value + [key]) else InvertedPathInAreas(c, n, level, own, i + 1)
  }

  function InvertedPathInLocations(c: JsValue, own: string, i: nat): Option<seq<string>>
    requires i <= |Props(c)|
    decreases |Props(c)| - i
  {
    if i == |Props(c)| then None
    else if Props(c)[i].0 == own then Some([own])
    else InvertedPathInLocations(c, own, i + 1)
  }

  /**
   * For a name other than "main-location", the search finds the first node named `own` of the
   * hierarchy listing, and the inverted path read backwards is that node's path below `parents`,
   * ending with the node itself.
   */
  lemma {:induction false} InvertedPathSpec(c: JsValue, n: nat, level: nat, own: string, parents: seq<string>)
    requires own != MainLocationKey
    ensures var r := InvertedPathIn(c, n, level, own);
      var nd := FirstNamed(Nodes(c, n, level, parents), own);
      && (r.None? <==> nd.None?)
      && (r.Some? ==> parents + Reverse(r.value) == nd.value.parents + [nd.value.name])
    decreases c, 1
  {
    if n > level {
      InvertedPathAreasSpec(c, n, level, own, parents, 0);
    } else {
      InvertedPathLocationsSpec(c, level, own, parents, 0);
    }
  }

  lemma {:induction false} InvertedPathAreasSpec(c: JsValue, n: nat, level: nat, own: string, parents: seq<string>, i: nat)
    requires own != MainLocationKey && i <= |Props(c)|
    ensures var r := InvertedPathInAreas(c, n, level, own, i);
      var nd := FirstNamed(AreaNodes(c, n, level, parents, i), own);
      && (r.None? <==> nd.None?)
      && (r.Some? ==> parents + Reverse(r.value) == nd.value.parents + [nd.value.name])
    decreases c, 0, |Props(c)| - i
  {
    if i < |Props(c)| {
      var (key, child) := Props(c)[i];
      if key == MainLocationKey {
        InvertedPathAreasSpec(c, n, level, own, parents, i + 1);
      } else if key == own {
        FirstNamedAreaStep(c, n, level, parents, i, own);
        assert InvertedPathInAreas(c, n, level, own, i) == Some([key]);
        assert Reverse([key]) == [key];
      } else {
        FirstNamedAreaStep(c, n, level, parents, i, own);
        InvertedPathSpec(child, n, level + 1, own, parents + [key]);
        var lower := InvertedPathIn(child, n, level + 1, own);
        if lower.Some? {
          assert InvertedPathInAreas(c, n, level, own, i) == Some(lower.value + [key]);
          PathPush(parents, key, lower.value);
        } else {
          InvertedPathAreasSpec(c, n, level, own, parents, i + 1);
        }
      }
    }
  }

  lemma {:induction false} InvertedPathLocationsSpec(c: JsValue, level: nat, own: string, parents: seq<string>, i: nat)
    requires own != MainLocationKey && i <= |Props(c)|
    ensures var r := InvertedPathInLocations(c, own, i);
      var nd := FirstNamed(LocationNodes(c, level, parents, i), own);
      && (r.None? <==> nd.None?)
      && (r.Some? ==> parents + Reverse(r.value) == nd.value.parents + [nd.value.name])
    decreases |Props(c)| - i
  {
    if i < |Props(c)| {
      InvertedPathLocationsSpec(c, level, own, parents, i + 1);
    }
  }

  /** The scan of one locations container, returning the one-name list on a match. */
  method PathInLocationsContainer(c: JsValue, own: string) returns (r: Option<seq<string>>)
    ensures r == InvertedPathInLocations(c, own, 0)
  {
    var props := Props(c);
    var i := 0;
    while i < |props|
      invariant 0 <= i <= |props|
      invariant InvertedPathInLocations(c, own, i) == InvertedPathInLocations(c, own, 0)
    {
      if props[i].0 == own {
        var listOfParents: seq<string> := [];
        listOfParents := listOfParents + [props[i].0];
        assert listOfParents == [own];
        return Some(listOfParents);
      }
      i := i + 1;
    }
    return None;
  }

  /** The scan of a container at depth `level`: own name first, then every enclosing area pushed. */
  method PathInContainer(c: JsValue, n: nat, level: nat, own: string) returns (r: Option<seq<string>>)
    ensures r == InvertedPathIn(c, n, level, own)
    decreases c, 1
  {
    if n > level {
      var props := Props(c);
      var i := 0;
      while i < |props|
        invariant 0 <= i <= |props|
        invariant InvertedPathInAreas(c, n, level, own, i) == InvertedPathInAreas(c, n, level, own, 0)
      {
        var (key, child) := props[i];
        if key != MainLocationKey {
          if key == own {
            return Some([key]);
          }
          var lower := PathInContainer(child, n, level + 1, own);
          if lower.Some? {
            var listOfParents := lower.value;
            listOfParents := listOfParents + [key];
            return Some(listOfParents);
          }
        }
        i := i + 1;
      }
      return None;
    } else {
      r := PathInLocationsContainer(c, own);
    }
  }

  /** `a.reverse()`: the array now holds its old contents backwards. */
  method ReverseInPlace<T>(a: array<T>)
    modifies a
    ensures a[..] == Reverse(old(a[..]))
  {
    var i := 0;
    while i < a.Length / 2
      invariant 0 <= i <= a.Length / 2
      invariant forall k :: 0 <= k < i ==> a[k] == old(a[a.Length - 1 - k]) && a[a.Length - 1 - k] == old(a[k])
      invariant forall k :: i <= k < a.Length - i ==> a[k] == old(a[k])
    {
      a[i], a[a.Length - 1 - i] := a[a.Length - 1 - i], a[i];
      i := i + 1;
    }
  }

  /** The root-first path of `own`, or the TypeError of reversing null when `own` is nowhere. */
  function PathOf(infra: Infrastructure, own: string): Result<seq<string>, JsError> {
    match InvertedPathIn(infra.hierarchy, |infra.areaTypes|, 0, own)
    case None => Err(TypeError)
    case Some(inverted) => Ok(Reverse(inverted))
  }

  /** getListOfParentsForLocationIdInHierarchy: the inverted list, reversed in place. */
  method ListOfParents(infra: Infrastructure, own: string) returns (r: Result<array<string>, JsError>)
    ensures PathOf(infra, own).Err? ==> r == Err(TypeError)
    ensures PathOf(infra, own).Ok? ==> r.Ok? && fresh(r.value) && r.value[..] == PathOf(infra, own).value
  {
    var inverted := PathInContainer(infra.hierarchy, |infra.areaTypes|, 0, own);
    if inverted.None? {
      return Err(TypeError);
    }
    var s := inverted.value;
    var list := new string[|s|](j requires 0 <= j < |s| => s[j]);
    assert list[..] == s;
    ReverseInPlace(list);
    return Ok(list);
  }

  /**
   * The path of a location or area named `own` (other than "main-location") is the root-first
   * list of the areas above its first occurrence, followed by `own` itself; one name per depth.
   */
  lemma PathOfSpec(infra: Infrastructure, own: string)
    requires own != MainLocationKey
    ensures var nd := FirstNamed(Nodes(infra.hierarchy, |infra.areaTypes|, 0, []), own);
      && (PathOf(infra, own).Err? <==> nd.None?)
      && (PathOf(infra, own).Ok? ==>
            PathOf(infra, own).value == nd.value.parents + [own]
            && |PathOf(infra, own).value| == nd.value.level + 1)
  {
    var n := |infra.areaTypes|;
    InvertedPathSpec(infra.hierarchy, n, 0, own, []);
    NodeDepths(infra.hierarchy, n, 0, []);
    var r := InvertedPathIn(infra.hierarchy, n, 0, own);
    if r.Some? {
      assert [] + Reverse(r.value) == Reverse(r.value);
    }
  }

  // ---------------------------------------------------------------------------------------------
  // Location object of a name.
  // ---------------------------------------------------------------------------------------------

  /**
   * What a matched area yields. `AsWritten`: its "main-location" entry, stamped (a TypeError for the
   * string a valid infrastructure holds there). `MainResolved`: the record of the location that
   * entry names below the area, stamped with the area's id.
   */
  datatype AreaLookup = AsWritten | MainResolved

  function AreaObject(area: JsValue, n: nat, level: nat, id: string, mode: AreaLookup): Result<Option<JsValue>, JsError> {
    match ReadProp(area, MainLocationKey)
    case Err(e) => Err(e)
    case Ok(main) =>
      if mode == MainResolved && main.Str? && RecordIn(area, n, level + 1, main.s).Some?
      then StampLocationId(RecordIn(area, n, level + 1, main.s).value, id)
      else StampLocationId(main, id)
  }

  /** The object of the first area or location named `id` below container `c`, or null. */
  function ObjectIn(c: JsValue, n: nat, level: nat, id: string, mode: AreaLookup): Result<Option<JsValue>, JsError>
    decreases c, 1
  {
    if n > level then ObjectInAreas(c, n, level, id, mode, 0) else ObjectInLocations(c, id, 0)
  }

  function ObjectInAreas(c: JsValue, n: nat, level: nat, id: string, mode: AreaLookup, i: nat): Result<Option<JsValue>, JsError>
    requires i <= |Props(c)|
    decreases c, 0, |Props(c)| - i
  {
    if i == |Props(c)| then Ok(None)
    else
      var (key, child) := Props(c)[i];
      if key == MainLocationKey then ObjectInAreas(c, n, level, id, mode, i + 1)
      else if key == id then AreaObject(child, n, level, id, mode)
      else
        var lower := ObjectIn(child, n, level + 1, id, mode);
        if lower != Ok(None) then lower else ObjectInAreas(c, n, level, id, mode, i + 1)
  }

  function ObjectInLocations(c: JsValue, id: string, i: nat): Result<Option<JsValue>, JsError>
    requires i <= |Props(c)|
    decreases |Props(c)| - i
  {
    if i == |Props(c)| then Ok(None)
    else if Props(c)[i].0 == id then StampLocationId(Props(c)[i].1, id)
    else ObjectInLocations(c, id, i + 1)
  }

  /** The object a node found by name yields: an area's (by `mode`) or a location's stamped record. */
  function NodeObject(nd: Node, n: nat, mode: AreaLookup): Result<Option<JsValue>, JsError> {
    if nd.level < n then AreaObject(nd.value, n, nd.level, nd.name, mode) else StampLocationId(nd.value, nd.name)
  }

  function ObjectOfNode(nd: Option<Node>, n: nat, mode: AreaLookup): Result<Option<JsValue>, JsError> {
    if nd.None? then Ok(None) else NodeObject(nd.value, n, mode)
  }

  /** The lookup is decided by the first node named `id`: null when there is none. */
  lemma {:induction false} ObjectInSpec(c: JsValue, n: nat, level: nat, id: string, mode: AreaLookup, parents: seq<string>)
    requires id != MainLocationKey
    ensures ObjectIn(c, n, level, id, mode) == ObjectOfNode(FirstNamed(Nodes(c, n, level, parents), id), n, mode)
    decreases c, 1
  {
    if n > level {
      ObjectInAreasSpec(c, n, level, id, mode, parents, 0);
    } else {
      ObjectInLocationsSpec(c, n, level, id, mode, parents, 0);
    }
  }

  lemma {:induction false} ObjectInAreasSpec(c: JsValue, n: nat, level: nat, id: string, mode: AreaLookup,
                                              parents: seq<string>, i: nat)
    requires id != MainLocationKey && level < n && i <= |Props(c)|
    ensures ObjectInAreas(c, n, level, id, mode, i) == ObjectOfNode(FirstNamed(AreaNodes(c, n, level, parents, i), id), n, mode)
    decreases c, 0, |Props(c)| - i
  {
    if i < |Props(c)| {
      var (key, child) := Props(c)[i];
      ObjectInAreasSpec(c, n, level, id, mode, parents, i + 1);
      if key != MainLocationKey {
        FirstNamedAreaStep(c, n, level, parents, i, id);
        if key != id {
          ObjectInSpec(child, n, level + 1, id, mode, parents + [key]);
          var nd := FirstNamed(Nodes(child, n, level + 1, parents + [key]), id);
          if nd.Some? {
            FoundNodeObject(child, n, level + 1, id, mode, parents + [key]);
          }
        }
      }
    }
  }

  /** A node found by name below a container yields an object or an error, never null. */
  lemma FoundNodeObject(c: JsValue, n: nat, level: nat, id: string, mode: AreaLookup, parents: seq<string>)
    requires FirstNamed(Nodes(c, n, level, parents), id).Some?
    ensures ObjectOfNode(FirstNamed(Nodes(c, n, level, parents), id), n, mode) != Ok(None)
  {
  }

  lemma {:induction false} ObjectInLocationsSpec(c: JsValue, n: nat, level: nat, id: string, mode: AreaLookup,
                                                  parents: seq<string>, i: nat)
    requires id != MainLocationKey && n <= level && i <= |Props(c)|
    ensures ObjectInLocations(c, id, i) == ObjectOfNode(FirstNamed(LocationNodes(c, level, parents, i), id), n, mode)
    decreases |Props(c)| - i
  {
    if i < |Props(c)| {
      var (key, record) := Props(c)[i];
      var rest := LocationNodes(c, level, parents, i + 1);
      if key == MainLocationKey {
        assert LocationNodes(c, level, parents, i) == rest;
        ObjectInLocationsSpec(c, n, level, id, mode, parents, i + 1);
      } else {
        var nodes := [Node(parents, key, level, record)] + rest;
        assert LocationNodes(c, level, parents, i) == nodes;
        if key != id {
          assert nodes[1..] == rest;
          ObjectInLocationsSpec(c, n, level, id, mode, parents, i + 1);
        }
      }
    }
  }

  /** getLocationObjectInHierarchy. */
  function ObjectOf(infra: Infrastructure, id: string, mode: AreaLookup): Result<Option<JsValue>, JsError> {
    ObjectIn(infra.hierarchy, |infra.areaTypes|, 0, id, mode)
  }

  /**
   * getLocationObjectOfReferringAreaInInfrastructure: the object of the path element at the
   * referring level. An index outside the path reads undefined, which no key equals, so the
   * lookup then finds nothing.
   */
  function ReferringAreaObject(infra: Infrastructure, own: string, ref: int, mode: AreaLookup): Result<Option<JsValue>, JsError> {
    match PathOf(infra, own)
    case Err(e) => Err(e)
    case Ok(path) => if 0 <= ref < |path| then ObjectOf(infra, path[ref], mode) else Ok(None)
  }

  method LocationObjectOfReferringArea(infra: Infrastructure, own: string, ref: int, mode: AreaLookup)
    returns (r: Result<Option<JsValue>, JsError>)
    ensures r == ReferringAreaObject(infra, own, ref, mode)
  {
    var parents := ListOfParents(infra, own);
    if parents.Err? {
      return Err(parents.error);
    }
    var list := parents.value;
    if 0 <= ref < list.Length {
      r := ObjectOf(infra, list[ref], mode);
    } else {
      r := Ok(None);
    }
  }

  /**
   * The referring object of `own` is the object of its ancestor at depth `ref` (of `own` itself
   * when `ref` is its own depth), null for a depth outside its path, and a TypeError when `own`
   * is in no container.
   */
  lemma ReferringAreaObjectSpec(infra: Infrastructure, own: string, ref: int, mode: AreaLookup)
    requires own != MainLocationKey
    ensures var nd := FirstNamed(Nodes(infra.hierarchy, |infra.areaTypes|, 0, []), own);
      var r := ReferringAreaObject(infra, own, ref, mode);
      && (nd.None? ==> r == Err(TypeError))
      && (nd.Some? ==> |nd.value.parents| == nd.value.level)
      && (nd.Some? && 0 <= ref < nd.value.level ==> r == ObjectOf(infra, nd.value.parents[ref], mode))
      && (nd.Some? && ref == nd.value.level ==> r == ObjectOf(infra, own, mode))
      && (nd.Some? && !(0 <= ref <= nd.value.level) ==> r == Ok(None))
  {
    PathOfSpec(infra, own);
  }

  /**
   * The object of a name other than "main-location" is decided by the first area or location of
   * that name: null when there is none, a location's record stamped with the name, and for an area
   * the object `AreaObject` gives.
   */
  lemma ObjectOfSpec(infra: Infrastructure, id: string, mode: AreaLookup)
    requires id != MainLocationKey
    ensures var nd := FirstNamed(Nodes(infra.hierarchy, |infra.areaTypes|, 0, []), id);
      var r := ObjectOf(infra, id, mode);
      && (r == Ok(None) <==> nd.None?)
      && (nd.Some? && nd.value.level < |infra.areaTypes| ==>
            r == AreaObject(nd.value.value, |infra.areaTypes|, nd.value.level, id, mode))
      && (nd.Some? && nd.value.level >= |infra.areaTypes| ==> r == StampLocationId(nd.value.value, id))
  {
    ObjectInSpec(infra.hierarchy, |infra.areaTypes|, 0, id, mode, []);
    if FirstNamed(Nodes(infra.hierarchy, |infra.areaTypes|, 0, []), id).Some? {
      FoundNodeObject(infra.hierarchy, |infra.areaTypes|, 0, id, mode, []);
    }
  }

  /**
   * As written, an area whose "main-location" is a name (as validation demands) cannot be looked
   * up: stamping `location_id` on a string throws in strict mode.
   */
  lemma AreaLookupAsWrittenThrows(area: JsValue, n: nat, level: nat, id: string)
    requires Get(area, MainLocationKey).Str?
    ensures AreaObject(area, n, level, id, AsWritten) == Err(TypeError)
  {
  }

  /**
   * Resolved, an area whose "main-location" names a location record below it yields that record
   * stamped with the area's id, every other field unchanged.
   */
  lemma AreaLookupResolved(area: JsValue, n: nat, level: nat, id: string)
    requires Get(area, MainLocationKey).Str?
    requires RecordIn(area, n, level + 1, Get(area, MainLocationKey).s).Some?
    requires RecordIn(area, n, level + 1, Get(area, MainLocationKey).s).value.Obj?
          || RecordIn(area, n, level + 1, Get(area, MainLocationKey).s).value.Arr?
    ensures var record := RecordIn(area, n, level + 1, Get(area, MainLocationKey).s).value;
      var r := AreaObject(area, n, level, id, MainResolved);
      && r.Ok? && r.value.Some?
      && Get(r.value.value, LocationIdKey) == Str(id)
      && forall k :: k != LocationIdKey ==> Get(r.value.value, k) == Get(record, k)
  {
  }
}
