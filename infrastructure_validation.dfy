/**
 * isInfrastructureJsonCorrect (edge-deployer-cli/main/utils/infrastructureParser.js): the
 * validation of an infrastructure file. Names are checked for uniqueness against a list that
 * grows as the hierarchy is walked, so the specification threads that list through.
 */
module InfrastructureValidation {
  import opened Wrappers
  import opened JsValues
  import opened Hierarchy
  import opened InfrastructureParser

  /** true, a falsy result (false or undefined), or an exception. */
  datatype Verdict = Pass | Fail | Throws(error: JsError)

  /**
   * Where the check of a container's main-location starts its search. The code starts at
   * depth 0 whatever the container's depth; FromOwnLevel is the evident intent.
   */
  datatype MainSearch = FromLevelZero | FromOwnLevel

  /** The value the validation loop is left holding for "main-location": the last one, or "". */
  function LastValueOr(props: seq<(string, JsValue)>, key: string, default: JsValue): JsValue {
    if props == [] then default
    else if props[|props| - 1].0 == key then props[|props| - 1].1
    else LastValueOr(props[..|props| - 1], key, default)
  }

  function MainLocationOf(c: JsValue): JsValue {
    LastValueOr(Props(c), MainLocationKey, Str(""))
  }

  /**
   * isMainLocationFieldCorrect: reading `.length` of null throws; a non-empty string must be
   * found by the level search below the container; anything else is falsy.
   */
  function MainLocationVerdict(c: JsValue, n: nat, level: nat, mode: MainSearch): (v: Verdict)
    ensures v == Pass ==> exists name :: MainLocationOf(c) == Str(name) && name != ""
  {
    MainFieldVerdict(MainLocationOf(c), c, n, level, mode)
  }

  function MainFieldVerdict(main: JsValue, c: JsValue, n: nat, level: nat, mode: MainSearch): Verdict {
    if main.Null? || main.Undefined? then Throws(TypeError)
    else if main.Str? && |main.s| > 0 then
      (if LevelIn(c, n, if mode.FromLevelZero? then 0 else level, main.s).Some? then Pass else Fail)
    else Fail
  }

  /** canBeValidLocation: a property read on null or undefined throws. */
  function LocationVerdict(location: JsValue): Verdict {
    if location.Null? || location.Undefined? then Throws(TypeError)
    else if CanBeValidLocation(location) then Pass
    else Fail
  }

  /** isAreasContainerCorrect: the verdict and the list of names seen so far. */
  function CheckContainer(c: JsValue, areaTypes: seq<JsValue>, level: nat, mode: MainSearch, seen: seq<string>)
    : (Verdict, seq<string>)
    decreases c, 1
  {
    if |areaTypes| > level then
      var r := CheckAreas(c, areaTypes, level, mode, seen, 0);
      if r.0 != Pass || level == 0 then r
      else (MainLocationVerdict(c, |areaTypes|, level, mode), r.1)
    else
      var r := CheckLocations(c, areaTypes, seen, 0);
      if r.0 != Pass then r
      else (MainLocationVerdict(c, |areaTypes|, level, mode), r.1)
  }

  function CheckAreas(c: JsValue, areaTypes: seq<JsValue>, level: nat, mode: MainSearch, seen: seq<string>, i: nat)
    : (Verdict, seq<string>)
    requires i <= |Props(c)|
    decreases c, 0, |Props(c)| - i
  {
    if i == |Props(c)| then (Pass, seen)
    else
      var (key, child) := Props(c)[i];
      if key == MainLocationKey then CheckAreas(c, areaTypes, level, mode, seen, i + 1)
      else if key in seen || !CanBeValidAreaName(key, areaTypes) then (Fail, seen + [key])
      else
        var sub := CheckContainer(child, areaTypes, level + 1, mode, seen + [key]);
        if sub.0 != Pass then sub else CheckAreas(c, areaTypes, level, mode, sub.1, i + 1)
  }

  /** isLocationsContainerCorrect's loop. */
  function CheckLocations(c: JsValue, areaTypes: seq<JsValue>, seen: seq<string>, i: nat): (Verdict, seq<string>)
    requires i <= |Props(c)|
    decreases |Props(c)| - i
  {
    if i == |Props(c)| then (Pass, seen)
    else
      var (key, record) := Props(c)[i];
      if key == MainLocationKey then CheckLocations(c, areaTypes, seen, i + 1)
      else if key in seen || !CanBeValidAreaName(key, areaTypes) then (Fail, seen + [key])
      else if LocationVerdict(record) != Pass then (LocationVerdict(record), seen + [key])
      else CheckLocations(c, areaTypes, seen + [key], i + 1)
  }

  /** isInfrastructureJsonCorrect. */
  function InfrastructureVerdict(infra: JsValue, mode: MainSearch): (v: Verdict)
    ensures !Truthy(Get(infra, "hierarchy")) ==> v != Pass
    ensures !Get(infra, "areaTypesIdentifiers").Arr? ==> v != Pass
    ensures v == Pass ==> forall t :: t in Get(infra, "areaTypesIdentifiers").items ==> CanBeValidAreaType(t)
  {
    if infra.Null? || infra.Undefined? then Throws(TypeError)
    else
      var hierarchy := Get(infra, "hierarchy");
      var areaTypes := Get(infra, "areaTypesIdentifiers");
      if !Truthy(hierarchy) then Fail
      else if !Truthy(areaTypes) then Fail
      else if !areaTypes.Arr? then Fail
      else if !(forall t :: t in areaTypes.items ==> CanBeValidAreaType(t)) then Fail
      else CheckContainer(hierarchy, areaTypes.items, 0, mode, []).0
  }

  // ---------------------------------------------------------------------------
  // The same verdict stated without the list of seen names.
  // ---------------------------------------------------------------------------

  /** Every name is valid, every location record is valid, every main-location is found. */
  predicate WellFormed(c: JsValue, areaTypes: seq<JsValue>, level: nat, mode: MainSearch)
    decreases c, 1
  {
    if |areaTypes| > level then
      AreasWellFormed(c, areaTypes, level, mode, 0)
      && (level == 0 || MainLocationVerdict(c, |areaTypes|, level, mode) == Pass)
    else
      LocationsWellFormed(c, areaTypes, 0) && MainLocationVerdict(c, |areaTypes|, level, mode) == Pass
  }

  predicate AreasWellFormed(c: JsValue, areaTypes: seq<JsValue>, level: nat, mode: MainSearch, i: nat)
    requires i <= |Props(c)|
    decreases c, 0, |Props(c)| - i
  {
    i == |Props(c)| ||
    ((Props(c)[i].0 == MainLocationKey ||
      (CanBeValidAreaName(Props(c)[i].0, areaTypes) && WellFormed(Props(c)[i].1, areaTypes, level + 1, mode)))
     && AreasWellFormed(c, areaTypes, level, mode, i + 1))
  }

  predicate LocationsWellFormed(c: JsValue, areaTypes: seq<JsValue>, i: nat)
    requires i <= |Props(c)|
    decreases |Props(c)| - i
  {
    i == |Props(c)| ||
    ((Props(c)[i].0 == MainLocationKey ||
      (CanBeValidAreaName(Props(c)[i].0, areaTypes) && CanBeValidLocation(Props(c)[i].1)))
     && LocationsWellFormed(c, areaTypes, i + 1))
  }

  /** Each name differs from the names already seen and from the ones before it. */
  predicate Fresh(seen: seq<string>, names: seq<string>)
    decreases |names|
  {
    names == [] || (names[0] !in seen && Fresh(seen + [names[0]], names[1..]))
  }

  predicate NoDuplicates(names: seq<string>) {
    forall i, j :: 0 <= i < j < |names| ==> names[i] != names[j]
  }

  lemma {:induction false} FreshConcat(seen: seq<string>, a: seq<string>, b: seq<string>)
    decreases |a|
    ensures Fresh(seen, a + b) <==> Fresh(seen, a) && Fresh(seen + a, b)
  {
    if a == [] {
      assert a + b == b && seen + a == seen;
    } else {
      assert (a + b)[0] == a[0] && (a + b)[1..] == a[1..] + b;
      assert seen + [a[0]] + a[1..] == seen + a;
      FreshConcat(seen + [a[0]], a[1..], b);
    }
  }

  lemma FreshPrefix(seen: seq<string>, name: string, rest: seq<string>)
    ensures Fresh(seen, [name] + rest) <==> name !in seen && Fresh(seen + [name], rest)
  {
    assert ([name] + rest)[0] == name && ([name] + rest)[1..] == rest;
  }

  lemma {:induction false} FreshMeansDistinct(seen: seq<string>, names: seq<string>)
    decreases |names|
    ensures Fresh(seen, names) <==> NoDuplicates(names) && forall x :: x in names ==> x !in seen
  {
    if names != [] {
      FreshMeansDistinct(seen + [names[0]], names[1..]);
      assert names == [names[0]] + names[1..];
      if NoDuplicates(names) {
        assert NoDuplicates(names[1..]) by {
          forall i, j | 0 <= i < j < |names[1..]|
            ensures names[1..][i] != names[1..][j]
          {
            assert names[1..][i] == names[i + 1] && names[1..][j] == names[j + 1];
          }
        }
      }
      if NoDuplicates(names[1..]) && names[0] !in names[1..] {
        forall i, j | 0 <= i < j < |names|
          ensures names[i] != names[j]
        {
          if i > 0 {
            assert names[i] == names[1..][i - 1] && names[j] == names[1..][j - 1];
          } else {
            assert names[j] == names[1..][j - 1];
          }
        }
      }
    }
  }

  lemma FreshFromNothing(names: seq<string>)
    ensures Fresh([], names) <==> NoDuplicates(names)
  {
    FreshMeansDistinct([], names);
  }

  /**
   * The threaded check passes iff the container is well formed and its names are fresh with
   * respect to those seen before; when it passes, exactly its names have been added.
   */
  lemma {:induction false} CheckContainerSpec(c: JsValue, areaTypes: seq<JsValue>, level: nat, mode: MainSearch,
                                              seen: seq<string>, parents: seq<string>)
    ensures var r := CheckContainer(c, areaTypes, level, mode, seen);
      (r.0 == Pass <==> WellFormed(c, areaTypes, level, mode) && Fresh(seen, Names(Nodes(c, |areaTypes|, level, parents))))
      && (r.0 == Pass ==> r.1 == seen + Names(Nodes(c, |areaTypes|, level, parents)))
    decreases c, 1
  {
    if |areaTypes| > level {
      CheckAreasSpec(c, areaTypes, level, mode, seen, parents, 0);
    } else {
      CheckLocationsSpec(c, areaTypes, level, seen, parents, 0);
    }
  }

  lemma {:induction false} CheckAreasSpec(c: JsValue, areaTypes: seq<JsValue>, level: nat, mode: MainSearch,
                                          seen: seq<string>, parents: seq<string>, i: nat)
    requires i <= |Props(c)|
    ensures var r := CheckAreas(c, areaTypes, level, mode, seen, i);
      var names := Names(AreaNodes(c, |areaTypes|, level, parents, i));
      (r.0 == Pass <==> AreasWellFormed(c, areaTypes, level, mode, i) && Fresh(seen, names))
      && (r.0 == Pass ==> r.1 == seen + names)
    decreases c, 0, |Props(c)| - i
  {
    var n := |areaTypes|;
    if i == |Props(c)| {
      assert Names(AreaNodes(c, n, level, parents, i)) == [];
    } else if Props(c)[i].0 == MainLocationKey {
      CheckAreasSpec(c, areaTypes, level, mode, seen, parents, i + 1);
    } else {
      var (key, child) := Props(c)[i];
      var below := Nodes(child, n, level + 1, parents + [key]);
      var rest := AreaNodes(c, n, level, parents, i + 1);
      var namesBelow := Names(below);
      var namesRest := Names(rest);
      AreaNamesSplit(c, n, level, parents, i);
      FreshPrefix(seen, key, namesBelow + namesRest);
      if key in seen || !CanBeValidAreaName(key, areaTypes) {
      } else {
        FreshConcat(seen + [key], namesBelow, namesRest);
        CheckContainerSpec(child, areaTypes, level + 1, mode, seen + [key], parents + [key]);
        var sub := CheckContainer(child, areaTypes, level + 1, mode, seen + [key]);
        if sub.0 == Pass {
          CheckAreasSpec(c, areaTypes, level, mode, sub.1, parents, i + 1);
          AppendAssociative(seen + [key], namesBelow, namesRest);
          AppendAssociative(seen, [key], namesBelow + namesRest);
        }
      }
    }
  }

  lemma AreaNamesSplit(c: JsValue, n: nat, level: nat, parents: seq<string>, i: nat)
    requires i < |Props(c)| && Props(c)[i].0 != MainLocationKey
    ensures var (key, child) := Props(c)[i];
      Names(AreaNodes(c, n, level, parents, i))
      == [key] + (Names(Nodes(child, n, level + 1, parents + [key])) + Names(AreaNodes(c, n, level, parents, i + 1)))
  {
    var (key, child) := Props(c)[i];
    var below := Nodes(child, n, level + 1, parents + [key]);
    var rest := AreaNodes(c, n, level, parents, i + 1);
    assert AreaNodes(c, n, level, parents, i) == [Node(parents, key, level, child)] + (below + rest);
    NamesConcat([Node(parents, key, level, child)], below + rest);
    NamesConcat(below, rest);
  }

  lemma {:induction false} CheckLocationsSpec(c: JsValue, areaTypes: seq<JsValue>, level: nat,
                                              seen: seq<string>, parents: seq<string>, i: nat)
    requires i <= |Props(c)|
    ensures var r := CheckLocations(c, areaTypes, seen, i);
      var names := Names(LocationNodes(c, level, parents, i));
      (r.0 == Pass <==> LocationsWellFormed(c, areaTypes, i) && Fresh(seen, names))
      && (r.0 == Pass ==> r.1 == seen + names)
    decreases |Props(c)| - i
  {
    var r := CheckLocations(c, areaTypes, seen, i);
    var names := Names(LocationNodes(c, level, parents, i));
    if i == |Props(c)| {
      assert names == [];
    } else if Props(c)[i].0 == MainLocationKey {
      CheckLocationsSpec(c, areaTypes, level, seen, parents, i + 1);
    } else {
      var key := Props(c)[i].0;
      var record := Props(c)[i].1;
      var rest := Names(LocationNodes(c, level, parents, i + 1));
      LocationNamesSplit(c, level, parents, i);
      assert names == [key] + rest;
      FreshPrefix(seen, key, rest);
      if key in seen {
        assert r.0 == Fail;
        assert !Fresh(seen, names);
      } else if !CanBeValidAreaName(key, areaTypes) {
        assert r.0 == Fail;
        assert !LocationsWellFormed(c, areaTypes, i);
      } else if LocationVerdict(record) != Pass {
        assert r.0 == LocationVerdict(record);
        assert !CanBeValidLocation(record);
        assert !LocationsWellFormed(c, areaTypes, i);
      } else {
        assert r == CheckLocations(c, areaTypes, seen + [key], i + 1);
        assert LocationsWellFormed(c, areaTypes, i) == LocationsWellFormed(c, areaTypes, i + 1);
        CheckLocationsSpec(c, areaTypes, level, seen + [key], parents, i + 1);
        AppendAssociative(seen, [key], rest);
      }
    }
  }

  lemma LocationNamesSplit(c: JsValue, level: nat, parents: seq<string>, i: nat)
    requires i < |Props(c)| && Props(c)[i].0 != MainLocationKey
    ensures Names(LocationNodes(c, level, parents, i)) == [Props(c)[i].0] + Names(LocationNodes(c, level, parents, i + 1))
  {
    var rest := LocationNodes(c, level, parents, i + 1);
    assert LocationNodes(c, level, parents, i) == [Node(parents, Props(c)[i].0, level, Props(c)[i].1)] + rest;
    NamesConcat([Node(parents, Props(c)[i].0, level, Props(c)[i].1)], rest);
  }

  /**
   * An infrastructure is correct iff its hierarchy is present, its area types form an array of
   * strings that are not reserved, every part of its hierarchy is well formed, and no area or
   * location name occurs twice.
   */
  lemma InfrastructureVerdictSpec(infra: JsValue, mode: MainSearch)
    ensures InfrastructureVerdict(infra, mode) == Pass <==>
      (infra.Obj? || infra.Arr?) && Truthy(Get(infra, "hierarchy")) && Get(infra, "areaTypesIdentifiers").Arr?
      && (forall t :: t in Get(infra, "areaTypesIdentifiers").items ==> CanBeValidAreaType(t))
      && WellFormed(Get(infra, "hierarchy"), Get(infra, "areaTypesIdentifiers").items, 0, mode)
      && NoDuplicates(Names(Nodes(Get(infra, "hierarchy"), |Get(infra, "areaTypesIdentifiers").items|, 0, [])))
  {
    var hierarchy := Get(infra, "hierarchy");
    var areaTypes := Get(infra, "areaTypesIdentifiers");
    if areaTypes.Arr? {
      CheckContainerSpec(hierarchy, areaTypes.items, 0, mode, [], []);
      FreshFromNothing(Names(Nodes(hierarchy, |areaTypes.items|, 0, [])));
    }
  }

  // ---------------------------------------------------------------------------
  // The main-location search as written, and a file it wrongly accepts.
  // ---------------------------------------------------------------------------

  const Milan001: JsValue :=
    Obj([("openfaas_gateway", Str("http://10.0.0.1:31112")), ("openfaas_password", Str("pw")),
         ("redis_host", Str("10.0.0.1")), ("redis_port", Int(6379)), ("redis_password", Str("pw"))])

  /** The locations container of the city "milan", whose main-location names a field of its only record. */
  const MilanContainer: JsValue := Obj([("main-location", Str("redis_host")), ("milan001", Milan001)])

  const RecordFieldAsMainLocation: JsValue :=
    Obj([("areaTypesIdentifiers", Arr([Str("city")], [])), ("hierarchy", Obj([("milan", MilanContainer)]))])

  /**
   * Searching from depth 0 treats the location records of milan's container as containers, so
   * the record field "redis_host" counts as a name found below milan: the file is accepted.
   * Searching from the container's own depth looks at location names only and rejects it.
   */
  lemma MainLocationSearchedFromLevelZero()
    ensures InfrastructureVerdict(RecordFieldAsMainLocation, FromLevelZero) == Pass
    ensures InfrastructureVerdict(RecordFieldAsMainLocation, FromOwnLevel) == Fail
  {
    MilanContainerFacts();
    var types := [Str("city")];
    assert CheckContainer(MilanContainer, types, 1, FromLevelZero, ["milan"]) == (Pass, ["milan", "milan001"]);
    assert CheckContainer(MilanContainer, types, 1, FromOwnLevel, ["milan"]) == (Fail, ["milan", "milan001"]);
    HierarchyVerdict(FromLevelZero);
    HierarchyVerdict(FromOwnLevel);
  }

  /** The verdict on the whole file is the verdict on milan's container. */
  lemma HierarchyVerdict(mode: MainSearch)
    ensures InfrastructureVerdict(RecordFieldAsMainLocation, mode)
            == CheckContainer(MilanContainer, [Str("city")], 1, mode, ["milan"]).0
  {
    var types := [Str("city")];
    var h := Obj([("milan", MilanContainer)]);
    var sub := CheckContainer(MilanContainer, types, 1, mode, ["milan"]);
    assert Props(h) == [("milan", MilanContainer)];
    assert CheckAreas(h, types, 0, mode, sub.1, 1) == (Pass, sub.1);
    assert [] + ["milan"] == ["milan"];
    assert CanBeValidAreaName("milan", types) && "milan" != MainLocationKey;
    assert CheckAreas(h, types, 0, mode, [], 0).0 == sub.0;
    var p := Props(RecordFieldAsMainLocation);
    assert p[0] == ("areaTypesIdentifiers", Arr(types, []));
    assert p[1..] == [("hierarchy", h)];
    assert Lookup(p[1..], "hierarchy") == h;
    assert Get(RecordFieldAsMainLocation, "hierarchy") == h;
    assert Get(RecordFieldAsMainLocation, "areaTypesIdentifiers") == Arr(types, []);
    assert CanBeValidAreaType(Str("city"));
  }

  lemma MilanContainerFacts()
    ensures MainLocationOf(MilanContainer) == Str("redis_host")
    ensures LevelIn(MilanContainer, 1, 0, "redis_host") == Some(1)
    ensures LevelIn(MilanContainer, 1, 1, "redis_host") == None
    ensures CheckLocations(MilanContainer, [Str("city")], ["milan"], 0) == (Pass, ["milan", "milan001"])
  {
    var p := Props(MilanContainer);
    assert p == [(MainLocationKey, Str("redis_host")), ("milan001", Milan001)];
    assert p[..|p| - 1] == [(MainLocationKey, Str("redis_host"))];
    assert p[|p| - 1].0 != MainLocationKey;
    assert LastValueOr(p[..|p| - 1], MainLocationKey, Str("")) == Str("redis_host");
    MilanRecordKeyFound();
    assert LevelInAreas(MilanContainer, 1, 0, "redis_host", 1) == Some(1);
    assert LevelInLocations(MilanContainer, 1, "redis_host", 1) == None;
    MilanLocationChecked();
  }

  lemma MilanRecordKeyFound()
    ensures LevelIn(Milan001, 1, 1, "redis_host") == Some(1)
  {
    assert Props(Milan001)[0].0 == "openfaas_gateway";
    assert Props(Milan001)[1].0 == "openfaas_password";
    assert Props(Milan001)[2].0 == "redis_host";
    assert LevelInLocations(Milan001, 1, "redis_host", 2) == Some(1);
  }

  lemma MilanLocationChecked()
    ensures CheckLocations(MilanContainer, [Str("city")], ["milan"], 1) == (Pass, ["milan", "milan001"])
  {
    MilanRecordValid();
    assert CanBeValidAreaName("milan001", [Str("city")]);
    assert Props(MilanContainer)[1] == ("milan001", Milan001);
    assert "milan001" !in ["milan"];
    assert LocationVerdict(Milan001) == Pass;
    assert ["milan"] + ["milan001"] == ["milan", "milan001"];
    assert CheckLocations(MilanContainer, [Str("city")], ["milan", "milan001"], 2) == (Pass, ["milan", "milan001"]);
  }

  lemma MilanRecordValid()
    ensures CanBeValidLocation(Milan001)
  {
    var p := Props(Milan001);
    assert Lookup(p, "openfaas_gateway") == Str("http://10.0.0.1:31112");
    assert Lookup(p[1..], "openfaas_password") == Str("pw");
    assert Lookup(p[2..], "redis_host") == Str("10.0.0.1");
    assert Lookup(p[3..], "redis_port") == Int(6379);
    assert Lookup(p[4..], "redis_password") == Str("pw");
  }

  /** With the search started at the container's own depth, an accepted main-location names an area or location below it. */
  lemma {:induction false} MainLocationNamesNodeBelow(c: JsValue, n: nat, level: nat)
    requires MainLocationVerdict(c, n, level, FromOwnLevel) == Pass
    ensures exists nd :: nd in Nodes(c, n, level, []) && Str(nd.name) == MainLocationOf(c)
  {
    var main := MainLocationOf(c);
    LevelInIsFirstNode(c, n, level, [], main.s);
    var nd := FirstNamed(Nodes(c, n, level, []), main.s).value;
    assert nd in Nodes(c, n, level, []);
  }

  // ---------------------------------------------------------------------------
  // The validation as the code runs it, with its list of names seen so far.
  // ---------------------------------------------------------------------------

  /** The module-level `areaNames` list and the functions that reset it and push to it. */
  class InfrastructureChecker {
    /**
     * Where the main-location check searches: FromLevelZero is the code as written,
     * FromOwnLevel the evident intent.
     */
    const mainSearch: MainSearch
    var areaNames: seq<string>

    constructor(mainSearch: MainSearch)
      ensures this.mainSearch == mainSearch
      ensures areaNames == []
    {
      this.mainSearch := mainSearch;
      areaNames := [];
    }

    /** isInfrastructureJsonCorrect, with the main-location search of this checker. */
    method IsInfrastructureJsonCorrect(infra: JsValue) returns (v: Verdict)
      modifies this
      ensures v == InfrastructureVerdict(infra, mainSearch)
    {
      if infra.Null? || infra.Undefined? {
        return Throws(TypeError);
      }
      var areaTypes := Get(infra, "areaTypesIdentifiers");
      var hierarchy := Get(infra, "hierarchy");
      if !Truthy(hierarchy) {
        return Fail;
      } else if !Truthy(areaTypes) {
        return Fail;
      } else if !areaTypes.Arr? {
        return Fail;
      } else if !(forall t :: t in areaTypes.items ==> CanBeValidAreaType(t)) {
        return Fail;
      }
      v := IsHierarchyObjectCorrect(hierarchy, areaTypes.items);
    }

    /** Resets the list of seen names, so a verdict never depends on an earlier validation. */
    method IsHierarchyObjectCorrect(hierarchy: JsValue, areaTypes: seq<JsValue>) returns (v: Verdict)
      modifies this
      ensures (v, areaNames) == CheckContainer(hierarchy, areaTypes, 0, mainSearch, [])
    {
      areaNames := [];
      v := IsAreasContainerCorrect(hierarchy, areaTypes, 0);
    }

    method IsAreasContainerCorrect(c: JsValue, areaTypes: seq<JsValue>, level: nat) returns (v: Verdict)
      modifies this
      ensures (v, areaNames) == CheckContainer(c, areaTypes, level, mainSearch, old(areaNames))
      decreases c, 1
    {
      if |areaTypes| <= level {
        v := IsLocationsContainerCorrect(c, areaTypes, level);
        return;
      }
      var mainLocation := Str("");
      var props := Props(c);
      ghost var seen0 := areaNames;
      var i := 0;
      while i < |props|
        invariant 0 <= i <= |props|
        invariant CheckAreas(c, areaTypes, level, mainSearch, areaNames, i)
                  == CheckAreas(c, areaTypes, level, mainSearch, seen0, 0)
        invariant mainLocation == LastValueOr(props[..i], MainLocationKey, Str(""))
      {
        var (areaName, child) := props[i];
        assert props[..i + 1][..i] == props[..i];
        if areaName == MainLocationKey {
          mainLocation := child;
        } else {
          var valid := CanBeValidArea(areaName, areaTypes);
          if !valid {
            return Fail;
          }
          var sub := IsAreasContainerCorrect(child, areaTypes, level + 1);
          if sub != Pass {
            return sub;
          }
        }
        i := i + 1;
      }
      assert props[..i] == props;
      if level == 0 {
        return Pass;
      }
      v := MainFieldVerdict(mainLocation, c, |areaTypes|, level, mainSearch);
    }

    method IsLocationsContainerCorrect(c: JsValue, areaTypes: seq<JsValue>, level: nat) returns (v: Verdict)
      requires |areaTypes| <= level
      modifies this
      ensures (v, areaNames) == CheckContainer(c, areaTypes, level, mainSearch, old(areaNames))
    {
      var mainLocation := Str("");
      var props := Props(c);
      ghost var seen0 := areaNames;
      var i := 0;
      while i < |props|
        invariant 0 <= i <= |props|
        invariant CheckLocations(c, areaTypes, areaNames, i) == CheckLocations(c, areaTypes, seen0, 0)
        invariant mainLocation == LastValueOr(props[..i], MainLocationKey, Str(""))
      {
        var (locationName, record) := props[i];
        assert props[..i + 1][..i] == props[..i];
        if locationName == MainLocationKey {
          mainLocation := record;
        } else {
          var valid := CanBeValidArea(locationName, areaTypes);
          if !valid {
            return Fail;
          }
          var recordVerdict := LocationVerdict(record);
          if recordVerdict != Pass {
            return recordVerdict;
          }
        }
        i := i + 1;
      }
      assert props[..i] == props;
      v := MainFieldVerdict(mainLocation, c, |areaTypes|, level, mainSearch);
    }

    /** isAUniqueAreaName: the name is recorded whether or not it was new. */
    method IsAUniqueAreaName(name: string) returns (unique: bool)
      modifies this
      ensures unique <==> name !in old(areaNames)
      ensures areaNames == old(areaNames) + [name]
    {
      unique := IndexOf(SeqOfStr(areaNames), Str(name)) == -1;
      areaNames := areaNames + [name];
    }

    /** canBeValidArea: uniqueness first (which records the name), then the reserved words. */
    method CanBeValidArea(name: string, areaTypes: seq<JsValue>) returns (valid: bool)
      modifies this
      ensures valid <==> name !in old(areaNames) && CanBeValidAreaName(name, areaTypes)
      ensures areaNames == old(areaNames) + [name]
    {
      var unique := IsAUniqueAreaName(name);
      if !unique {
        return false;
      }
      valid := CanBeValidAreaName(name, areaTypes);
    }
  }

  /** The names as JavaScript strings, for indexOf. */
  function SeqOfStr(names: seq<string>): (r: seq<JsValue>)
    ensures |r| == |names|
    ensures forall j :: 0 <= j < |names| ==> r[j] == Str(names[j])
  {
    if names == [] then [] else [Str(names[0])] + SeqOfStr(names[1..])
  }
}
