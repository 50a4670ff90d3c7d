/**
 * The area hierarchy of an edge infrastructure, and the two listings every search over it
 * is specified against.
 *
 * A container at depth `level` is an "areas container" while `level` is below the number of
 * area types, and a "locations container" (whose entries are location records) at the last
 * depth. Every loop over a container skips the "main-location" key.
 */
module Hierarchy {
  import opened Wrappers
  import opened JsValues

  /** An infrastructure file: the area type identifiers (an array) and the hierarchy object. */
  datatype Infrastructure = Infrastructure(areaTypes: seq<JsValue>, hierarchy: JsValue)

  /** The type identifier of the last level. */
  const LocationType: JsValue := Str("location")

  /** Every type identifier, one per depth: the area types, then "location". */
  function PossibleAreaTypes(infra: Infrastructure): seq<JsValue> {
    infra.areaTypes + [LocationType]
  }

  /**
   * An area or location met by a search: the names above it, its own name, its depth, and its
   * value (the container below an area, the record of a location).
   */
  datatype Node = Node(parents: seq<string>, name: string, level: nat, value: JsValue)

  /**
   * A location record: the names above it, its own name, the main-location value of every
   * container from the root down to its own locations container, and the record itself.
   */
  datatype Leaf = Leaf(parents: seq<string>, name: string, mains: seq<JsValue>, record: JsValue)

  /** All area and location names below container `c`, each before the names beneath it, in for-in order. */
  function Nodes(c: JsValue, n: nat, level: nat, parents: seq<string>): seq<Node>
    decreases c, 1
  {
    if n > level then AreaNodes(c, n, level, parents, 0) else LocationNodes(c, level, parents, 0)
  }

  function AreaNodes(c: JsValue, n: nat, level: nat, parents: seq<string>, i: nat): seq<Node>
    requires i <= |Props(c)|
    decreases c, 0, |Props(c)| - i
  {
    if i == |Props(c)| then []
    else
      var (key, child) := Props(c)[i];
      if key == MainLocationKey then AreaNodes(c, n, level, parents, i + 1)
      else [Node(parents, key, level, child)] + Nodes(child, n, level + 1, parents + [key])
           + AreaNodes(c, n, level, parents, i + 1)
  }

  function LocationNodes(c: JsValue, level: nat, parents: seq<string>, i: nat): seq<Node>
    requires i <= |Props(c)|
    decreases |Props(c)| - i
  {
    if i == |Props(c)| then []
    else if Props(c)[i].0 == MainLocationKey then LocationNodes(c, level, parents, i + 1)
    else [Node(parents, Props(c)[i].0, level, Props(c)[i].1)] + LocationNodes(c, level, parents, i + 1)
  }

  /** All location records below container `c`, in for-in order. */
  function Leaves(c: JsValue, n: nat, level: nat, parents: seq<string>, mains: seq<JsValue>): seq<Leaf>
    decreases c, 1
  {
    var mains' := mains + [Get(c, MainLocationKey)];
    if n > level then AreaLeaves(c, n, level, parents, mains', 0) else LocationLeaves(c, parents, mains', 0)
  }

  function AreaLeaves(c: JsValue, n: nat, level: nat, parents: seq<string>, mains: seq<JsValue>, i: nat): seq<Leaf>
    requires i <= |Props(c)|
    decreases c, 0, |Props(c)| - i
  {
    if i == |Props(c)| then []
    else
      var (key, child) := Props(c)[i];
      if key == MainLocationKey then AreaLeaves(c, n, level, parents, mains, i + 1)
      else Leaves(child, n, level + 1, parents + [key], mains) + AreaLeaves(c, n, level, parents, mains, i + 1)
  }

  function LocationLeaves(c: JsValue, parents: seq<string>, mains: seq<JsValue>, i: nat): seq<Leaf>
    requires i <= |Props(c)|
    decreases |Props(c)| - i
  {
    if i == |Props(c)| then []
    else
      var (key, record) := Props(c)[i];
      if key == MainLocationKey then LocationLeaves(c, parents, mains, i + 1)
      else [Leaf(parents, key, mains, record)] + LocationLeaves(c, parents, mains, i + 1)
  }

  function Names(nodes: seq<Node>): (r: seq<string>)
    ensures |r| == |nodes|
    ensures forall j :: 0 <= j < |nodes| ==> r[j] == nodes[j].name
  {
    if nodes == [] then [] else [nodes[0].name] + Names(nodes[1..])
  }

  lemma AppendAssociative<T>(a: seq<T>, b: seq<T>, c: seq<T>)
    ensures a + b + c == a + (b + c)
  {
  }

  lemma NamesConcat(a: seq<Node>, b: seq<Node>)
    ensures Names(a + b) == Names(a) + Names(b)
  {
  }

  /** The first node carrying `name`, if any. */
  function FirstNamed(nodes: seq<Node>, name: string): (r: Option<Node>)
    ensures r.Some? ==> r.value in nodes && r.value.name == name
    ensures r.None? <==> forall nd :: nd in nodes ==> nd.name != name
  {
    if nodes == [] then None
    else if nodes[0].name == name then Some(nodes[0])
    else FirstNamed(nodes[1..], name)
  }

  lemma {:induction false} FirstNamedConcat(a: seq<Node>, b: seq<Node>, name: string)
    ensures FirstNamed(a + b, name) == if FirstNamed(a, name).Some? then FirstNamed(a, name) else FirstNamed(b, name)
  {
    if a != [] {
      assert (a + b)[1..] == a[1..] + b;
      FirstNamedConcat(a[1..], b, name);
    } else {
      assert a + b == b;
    }
  }

  /** One step of the search by name over an areas container: the area itself, then below it, then the rest. */
  lemma FirstNamedAreaStep(c: JsValue, n: nat, level: nat, parents: seq<string>, i: nat, name: string)
    requires i < |Props(c)| && Props(c)[i].0 != MainLocationKey
    ensures var (key, child) := Props(c)[i];
      var below := FirstNamed(Nodes(child, n, level + 1, parents + [key]), name);
      FirstNamed(AreaNodes(c, n, level, parents, i), name)
      == if key == name then Some(Node(parents, key, level, child))
         else if below.Some? then below
         else FirstNamed(AreaNodes(c, n, level, parents, i + 1), name)
  {
    var (key, child) := Props(c)[i];
    var here := [Node(parents, key, level, child)];
    var below := Nodes(child, n, level + 1, parents + [key]);
    var rest := AreaNodes(c, n, level, parents, i + 1);
    assert AreaNodes(c, n, level, parents, i) == here + (below + rest);
    FirstNamedConcat(here, below + rest, name);
    FirstNamedConcat(below, rest, name);
  }

  /** Every node below a container at depth `level` lies between `level` and the locations depth `n`. */
  lemma {:induction false} NodeLevels(c: JsValue, n: nat, level: nat, parents: seq<string>)
    requires level <= n
    ensures forall nd :: nd in Nodes(c, n, level, parents) ==> level <= nd.level <= n
    ensures forall nd :: nd in Nodes(c, n, level, parents) ==> (nd.level == n <==> |nd.parents| == |parents| + n - level)
    decreases c, 1
  {
    if n > level {
      AreaNodeLevels(c, n, level, parents, 0);
    } else {
      LocationNodeLevels(c, level, parents, 0);
    }
  }

  lemma {:induction false} AreaNodeLevels(c: JsValue, n: nat, level: nat, parents: seq<string>, i: nat)
    requires level < n && i <= |Props(c)|
    ensures forall nd :: nd in AreaNodes(c, n, level, parents, i) ==> level <= nd.level <= n
    ensures forall nd :: nd in AreaNodes(c, n, level, parents, i) ==> (nd.level == n <==> |nd.parents| == |parents| + n - level)
    decreases c, 0, |Props(c)| - i
  {
    if i < |Props(c)| {
      var (key, child) := Props(c)[i];
      AreaNodeLevels(c, n, level, parents, i + 1);
      if key != MainLocationKey {
        NodeLevels(child, n, level + 1, parents + [key]);
      }
    }
  }

  lemma {:induction false} LocationNodeLevels(c: JsValue, level: nat, parents: seq<string>, i: nat)
    requires i <= |Props(c)|
    ensures forall nd :: nd in LocationNodes(c, level, parents, i) ==> nd.level == level && nd.parents == parents
    decreases |Props(c)| - i
  {
    if i < |Props(c)| {
      LocationNodeLevels(c, level, parents, i + 1);
    }
  }

  /** Every node below a container at depth `level` has one parent name per depth above its own. */
  lemma {:induction false} NodeDepths(c: JsValue, n: nat, level: nat, parents: seq<string>)
    ensures forall nd :: nd in Nodes(c, n, level, parents) ==>
      level <= nd.level && |nd.parents| == |parents| + nd.level - level
    decreases c, 1
  {
    if n > level {
      AreaNodeDepths(c, n, level, parents, 0);
    } else {
      LocationNodeLevels(c, level, parents, 0);
    }
  }

  lemma {:induction false} AreaNodeDepths(c: JsValue, n: nat, level: nat, parents: seq<string>, i: nat)
    requires i <= |Props(c)|
    ensures forall nd :: nd in AreaNodes(c, n, level, parents, i) ==>
      level <= nd.level && |nd.parents| == |parents| + nd.level - level
    decreases c, 0, |Props(c)| - i
  {
    if i < |Props(c)| {
      var (key, child) := Props(c)[i];
      AreaNodeDepths(c, n, level, parents, i + 1);
      if key != MainLocationKey {
        NodeDepths(child, n, level + 1, parents + [key]);
      }
    }
  }

  /** The first leaf carrying `name`, if any. */
  function FirstLeafNamed(leaves: seq<Leaf>, name: string): (r: Option<Leaf>)
    ensures r.Some? ==> r.value in leaves && r.value.name == name
    ensures r.None? <==> forall l :: l in leaves ==> l.name != name
  {
    if leaves == [] then None
    else if leaves[0].name == name then Some(leaves[0])
    else FirstLeafNamed(leaves[1..], name)
  }

  lemma {:induction false} FirstLeafNamedConcat(a: seq<Leaf>, b: seq<Leaf>, name: string)
    ensures FirstLeafNamed(a + b, name)
      == if FirstLeafNamed(a, name).Some? then FirstLeafNamed(a, name) else FirstLeafNamed(b, name)
  {
    if a != [] {
      assert (a + b)[1..] == a[1..] + b;
      FirstLeafNamedConcat(a[1..], b, name);
    } else {
      assert a + b == b;
    }
  }

  /**
   * Every leaf below a container at depth `level` (reached with the main-locations `mains` of
   * the containers above) has one main-location per depth down to its own locations container,
   * starting with `mains` and this container's own.
   */
  lemma {:induction false} LeafMains(c: JsValue, n: nat, level: nat, parents: seq<string>, mains: seq<JsValue>)
    requires |mains| == level <= n
    ensures forall l :: l in Leaves(c, n, level, parents, mains) ==>
      |l.mains| == n + 1 && l.mains[..level + 1] == mains + [Get(c, MainLocationKey)]
    decreases c, 1
  {
    var mains' := mains + [Get(c, MainLocationKey)];
    if n > level {
      AreaLeafMains(c, n, level, parents, mains', 0);
    } else {
      LocationLeafMains(c, parents, mains', 0);
    }
  }

  lemma {:induction false} AreaLeafMains(c: JsValue, n: nat, level: nat, parents: seq<string>, mains: seq<JsValue>, i: nat)
    requires |mains| == level + 1 && level < n && i <= |Props(c)|
    ensures forall l :: l in AreaLeaves(c, n, level, parents, mains, i) ==>
      |l.mains| == n + 1 && l.mains[..level + 1] == mains
    decreases c, 0, |Props(c)| - i
  {
    if i < |Props(c)| {
      var (key, child) := Props(c)[i];
      AreaLeafMains(c, n, level, parents, mains, i + 1);
      if key != MainLocationKey {
        LeafMains(child, n, level + 1, parents + [key], mains);
        forall l | l in Leaves(child, n, level + 1, parents + [key], mains)
          ensures l.mains[..level + 1] == mains
        {
          assert l.mains[..level + 2][..level + 1] == l.mains[..level + 1];
        }
      }
    }
  }

  lemma {:induction false} LocationLeafMains(c: JsValue, parents: seq<string>, mains: seq<JsValue>, i: nat)
    requires i <= |Props(c)|
    ensures forall l :: l in LocationLeaves(c, parents, mains, i) ==> l.mains == mains && l.parents == parents
    decreases |Props(c)| - i
  {
    if i < |Props(c)| {
      LocationLeafMains(c, parents, mains, i + 1);
    }
  }
}
