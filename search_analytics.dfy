/**
 * The trending-searches handler: the latest searches, de-duplicated and ordered by how often
 * each occurs. Counting uses a plain object `{}` keyed by the search text, so it inherits the
 * names of Object.prototype: `value in frequency` already holds for them, and `++` on an
 * inherited method gives NaN; on "__proto__" it reaches the prototype setter, which ignores a
 * number, so that search never becomes a key. Keys come back in insertion order (searches
 * that look like array indices are not distinguished here).
 */
module SearchAnalytics {

  /** The properties every object inherits from Object.prototype. */
  const InheritedNames: set<string> := {
    "constructor", "__defineGetter__", "__defineSetter__", "hasOwnProperty",
    "__lookupGetter__", "__lookupSetter__", "isPrototypeOf", "propertyIsEnumerable",
    "toString", "valueOf", "__proto__", "toLocaleString"
  }

  /** The inherited accessor whose setter ignores anything but an object or null. */
  const ProtoKey: string := "__proto__"

  /** A value stored in the frequency object: a count, or NaN after `++` on an inherited method. */
  datatype Frequency = Times(n: nat) | NaN

  function Increment(f: Frequency): Frequency {
    match f
    case Times(n) => Times(n + 1)
    case NaN => NaN
  }

  /** How many times `v` occurs in `xs`. */
  function Count(xs: seq<string>, v: string): nat {
    if xs == [] then 0 else (if xs[|xs| - 1] == v then 1 else 0) + Count(xs[..|xs| - 1], v)
  }

  /** The frequency a search ends with: NaN for an inherited name, else its number of occurrences. */
  function Tally(xs: seq<string>, v: string): Frequency {
    if v in InheritedNames then NaN else Times(Count(xs, v))
  }

  /** One more search adds one to its own count and leaves every other count as it was. */
  lemma TallyStep(xs: seq<string>, value: string)
    ensures forall v :: Count(xs + [value], v) == Count(xs, v) + (if v == value then 1 else 0)
    ensures forall v :: Tally(xs + [value], v) == if v == value then Increment(Tally(xs, v)) else Tally(xs, v)
  {
    assert (xs + [value])[..|xs|] == xs;
  }

  /**
   * The own keys of the frequency object, in insertion order: each search at its first
   * occurrence, except "__proto__".
   */
  function Keys(xs: seq<string>): seq<string> {
    if xs == [] then []
    else
      var front := Keys(xs[..|xs| - 1]);
      if xs[|xs| - 1] in front || xs[|xs| - 1] == ProtoKey then front else front + [xs[|xs| - 1]]
  }

  /** A value is counted exactly when it occurs. */
  lemma {:induction false} CountPositive(xs: seq<string>, v: string)
    ensures Count(xs, v) > 0 <==> v in xs
  {
    if xs != [] {
      var init := xs[..|xs| - 1];
      CountPositive(init, v);
      assert xs == init + [xs[|xs| - 1]];
    }
  }

  predicate NoDuplicates(xs: seq<string>) {
    forall i, j :: 0 <= i < j < |xs| ==> xs[i] != xs[j]
  }

  /**
   * The keys hold every search once except "__proto__", nothing else, and are empty exactly
   * when every search is "__proto__".
   */
  lemma {:induction false} KeysSpec(xs: seq<string>)
    ensures NoDuplicates(Keys(xs))
    ensures forall v :: v in Keys(xs) <==> v in xs && v != ProtoKey
    ensures |Keys(xs)| <= |xs|
    ensures |Keys(xs)| == 0 <==> forall v :: v in xs ==> v == ProtoKey
  {
    if xs != [] {
      var init := xs[..|xs| - 1];
      KeysSpec(init);
      assert forall v :: v in xs <==> v in init || v == xs[|xs| - 1];
    }
  }

  /** `frequency` and `keys` are the frequency object and its key order after counting `xs`. */
  ghost predicate Counted(frequency: map<string, Frequency>, keys: seq<string>, xs: seq<string>) {
    && keys == Keys(xs)
    && (forall v :: v in frequency <==> v in xs && v != ProtoKey)
    && (forall v :: v in frequency ==> frequency[v] == Tally(xs, v) && Count(xs, v) >= 1)
  }

  /**
   * One turn of the counting loop, by its branch: a search for "__proto__" changes nothing, an
   * own key is incremented, an inherited name becomes an own NaN key, and a new name an own
   * key counting 1.
   */
  lemma CountProto(frequency: map<string, Frequency>, keys: seq<string>, xs: seq<string>, value: string)
    requires Counted(frequency, keys, xs) && value == ProtoKey
    ensures Counted(frequency, keys, xs + [value])
  {
    KeysStep(xs, value);
    TallyStep(xs, value);
  }

  lemma CountOwn(frequency: map<string, Frequency>, keys: seq<string>, xs: seq<string>, value: string)
    requires Counted(frequency, keys, xs) && value != ProtoKey && value in frequency
    ensures Counted(frequency[value := Increment(frequency[value])], keys, xs + [value])
  {
    KeysStep(xs, value);
    TallyStep(xs, value);
  }

  lemma CountInherited(frequency: map<string, Frequency>, keys: seq<string>, xs: seq<string>, value: string)
    requires Counted(frequency, keys, xs) && value != ProtoKey && value !in frequency && value in InheritedNames
    ensures Counted(frequency[value := NaN], keys + [value], xs + [value])
  {
    KeysStep(xs, value);
    TallyStep(xs, value);
  }

  lemma CountNew(frequency: map<string, Frequency>, keys: seq<string>, xs: seq<string>, value: string)
    requires Counted(frequency, keys, xs) && value !in frequency && value !in InheritedNames
    ensures Counted(frequency[value := Times(1)], keys + [value], xs + [value])
  {
    KeysStep(xs, value);
    TallyStep(xs, value);
    CountPositive(xs, value);
  }

  /** One more search extends the keys by itself exactly when it is new and not "__proto__". */
  lemma KeysStep(xs: seq<string>, value: string)
    ensures Keys(xs + [value]) == if value in xs || value == ProtoKey then Keys(xs) else Keys(xs) + [value]
    ensures forall v :: v in xs + [value] <==> v in xs || v == value
  {
    assert (xs + [value])[..|xs|] == xs;
    KeysSpec(xs);
  }

  /**
   * The counting loop. `value in frequency` holds for an own key and for an inherited name;
   * the map holds the own keys only.
   */
  method Frequencies(searches: seq<string>) returns (frequency: map<string, Frequency>, keys: seq<string>)
    ensures keys == Keys(searches)
    ensures forall v :: v in frequency <==> v in searches && v != ProtoKey
    ensures forall v :: v in frequency ==> frequency[v] == Tally(searches, v) && Count(searches, v) >= 1
  {
    frequency := map[];
    keys := [];
    var i := 0;
    while i < |searches|
      invariant 0 <= i <= |searches|
      invariant Counted(frequency, keys, searches[..i])
    {
      var value := searches[i];
      assert searches[..i + 1] == searches[..i] + [value];
      if value in frequency || value in InheritedNames {
        if value == ProtoKey {
          // The prototype setter ignores the number: no own key appears.
          CountProto(frequency, keys, searches[..i], value);
        } else if value in frequency {
          CountOwn(frequency, keys, searches[..i], value);
          frequency := frequency[value := Increment(frequency[value])];
        } else {
          // An inherited method turned into NaN, stored as an own key.
          CountInherited(frequency, keys, searches[..i], value);
          frequency := frequency[value := NaN];
          keys := keys + [value];
        }
      } else {
        CountNew(frequency, keys, searches[..i], value);
        frequency := frequency[value := Times(1)];
        keys := keys + [value];
      }
      i := i + 1;
    }
    assert searches[..i] == searches;
  }

  /** Exchanges two elements of the array. */
  method Swap(a: array<string>, i: nat, j: nat)
    requires i < a.Length && j < a.Length
    modifies a
    ensures a[..] == old(a[..])[i := old(a[j])][j := old(a[i])]
    ensures multiset(a[..]) == multiset(old(a[..]))
  {
    a[i], a[j] := a[j], a[i];
  }

  /**
   * `frequency[b] - frequency[a] < 0`: `a` goes strictly before `b`. A NaN difference counts
   * as 0, as Array.prototype.sort treats it.
   */
  predicate MoreFrequent(x: Frequency, y: Frequency) {
    x.Times? && y.Times? && x.n > y.n
  }

  /** Every element is a key of `frequency` holding a count. */
  predicate AllCounted(xs: seq<string>, frequency: map<string, Frequency>) {
    forall k :: 0 <= k < |xs| ==> xs[k] in frequency && frequency[xs[k]].Times?
  }

  /**
   * Array.prototype.sort with a comparator putting higher counts first. Ties may come in any
   * order; when some value is NaN the comparator is inconsistent and the order is left to the
   * engine, so non-increasing counts are promised only when every value is a count.
   */
  method SortByFrequency(a: array<string>, frequency: map<string, Frequency>)
    requires forall k :: 0 <= k < a.Length ==> a[k] in frequency
    modifies a
    ensures multiset(a[..]) == multiset(old(a[..]))
    ensures forall k :: 0 <= k < a.Length ==> a[k] in frequency
    ensures AllCounted(a[..], frequency) ==>
      forall p, q :: 0 <= p < q < a.Length ==> frequency[a[p]].n >= frequency[a[q]].n
  {
    if a.Length == 0 {
      return;
    }
    ghost var counted := AllCounted(a[..], frequency);
    var i := 1;
    while i < a.Length
      invariant 1 <= i <= a.Length
      invariant multiset(a[..]) == multiset(old(a[..]))
      invariant forall k :: 0 <= k < a.Length ==> a[k] in frequency
      invariant counted <==> AllCounted(a[..], frequency)
      invariant counted ==> forall p, q :: 0 <= p < q < i ==> frequency[a[p]].n >= frequency[a[q]].n
    {
      var j := i;
      while j > 0 && MoreFrequent(frequency[a[j]], frequency[a[j - 1]])
        invariant 0 <= j <= i
        invariant multiset(a[..]) == multiset(old(a[..]))
        invariant forall k :: 0 <= k < a.Length ==> a[k] in frequency
        invariant counted <==> AllCounted(a[..], frequency)
        invariant counted ==> forall p, q :: 0 <= p < q <= i && p != j && q != j ==> frequency[a[p]].n >= frequency[a[q]].n
        invariant counted ==> forall q :: j < q <= i ==> frequency[a[j]].n > frequency[a[q]].n
      {
        AllCountedSwap(a[..], j - 1, j, frequency);
        Swap(a, j - 1, j);
        j := j - 1;
      }
      i := i + 1;
    }
  }

  /** Exchanging two elements keeps every element counted, and only then. */
  lemma AllCountedSwap(xs: seq<string>, i: nat, j: nat, frequency: map<string, Frequency>)
    requires i < |xs| && j < |xs|
    ensures AllCounted(xs[i := xs[j]][j := xs[i]], frequency) <==> AllCounted(xs, frequency)
  {
    var ys := xs[i := xs[j]][j := xs[i]];
    if AllCounted(xs, frequency) {
      forall k | 0 <= k < |ys|
        ensures ys[k] in frequency && frequency[ys[k]].Times?
      {
        assert ys[k] == xs[if k == j then i else if k == i then j else k];
      }
    }
    if AllCounted(ys, frequency) {
      forall k | 0 <= k < |xs|
        ensures xs[k] in frequency && frequency[xs[k]].Times?
      {
        assert xs[k] == ys[if k == j then i else if k == i then j else k];
      }
    }
  }

  /**
   * sortByFrequencyAndRemoveDuplicates: every search exactly once except "__proto__", nothing
   * else; when no search is an inherited name, with non-increasing occurrence counts.
   */
  method SortByFrequencyAndRemoveDuplicates(searches: seq<string>) returns (uniques: array<string>)
    ensures fresh(uniques)
    ensures multiset(uniques[..]) == multiset(Keys(searches))
    ensures forall v :: v in uniques[..] <==> v in searches && v != ProtoKey
    ensures NoDuplicates(uniques[..])
    ensures (forall v :: v in searches ==> v !in InheritedNames) ==>
      forall p, q :: 0 <= p < q < uniques.Length ==> Count(searches, uniques[p]) >= Count(searches, uniques[q])
  {
    var frequency, keys := Frequencies(searches);
    uniques := new string[|keys|](k requires 0 <= k < |keys| => keys[k]);
    assert uniques[..] == keys;
    KeysSpec(searches);
    forall k | 0 <= k < uniques.Length
      ensures uniques[k] in frequency
    {
      assert keys[k] in Keys(searches);
    }
    SortByFrequency(uniques, frequency);
    TrendingSpec(searches, uniques[..]);
    if forall v :: v in searches ==> v !in InheritedNames {
      CountsWithoutInheritedNames(searches, frequency, uniques[..]);
    }
  }

  /** With no inherited name among the searches, every key holds its number of occurrences. */
  lemma CountsWithoutInheritedNames(searches: seq<string>, frequency: map<string, Frequency>, uniques: seq<string>)
    requires forall v :: v in frequency <==> v in searches && v != ProtoKey
    requires forall v :: v in frequency ==> frequency[v] == Tally(searches, v)
    requires forall k :: 0 <= k < |uniques| ==> uniques[k] in frequency
    requires forall v :: v in searches ==> v !in InheritedNames
    ensures AllCounted(uniques, frequency)
    ensures forall k :: 0 <= k < |uniques| ==> frequency[uniques[k]] == Times(Count(searches, uniques[k]))
  {
  }

  /**
   * Consequences for the trending list: each search other than "__proto__" appears exactly
   * once, nothing else appears, and its length is the number of keys.
   */
  lemma {:induction false} TrendingSpec(searches: seq<string>, uniques: seq<string>)
    requires multiset(uniques) == multiset(Keys(searches))
    ensures forall v :: v in uniques <==> v in searches && v != ProtoKey
    ensures NoDuplicates(uniques)
    ensures |uniques| == |Keys(searches)| <= |searches|
    ensures searches == [] ==> uniques == []
  {
    KeysSpec(searches);
    forall v
      ensures v in uniques <==> v in searches && v != ProtoKey
    {
      assert v in uniques <==> v in multiset(uniques);
      assert v in Keys(searches) <==> v in multiset(Keys(searches));
    }
    assert |uniques| == |multiset(uniques)| == |Keys(searches)|;
    forall i, j | 0 <= i < j < |uniques|
      ensures uniques[i] != uniques[j]
    {
      if uniques[i] == uniques[j] {
        DistinctCountsOnce(Keys(searches), uniques[i]);
        TwoIndicesCount(uniques, i, j);
        assert false;
      }
    }
  }

  /** In a duplicate-free sequence every element occurs once. */
  lemma {:induction false} DistinctCountsOnce(xs: seq<string>, v: string)
    requires NoDuplicates(xs)
    ensures multiset(xs)[v] <= 1
  {
    if xs != [] {
      var init := xs[..|xs| - 1];
      assert xs == init + [xs[|xs| - 1]];
      assert NoDuplicates(init);
      DistinctCountsOnce(init, v);
      if xs[|xs| - 1] == v {
        assert v !in init;
      }
    }
  }

  /** Two positions holding the same value make it occur at least twice. */
  lemma TwoIndicesCount(xs: seq<string>, i: nat, j: nat)
    requires i < j < |xs| && xs[i] == xs[j]
    ensures multiset(xs)[xs[i]] >= 2
  {
    assert xs == xs[..i] + [xs[i]] + xs[i + 1..j] + [xs[j]] + xs[j + 1..];
  }

  /**
   * A lone "__proto__" search yields no trending search at all, and a search for "toString"
   * is kept with a NaN frequency, so it is not ranked below a search made twice.
   */
  lemma InheritedNameExamples()
    ensures Keys(["__proto__"]) == []
    ensures Keys(["toString", "a", "a"]) == ["toString", "a"]
    ensures Tally(["toString", "a", "a"], "toString") == NaN
    ensures Tally(["toString", "a", "a"], "a") == Times(2)
    ensures !MoreFrequent(Tally(["toString", "a", "a"], "a"), Tally(["toString", "a", "a"], "toString"))
  {
    var xs := ["toString", "a", "a"];
    assert xs[..2] == ["toString", "a"] && xs[..2][..1] == ["toString"] && xs[..1][..0] == [];
    assert Keys(["toString"]) == ["toString"];
    assert Count(["toString"], "a") == 0;
    assert Count(xs[..2], "a") == 1;
    assert Count(xs, "a") == 2;
    assert "a" !in InheritedNames;
  }
}
