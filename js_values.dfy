/**
 * The JavaScript values the edge framework handles: what JSON.parse produces, plus `undefined`.
 * Objects keep their properties as a sequence of (key, value) pairs, so the for-in order
 * (insertion order for the non-numeric keys used here) and "first match wins" are explicit.
 * An object produced by JSON.parse has pairwise distinct keys (see DistinctKeys).
 */
module JsValues {
  import opened Wrappers

  datatype JsValue =
    | Undefined
    | Null
    | Bool(b: bool)
    | Int(i: int)              // a number for which Number.isInteger holds
    | NonInteger(text: string) // any other number (a fraction, an infinity, NaN), kept as String(x) writes it
    | Str(s: string)
    | Arr(items: seq<JsValue>, named: seq<(string, JsValue)>) // the elements, then the non-index properties assigned on the array
    | Obj(props: seq<(string, JsValue)>)

  /** The errors JavaScript raises by itself (as opposed to the strings the code throws). */
  datatype JsError =
    | TypeError       // property access or assignment on null/undefined, or assignment on a primitive in strict mode
    | ReferenceError  // reading an undeclared variable in strict mode
    | Thrown(message: string)

  /** JavaScript truthiness (ToBoolean). */
  predicate Truthy(v: JsValue) {
    match v
    case Undefined => false
    case Null => false
    case Bool(b) => b
    case Int(i) => i != 0
    case NonInteger(text) => text != "NaN"
    case Str(s) => s != ""
    case Arr(_, _) => true
    case Obj(_) => true
  }

  /** The key reserved for the representative location of a container. */
  const MainLocationKey: string := "main-location"

  /** The properties a for-in loop visits: those of an object, none for any other value. */
  function Props(v: JsValue): seq<(string, JsValue)> {
    if v.Obj? then v.props else []
  }

  predicate DistinctKeys(props: seq<(string, JsValue)>) {
    forall i, j :: 0 <= i < j < |props| ==> props[i].0 != props[j].0
  }

  /** Value of the first property named `key`, or undefined. */
  function Lookup(props: seq<(string, JsValue)>, key: string): JsValue {
    if props == [] then Undefined
    else if props[0].0 == key then props[0].1
    else Lookup(props[1..], key)
  }

  /**
   * Property read `v[key]` of a non-index key: an object's property, or a property assigned on
   * an array; a primitive has none of the properties looked up here.
   */
  function Get(v: JsValue, key: string): JsValue {
    match v
    case Obj(props) => Lookup(props, key)
    case Arr(_, named) => Lookup(named, key)
    case _ => Undefined
  }

  /** Property read `v[key]` that throws, as JavaScript does, when `v` is undefined or null. */
  function ReadProp(v: JsValue, key: string): (r: Result<JsValue, JsError>)
    ensures r.Err? <==> v.Undefined? || v.Null?
    ensures r.Ok? ==> r.value == Get(v, key)
  {
    if v.Undefined? || v.Null? then Err(TypeError) else Ok(Get(v, key))
  }

  /** The key a lookup stamps on the location record it returns. */
  const LocationIdKey: string := "location_id"

  /** The properties after `props[key] = val`: an existing key keeps its place, a new one goes last. */
  function Assign(props: seq<(string, JsValue)>, key: string, val: JsValue): (r: seq<(string, JsValue)>)
    ensures Lookup(r, key) == val
    ensures forall k :: k != key ==> Lookup(r, k) == Lookup(props, k)
  {
    if props == [] then [(key, val)]
    else if props[0].0 == key then [(key, val)] + props[1..]
    else [props[0]] + Assign(props[1..], key, val)
  }

  /**
   * Strict-mode assignment `v.key = val` of a non-index key: it changes an object, adds a
   * named property to an array (whose elements stay as they are), and throws TypeError on
   * undefined, null and every primitive.
   */
  function SetProp(v: JsValue, key: string, val: JsValue): (r: Result<JsValue, JsError>)
    ensures r.Ok? <==> v.Obj? || v.Arr?
    ensures r.Ok? ==> Get(r.value, key) == val
    ensures r.Ok? ==> forall k :: k != key ==> Get(r.value, k) == Get(v, k)
    ensures v.Obj? ==> r.Ok? && r.value.Obj?
    ensures v.Arr? ==> r.Ok? && r.value.Arr? && r.value.items == v.items
  {
    match v
    case Obj(props) => Ok(Obj(Assign(props, key, val)))
    case Arr(items, named) => Ok(Arr(items, Assign(named, key, val)))
    case _ => Err(TypeError)
  }

  /** A location record that is an array keeps its elements and reads back the `location_id` stamped on it. */
  lemma ArrayStampExample()
    ensures SetProp(Arr([Int(1)], []), LocationIdKey, Str("milan001")) == Ok(Arr([Int(1)], [(LocationIdKey, Str("milan001"))]))
    ensures Get(SetProp(Arr([Int(1)], []), LocationIdKey, Str("milan001")).value, LocationIdKey) == Str("milan001")
    ensures Get(Arr([Int(1)], []), LocationIdKey) == Undefined
  {
  }

  /**
   * Array.prototype.indexOf with strict equality on the values used here, and
   * String.prototype.indexOf of a single character; -1 when absent.
   */
  function IndexOf<T(==)>(xs: seq<T>, x: T): (r: int)
    ensures -1 <= r < |xs|
    ensures r == -1 <==> x !in xs
    ensures r != -1 ==> xs[r] == x && forall j :: 0 <= j < r ==> xs[j] != x
  {
    if xs == [] then -1
    else if xs[0] == x then 0
    else var k := IndexOf(xs[1..], x); if k == -1 then -1 else k + 1
  }

  /** Decimal digits of a natural number, as String(n) writes it. */
  function NatToDecimal(n: nat): (r: string)
    ensures |r| > 0
    ensures forall c :: c in r ==> '0' <= c <= '9'
    decreases n
  {
    if n < 10 then [DigitChar(n)] else NatToDecimal(n / 10) + [DigitChar(n % 10)]
  }

  function DigitChar(d: nat): (c: char)
    requires d < 10
    ensures '0' <= c <= '9'
  {
    ['0', '1', '2', '3', '4', '5', '6', '7', '8', '9'][d]
  }

  /** String(i) for an integer number: decimal digits with a leading '-' when negative. */
  function IntToDecimal(i: int): (r: string)
    ensures |r| > 0
    ensures forall c :: c in r ==> c == '-' || '0' <= c <= '9'
  {
    if i < 0 then "-" + NatToDecimal(-i) else NatToDecimal(i)
  }

  /**
   * String(v): arrays are joined with "," (undefined and null elements give ""), objects
   * print as "[object Object]".
   */
  function JsString(v: JsValue): string
    decreases v, 1
  {
    match v
    case Undefined => "undefined"
    case Null => "null"
    case Bool(b) => if b then "true" else "false"
    case Int(i) => IntToDecimal(i)
    case NonInteger(text) => text
    case Str(s) => s
    case Arr(_, _) => JoinElements(v, 0)
    case Obj(_) => "[object Object]"
  }

  function JoinElements(v: JsValue, i: nat): string
    requires v.Arr? && i <= |v.items|
    decreases v, 0, |v.items| - i
  {
    if i == |v.items| then ""
    else
      var e := v.items[i];
      var text := if e.Undefined? || e.Null? then "" else JsString(e);
      if i + 1 == |v.items| then text else text + "," + JoinElements(v, i + 1)
  }
}
