/**
 * JavaScript values as the runtime type tests of the main process see them
 * (`Type.has`, `Type.hasStr`, `Type.isArrayOfString`, `Type.isMapOfStrings`,
 * `Type.isSetOfString`). Numbers are integers here; a `Map` and a `Set` keep
 * their insertion order.
 */
module JsValues {

  datatype JsValue =
    | JUndefined
    | JNull
    | JBool(b: bool)
    | JNum(n: int)
    | JStr(s: string)
    | JArr(items: seq<JsValue>)
    /** A plain object: its own properties. */
    | JObj(props: map<string, JsValue>)
    /** A `Uint8Array`. */
    | JBytes(bytes: seq<bv8>)
    /** A `Map`: its entries in insertion order. */
    | JMap(entries: seq<(JsValue, JsValue)>)
    /** A `Set`: its elements in insertion order. */
    | JSet(elems: seq<JsValue>)

  /** `Type.has(v, key)`: an object with that property. */
  predicate Has(v: JsValue, key: string) {
    v.JObj? && key in v.props
  }

  /** `Type.hasStr(v, key)`: an object whose property `key` is a string. */
  predicate HasStr(v: JsValue, key: string) {
    Has(v, key) && v.props[key].JStr?
  }

  /** `Type.isArrayOfString(v)`. */
  predicate IsArrayOfString(v: JsValue) {
    v.JArr? && forall i :: 0 <= i < |v.items| ==> v.items[i].JStr?
  }

  /** The strings of an array of strings, in order. */
  function StringItems(v: JsValue): (ss: seq<string>)
    requires IsArrayOfString(v)
    ensures |ss| == |v.items|
    ensures forall i :: 0 <= i < |ss| ==> v.items[i] == JStr(ss[i])
  {
    seq(|v.items|, i requires 0 <= i < |v.items| => v.items[i].s)
  }

  /** An array of strings as a JavaScript value. */
  function FromStrings(ss: seq<string>): (v: JsValue)
    ensures IsArrayOfString(v) && StringItems(v) == ss
  {
    JArr(seq(|ss|, i requires 0 <= i < |ss| => JStr(ss[i])))
  }

  /** `Type.isMapOfStrings(v)`: a `Map` whose keys and values are all strings.
      A `Map` never holds a key twice, so the entries' keys are distinct. */
  predicate IsMapOfStrings(v: JsValue) {
    && v.JMap?
    && (forall i :: 0 <= i < |v.entries| ==> v.entries[i].0.JStr? && v.entries[i].1.JStr?)
    && (forall i, j :: 0 <= i < j < |v.entries| ==> v.entries[i].0 != v.entries[j].0)
  }

  /** The entries of a map of strings, in insertion order. */
  function StringEntries(v: JsValue): (es: seq<(string, string)>)
    requires IsMapOfStrings(v)
    ensures |es| == |v.entries|
    ensures forall i :: 0 <= i < |es| ==> v.entries[i] == (JStr(es[i].0), JStr(es[i].1))
    ensures forall i, j :: 0 <= i < j < |es| ==> es[i].0 != es[j].0
  {
    seq(|v.entries|, i requires 0 <= i < |v.entries| => (v.entries[i].0.s, v.entries[i].1.s))
  }

  /** `Type.isSetOfString(v)`. */
  predicate IsSetOfString(v: JsValue) {
    v.JSet? && forall i :: 0 <= i < |v.elems| ==> v.elems[i].JStr?
  }

  /** The strings a set of strings holds. */
  function StringSet(v: JsValue): (ss: set<string>)
    requires IsSetOfString(v)
    ensures forall s :: s in ss <==> JStr(s) in v.elems
  {
    set i | 0 <= i < |v.elems| :: v.elems[i].s
  }
}
