/**
 * The JSON values the browser scripts receive from the API and decode from
 * tokens, with JavaScript's truthiness, property access and string
 * conversion.
 */
module JsValue {
  import opened Wrappers
  import Ordered
  import Text

  /** A JavaScript value as produced by JSON.parse, plus `undefined`. Numbers are exact. */
  datatype Json =
    | JNull
    | JUndefined
    | JBool(b: bool)
    | JNum(n: real)
    | JStr(s: string)
    | JArr(items: seq<Json>)
    | JObj(entries: seq<(string, Json)>)

  /** JavaScript's ToBoolean: null, undefined, false, 0 and "" are falsy; every array and object is truthy. */
  predicate Truthy(v: Json) {
    match v
    case JNull => false
    case JUndefined => false
    case JBool(b) => b
    case JNum(n) => n != 0.0
    case JStr(s) => s != ""
    case JArr(_) => true
    case JObj(_) => true
  }

  /**
   * `v.key` for a named (non-index) property: the own property of an object,
   * and undefined for everything else. Reading a property of null or
   * undefined throws; callers decide that case before reading.
   */
  function Prop(v: Json, key: string): (r: Json)
    ensures v.JObj? && Ordered.HasKey(v.entries, key) ==> r == Ordered.Get(v.entries, key).value
    ensures !(v.JObj? && Ordered.HasKey(v.entries, key)) ==> r == JUndefined
  {
    if v.JObj? then Ordered.Get(v.entries, key).GetOr(JUndefined) else JUndefined
  }

  /** `a || b` */
  function Or(a: Json, b: Json): (r: Json)
    ensures Truthy(a) ==> r == a
    ensures !Truthy(a) ==> r == b
  {
    if Truthy(a) then a else b
  }

  /**
   * `v.key = value`: on an object an existing key keeps its place and a new
   * one goes last; any other value is left as it was.
   */
  function SetProp(v: Json, key: string, value: Json): (r: Json)
    ensures v.JObj? ==> r.JObj? && Prop(r, key) == value
    ensures v.JObj? ==> forall k | k != key :: Prop(r, k) == Prop(v, k)
    ensures !v.JObj? ==> r == v
  {
    if v.JObj? then JObj(Ordered.Put(v.entries, key, value)) else v
  }

  /** A one-key object `{ key: value }`. */
  function Single(key: string, value: Json): (r: Json)
    ensures Prop(r, key) == value
  {
    JObj([(key, value)])
  }

  /**
   * String(v), the conversion template literals, `new Error(v)` and
   * localStorage.setItem apply. `numberText` is Number.prototype.toString.
   * An array is its elements' texts joined by ',', with null and undefined
   * elements written as the empty string.
   */
  function JsString(v: Json, numberText: real -> string): (s: string)
    ensures v.JStr? ==> s == v.s
    ensures v.JNull? ==> s == "null"
    ensures v.JUndefined? ==> s == "undefined"
    ensures v.JObj? ==> s == "[object Object]"
    decreases v, 1
  {
    match v
    case JNull => "null"
    case JUndefined => "undefined"
    case JBool(b) => if b then "true" else "false"
    case JNum(n) => numberText(n)
    case JStr(s) => s
    case JArr(items) => JoinItems(v, items, numberText)
    case JObj(_) => "[object Object]"
  }

  function JoinItems(whole: Json, items: seq<Json>, numberText: real -> string): string
    requires forall x | x in items :: x < whole
    decreases whole, 0, |items|
  {
    if items == [] then ""
    else
      assert items[0] in items;
      assert forall x | x in items[1..] :: x in items;
      var first := if items[0].JNull? || items[0].JUndefined? then "" else JsString(items[0], numberText);
      if |items| == 1 then first else first + "," + JoinItems(whole, items[1..], numberText)
  }

  /**
   * Setting textContent: the attribute is a nullable string, so null and
   * undefined both become the empty string; every other value its String().
   */
  function TextContent(v: Json, numberText: real -> string): (s: string)
    ensures v.JStr? ==> s == v.s
    ensures v.JNull? || v.JUndefined? ==> s == ""
    ensures !v.JNull? && !v.JUndefined? ==> s == JsString(v, numberText)
  {
    if v.JNull? || v.JUndefined? then "" else JsString(v, numberText)
  }
}
