/**
 * The Python values that reach the server code: JSON request bodies, database
 * row cells and the structures handed to jsonify. Dicts keep insertion order.
 */
module PyValue {
  import opened Wrappers
  import Ordered

  datatype Value =
    | PyNone
    | Bool(b: bool)
    | Int(i: int)
    | Float(r: real)
    | Str(s: string)
    | DateTime(iso: string)   // a datetime, carrying the text its isoformat() returns
    | Date(iso: string)       // a date, carrying the text its isoformat() returns
    | List(items: seq<Value>)
    | Dict(entries: seq<(string, Value)>)

  /** bool(v): None, False, zero, and empty strings and containers are falsy. */
  predicate Truthy(v: Value) {
    match v
    case PyNone => false
    case Bool(b) => b
    case Int(i) => i != 0
    case Float(r) => r != 0.0
    case Str(s) => s != ""
    case DateTime(_) => true
    case Date(_) => true
    case List(items) => items != []
    case Dict(entries) => entries != []
  }

  /** body.get(key): None when the key is absent. */
  function Get(body: seq<(string, Value)>, key: string): (v: Value)
    ensures !Ordered.HasKey(body, key) ==> v == PyNone
  {
    Ordered.Get(body, key).GetOr(PyNone)
  }

  /** body.get(key, default): the default only when the key is absent. */
  function GetOr(body: seq<(string, Value)>, key: string, default: Value): (v: Value)
    ensures !Ordered.HasKey(body, key) ==> v == default
    ensures Ordered.HasKey(body, key) ==> v == Get(body, key)
  {
    Ordered.Get(body, key).GetOr(default)
  }

  /**
   * float(v). A str goes through the given parser (Python's float() grammar);
   * None, dates and containers raise TypeError, modelled as None.
   */
  function ToFloat(v: Value, parseFloat: string -> Option<real>): (r: Option<real>)
    ensures v.PyNone? ==> r.None?
  {
    match v
    case Bool(b) => Some(if b then 1.0 else 0.0)
    case Int(i) => Some(i as real)
    case Float(x) => Some(x)
    case Str(s) => parseFloat(s)
    case _ => None
  }
}
