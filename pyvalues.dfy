/** The Python values that reach the client: payloads, payment data and their fields. */
module PyValues {
  import opened Wrappers

  /** A Python value as found in a JSON-like dictionary. `int` and `float` are one
      numeric case, read as a mathematical real; `bool` stays apart because Python
      treats it as an `int` in some places and not in others. */
  datatype Value =
    | PyNone
    | PyBool(b: bool)
    | PyNum(n: real)
    | PyStr(s: string)
    | PyList(items: seq<Value>)
    | PyDict(entries: map<string, Value>)

  type Dict = map<string, Value>

  /** Python truthiness (`bool(v)`). */
  predicate Truthy(v: Value)
  {
    match v
    case PyNone => false
    case PyBool(b) => b
    case PyNum(n) => n != 0.0
    case PyStr(s) => s != ""
    case PyList(items) => items != []
    case PyDict(entries) => entries != map[]
  }

  /** `d.get(key, default)`. */
  function Get(d: Dict, key: string, default: Value): (v: Value)
  {
    if key in d then d[key] else default
  }

  /** `key in d and d[key]`: the key is present with a truthy value. */
  predicate Present(d: Dict, key: string)
  {
    key in d && Truthy(d[key])
  }

  /** The value as a number when `isinstance(v, (int, float))` holds; `bool` is a
      subclass of `int` in Python, so `True` is the number 1 and `False` is 0. */
  function AsNumber(v: Value): (n: Option<real>)
  {
    match v
    case PyNum(n) => Some(n)
    case PyBool(b) => Some(if b then 1.0 else 0.0)
    case _ => None
  }
}
