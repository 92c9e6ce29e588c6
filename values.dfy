/** Values shared by every module: optional values, results, and the JSON
    scalars that appear in the hotel records the search API returns. */
module Values {

  /** Python's `None` or a value. */
  datatype Option<+T> = None | Some(value: T) {
    /** `x if x is not None else default` */
    function GetOr(default: T): T {
      if Some? then value else default
    }
  }

  /** A value, or the error a Python function would have raised. */
  datatype Result<+T, +E> = Success(value: T) | Failure(error: E)

  /** A JSON scalar inside a hotel record. Floats (rates, scores) are kept
      as reals and are only passed through, never formatted. */
  datatype Value = Null | Bool(b: bool) | Int(i: int) | Real(r: real) | Str(s: string)

  /** A hotel record of the API response: a JSON object of scalars. */
  type Hotel = map<string, Value>

  /** Python's `d.get(key, default)`. */
  function Get(m: map<string, Value>, key: string, default: Value): Value {
    if key in m then m[key] else default
  }

  /** Python truthiness of a scalar (`x or y` takes `y` when `x` is falsy). */
  predicate Truthy(v: Value) {
    match v
    case Null => false
    case Bool(b) => b
    case Int(i) => i != 0
    case Real(r) => r != 0.0
    case Str(s) => s != ""
  }
}
