/** The decoded JSON values that app.py passes around (the result of json.loads). */
module Json {

  /** A JSON value. Numbers are kept as reals; Python's int/float split is not needed here. */
  datatype Value =
    | Null
    | Bool(b: bool)
    | Number(n: real)
    | Str(s: string)
    | Array(items: seq<Value>)
    | Object(members: seq<(string, Value)>)

  /** Python truthiness of a decoded value, as tested by `if data` and `if current_quiz`:
      None, False, zero, the empty string and empty containers are false. */
  predicate Truthy(v: Value) {
    match v
    case Null => false
    case Bool(b) => b
    case Number(n) => n != 0.0
    case Str(s) => s != ""
    case Array(items) => items != []
    case Object(members) => members != []
  }
}
