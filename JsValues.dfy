/** The JavaScript values that cross the gateway: parameter values, driver rows and the
    plain objects handed to the driver as configuration. */
module JsValues {

  /** A JavaScript value. Numbers are modelled as integers: every number the gateway
      computes with is a count, a port or a timeout. */
  datatype Json =
    | Undefined
    | Null
    | Bool(b: bool)
    | Num(n: int)
    | Str(s: string)
    | Arr(items: seq<Json>)
    | Obj(fields: map<string, Json>)

  /** JavaScript truthiness, as `if (v)`, `v || d` and `!v` use it. */
  predicate Truthy(v: Json) {
    match v
    case Undefined => false
    case Null => false
    case Bool(b) => b
    case Num(n) => n != 0
    case Str(s) => s != ""
    case Arr(_) => true
    case Obj(_) => true
  }

  /** A row of a driver record set: column name to value. */
  type Row = map<string, Json>

  /** `row.key`: `undefined` when the column is absent. */
  function Field(row: Row, key: string): Json {
    if key in row then row[key] else Undefined
  }

  /** An object none of whose keys holds `undefined`. */
  predicate NoUndefined(m: map<string, Json>) {
    forall k :: k in m ==> m[k] != Undefined
  }
}
