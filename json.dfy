/**
 * The part of `serde_json::Value` that the verification client relies on:
 * the six kinds of JSON value, indexing an object by key and `as_bool`.
 */
module Json {
  import opened Results

  /** A JSON value. Numbers are kept as integers: no decision reads them. */
  datatype Value =
    | Null
    | Bool(b: bool)
    | Number(n: int)
    | String(s: string)
    | Array(items: seq<Value>)
    | Object(fields: map<string, Value>)

  /**
   * `v[key]` on a `Value`: the field's value when `v` is an object holding
   * `key`, and `Null` for a missing key or for a value that is not an object
   * (indexing never fails).
   */
  function Index(v: Value, key: string): (r: Value)
    ensures v.Object? && key in v.fields ==> r == v.fields[key]
    ensures !(v.Object? && key in v.fields) ==> r == Null
  {
    match v
    case Object(fields) => if key in fields then fields[key] else Null
    case _ => Null
  }

  /** `Value::as_bool`: `Some(b)` exactly for a JSON boolean `b`. */
  function AsBool(v: Value): (r: Option<bool>)
    ensures r.Some? <==> v.Bool?
    ensures r.Some? ==> v == Bool(r.value)
  {
    match v
    case Bool(b) => Some(b)
    case _ => None
  }
}
