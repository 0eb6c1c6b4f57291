/**
 * The part of serde_json's `Value` that the envelope and market code touches.
 * Numbers are integers (serde_json's floating-point numbers are not modelled);
 * objects are finite maps, as serde_json's default `Map` keeps one entry per key.
 */
module Json {
  import opened Wrappers

  /** One past the largest `u64`. */
  const U64_LIMIT: int := 0x1_0000_0000_0000_0000

  /** Rust's `u64`. */
  type U64 = n: int | 0 <= n < U64_LIMIT

  datatype Value =
    | Null
    | Bool(b: bool)
    | Number(n: int)
    | Str(s: string)
    | Array(items: seq<Value>)
    | Object(fields: map<string, Value>)

  /** `Value::get(key)`: present only when `v` is an object holding `key`. */
  function Get(v: Value, key: string): Option<Value> {
    if v.Object? && key in v.fields then Some(v.fields[key]) else None
  }

  /** `v[key]`: the entry, or `Null` when `v` is not an object or lacks `key`. */
  function Index(v: Value, key: string): Value {
    Get(v, key).GetOr(Null)
  }

  /** `Value::as_u64`: a number that fits in a `u64`. */
  function AsU64(v: Value): Option<U64> {
    if v.Number? && 0 <= v.n < U64_LIMIT then Some(v.n) else None
  }

  /** `Value::as_str`. */
  function AsStr(v: Value): Option<string> {
    if v.Str? then Some(v.s) else None
  }
}
