/**
 * Parsed JSON as Foundation's JSONSerialization hands it back: dictionaries
 * (`[String: Any]`), arrays, strings, NSNumber and NSNull. The casts the
 * widget applies to them (`as? [String: Any]`, `as? Double`, `as? Int`,
 * `as? String`) are the functions below.
 */
module Json {
  import opened Wrappers

  datatype Value =
    | Null
    | Bool(b: bool)
    | Number(n: real)
    | Str(s: string)
    | Array(items: seq<Value>)
    | Object(fields: map<string, Value>)

  /** `v as? [String: Any]` on an optional value. */
  function AsObject(v: Option<Value>): Option<map<string, Value>> {
    if v.Some? && v.value.Object? then Some(v.value.fields) else None
  }

  /** `o[key]` on a dictionary: nil when the key is missing. */
  function Lookup(o: Option<map<string, Value>>, key: string): Option<Value> {
    if o.Some? && key in o.value then Some(o.value[key]) else None
  }

  /** `v as? Double`: any JSON number. */
  function AsDouble(v: Option<Value>): Option<real> {
    if v.Some? && v.value.Number? then Some(v.value.n) else None
  }

  /** `v as? Int`: a JSON number with no fractional part. */
  function AsInt(v: Option<Value>): Option<int> {
    if v.Some? && v.value.Number? && v.value.n.Floor as real == v.value.n
    then Some(v.value.n.Floor) else None
  }

  /** `v as? String` */
  function AsString(v: Option<Value>): Option<string> {
    if v.Some? && v.value.Str? then Some(v.value.s) else None
  }

  /** An integer survives being written as a JSON number and read back with `as? Int`. */
  lemma IntNumberRoundTrip(k: int)
    ensures AsInt(Some(Number(k as real))) == Some(k)
  {
  }
}
