// JSON values as serde_json presents them: integers and floats are told apart.
module Json {
  import opened Text

  datatype Json =
    | Null
    | Bool(b: bool)
    | Int(n: int)
    | Float(r: real)
    | Str(s: string)
    | Arr(items: seq<Json>)
    | Obj(fields: map<string, Json>)

  const U64_LIMIT: nat := 0x1_0000_0000_0000_0000

  /** `Value::get` with a string key. */
  function Field(v: Json, key: string): Option<Json> {
    if v.Obj? && key in v.fields then Some(v.fields[key]) else None
  }

  /** `Value::get` with an index. */
  function Item(v: Json, i: nat): Option<Json> {
    if v.Arr? && i < |v.items| then Some(v.items[i]) else None
  }

  function FieldOf(v: Option<Json>, key: string): Option<Json> {
    if v.Some? then Field(v.value, key) else None
  }

  function OrElse<T>(a: Option<T>, b: Option<T>): Option<T> { if a.Some? then a else b }

  function AsU64(v: Option<Json>): Option<nat> {
    if v.Some? && v.value.Int? && 0 <= v.value.n < U64_LIMIT then Some(v.value.n) else None
  }
}
