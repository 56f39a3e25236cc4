/** JSON values as `serde_json::Value` holds them, with the accessors the
    source uses on them. */
module Json {
  import opened Wrappers

  datatype Json =
    | JNull
    | JBool(b: bool)
    | JInt(i: int)        // a JSON number without fraction or exponent
    | JFloat(r: real)     // any other JSON number
    | JStr(s: string)
    | JArr(items: seq<Json>)
    | JObj(fields: map<string, Json>)

  const I64_MIN: int := -0x8000_0000_0000_0000
  const I64_MAX: int := 0x7FFF_FFFF_FFFF_FFFF

  /** `value["key"]`: the field of an object, and `Null` for a missing key or
      for a value that is not an object. */
  function Field(v: Json, key: string): Json {
    if v.JObj? && key in v.fields then v.fields[key] else JNull
  }

  /** `as_i64`: integers that fit an `i64`; nothing for any other value. */
  function AsI64(v: Json): Option<int> {
    if v.JInt? && I64_MIN <= v.i <= I64_MAX then Some(v.i) else None
  }

  /** `as_str`. */
  function AsStr(v: Json): Option<string> {
    if v.JStr? then Some(v.s) else None
  }

  /** `as_array`. */
  function AsArray(v: Json): Option<seq<Json>> {
    if v.JArr? then Some(v.items) else None
  }
}
