/** The JSON values `serde_json` parses a response into, with the two
    lookups and the integer view the job uses on them. */
module Json {
  import opened Wrappers
  import opened Numbers

  /** A JSON number as `serde_json` stores it: an integer that fits `i64` or
      `u64`, or a float. */
  datatype Number = IntNumber(i: int) | FloatNumber(f: F64)

  datatype Value =
    | Null
    | Bool(b: bool)
    | Num(n: Number)
    | Str(s: string)
    | Array(items: seq<Value>)
    | Object(fields: map<string, Value>)

  /** `value[key]`: the member named `key` of an object, `Null` when the
      value is not an object or has no such member. */
  function Member(v: Value, key: string): (r: Value)
    ensures v.Object? && key in v.fields ==> r == v.fields[key]
    ensures !(v.Object? && key in v.fields) ==> r == Null
  {
    match v
    case Object(m) => if key in m then m[key] else Null
    case _ => Null
  }

  /** `value[i]`: the element at position `i` of an array, `Null` when the
      value is not an array or is too short. */
  function Element(v: Value, i: nat): (r: Value)
    ensures v.Array? && i < |v.items| ==> r == v.items[i]
    ensures !(v.Array? && i < |v.items|) ==> r == Null
  {
    match v
    case Array(a) => if i < |a| then a[i] else Null
    case _ => Null
  }

  /** `as_i64`: the value when it is an integer that fits `i64`. */
  function AsI64(v: Value): (r: Option<I64>)
    ensures r.Some? <==> v.Num? && v.n.IntNumber? && -0x8000_0000_0000_0000 <= v.n.i < 0x8000_0000_0000_0000
    ensures r.Some? ==> r.value == v.n.i
  {
    if v.Num? && v.n.IntNumber? && -0x8000_0000_0000_0000 <= v.n.i < 0x8000_0000_0000_0000
    then Some(v.n.i as I64)
    else None
  }
}
