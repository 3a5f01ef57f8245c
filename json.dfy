/**
 * The JSON value tree that serde_json hands to the core.  Numbers are kept
 * as an opaque tag: an integer serde_json holds as u64 or i64 keeps its
 * value, every other number is an uninterpreted float token.
 */
module Json {
  import opened Wrappers

  const I64Min: int := -0x8000_0000_0000_0000
  const I64Max: int := 0x7FFF_FFFF_FFFF_FFFF

  datatype JsonNumber = Integer(value: int) | Float(token: string)

  datatype Value =
    | Null
    | Bool(b: bool)
    | Number(n: JsonNumber)
    | String(s: string)
    | Array(elems: seq<Value>)
    | Object(members: map<string, Value>)

  /** `Number::as_i64`: only integers that fit a signed 64-bit word. */
  function AsI64(n: JsonNumber): (r: Option<int>)
    ensures r.Some? <==> n.Integer? && I64Min <= n.value <= I64Max
    ensures r.Some? ==> r.value == n.value
  {
    match n
    case Integer(i) => if I64Min <= i <= I64Max then Some(i) else None
    case Float(_) => None
  }

  /** `Value::as_str`. */
  function AsStr(v: Value): (r: Option<string>)
    ensures r.Some? <==> v.String?
    ensures r.Some? ==> r.value == v.s
  {
    if v.String? then Some(v.s) else None
  }
}
