/** The JSON values the extension handles (serde_json's `Value`), reduced to what the model inspects. */
module Json {
  import opened Wrappers
  import Strings

  /**
   * A JSON value. Integers keep their exact value; a floating-point number is kept as the text
   * serde_json renders for it, since the model never computes with it.
   */
  datatype Value =
    | Null
    | Bool(b: bool)
    | Str(s: string)
    | Int(n: int)
    | Float(text: string)
    | Array(items: seq<Value>)
    | Object(fields: map<string, Value>)

  const I64Min: int := -0x8000_0000_0000_0000
  const I64Max: int := 0x7FFF_FFFF_FFFF_FFFF

  /** serde_json's `as_i64`: the value when it is an integer that fits in a signed 64-bit word. */
  function AsI64(v: Value): (r: Option<int>)
    ensures r.Some? <==> v.Int? && I64Min <= v.n <= I64Max
    ensures r.Some? ==> r.value == v.n
  {
    match v
    case Int(n) => if I64Min <= n <= I64Max then Some(n) else None
    case _ => None
  }

  /** serde_json's `as_str`: the text when the value is a JSON string. */
  function AsStr(v: Value): (r: Option<string>)
    ensures r.Some? <==> v.Str?
    ensures r.Some? ==> r.value == v.s
  {
    match v
    case Str(s) => Some(s)
    case _ => None
  }

  predicate IsNumber(v: Value) {
    v.Int? || v.Float?
  }

  /** The text of a JSON number (`Number::to_string`). */
  function NumberText(v: Value): string
    requires IsNumber(v)
  {
    match v
    case Int(n) => Strings.IntToString(n)
    case Float(t) => t
  }

  /** The string-valued claim `key` of `m`, when present and a string. */
  function StrField(m: map<string, Value>, key: string): (r: Option<string>)
    ensures r.Some? <==> key in m && m[key].Str?
    ensures r.Some? ==> r.value == m[key].s
  {
    if key in m then AsStr(m[key]) else None
  }

  const EmptyObject: Value := Object(map[])
}
