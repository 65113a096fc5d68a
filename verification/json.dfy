/** The JSON documents a state machine reads and writes.
    Numbers are modelled as integers; arrays are not part of this model. */
module JsonDoc {
  import opened Wrappers

  datatype Json =
    | JNull
    | JBool(b: bool)
    | JInt(i: int)
    | JString(s: string)
    | JObject(fields: map<string, Json>)

  /** The empty object `{}`. */
  const EmptyObject: Json := JObject(map[])

  /** The member `key` of an object, absent when `j` is not an object or lacks the key. */
  function Member(j: Json, key: string): (r: Option<Json>)
    ensures r.Some? <==> j.JObject? && key in j.fields
    ensures r.Some? ==> r.value == j.fields[key]
  {
    if j.JObject? && key in j.fields then Some(j.fields[key]) else None
  }

  /** Decimal digits of a natural number, most significant first; only used to
      quote an integer `Type` in an error message. */
  function NatToString(n: nat): string {
    if n < 10 then [DigitChar(n)] else NatToString(n / 10) + [DigitChar(n % 10)]
  }

  function DigitChar(d: nat): (c: char)
    requires d < 10
    ensures '0' <= c <= '9'
  {
    "0123456789"[d]
  }

  function IntToString(i: int): string {
    if i < 0 then "-" + NatToString(-i) else NatToString(i)
  }

  /** The text JavaScript's string conversion gives a (possibly missing) value,
      as used when an error message quotes the offending value. */
  function JsText(v: Option<Json>): (r: string)
    ensures v.Some? && v.value.JString? ==> r == v.value.s
  {
    match v
    case None => "undefined"
    case Some(JNull) => "null"
    case Some(JBool(b)) => if b then "true" else "false"
    case Some(JInt(i)) => IntToString(i)
    case Some(JString(s)) => s
    case Some(JObject(_)) => "[object Object]"
  }
}
