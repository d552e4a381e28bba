/** JavaScript values as the connectors see them: numbers (NaN or finite),
    parsed JSON, property access that can throw, truthiness, `parseFloat`
    and string conversion. */
module Js {

  datatype Option<+T> = None | Some(value: T) {
    function GetOr(default: T): T {
      match this
      case Some(v) => v
      case None => default
    }
  }

  /** A value or a thrown `Error` carrying its message. */
  datatype Result<+T> = Ok(value: T) | Err(message: string)

  /** A JavaScript number: NaN or a finite real (infinities are not modelled). */
  datatype Float = NaN | Num(value: real)

  /** `!isNaN(x) && x > 0` */
  predicate IsPositive(x: Float) {
    x.Num? && x.value > 0.0
  }

  /** `1 / x`; a zero divisor gives NaN here (JavaScript gives Infinity). */
  function Reciprocal(x: Float): (r: Float)
    ensures x.Num? && x.value != 0.0 ==> r == Num(1.0 / x.value)
    ensures x.Num? && x.value > 0.0 ==> IsPositive(r)
    ensures r.Num? ==> x.Num? && x.value * r.value == 1.0
  {
    if x.Num? && x.value != 0.0 then Num(1.0 / x.value) else NaN
  }

  /** A value produced by `JSON.parse`, plus `undefined` for an absent property.
      A number keeps the text it was written with. */
  datatype Json =
    | JUndefined
    | JNull
    | JBool(b: bool)
    | JNumber(text: string)
    | JString(s: string)
    | JArray(items: seq<Json>)
    | JObject(fields: map<string, Json>)

  /** `parseFloat` on a string: an abstract parser (it returns NaN or a finite value). */
  type FloatParser = string -> Float

  /** `String(v)`, as a template literal renders it. A number is rendered by
      the text it was parsed from. */
  function Show(v: Json): string {
    match v
    case JUndefined => "undefined"
    case JNull => "null"
    case JBool(b) => if b then "true" else "false"
    case JNumber(t) => t
    case JString(s) => s
    case JArray(items) =>
      Join(seq(|items|, i requires 0 <= i < |items| =>
        if items[i].JNull? || items[i].JUndefined? then "" else Show(items[i])), ",")
    case JObject(_) => "[object Object]"
  }

  /** `parts.join(sep)` */
  function Join(parts: seq<string>, sep: string): string {
    if |parts| == 0 then ""
    else if |parts| == 1 then parts[0]
    else parts[0] + sep + Join(parts[1..], sep)
  }

  /** `parseFloat(v)`: the parser applied to `String(v)`. An array renders as its
      elements joined by commas, and the parse stops at the first comma, so an
      array parses as its first element. */
  function ParseFloat(pf: FloatParser, v: Json): Float {
    match v
    case JNumber(t) => pf(t)
    case JString(s) => pf(s)
    case JArray(items) => if |items| == 0 then NaN else ParseFloat(pf, items[0])
    case _ => NaN
  }

  /** JavaScript truthiness. */
  predicate Truthy(pf: FloatParser, v: Json) {
    match v
    case JUndefined => false
    case JNull => false
    case JBool(b) => b
    case JNumber(t) => pf(t).Num? && pf(t).value != 0.0
    case JString(s) => s != ""
    case JArray(_) => true
    case JObject(_) => true
  }

  /** The message of the TypeError thrown by reading `key` of null or undefined. */
  function TypeErrorMessage(v: Json, key: string): string {
    "Cannot read properties of " + (if v.JNull? then "null" else "undefined")
    + " (reading '" + key + "')"
  }

  /** `v.key` for a property name: it throws on null and undefined. Only objects
      have named properties here (`length` is `Length`). */
  function Get(v: Json, key: string): (r: Result<Json>)
    ensures r.Err? <==> v.JNull? || v.JUndefined?
    ensures r.Ok? && r.value != JUndefined ==> v.JObject? && key in v.fields && r.value == v.fields[key]
  {
    match v
    case JUndefined => Err(TypeErrorMessage(v, key))
    case JNull => Err(TypeErrorMessage(v, key))
    case JObject(m) => Ok(if key in m then m[key] else JUndefined)
    case _ => Ok(JUndefined)
  }

  /** `v[i]` for an index: an array element, a one-character string, or the
      object property named by the index; it throws on null and undefined. */
  function At(v: Json, i: nat): (r: Result<Json>)
    ensures r.Err? <==> v.JNull? || v.JUndefined?
    ensures v.JArray? && i < |v.items| ==> r == Ok(v.items[i])
  {
    match v
    case JUndefined => Err(TypeErrorMessage(v, NatToString(i)))
    case JNull => Err(TypeErrorMessage(v, NatToString(i)))
    case JArray(items) => Ok(if i < |items| then items[i] else JUndefined)
    case JString(s) => Ok(if i < |s| then JString([s[i]]) else JUndefined)
    case JObject(m) => Ok(if NatToString(i) in m then m[NatToString(i)] else JUndefined)
    case _ => Ok(JUndefined)
  }

  /** `v?.key`: undefined when `v` is null or undefined. */
  function OptGet(v: Json, key: string): (r: Json)
    ensures r != JUndefined ==> v.JObject? && key in v.fields && r == v.fields[key]
  {
    match Get(v, key)
    case Ok(x) => x
    case Err(_) => JUndefined
  }

  /** `v?.[i]` */
  function OptAt(v: Json, i: nat): Json {
    match At(v, i)
    case Ok(x) => x
    case Err(_) => JUndefined
  }

  /** `v?.length > 0`: only arrays and strings have a length here. */
  predicate HasItems(v: Json) {
    (v.JArray? && |v.items| > 0) || (v.JString? && |v.s| > 0)
  }

  /** The decimal text of `n`, as `${n}` writes it. */
  function NatToString(n: nat): (s: string)
    ensures |s| > 0
    decreases n
  {
    if n < 10 then [Digit(n)] else NatToString(n / 10) + [Digit(n % 10)]
  }

  function Digit(d: nat): char
    requires d < 10
  {
    "0123456789"[d]
  }

  /** Strict lexicographic order on character codes (`a < b` for JavaScript strings). */
  predicate StrLess(a: string, b: string)
    decreases |a|
  {
    if |b| == 0 then false
    else if |a| == 0 then true
    else if a[0] != b[0] then a[0] < b[0]
    else StrLess(a[1..], b[1..])
  }

  /** No string is before a string that is before it. */
  lemma {:induction false} StrLessAsymmetric(a: string, b: string)
    ensures StrLess(a, b) ==> !StrLess(b, a)
    decreases |a|
  {
    if |a| > 0 && |b| > 0 && a[0] == b[0] {
      StrLessAsymmetric(a[1..], b[1..]);
    }
  }

  /** "Not after" is transitive, so `StrLess` is a strict weak order. */
  lemma {:induction false} NotStrLessTransitive(a: string, b: string, c: string)
    requires !StrLess(b, a) && !StrLess(c, b)
    ensures !StrLess(c, a)
    decreases |a|
  {
    if |a| > 0 && a[0] == b[0] && b[0] == c[0] {
      NotStrLessTransitive(a[1..], b[1..], c[1..]);
    }
  }
}
