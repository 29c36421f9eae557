/**
 * JSON values as the Flask backend sees them after `request.json`, with the
 * Python conversions the handlers apply to them (`bool(v)`, `str(v).lower()`,
 * `float(v)`, `int(v)`). Parsing a numeric *string* is Python's own literal
 * grammar; the model takes it as a parameter (`NumberParsers`).
 */
module Json {
  import opened Common

  datatype Value =
    | VNull
    | VBool(b: bool)
    | VInt(i: int)
    | VFloat(r: real)
    | VStr(s: string)
    | VList(items: seq<Value>)
    | VObj(fields: map<string, Value>)

  type Object = map<string, Value>

  /** An HTTP response: status code and JSON body. */
  datatype Response = Response(status: int, body: Object)

  /** How Python's `int(s)` and `float(s)` read a string; `None` is a `ValueError`. */
  datatype NumberParsers = NumberParsers(intOf: string -> Option<int>, floatOf: string -> Option<real>)

  /** The outcome of a Python conversion that may raise. */
  datatype Conv<T> = Converted(value: T) | ValueError | TypeError

  /** `d.get(key, default)`. */
  function Get(d: Object, key: string, default: Value): Value
  {
    if key in d then d[key] else default
  }

  /** Python truthiness, `bool(v)`. */
  predicate Truthy(v: Value)
  {
    match v
    case VNull => false
    case VBool(b) => b
    case VInt(i) => i != 0
    case VFloat(r) => r != 0.0
    case VStr(s) => s != ""
    case VList(xs) => xs != []
    case VObj(m) => m != map[]
  }

  /**
   * `str(v).lower() in ("true", "1")`. `str` of a float always has a `.`, an
   * exponent or is `inf`/`nan`; of `None`, a list or a dict it is `None`, `[…]`
   * or `{…}`; so only booleans, the integer 1 and strings can match. No
   * non-ASCII character lower-cases to one of `t`, `r`, `u`, `e`, `1`, so ASCII
   * folding decides the string case exactly.
   */
  predicate StrIsTrue(v: Value)
  {
    match v
    case VBool(b) => b
    case VInt(i) => i == 1
    case VStr(s) => Lower(s) == "true" || Lower(s) == "1"
    case _ => false
  }

  /** `float(v)`. */
  function PyFloat(v: Value, parse: NumberParsers): (c: Conv<real>)
    ensures v.VFloat? ==> c == Converted(v.r)
    ensures v.VInt? ==> c == Converted(v.i as real)
    ensures v.VNull? || v.VList? || v.VObj? ==> c == TypeError
  {
    match v
    case VBool(b) => Converted(if b then 1.0 else 0.0)
    case VInt(i) => Converted(i as real)
    case VFloat(r) => Converted(r)
    case VStr(s) => if parse.floatOf(s).Some? then Converted(parse.floatOf(s).value) else ValueError
    case _ => TypeError
  }

  /** Truncation toward zero, as `int(x)` does for a float. */
  function TruncToward0(r: real): (n: int)
    ensures r >= 0.0 ==> n as real <= r < n as real + 1.0
    ensures r < 0.0 ==> n as real - 1.0 < r <= n as real
  {
    if r >= 0.0 then r.Floor else -((-r).Floor)
  }

  /** `int(v)`. */
  function PyInt(v: Value, parse: NumberParsers): (c: Conv<int>)
    ensures v.VInt? ==> c == Converted(v.i)
    ensures v.VNull? || v.VList? || v.VObj? ==> c == TypeError
  {
    match v
    case VBool(b) => Converted(if b then 1 else 0)
    case VInt(i) => Converted(i)
    case VFloat(r) => Converted(TruncToward0(r))
    case VStr(s) => if parse.intOf(s).Some? then Converted(parse.intOf(s).value) else ValueError
    case _ => TypeError
  }
}
