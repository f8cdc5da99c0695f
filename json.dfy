/**
 * The JSON values that reach the core from a posted form body or from a
 * language-model reply, with the Python conversions applied to them:
 * truthiness, `dict.get`, `str(v)` and `int(v)`.
 */
module Json {
  import opened Wrappers
  import opened Text

  datatype Json =
    | JNull
    | JBool(b: bool)
    | JInt(i: int)
    | JFloat(f: real)
    | JStr(s: string)
    | JArray(items: seq<Json>)
    | JObject(fields: map<string, Json>)

  /** Python's `bool(v)`. */
  predicate Truthy(v: Json) {
    match v
    case JNull => false
    case JBool(b) => b
    case JInt(i) => i != 0
    case JFloat(f) => f != 0.0
    case JStr(s) => s != ""
    case JArray(items) => items != []
    case JObject(fields) => fields != map[]
  }

  /** Python's `a or b`. */
  function Or(a: Json, b: Json): Json {
    if Truthy(a) then a else b
  }

  /** `v.get(key, default)`: raises unless `v` is an object. */
  function Get(v: Json, key: string, default: Json): (r: Result<Json>)
    ensures r.Raised? <==> !v.JObject?
    ensures v.JObject? && key in v.fields ==> r == Ok(v.fields[key])
    ensures v.JObject? && key !in v.fields ==> r == Ok(default)
  {
    match v
    case JObject(fields) => Ok(if key in fields then fields[key] else default)
    case _ => Raised
  }

  /** `str(v)` for the values whose rendering the core can observe. */
  function PyStr(v: Json): string {
    match v
    case JStr(s) => s
    case JInt(i) => IntToString(i)
    case JBool(b) => if b then "True" else "False"
    case JNull => "None"
    case _ => ""
  }

  /** `int(x)` on a float: truncation toward zero. */
  function Truncate(f: real): int {
    if f >= 0.0 then f.Floor else -((-f).Floor)
  }

  /** `int(t)` on an already stripped string: an optional sign, then ASCII digits. */
  function ParseIntLiteral(t: string): (r: Result<int>)
    ensures r.Ok? ==> t != []
  {
    var neg := |t| > 0 && t[0] == '-';
    var digits := if |t| > 0 && (t[0] == '-' || t[0] == '+') then t[1..] else t;
    if digits != [] && forall i :: 0 <= i < |digits| ==> IsDigit(digits[i]) then
      var value: int := DigitsValue(digits);
      Ok(if neg then -value else value)
    else Raised
  }

  /** `int(v)`: raises for null, arrays, objects and strings that are not decimal literals. */
  function PyInt(v: Json): (r: Result<int>)
    ensures v.JNull? || v.JArray? || v.JObject? ==> r.Raised?
    ensures v.JInt? ==> r == Ok(v.i)
  {
    match v
    case JInt(i) => Ok(i)
    case JBool(b) => Ok(if b then 1 else 0)
    case JFloat(f) => Ok(Truncate(f))
    case JStr(s) => ParseIntLiteral(Strip(s))
    case _ => Raised
  }

  /** Rendering an integer and reading it back gives the integer: `int(str(n)) == n`. */
  lemma IntStrRoundTrip(n: int)
    ensures PyInt(JStr(PyStr(JInt(n)))) == Ok(n)
  {
    var s := IntToString(n);
    var m: nat := if n < 0 then -n else n;
    var ds := NatToDigits(m);
    DigitsValueOfNat(m);
    assert !IsSpace(s[0]) && !IsSpace(s[|s| - 1]);
    StripTrimmed(s);
    if n < 0 {
      assert s[1..] == ds;
    }
  }
}
