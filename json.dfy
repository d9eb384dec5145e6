/** JSON values as the database columns and request bodies hold them, with the JavaScript truthiness the services test. */
module Json {

  /** A JSON document. JavaScript numbers are modelled as reals (NaN and the infinities are not JSON). */
  datatype Json =
    | JNull
    | JBool(b: bool)
    | JNumber(n: real)
    | JString(s: string)
    | JArray(items: seq<Json>)
    | JObject(fields: map<string, Json>)

  /** `!!j` in JavaScript: null, false, 0 and "" are falsy; arrays and objects are always truthy. */
  predicate Truthy(j: Json) {
    match j
    case JNull => false
    case JBool(b) => b
    case JNumber(n) => n != 0.0
    case JString(s) => s != ""
    case JArray(_) => true
    case JObject(_) => true
  }

  /** What one key of an object gives against an optional field schema: missing, well-typed, or ill-typed. */
  datatype Parsed<+T> = Absent | Present(value: T) | Mismatch

  predicate IsInteger(n: real) {
    n.Floor as real == n
  }

  predicate IsStringArray(j: Json) {
    j.JArray? && forall k | 0 <= k < |j.items| :: j.items[k].JString?
  }

  /** `z.string().optional()` applied to `fields[key]`. */
  function OptionalString(fields: map<string, Json>, key: string): Parsed<string> {
    if key !in fields then Absent
    else if fields[key].JString? then Present(fields[key].s)
    else Mismatch
  }

  /** `z.number().int().optional()` applied to `fields[key]`. */
  function OptionalInteger(fields: map<string, Json>, key: string): Parsed<int> {
    if key !in fields then Absent
    else if fields[key].JNumber? && IsInteger(fields[key].n) then Present(fields[key].n.Floor)
    else Mismatch
  }

  /** `z.array(z.string()).optional()` applied to `fields[key]`. */
  function OptionalStringArray(fields: map<string, Json>, key: string): Parsed<seq<string>> {
    if key !in fields then Absent
    else if IsStringArray(fields[key]) then
      var items := fields[key].items;
      Present(seq(|items|, k requires 0 <= k < |items| => items[k].s))
    else Mismatch
  }

  /** A JSON array holding the given strings. */
  function StringArray(xs: seq<string>): (j: Json)
    ensures IsStringArray(j) && |j.items| == |xs|
  {
    JArray(seq(|xs|, k requires 0 <= k < |xs| => JString(xs[k])))
  }
}
