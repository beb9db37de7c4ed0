/**
 * The values `json.loads` produces, with the two Python notions the pipeline
 * applies to them: truthiness (what an `if` on a value tests) and hashability (what a
 * set comprehension accepts). Parsing and serialising are left to two oracle
 * functions supplied by the caller.
 */
module JsonValue {
  import opened Common

  /** A decoded JSON document; numbers are modelled as integers. */
  datatype Json =
    | JNull
    | JBool(b: bool)
    | JNum(n: int)
    | JStr(s: string)
    | JArr(items: seq<Json>)
    | JObj(fields: map<string, Json>)

  /** `json.loads`: the decoded value, or None when it raises. */
  type Loads = string -> Option<Json>

  /** `json.dump`/`json.dumps`: the text written for a value. */
  type Dumps = Json -> string

  /** Python's truth value of a decoded JSON value. */
  predicate Truthy(j: Json) {
    match j
    case JNull => false
    case JBool(b) => b
    case JNum(n) => n != 0
    case JStr(s) => s != ""
    case JArr(xs) => xs != []
    case JObj(m) => m != map[]
  }

  /** Lists and dicts are unhashable: putting one into a set raises TypeError. */
  predicate Hashable(j: Json) {
    !j.JArr? && !j.JObj?
  }

  /** A key of a decoded object: its value, or null when the key is absent. */
  function Get(m: map<string, Json>, key: string): Json {
    if key in m then m[key] else JNull
  }
}
