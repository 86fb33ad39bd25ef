/**
 * Decoded JSON documents, as Python's `json` module hands them to the bot:
 * objects become dicts, numbers become int/float (here one exact `real`).
 */
module JsonValues {
  import opened Wrappers

  datatype Json =
    | JNull
    | JBool(b: bool)
    | JNum(n: real)
    | JStr(s: string)
    | JList(items: seq<Json>)
    | JObj(fields: map<string, Json>)

  /** Python truthiness: `if cached:` and friends. */
  predicate Truthy(j: Json) {
    match j
    case JNull => false
    case JBool(b) => b
    case JNum(n) => n != 0.0
    case JStr(s) => s != ""
    case JList(xs) => xs != []
    case JObj(fs) => fs != map[]
  }

  /** `"error" in d` on the dicts the fetch functions return. */
  predicate HasError(j: Json) {
    j.JObj? && "error" in j.fields
  }

  /** `t in s` on strings: `t` occurs in `s` as a substring. */
  predicate Occurs(t: string, s: string)
    decreases |s|
  {
    |t| <= |s| && (s[..|t|] == t || Occurs(t, s[1..]))
  }

  /**
   * `"error" in value` on whatever a fetch returned: a key test on a dict, a
   * membership test on a list, a substring test on a string; None where
   * Python raises TypeError (numbers, booleans, None).
   */
  function ErrorTest(j: Json): (r: Option<bool>)
    ensures r.Some? <==> j.JObj? || j.JList? || j.JStr?
    ensures j.JObj? ==> r == Some(HasError(j))
    ensures j.JList? ==> r == Some(JStr("error") in j.items)
    ensures j.JStr? ==> r == Some(Occurs("error", j.s))
  {
    match j
    case JObj(fs) => Some("error" in fs)
    case JList(xs) => Some(JStr("error") in xs)
    case JStr(s) => Some(Occurs("error", s))
    case _ => None
  }

  /** `d[key]` on a dict that holds `key`; None where Python would raise. */
  function Field(j: Json, key: string): (r: Option<Json>)
    ensures r.Some? <==> j.JObj? && key in j.fields
    ensures r.Some? ==> r.value == j.fields[key]
  {
    if j.JObj? && key in j.fields then Some(j.fields[key]) else None
  }

  /** The error value of a dict carrying "error". */
  function ErrorOf(j: Json): Json
    requires HasError(j)
  {
    j.fields["error"]
  }

  /** `{"error": message}`, the failure value of every fetch function. */
  function ErrorDict(message: string): (j: Json)
    ensures HasError(j) && Truthy(j) && ErrorOf(j) == JStr(message)
  {
    JObj(map["error" := JStr(message)])
  }

  /**
   * The value Python compares against a threshold: ints and floats as they
   * are, booleans as 0 and 1; anything else makes the comparison raise.
   */
  function Number(j: Json): (r: Option<real>)
    ensures r.Some? <==> j.JNum? || j.JBool?
    ensures j.JNum? ==> r == Some(j.n)
  {
    match j
    case JNum(n) => Some(n)
    case JBool(b) => Some(if b then 1.0 else 0.0)
    case _ => None
  }

  /** One subscript in a chain such as `weather['weather'][0]['description']`. */
  datatype Selector = Key(k: string) | Index(i: nat)

  /** Follows a chain of subscripts; None where Python raises (missing key, short list, wrong type). */
  function At(j: Json, path: seq<Selector>): (r: Option<Json>)
    ensures path == [] ==> r == Some(j)
    decreases |path|
  {
    if path == [] then Some(j)
    else match path[0]
      case Key(k) => if j.JObj? && k in j.fields then At(j.fields[k], path[1..]) else None
      case Index(i) => if j.JList? && i < |j.items| then At(j.items[i], path[1..]) else None
  }
}
