/**
 * Python values as the engine and the integration checker see them: the
 * policy dictionary, rule items, tag lists, severity thresholds and the
 * parsed JSON configuration files.  Only the Python operations the two
 * core files apply to such values are defined here: `dict.get`, `key in
 * dict`, truthiness, iteration and `str()`.
 */
module Json {
  import opened Wrappers

  /** A Python value built from JSON (floats are not modelled). A `JObj`
      lists its keys in insertion order; keys are distinct, as in a dict. */
  datatype Json =
    | JNull
    | JBool(b: bool)
    | JNum(n: int)
    | JStr(s: string)
    | JList(items: seq<Json>)
    | JObj(fields: seq<(string, Json)>)

  /** The Python exceptions that the modelled code can let escape. */
  datatype PyError =
    | AttributeError  // `.get` on a value that is not a dict
    | TypeError       // iterating a non-iterable, or hashing a list or dict
    | PatternError    // `re.error` from `re.compile`

  /** `d.get(key)` on a dict's entries: the value of the first entry with that key. */
  function Lookup(fields: seq<(string, Json)>, key: string): (r: Option<Json>)
  {
    if fields == [] then None
    else if fields[0].0 == key then Some(fields[0].1)
    else Lookup(fields[1..], key)
  }

  /** `d.get(key, default)`, which raises AttributeError when `d` is not a dict. */
  function PyGet(d: Json, key: string, default: Json): (r: Result<Json, PyError>)
    ensures r.Failure? <==> !d.JObj?
    ensures r.Failure? ==> r.error == AttributeError
    ensures d.JObj? && Lookup(d.fields, key).None? ==> r == Success(default)
    ensures d.JObj? && Lookup(d.fields, key).Some? ==> r == Success(Lookup(d.fields, key).value)
  {
    if !d.JObj? then Failure(AttributeError)
    else match Lookup(d.fields, key)
      case Some(v) => Success(v)
      case None => Success(default)
  }

  /** Python truthiness (`if x:`, `x or default`). */
  predicate Truthy(j: Json)
  {
    match j
    case JNull => false
    case JBool(b) => b
    case JNum(n) => n != 0
    case JStr(s) => s != []
    case JList(xs) => xs != []
    case JObj(fs) => fs != []
  }

  /** What `for x in j` visits: a list's items, a string's characters, a
      dict's keys; None, booleans and numbers raise TypeError. */
  function Iterate(j: Json): (r: Result<seq<Json>, PyError>)
    ensures r.Success? <==> j.JList? || j.JStr? || j.JObj?
    ensures j.JList? ==> r == Success(j.items)
    ensures j.JStr? ==> r.Success? && |r.value| == |j.s|
    ensures j.JStr? ==> forall i :: 0 <= i < |j.s| ==> r.value[i] == JStr([j.s[i]])
    ensures j.JObj? ==> r.Success? && |r.value| == |j.fields|
    ensures j.JObj? ==> forall i :: 0 <= i < |j.fields| ==> r.value[i] == JStr(j.fields[i].0)
    ensures r.Failure? ==> r.error == TypeError
  {
    match j
    case JList(xs) => Success(xs)
    case JStr(s) => Success(seq(|s|, i requires 0 <= i < |s| => JStr([s[i]])))
    case JObj(fs) => Success(seq(|fs|, i requires 0 <= i < |fs| => JStr(fs[i].0)))
    case _ => Failure(TypeError)
  }

  /** Decimal digits of a natural number. */
  function NatToString(n: nat): (r: string)
    ensures |r| >= 1
    ensures forall i :: 0 <= i < |r| ==> '0' <= r[i] <= '9'
  {
    var d := ['0', '1', '2', '3', '4', '5', '6', '7', '8', '9'][n % 10];
    if n < 10 then [d] else NatToString(n / 10) + [d]
  }

  /** Joins strings with a separator, as `sep.join(parts)`. */
  function Join(sep: string, parts: seq<string>): string
  {
    if parts == [] then []
    else if |parts| == 1 then parts[0]
    else parts[0] + sep + Join(sep, parts[1..])
  }

  /** `str(j)`: a string is itself; any other value is its `repr`. */
  function PyStr(j: Json): (r: string)
    ensures j.JStr? ==> r == j.s
    ensures j.JNull? ==> r == "None"
    ensures !j.JStr? ==> r != []
  {
    if j.JStr? then j.s else Repr(j)
  }

  /** Python's `repr`, with strings quoted but not escaped. */
  function Repr(j: Json): (r: string)
    ensures r != []
  {
    match j
    case JNull => "None"
    case JBool(b) => if b then "True" else "False"
    case JNum(n) => if n < 0 then "-" + NatToString(-n) else NatToString(n)
    case JStr(s) => "'" + s + "'"
    case JList(xs) =>
      "[" + Join(", ", seq(|xs|, i requires 0 <= i < |xs| => Repr(xs[i]))) + "]"
    case JObj(fs) =>
      "{" + Join(", ", seq(|fs|, i requires 0 <= i < |fs| => "'" + fs[i].0 + "': " + Repr(fs[i].1))) + "}"
  }
}
