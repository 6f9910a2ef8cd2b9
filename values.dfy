/** JSON values as the Python code sees them after `json.load`, together with
    the few pieces of Python semantics the core relies on: truthiness,
    `dict.get`, numeric coercion for `/` and `>`, and hashing for `set(...)`. */
module Values {

  datatype Option<+T> = None | Some(value: T)

  datatype Result<+R, +E> = Success(value: R) | Failure(error: E)

  /** A decoded JSON value.  Integers and floats are both `JNum`, as Python
      compares `1 == 1.0`. */
  datatype Json =
    | JNull
    | JBool(b: bool)
    | JNum(n: real)
    | JStr(s: string)
    | JArr(items: seq<Json>)
    | JObj(fields: map<string, Json>)

  /** Python truthiness: `None`, `False`, `0`, and empty strings, lists and
      dicts are falsy; everything else is truthy. */
  predicate Truthy(j: Json) {
    match j
    case JNull => false
    case JBool(b) => b
    case JNum(n) => n != 0.0
    case JStr(s) => |s| != 0
    case JArr(a) => |a| != 0
    case JObj(m) => |m| != 0
  }

  /** `d.get(k)`: the value under `k`, or `None` when `k` is absent. */
  function Get(d: map<string, Json>, k: string): (r: Json)
    ensures k !in d ==> r == JNull
    ensures k in d ==> r == d[k]
  {
    if k in d then d[k] else JNull
  }

  /** A key whose `get` is truthy is present. */
  lemma TruthyGetPresent(d: map<string, Json>, k: string)
    requires Truthy(Get(d, k))
    ensures k in d && Truthy(d[k])
  {
  }

  /** The number Python's arithmetic and comparisons see in a value: numbers
      themselves, and `bool`, which is a subclass of `int`.  Every other value
      makes `/` or `>` raise `TypeError`. */
  function AsNumber(j: Json): (r: Option<real>)
    ensures r.Some? <==> (j.JNum? || j.JBool?)
    ensures j.JNum? ==> r == Some(j.n)
    ensures j.JBool? ==> r == Some(if j.b then 1.0 else 0.0)
  {
    match j
    case JNum(n) => Some(n)
    case JBool(b) => Some(if b then 1.0 else 0.0)
    case _ => None
  }

  /** Lists and dicts are unhashable: putting one into a `set` raises. */
  predicate Hashable(j: Json) {
    !j.JArr? && !j.JObj?
  }

  /** The value a Python `set` deduplicates a hashable value by: `True` and
      `1` (and `False` and `0`) are one element. */
  function HashKey(j: Json): (r: Json)
    requires Hashable(j)
    ensures r.JNull? || r.JNum? || r.JStr?
    ensures !j.JBool? ==> r == j
  {
    match j
    case JBool(b) => JNum(if b then 1.0 else 0.0)
    case _ => j
  }

  /** Two hashable values fall into one set element exactly when Python's
      `==` holds between them. */
  lemma HashKeyEquality(a: Json, b: Json)
    requires Hashable(a) && Hashable(b)
    ensures HashKey(a) == HashKey(b) <==>
      (a == b || (AsNumber(a).Some? && AsNumber(b).Some? && AsNumber(a) == AsNumber(b)))
  {
  }
}
