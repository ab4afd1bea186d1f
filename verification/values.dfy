/**
 * JSON values as the client holds them after `json.loads`, together with the
 * few Python operations the client applies to them: `==`, `in`, subscription,
 * truthiness and `str.lower`.
 */
module Values {
  import opened Common

  datatype Json =
    | JNull
    | JBool(b: bool)
    | JNum(n: int)
    | JStr(s: string)
    | JArr(items: seq<Json>)
    | JObj(fields: map<string, Json>)

  /** A decoded JSON object: a Python `dict` with string keys. */
  type Record = map<string, Json>

  /** The exceptions Python raises when a value has the wrong shape. */
  datatype Raised = TypeError | KeyError | AttributeError

  /**
   * The value Python's `==` compares: `True` and `False` are equal to `1`
   * and `0`, also inside lists and dicts.
   */
  function Canon(j: Json): Json
    decreases j
  {
    match j
    case JBool(b) => JNum(if b then 1 else 0)
    case JArr(items) => JArr(seq(|items|, i requires 0 <= i < |items| => Canon(items[i])))
    case JObj(fields) => JObj(map k | k in fields :: Canon(fields[k]))
    case _ => j
  }

  /** Python's `a == b` on decoded JSON values. */
  predicate PyEq(a: Json, b: Json) {
    Canon(a) == Canon(b)
  }

  /** Python's `not j`. */
  predicate Falsy(j: Json) {
    match j
    case JNull => true
    case JBool(b) => !b
    case JNum(n) => n == 0
    case JStr(s) => s == ""
    case JArr(items) => items == []
    case JObj(fields) => fields == map[]
  }

  /** `not d.get(key)`: the key is absent or its value is falsy. */
  predicate Blank(o: Option<Json>) {
    o.None? || Falsy(o.value)
  }

  /** `d.get(key)` on a dict. */
  function Get(d: Record, key: string): (r: Option<Json>)
    ensures r.Some? <==> key in d
    ensures r.Some? ==> r.value == d[key]
  {
    if key in d then Some(d[key]) else None
  }

  /** `str.lower()` on the ASCII letters; every other character is kept. */
  function Lower(s: string): (r: string)
    ensures |r| == |s|
    ensures forall i :: 0 <= i < |s| ==> r[i] == LowerChar(s[i])
  {
    if s == [] then [] else [LowerChar(s[0])] + Lower(s[1..])
  }

  function LowerChar(c: char): char {
    if 'A' <= c <= 'Z' then (c as int + 32) as char else c
  }

  /** `p in s` on two strings: `p` occurs in `s` as a contiguous block. */
  predicate Occurs(p: string, s: string)
    decreases |s|
  {
    p <= s || (s != [] && Occurs(p, s[1..]))
  }

  /** Python's `key in container` for a string key. */
  function HasKey(container: Json, key: string): (r: Result<bool, Raised>)
    ensures container.JObj? ==> r == Ok(key in container.fields)
    ensures container.JArr? ==> r == Ok(JStr(key) in container.items)
    ensures (container.JNull? || container.JBool? || container.JNum?) ==> r == Err(TypeError)
  {
    match container
    case JObj(fields) => Ok(key in fields)
    case JArr(items) => Ok(JStr(key) in items)
    case JStr(s) => Ok(Occurs(key, s))
    case _ => Err(TypeError)
  }

  /** Python's `container[key]` for a string key. */
  function Item(container: Json, key: string): (r: Result<Json, Raised>)
    ensures r.Ok? <==> container.JObj? && key in container.fields
    ensures r.Ok? ==> r.value == container.fields[key]
  {
    match container
    case JObj(fields) => if key in fields then Ok(fields[key]) else Err(KeyError)
    case _ => Err(TypeError)
  }
}
