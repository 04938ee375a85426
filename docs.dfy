/**
 * Content records, message bodies and provider arguments are JSON objects in
 * the pipeline. A `Doc` is such an object: a map from field names to JSON
 * values. Python's `d.get(k, default)`, truthiness and `d.update(u)` /
 * `{**base, **u}` are defined here once.
 */
module Docs {
  import opened Text

  datatype Value =
    | Str(s: string)
    | Null
    | Int(i: int)
    | Bool(b: bool)
    | List(items: seq<Value>)

  type Doc = map<string, Value>

  /** Python's `d.get(key, default)`. */
  function Get(d: Doc, key: string, default: Value): Value
  {
    if key in d then d[key] else default
  }

  /** Python's `d.get(key)`, whose default is None. */
  function Lookup(d: Doc, key: string): Value
  {
    Get(d, key, Null)
  }

  /** Python truthiness of a JSON value. */
  predicate Truthy(v: Value)
  {
    match v
    case Str(s) => s != []
    case Null => false
    case Int(i) => i != 0
    case Bool(b) => b
    case List(xs) => xs != []
  }

  /** The text of a string value; any other value reads as "". */
  function AsText(v: Value): string
  {
    if v.Str? then v.s else []
  }

  /** Python's `a or b` on values. */
  function Or(a: Value, b: Value): Value
  {
    if Truthy(a) then a else b
  }

  /** Python's `s or t` on strings. */
  function OrText(s: string, t: string): string
  {
    if s != [] then s else t
  }

  /**
   * `base.update(updates)`, and equally `{**base, **updates}`: every key of
   * `updates` takes its new value, every other key keeps its old one.
   */
  function Merge(base: Doc, updates: Doc): (r: Doc)
    ensures r.Keys == base.Keys + updates.Keys
    ensures forall k :: k in updates ==> r[k] == updates[k]
    ensures forall k :: k in base && k !in updates ==> r[k] == base[k]
  {
    base + updates
  }

  function Strs(xs: seq<string>): (r: seq<Value>)
    ensures |r| == |xs|
    ensures forall i :: 0 <= i < |xs| ==> r[i] == Str(xs[i])
  {
    if xs == [] then [] else [Str(xs[0])] + Strs(xs[1..])
  }

  /**
   * Python's `str(v)` as an f-string renders it: strings as themselves,
   * None/True/False by name, lists as `[a, b]` with their string elements
   * quoted (`quoted` asks for `repr`, which differs from `str` only on
   * strings; escaping of quotes inside strings is not modelled).
   */
  function Render(v: Value, quoted: bool): string
    decreases v
  {
    match v
    case Str(s) => if quoted then "'" + s + "'" else s
    case Null => "None"
    case Int(i) => IntText(i)
    case Bool(b) => if b then "True" else "False"
    case List(xs) => "[" + Join(", ", seq(|xs|, i requires 0 <= i < |xs| => Render(xs[i], true))) + "]"
  }

  /** Python's `str(v)`. */
  function Show(v: Value): (r: string)
    ensures v.Str? ==> r == v.s
  {
    Render(v, false)
  }

  /** A string field as text, with a default when absent (`str(d.get(k, default))` for strings). */
  function TextOf(d: Doc, key: string, default: string): string
  {
    AsText(Get(d, key, Str(default)))
  }
}
