/**
 * Python's `from m import a, b, ...`: the statement binds its names in
 * order and raises ImportError at the first one that module `m` does not
 * define at top level. A module whose own imports raise cannot be
 * imported, so none of its functions can run.
 */
module PythonImports {
  import opened Wrappers

  /** The position of the first name in `names` that `defined` lacks, if any. */
  function FirstMissing(defined: set<string>, names: seq<string>): (r: Option<nat>)
    ensures r.None? <==> forall i :: 0 <= i < |names| ==> names[i] in defined
    ensures r.Some? ==>
      && r.value < |names| && names[r.value] !in defined
      && forall j :: 0 <= j < r.value ==> names[j] in defined
  {
    if names == [] then None
    else if names[0] !in defined then Some(0)
    else match FirstMissing(defined, names[1..])
      case None => None
      case Some(k) => Some(k + 1)
  }

  /** The text of the ImportError for a name module `source` does not define. */
  function CannotImport(name: string, source: string): string
  {
    "cannot import name '" + name + "' from '" + source + "'"
  }

  /**
   * `from source import names` against the top-level names `defined` of
   * `source`: the ImportError for the first missing name, or nothing when
   * every name binds.
   */
  function ImportFrom(source: string, defined: set<string>, names: seq<string>): (r: Option<string>)
    ensures r.None? <==> forall i :: 0 <= i < |names| ==> names[i] in defined
    ensures r.Some? ==> exists i :: 0 <= i < |names| && names[i] !in defined && r.value == CannotImport(names[i], source)
  {
    match FirstMissing(defined, names)
    case None => None
    case Some(k) => Some(CannotImport(names[k], source))
  }
}
