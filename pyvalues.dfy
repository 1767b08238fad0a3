/**
 * The Python values the conversation-extraction code handles: what
 * `json.loads` returns, Python truthiness, `dict.get` with a default,
 * iteration in a `for` loop, and the exceptions these raise.
 */
module PyValues {

  datatype Option<T> = None | Some(value: T)

  /**
   * A value produced by `json.loads`. An object is a list of key/value pairs;
   * a parsed object has distinct keys, which the model does not enforce.
   */
  datatype Json =
    | Null
    | Bool(b: bool)
    | Int(i: int)
    | Float(r: real)
    | Str(s: string)
    | Arr(items: seq<Json>)
    | Obj(fields: seq<(string, Json)>)

  /** A Python exception, by class and `str(e)` text. */
  datatype PyError = PyError(kind: ErrorKind, message: string)

  /** The exception classes the modelled code raises itself, and any exception from a library call. */
  datatype ErrorKind = AttributeError | TypeError | ValueError | LibraryError

  datatype Result<T> = Ok(value: T) | Err(error: PyError)

  /** `type(j).__name__`. */
  function TypeName(j: Json): string {
    match j
    case Null => "NoneType"
    case Bool(_) => "bool"
    case Int(_) => "int"
    case Float(_) => "float"
    case Str(_) => "str"
    case Arr(_) => "list"
    case Obj(_) => "dict"
  }

  /** The error raised by calling a method a value's type does not have. */
  function NoAttribute(j: Json, name: string): PyError {
    PyError(AttributeError, "'" + TypeName(j) + "' object has no attribute '" + name + "'")
  }

  function NotIterable(j: Json): PyError {
    PyError(TypeError, "'" + TypeName(j) + "' object is not iterable")
  }

  /** `bool(j)`: `None`, `False`, zero and empty containers are false. */
  predicate Truthy(j: Json) {
    match j
    case Null => false
    case Bool(b) => b
    case Int(i) => i != 0
    case Float(r) => r != 0.0
    case Str(s) => s != ""
    case Arr(items) => items != []
    case Obj(fields) => fields != []
  }

  /**
   * The value stored under `key` in a list of dictionary entries, if any. A
   * key listed twice keeps its last value, as `json.loads` and `JSON.parse`
   * do when they build the dictionary.
   */
  function Lookup(fields: seq<(string, Json)>, key: string): (r: Option<Json>)
    ensures r.Some? <==> exists k :: 0 <= k < |fields| && fields[k].0 == key
    ensures r.Some? ==>
      exists k :: 0 <= k < |fields| && fields[k] == (key, r.value) && (forall k' :: k < k' < |fields| ==> fields[k'].0 != key)
    ensures fields != [] && fields[|fields| - 1].0 == key ==> r == Some(fields[|fields| - 1].1)
    decreases |fields|
  {
    if fields == [] then None
    else if fields[|fields| - 1].0 == key then Some(fields[|fields| - 1].1)
    else
      var init := fields[..|fields| - 1];
      var r := Lookup(init, key);
      assert forall k :: 0 <= k < |init| ==> fields[k] == init[k];
      r
  }

  /** `j.get(key, default)`: the stored value or the default; only a `dict` has `get`. */
  function Get(j: Json, key: string, default: Json): (r: Result<Json>)
    ensures j.Obj? <==> r.Ok?
    ensures r.Err? ==> r.error == NoAttribute(j, "get")
    ensures j.Obj? && Lookup(j.fields, key).None? ==> r == Ok(default)
    ensures j.Obj? && Lookup(j.fields, key).Some? ==> r == Ok(Lookup(j.fields, key).value)
  {
    if j.Obj? then
      match Lookup(j.fields, key)
      case Some(v) => Ok(v)
      case None => Ok(default)
    else Err(NoAttribute(j, "get"))
  }

  /** `r.get(key, default)` when `r` is itself the result of an earlier step that may have raised. */
  function GetFrom(r: Result<Json>, key: string, default: Json): Result<Json> {
    match r
    case Err(e) => Err(e)
    case Ok(j) => Get(j, key, default)
  }

  /**
   * The values a `for` loop over `j` visits: a list's items, a dict's keys,
   * a string's characters; anything else is not iterable.
   */
  function Iterate(j: Json): (r: Result<seq<Json>>)
    ensures r.Err? <==> !(j.Arr? || j.Obj? || j.Str?)
    ensures r.Err? ==> r.error == NotIterable(j)
    ensures j.Arr? ==> r == Ok(j.items)
    ensures j.Obj? ==>
      r.Ok? && |r.value| == |j.fields| && forall k :: 0 <= k < |j.fields| ==> r.value[k] == Str(j.fields[k].0)
    ensures j.Str? ==>
      r.Ok? && |r.value| == |j.s| && forall k :: 0 <= k < |j.s| ==> r.value[k] == Str([j.s[k]])
  {
    match j
    case Arr(items) => Ok(items)
    case Obj(fields) => Ok(seq(|fields|, k requires 0 <= k < |fields| => Str(fields[k].0)))
    case Str(s) => Ok(seq(|s|, k requires 0 <= k < |s| => Str([s[k]])))
    case _ => Err(NotIterable(j))
  }
}
