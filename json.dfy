/**
 * Decoded JSON as Python's `json` module hands it to the tools, and the
 * Python operations the tools apply to it: truth value, `x[key]`, `x[0]`,
 * `x.get(key, default)`, hashing as a dictionary key, and `str(x)` as an
 * f-string shows it. Each lookup returns the exception Python raises instead
 * of a value when it fails.
 */
module Json {
  import opened Wrappers
  import opened Text

  /**
   * A JSON value. Integers keep their value. Other numbers are kept as the text
   * Python's `str()` prints for them, together with their value when it is a
   * whole number (which is what equality with an integer and hashing see).
   */
  datatype Json =
    | JNull
    | JBool(b: bool)
    | JInt(i: int)
    | JFloat(shown: string, whole: Option<int>)
    | JStr(s: string)
    | JArr(items: seq<Json>)
    | JObj(fields: map<string, Json>)

  /** Python's `bool(j)`. */
  predicate Truthy(j: Json)
  {
    match j
    case JNull => false
    case JBool(b) => b
    case JInt(i) => i != 0
    case JFloat(_, whole) => whole != Some(0)
    case JStr(s) => s != []
    case JArr(items) => items != []
    case JObj(fields) => fields != map[]
  }

  /** Python's `type(j).__name__`. */
  function TypeName(j: Json): string
  {
    match j
    case JNull => "NoneType"
    case JBool(_) => "bool"
    case JInt(_) => "int"
    case JFloat(_, _) => "float"
    case JStr(_) => "str"
    case JArr(_) => "list"
    case JObj(_) => "dict"
  }

  /** The exceptions a lookup into decoded JSON raises; a KeyError keeps the repr of its key. */
  datatype Fault =
    | KeyError(key: string)
    | IndexError(message: string)
    | TypeError(message: string)
    | AttributeError(message: string)

  /** Python's `str(e)` of such an exception. */
  function FaultText(f: Fault): string
  {
    match f
    case KeyError(key) => key
    case IndexError(message) => message
    case TypeError(message) => message
    case AttributeError(message) => message
  }

  /** Python's `repr` of a key without quotes or backslashes in it. */
  function Repr(key: string): string
  {
    "'" + key + "'"
  }

  /** `j[key]` with a string key. */
  function Index(j: Json, key: string): (r: Result<Json, Fault>)
    ensures r.Ok? <==> j.JObj? && key in j.fields
    ensures r.Ok? ==> r.value == j.fields[key]
    ensures j.JObj? && key !in j.fields ==> r == Err(KeyError(Repr(key)))
  {
    match j
    case JObj(fields) =>
      if key in fields then Ok(fields[key]) else Err(KeyError(Repr(key)))
    case JArr(_) => Err(TypeError("list indices must be integers or slices, not str"))
    case JStr(_) => Err(TypeError("string indices must be integers, not 'str'"))
    case _ => Err(TypeError("'" + TypeName(j) + "' object is not subscriptable"))
  }

  /** `j[0]`. */
  function First(j: Json): (r: Result<Json, Fault>)
    ensures j.JArr? && j.items != [] ==> r == Ok(j.items[0])
    ensures r.Ok? ==> (j.JArr? || j.JStr?) && Truthy(j)
  {
    match j
    case JArr(items) =>
      if items != [] then Ok(items[0]) else Err(IndexError("list index out of range"))
    case JStr(s) =>
      if s != [] then Ok(JStr([s[0]])) else Err(IndexError("string index out of range"))
    case JObj(_) => Err(KeyError("0"))
    case _ => Err(TypeError("'" + TypeName(j) + "' object is not subscriptable"))
  }

  /** `j.get(key, default)`: only a dictionary has `get`. */
  function GetOr(j: Json, key: string, default: Json): (r: Result<Json, Fault>)
    ensures r.Ok? <==> j.JObj?
    ensures r.Ok? ==> r.value == if key in j.fields then j.fields[key] else default
  {
    if j.JObj? then Ok(if key in j.fields then j.fields[key] else default)
    else Err(AttributeError("'" + TypeName(j) + "' object has no attribute 'get'"))
  }

  /**
   * The integer a value equals when used as a dictionary key (`True == 1`,
   * `3.0 == 3`), None when it equals no integer; lists and dictionaries
   * cannot be hashed.
   */
  function HashKey(j: Json): (r: Result<Option<int>, Fault>)
    ensures r.Err? <==> j.JArr? || j.JObj?
    ensures j.JInt? ==> r == Ok(Some(j.i))
  {
    match j
    case JNull => Ok(None)
    case JBool(b) => Ok(Some(if b then 1 else 0))
    case JInt(i) => Ok(Some(i))
    case JFloat(_, whole) => Ok(whole)
    case JStr(_) => Ok(None)
    case JArr(_) => Err(TypeError("unhashable type: 'list'"))
    case JObj(_) => Err(TypeError("unhashable type: 'dict'"))
  }

  /** `str(j)` as an f-string inserts it; lists and dictionaries are abbreviated. */
  function Show(j: Json): string
  {
    match j
    case JNull => "None"
    case JBool(b) => if b then "True" else "False"
    case JInt(i) => IntToString(i)
    case JFloat(shown, _) => shown
    case JStr(s) => s
    case JArr(_) => "[...]"
    case JObj(_) => "{...}"
  }
}
