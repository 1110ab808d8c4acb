/**
 * The values `json.loads` produces, as the pipeline sees them: Python's None, bool,
 * int, float, str, list and dict. The parser itself is not modelled; callers
 * receive it as a function `string -> Option<Json>`, None standing for
 * `json.JSONDecodeError`.
 */
module JsonValue {
  import opened Wrappers

  datatype Json =
    | JNull
    | JBool(b: bool)
    | JInt(i: int)
    | JFloat(r: real)
    | JStr(s: string)
    | JArr(items: seq<Json>)
    | JObj(fields: map<string, Json>)
  {
    /** Python truthiness: `if value:` / `not value`. */
    predicate Truthy() {
      match this
      case JNull => false
      case JBool(b) => b
      case JInt(i) => i != 0
      case JFloat(r) => r != 0.0
      case JStr(s) => s != []
      case JArr(items) => items != []
      case JObj(fields) => fields != map[]
    }

    /** `type(value).__name__`, as it appears in Python's exception messages. */
    function TypeName(): (n: string)
      ensures n != []
    {
      match this
      case JNull => "NoneType"
      case JBool(_) => "bool"
      case JInt(_) => "int"
      case JFloat(_) => "float"
      case JStr(_) => "str"
      case JArr(_) => "list"
      case JObj(_) => "dict"
    }

    /** The value as a Python number, when it is one (`bool` counts as 0 or 1). */
    function AsNumber(): (r: Option<real>)
      ensures r.Some? <==> (JBool? || JInt? || JFloat?)
    {
      match this
      case JBool(b) => Some(if b then 1.0 else 0.0)
      case JInt(i) => Some(i as real)
      case JFloat(x) => Some(x)
      case _ => None
    }
  }

  /**
   * `str(value)` for use in an f-string: a string is itself; the rendering of
   * any other value (Python's `repr` rules) is the parameter `show`.
   */
  function Display(j: Json, show: Json -> string): (s: string)
    ensures j.JStr? ==> s == j.s
  {
    if j.JStr? then j.s else show(j)
  }

  /** `d.get(key, default)` on a dict. */
  function Get(fields: map<string, Json>, key: string, default: Json): (r: Json)
    ensures key in fields ==> r == fields[key]
    ensures key !in fields ==> r == default
  {
    if key in fields then fields[key] else default
  }

  /** The message of the AttributeError raised by `value.get(...)` on a value that is not a dict. */
  function NoGetMessage(j: Json): (m: string)
    requires !j.JObj?
    ensures |m| > |j.TypeName()|
  {
    "'" + j.TypeName() + "' object has no attribute 'get'"
  }

  /** The message of the TypeError raised by `value < 0.7` when value is not a number. */
  function LessThanMessage(j: Json): (m: string)
    requires j.AsNumber().None?
    ensures |m| > |j.TypeName()|
  {
    "'<' not supported between instances of '" + j.TypeName() + "' and 'float'"
  }
}
