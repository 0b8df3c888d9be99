/** Decoded JSON values as the Python SDK sees them after `response.json()`,
    together with the two pieces of Python built-in behaviour the upload
    relies on: truthiness (`bool(v)`) and `dict.get`. */
module JsonValue {

  /** A decoded JSON document: `None`, `bool`, `int`, `float`, `str`,
      `list` or `dict` on the Python side. */
  datatype Json =
    | JNull
    | JBool(b: bool)
    | JInt(i: int)
    | JFloat(f: real)
    | JStr(s: string)
    | JArr(items: seq<Json>)
    | JObj(fields: map<string, Json>)

  /** Python's `bool(v)`: `None`, `False`, zero, and empty strings,
      lists and dicts are falsy; everything else is truthy. */
  predicate Truthy(v: Json) {
    match v
    case JNull => false
    case JBool(b) => b
    case JInt(i) => i != 0
    case JFloat(f) => f != 0.0
    case JStr(s) => |s| > 0
    case JArr(items) => |items| > 0
    case JObj(fields) => |fields| > 0
  }

  /** The falsy value of each Python type: the empty or zero element. */
  const FalsyValues: set<Json> :=
    {JNull, JBool(false), JInt(0), JFloat(0.0), JStr(""), JArr([]), JObj(map[])}

  /** Truthiness is exactly "not one of the falsy values", both ways. */
  lemma TruthyIffNotFalsyValue(v: Json)
    ensures Truthy(v) <==> v !in FalsyValues
  {
    match v
    case JArr(items) =>
      if |items| == 0 { assert items == []; }
    case JObj(fields) =>
      if |fields| == 0 { assert fields == map[]; }
    case _ =>
  }

  /** `type(v).__name__` for a decoded JSON value. */
  function TypeName(v: Json): string {
    match v
    case JNull => "NoneType"
    case JBool(_) => "bool"
    case JInt(_) => "int"
    case JFloat(_) => "float"
    case JStr(_) => "str"
    case JArr(_) => "list"
    case JObj(_) => "dict"
  }

  /** The message of the `AttributeError` Python raises when `v.name`
      is looked up on a value whose type has no such attribute. */
  function NoAttributeMessage(v: Json, name: string): string {
    "'" + TypeName(v) + "' object has no attribute '" + name + "'"
  }

  /** The outcome of `v.get(key, default)`: the stored value or the
      default on a dict, an `AttributeError` message on anything else. */
  datatype GetOutcome = Found(value: Json) | NoAttribute(message: string)

  function DictGet(v: Json, key: string, default: Json): (r: GetOutcome)
    ensures r.Found? <==> v.JObj?
    ensures r.Found? && key in v.fields ==> r.value == v.fields[key]
    ensures r.Found? && key !in v.fields ==> r.value == default
    ensures r.NoAttribute? ==> r.message == NoAttributeMessage(v, "get")
  {
    match v
    case JObj(fields) => Found(if key in fields then fields[key] else default)
    case _ => NoAttribute(NoAttributeMessage(v, "get"))
  }
}
