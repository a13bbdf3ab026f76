/**
 * The values `json.loads` can return, and the two Python operations the
 * reports apply to them directly: truthiness (`if obj:`) and `dict.get`.
 */
module JsonData {

  /** A decoded JSON document as a Python object. An object is a `dict`,
      so a repeated name has already been resolved by the decoder. */
  datatype Json =
    | JNull
    | JBool(b: bool)
    | JInt(i: int)
    | JFloat(f: real)
    | JStr(s: string)
    | JArr(items: seq<Json>)
    | JObj(fields: map<string, Json>)

  /** Python truthiness: `None`, `False`, zero and empty containers are false. */
  predicate Truthy(v: Json)
  {
    match v
    case JNull => false
    case JBool(b) => b
    case JInt(i) => i != 0
    case JFloat(f) => f != 0.0
    case JStr(s) => |s| > 0
    case JArr(items) => |items| > 0
    case JObj(fields) => |fields| > 0
  }

  /** The falsy values are exactly `None`, `False`, `0`, `0.0`, `""`, `[]` and `{}`. */
  lemma FalsyValues(v: Json)
    ensures !Truthy(v) <==> v in {JNull, JBool(false), JInt(0), JFloat(0.0), JStr(""), JArr([]), JObj(map[])}
  {
  }

  /** `obj.get(name)`: the field's value, or `None` when it is absent. */
  function Field(obj: Json, name: string): (r: Json)
    requires obj.JObj?
    ensures name !in obj.fields ==> r == JNull
    ensures name in obj.fields ==> r == obj.fields[name]
  {
    if name in obj.fields then obj.fields[name] else JNull
  }

  /** A decoded value on which `obj.get` can be reached safely: every caller
      tests `if obj` first, so a falsy value of any kind is harmless, but a
      truthy list, number or string has no `get` and raises. */
  predicate WellShaped(v: Json)
  {
    v.JObj? || !Truthy(v)
  }
}
