/**
 * The slice of JavaScript value semantics that both the page script and the worker
 * rely on: JSON documents as produced by `JSON.parse`, truthiness (`!x`), `Array.isArray`,
 * a property read `x.key` and an index read `x[0]`.
 */
module JsValue {

  datatype Value =
    | Undefined
    | Null
    | Bool(b: bool)
    | Num(n: real)
    | Str(s: string)
    | Arr(items: seq<Value>)
    | Obj(fields: map<string, Value>)

  /** Reading a property of these throws a TypeError. */
  predicate Nullish(v: Value) {
    v.Undefined? || v.Null?
  }

  /** `!!v` in JavaScript (JSON numbers are never NaN). */
  predicate Truthy(v: Value) {
    match v
    case Undefined => false
    case Null => false
    case Bool(b) => b
    case Num(n) => n != 0.0
    case Str(s) => s != []
    case Arr(_) => true
    case Obj(_) => true
  }

  /**
   * `v.key` for a key that no built-in prototype defines ("choices", "message",
   * "content", "messages"): only an own property of an object is found.
   */
  function Member(v: Value, key: string): Value
    requires !Nullish(v)
  {
    if v.Obj? && key in v.fields then v.fields[key] else Undefined
  }

  /** `v[0]`: the first element of an array, the first character of a string, or the own property "0". */
  function Index0(v: Value): Value
    requires !Nullish(v)
  {
    match v
    case Arr(items) => if |items| > 0 then items[0] else Undefined
    case Str(s) => if |s| > 0 then Str([s[0]]) else Undefined
    case Obj(fields) => if "0" in fields then fields["0"] else Undefined
    case _ => Undefined
  }
}
