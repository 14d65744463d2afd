/**
 * JavaScript values as the card editor receives them from `JSON.parse`, from browser storage or
 * from a partially filled object literal.  `JUndefined` stands for a property that is absent;
 * numbers are integers (non-integral numbers and the infinities are not part of this model) and
 * `JNaN` is the not-a-number value.
 */
module Js {

  datatype Value =
    | JUndefined
    | JNull
    | JBool(b: bool)
    | JNum(n: int)
    | JNaN
    | JStr(s: string)
    | JArr(items: seq<Value>)
    | JObj(fields: map<string, Value>)

  /** JavaScript truthiness: `undefined`, `null`, `false`, `0`, `NaN` and `''` are falsy. */
  predicate Truthy(v: Value) {
    match v
    case JUndefined => false
    case JNull => false
    case JBool(b) => b
    case JNum(n) => n != 0
    case JNaN => false
    case JStr(s) => s != ""
    case JArr(_) => true
    case JObj(_) => true
  }

  /** `v ?? d` tests for this. */
  predicate Nullish(v: Value) {
    v.JUndefined? || v.JNull?
  }

  /** Property access `v[key]`: only objects have the card fields; every other value yields `undefined`. */
  function Get(v: Value, key: string): (r: Value)
    ensures !v.JObj? ==> r == JUndefined
    ensures v.JObj? && key !in v.fields ==> r == JUndefined
  {
    if v.JObj? && key in v.fields then v.fields[key] else JUndefined
  }

  /** The object literal `{}`. */
  const EmptyObject: Value := JObj(map[])
}
