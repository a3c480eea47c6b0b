/**
 * JavaScript values as the chat handler receives them from the vendor's
 * client library: a JSON-like tree that the parser probes field by field.
 */
module JsValue {

  /**
   * One value of the decoded reply. `JUndef` stands for both `undefined`
   * and `null`: the parser never reads a property of either without a
   * guard, and the one comparison that tells them apart (`!== undefined`
   * on `boolValue`) is followed by `?? true`, which treats them alike.
   */
  datatype JValue =
    | JUndef
    | JStr(s: string)
    | JNum(n: int)
    | JBool(b: bool)
    | JArr(items: seq<JValue>)
    | JObj(fields: map<string, JValue>)

  /** JavaScript truthiness: `undefined`, `null`, `""`, `0` and `false` are falsy. */
  predicate Truthy(v: JValue) {
    match v
    case JUndef => false
    case JStr(s) => s != ""
    case JNum(n) => n != 0
    case JBool(b) => b
    case JArr(_) => true
    case JObj(_) => true
  }

  /**
   * Property access `v.key` (and `v?.key`): the field of an object, and
   * `undefined` for a missing field or for any value that is not an object.
   */
  function Get(v: JValue, key: string): JValue {
    if v.JObj? && key in v.fields then v.fields[key] else JUndef
  }
}
