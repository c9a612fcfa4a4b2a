/**
 * The slice of JavaScript's value space that the template engine handles:
 * a property is either missing (`undefined`) or holds a string.
 */
module JsValues {

  datatype JsValue = Undefined | Str(s: string)

  /** JavaScript truthiness restricted to these values: only a non-empty string is truthy. */
  predicate Truthy(v: JsValue)
  {
    v.Str? && v.s != ""
  }

  /**
   * The text `String.prototype.replace` inserts for a replacement value:
   * `undefined` is converted to the string "undefined".
   */
  function Render(v: JsValue): (r: string)
  {
    match v
    case Undefined => "undefined"
    case Str(s) => s
  }

  /** `a || b` on these values. */
  function Or(a: JsValue, b: JsValue): (r: JsValue)
  {
    if Truthy(a) then a else b
  }
}
