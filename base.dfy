/** Small value wrappers shared by every module of the model. */
module Base {

  /** A value that may be absent (JavaScript `undefined`/`null`, or a missing document). */
  datatype Option<+T> = None | Some(value: T)

  /** A JSON value as it arrives in a request body or a route parameter.
      `NonString` stands for numbers, arrays and objects: `truthy` is JavaScript
      truthiness (false only for 0, -0 and NaN) and `text` is what `String(value)` gives. */
  datatype JsValue =
    | Str(s: string)
    | Undefined
    | Null
    | Bool(b: bool)
    | NonString(truthy: bool, text: string)
  {
    /** JavaScript truthiness: the empty string, undefined, null, false, 0 and NaN are falsy. */
    predicate Truthy()
    {
      match this
      case Str(s) => s != ""
      case Undefined => false
      case Null => false
      case Bool(b) => b
      case NonString(t, _) => t
    }
  }

  /** JavaScript truthiness of an optional string field: absent and "" are falsy. */
  predicate TruthyText(o: Option<string>)
  {
    o.Some? && o.value != ""
  }
}
