/** Values of the JavaScript runtime that the session cache relies on:
    a nullable result (`null` or a value) and the truthiness test that
    `if (x)` and `x || y` apply to a `getItem` result or a display name. */
module JsValues {

  /** `null` (or a missing value) versus a present one. */
  datatype Option<+T> = None | Some(value: T) {
    predicate IsFailure() { None? }

    function PropagateFailure<U>(): Option<U>
      requires None?
    {
      None
    }

    function Extract(): T
      requires Some?
    {
      value
    }
  }

  /** How a JavaScript call ended: normally, or by throwing an error with a message. */
  datatype Completion = Returned | Threw(message: string)

  /** A nullable string is truthy when it is present and not empty:
      `null` and `""` are both falsy. */
  predicate Truthy(s: Option<string>) {
    s.Some? && s.value != ""
  }
}
