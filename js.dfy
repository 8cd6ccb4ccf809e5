/** JavaScript values and exceptions that the modelled handlers pass around. */
module Js {

  /** `undefined` / `null` (None) or a present value. */
  datatype Option<+T> = None | Some(value: T) {
    function GetOr(default: T): T {
      match this
      case Some(v) => v
      case None => default
    }
  }

  /** A thrown JavaScript error: its `name` ("Error", "TypeError", ...) and its `message`. */
  datatype JsError = JsError(name: string, message: string)

  /** The settled outcome of a call that may throw, or of an awaited promise. */
  datatype Outcome<+T> = Ok(value: T) | Threw(error: JsError)

  /** `new Error(message)`. */
  function Error(message: string): JsError {
    JsError("Error", message)
  }

  /** `Error.prototype.toString` (section 20.5.3.4 of ECMA-262): the name and the
      message joined by ": ", where an empty part and its separator are omitted. */
  function ErrorToString(e: JsError): string {
    if e.name == "" then e.message
    else if e.message == "" then e.name
    else e.name + ": " + e.message
  }
}
