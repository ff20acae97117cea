/**
 * Values that JavaScript code throws, reduced to what the client inspects:
 * whether the value is an object, whether it is an `Error`, its `name`,
 * `message`, `status` and `response.status`.
 */
module JsErrors {

  /** A numeric property read off a thrown object: missing (null/undefined), a number, or anything else. */
  datatype Field = Absent | Num(n: int) | NonNumber

  datatype Thrown =
    | Primitive(text: string)
    | Object(isError: bool, name: string, message: string, status: Field, responseStatus: Field)

  /** `new Error(message)` */
  function NewError(message: string): Thrown {
    Object(true, "Error", message, Absent, Absent)
  }

  /** A `TypeError` the engine raises (property of null, calling a non-function). */
  function NewTypeError(message: string): Thrown {
    Object(true, "TypeError", message, Absent, Absent)
  }

  /** The `DOMException` a cancelled fetch or read rejects with. */
  function AbortError(): Thrown {
    Object(true, "AbortError", "The operation was aborted.", Absent, Absent)
  }
}
