/** Values shared by every part of the model: an optional value (a JavaScript
    `undefined`/`null`, a Python `None`, an absent JSON key) and a JSON value
    for the places where the source stores untyped data (`any`, `Mixed`). */
module Common {

  datatype Option<+T> = None | Some(value: T) {

    /** The value, or `default` when there is none. */
    function GetOr(default: T): T {
      match this
      case Some(v) => v
      case None => default
    }
  }

  /** `!x` on a string that may be absent (`undefined`, `null` or ""). */
  predicate Falsy(s: Option<string>) {
    s.None? || s.value == ""
  }

  /** The outcome of an operation that can fail with an error of type `E`. */
  datatype Result<+T, +E> = Ok(value: T) | Err(error: E)

  /** A JSON document as produced by `JSON.parse`. Numbers are integers here:
      no floating-point payload matters to the model. */
  datatype Json =
    | JNull
    | JBool(b: bool)
    | JNum(n: int)
    | JStr(s: string)
    | JArr(items: seq<Json>)
    | JObj(members: seq<(string, Json)>)

  /** An HTTP error reply: its status code and the `error` text of its body. */
  datatype HttpError = HttpError(status: nat, message: string)

  /** The empty object `{}`. */
  const EmptyObject: Json := JObj([])
}
