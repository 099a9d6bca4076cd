/**
 * The errors the middleware passes on with `next(err)` and the final
 * `errorHandler` that turns one into an HTTP status and a JSON body.
 * `ErrorResponse` (an `Error` carrying a `statusCode`) is one kind of these
 * errors; the store's errors carry a `name`, a `code` or a list of
 * validation messages.
 */
module ErrorHandler {
  import opened Wrappers
  import opened JsText

  /**
   * A thrown JavaScript error: its `name`, `message`, the store's `code`,
   * an own `statusCode`, and the `message` of every entry of `err.errors`
   * in their order.
   */
  datatype JsError = JsError(name: string, message: string, code: Option<int>,
                             statusCode: Option<int>, errors: seq<string>)

  /** `new ErrorResponse(message, statusCode)`. */
  function NewErrorResponse(message: string, statusCode: int): (e: JsError)
    ensures e.message == message && e.statusCode == Some(statusCode)
  {
    JsError("Error", message, None, Some(statusCode), [])
  }

  /** The JSON body `{ success, error }`. */
  datatype ErrorBody = ErrorBody(success: bool, error: string)

  const DuplicateKeyCode: int := 11000
  const DefaultMessage: string := "Server Errorz"

  /**
   * The handler. A copy of the error is overwritten by each of three checks in
   * turn (bad object id, duplicate key, failed validation), so a later match
   * wins; `statusCode || 500` and `message || "Server Errorz"` are then sent.
   * A validation error's message is its list of messages, which `Error`
   * turns into their comma-joined text.
   */
  method HandleError(err: JsError) returns (status: int, body: ErrorBody)
    ensures !body.success
    ensures err.name == "ValidationError" ==>
              status == 400
              && body.error == (if Join(err.errors, ",") == "" then DefaultMessage else Join(err.errors, ","))
    ensures err.name != "ValidationError" && err.code == Some(DuplicateKeyCode) ==>
              status == 400 && body.error == "Duplicate field value entered"
    ensures err.name == "CastError" && err.code != Some(DuplicateKeyCode) ==>
              status == 404 && body.error == "Resource not found"
    ensures err.name != "CastError" && err.name != "ValidationError" && err.code != Some(DuplicateKeyCode) ==>
              && status == (if err.statusCode.None? || err.statusCode == Some(0) then 500 else err.statusCode.value)
              && body.error == (if err.message == "" then DefaultMessage else err.message)
  {
    var error := err;
    error := error.(message := err.message);

    if err.name == "CastError" {
      error := NewErrorResponse("Resource not found", 404);
    }
    if err.code == Some(DuplicateKeyCode) {
      error := NewErrorResponse("Duplicate field value entered", 400);
    }
    if err.name == "ValidationError" {
      error := NewErrorResponse(Join(err.errors, ","), 400);
    }

    status := if error.statusCode.None? || error.statusCode == Some(0) then 500 else error.statusCode.value;
    body := ErrorBody(false, if error.message == "" then DefaultMessage else error.message);
  }
}
