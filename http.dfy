/**
 * How a request handler or middleware finishes: it calls `next()` to let the request
 * through, sends a response itself, passes an error to `next`, or (for an async handler
 * without `next`) lets its promise reject.
 */
module Http {
  import opened Wrappers
  import ApiResponses
  import opened Errors

  datatype Outcome =
    | Continue
    | Respond(status: int, success: Option<bool>, message: string)
    | Next(error: JsError)
    | Rejected(error: JsError)

  /**
   * The HTTP status the client receives. A rejected promise is routed to the error
   * middleware as Express 5 does; see the README for Express 4.
   */
  function Status(o: Outcome): (r: int)
    requires !o.Continue?
    ensures o.Respond? ==> r == o.status
    ensures !o.Respond? ==> r != 0
    ensures o.Next? && o.error.name == "CastError" ==> r == 400
  {
    match o
    case Respond(s, _, _) => s
    case Next(e) => ErrorHandler(e, false).status
    case Rejected(e) => ErrorHandler(e, false).status
  }

  /** `res.status(code).json(new ApiResponse(code, data, message))`. */
  function Reply(status: int, message: string): (o: Outcome)
    requires message != ""
    ensures o.Respond? && o.status == status && o.message == message
    ensures o.success == Some(status < 400)
  {
    var env := ApiResponses.New<bool>(status, None, Some(message));
    Respond(env.statusCode, Some(env.success), env.message)
  }

  /** `next(new ApiError(status, message))`. */
  function Fail(status: int, message: string): (o: Outcome)
    requires status != 0
    ensures o.Next? && Status(o) == status && ErrorHandler(o.error, false).message == message
  {
    Next(ApiError(status, message, []))
  }
}
