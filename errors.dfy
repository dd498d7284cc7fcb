/**
 * Errors as the Express error middleware sees them (src/middlewares/error.middleware.js),
 * and the response it turns each of them into.
 */
module Errors {
  import Strings

  /** One failing schema path: `{path, message}` of a Mongoose validator error. */
  datatype FieldError = FieldError(path: string, message: string)

  /**
   * What `instanceof` can tell about a thrown value: an `ApiError` (with its `errors`
   * list), a Mongoose `ValidationError`, any other Mongoose error, or anything else.
   */
  datatype Kind =
    | ApiErrorKind(details: seq<FieldError>)
    | ValidationKind(failures: seq<FieldError>)
    | MongooseKind
    | PlainKind

  /** A thrown value; `statusCode == 0` and `message == ""` are JavaScript's falsy values. */
  datatype JsError = JsError(name: string, kind: Kind, statusCode: int, message: string)

  /** `new ApiError(statusCode, message, errors)`; src/utils/ApiError.js is not part of this model. */
  function ApiError(statusCode: int, message: string, details: seq<FieldError>): JsError {
    JsError("Error", ApiErrorKind(details), statusCode, message)
  }

  /** What Mongoose throws when a value cannot be cast to an ObjectId. */
  function CastError(): JsError {
    JsError("CastError", MongooseKind, 0, "Cast to ObjectId failed")
  }

  /** What Mongoose throws when schema validators fail, one entry per failing path. */
  function ValidationError(failures: seq<FieldError>): JsError {
    JsError("ValidationError", ValidationKind(failures), 0, "Validation failed")
  }

  /** Mongoose's default message for a value outside a path's `enum`. */
  function EnumMessage(value: string, path: string): string {
    "`" + value + "` is not a valid enum value for path `" + path + "`."
  }

  function Messages(failures: seq<FieldError>): (r: seq<string>)
    ensures |r| == |failures|
    ensures forall k :: 0 <= k < |r| ==> r[k] == failures[k].message
  {
    if failures == [] then [] else [failures[0].message] + Messages(failures[1..])
  }

  /** The JSON body and status the middleware sends. */
  datatype ErrorResponse = ErrorResponse(status: int, success: bool, message: string, includesStack: bool)

  /** The three rebindings of `error` at lines 8-24: after them it is always an `ApiError`. */
  function Normalize(e: JsError): (r: JsError)
    ensures r.kind.ApiErrorKind? && r.name != "CastError"
  {
    var e1 := if e.name == "CastError" then ApiError(400, "Invalid ID format", []) else e;
    var e2 := if e1.kind.ValidationKind? then ApiError(400, Strings.Join(Messages(e1.kind.failures), ", "), []) else e1;
    if e2.kind.ApiErrorKind? then e2
    else
      ApiError(
        if e2.statusCode != 0 then e2.statusCode else if e2.kind.MongooseKind? then 500 else 400,
        if e2.message != "" then e2.message else "Something went wrong",
        [])
  }

  /** `errorHandler(err, ...)`, with `devMode` standing for `NODE_ENV === "development"`. */
  function ErrorHandler(e: JsError, devMode: bool): (r: ErrorResponse)
    ensures !r.success
    ensures r.includesStack <==> devMode
    ensures e.name == "CastError" ==> r.status == 400 && r.message == "Invalid ID format"
    ensures e.name != "CastError" && e.kind.ValidationKind? ==>
      r.status == 400 && r.message == Strings.Join(Messages(e.kind.failures), ", ")
    ensures e.name != "CastError" && e.kind.ApiErrorKind? ==>
      r.status == (if e.statusCode != 0 then e.statusCode else 500) && r.message == e.message
    ensures e.name != "CastError" && (e.kind.MongooseKind? || e.kind.PlainKind?) ==>
      && r.status == (if e.statusCode != 0 then e.statusCode else if e.kind.MongooseKind? then 500 else 400)
      && r.message == (if e.message != "" then e.message else "Something went wrong")
  {
    var n := Normalize(e);
    ErrorResponse(if n.statusCode != 0 then n.statusCode else 500, false, n.message, devMode)
  }

  /** The middleware is a projection: handing it its own normalised error changes nothing. */
  lemma NormalizeIdempotent(e: JsError, devMode: bool)
    ensures Normalize(Normalize(e)) == Normalize(e)
    ensures ErrorHandler(Normalize(e), devMode) == ErrorHandler(e, devMode)
  {
  }

  /** An `ApiError` with a non-zero code is answered with exactly that code and message. */
  lemma ApiErrorAnswered(statusCode: int, message: string, details: seq<FieldError>, devMode: bool)
    requires statusCode != 0
    ensures ErrorHandler(ApiError(statusCode, message, details), devMode).status == statusCode
    ensures ErrorHandler(ApiError(statusCode, message, details), devMode).message == message
  {
  }

  /** The per-field list of an `ApiError` never reaches the client: only its message does. */
  lemma DetailsDropped(statusCode: int, message: string, d1: seq<FieldError>, d2: seq<FieldError>, devMode: bool)
    ensures ErrorHandler(ApiError(statusCode, message, d1), devMode) == ErrorHandler(ApiError(statusCode, message, d2), devMode)
  {
  }

  /** A validation error with one failing path is answered with that path's message alone. */
  lemma SingleValidationMessage(f: FieldError, devMode: bool)
    ensures ErrorHandler(ValidationError([f]), devMode).message == f.message
    ensures ErrorHandler(ValidationError([f]), devMode).status == 400
  {
  }
}
