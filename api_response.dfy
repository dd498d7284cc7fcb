/** The success envelope every controller wraps its payload in (src/utils/ApiResponse.js). */
module ApiResponses {
  import opened Wrappers

  datatype ApiResponse<T> = ApiResponse(statusCode: int, success: bool, message: string, data: Option<T>)

  /**
   * `new ApiResponse(statusCode, data = null, message = null)`: `None` stands for a missing
   * or `null` argument.
   */
  function New<T>(statusCode: int, data: Option<T>, message: Option<string>): (r: ApiResponse<T>)
    ensures r.statusCode == statusCode && r.data == data
    ensures r.success <==> statusCode < 400
    ensures Truthy(message) ==> r.message == message.value
    ensures !Truthy(message) && statusCode < 400 ==> r.message == "Success"
    ensures !Truthy(message) && statusCode >= 400 ==> r.message == "Error"
  {
    ApiResponse(
      statusCode,
      statusCode < 400,
      if Truthy(message) then message.value else if statusCode < 400 then "Success" else "Error",
      data)
  }

  /** Whatever the arguments, the envelope always carries a non-empty message. */
  lemma MessageNeverEmpty<T>(statusCode: int, data: Option<T>, message: Option<string>)
    ensures New(statusCode, data, message).message != ""
  {
  }

  /**
   * A call with the message in the data position (`new ApiResponse(200, "User logged out
   * successfully")` in the logout handler) stores the text as `data` and reports "Success".
   */
  lemma MessageInDataPosition(text: string)
    ensures New(200, Some(text), None).data == Some(text)
    ensures New(200, Some(text), None).message == "Success"
    ensures New(200, Some(text), None).success
  {
  }
}
