/** The uniform response envelope of the newer routes. */
module ApiResponse {
  import opened Wrappers

  datatype Status = Success | Error

  /** `{ status, message, dateTime, data?, error? }`; `dateTime` is supplied by the caller. */
  datatype Envelope<+T> = Envelope(status: Status, message: string, dateTime: string,
                                   data: Option<T>, error: Option<string>)

  /** A success envelope carries data and no error; an error envelope the reverse. */
  predicate WellFormed<T>(e: Envelope<T>) {
    (e.status == Success) <==> (e.data.Some? && e.error.None?)
  }

  function CreateSuccessResponse<T>(data: T, dateTime: string, message: string := "Success"): (e: Envelope<T>)
    ensures e.status == Success && e.data == Some(data) && e.error.None?
    ensures e.message == message && e.dateTime == dateTime
    ensures WellFormed(e)
  {
    Envelope(Success, message, dateTime, Some(data), None)
  }

  function CreateErrorResponse<T>(error: string, dateTime: string, message: string := "Error occurred"): (e: Envelope<T>)
    ensures e.status == Error && e.error == Some(error) && e.data.None?
    ensures e.message == message && e.dateTime == dateTime
    ensures WellFormed(e)
  {
    Envelope(Error, message, dateTime, None, Some(error))
  }

  /** Omitted messages take their defaults. */
  lemma DefaultMessages<T>(data: T, error: string, dateTime: string)
    ensures CreateSuccessResponse(data, dateTime).message == "Success"
    ensures CreateErrorResponse<T>(error, dateTime).message == "Error occurred"
  {
  }
}
