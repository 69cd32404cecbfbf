/**
 * The API result helpers: the normaliser that turns anything thrown into an
 * `ApiError`, the success and error envelopes, and the table of messages per
 * HTTP status. `serverApi.handleError`, `serverApi.success` and
 * `serverApi.error` are the very same functions as `api`'s, so they are
 * defined once, here.
 */
module Api {
  import opened Wrappers

  datatype ApiError = ApiError(message: string, code: Option<string>, status: Option<int>)

  /** What `handleError` can be handed: an `Error` (or subclass) instance, or any other value. */
  datatype Thrown = ErrorInstance(message: string) | OtherValue

  /** `{ data, error }`; `null` is `None`. */
  datatype ApiResponse<T> = ApiResponse(data: Option<T>, error: Option<ApiError>)

  const UNKNOWN_ERROR: string := "UNKNOWN_ERROR"
  const UNKNOWN_ERROR_MESSAGE: string := "알 수 없는 오류가 발생했습니다."

  /**
   * `handleError`: an `Error` keeps its message, anything else gets the fixed
   * fallback message; the code is always UNKNOWN_ERROR and no status is set.
   */
  function HandleError(thrown: Thrown): (r: ApiError)
    ensures r.code == Some(UNKNOWN_ERROR) && r.status.None?
    ensures thrown.ErrorInstance? ==> r.message == thrown.message
    ensures thrown.OtherValue? ==> r.message == UNKNOWN_ERROR_MESSAGE
  {
    match thrown
    case ErrorInstance(message) => ApiError(message, Some("UNKNOWN_ERROR"), None)
    case OtherValue => ApiError("알 수 없는 오류가 발생했습니다.", Some("UNKNOWN_ERROR"), None)
  }

  /** `handleError` loses only what is outside the message: two errors normalise alike exactly when their messages agree. */
  lemma HandleErrorKeepsMessage(a: string, b: string)
    ensures HandleError(ErrorInstance(a)) == HandleError(ErrorInstance(b)) <==> a == b
  {
  }

  /** `success(data)`. */
  function Success<T>(data: T): (r: ApiResponse<T>)
    ensures r.data == Some(data) && r.error.None?
  {
    ApiResponse(Some(data), None)
  }

  /** `error(e)`. */
  function Error<T>(error: ApiError): (r: ApiResponse<T>)
    ensures r.data.None? && r.error == Some(error)
  {
    ApiResponse(None, Some(error))
  }

  /** A response made by these helpers carries exactly one of data and error, and gives back what it was made from. */
  lemma EnvelopesDisjoint<T>(data: T, error: ApiError)
    ensures Success(data) != Error<T>(error)
    ensures Success(data).data.value == data && Error<T>(error).error.value == error
  {
  }

  /** `ERROR_MESSAGES`, keyed by HTTP status. */
  const ERROR_MESSAGES: map<int, string> := map[
    400 := "잘못된 요청입니다.",
    401 := "인증이 필요합니다.",
    403 := "권한이 없습니다.",
    404 := "요청한 리소스를 찾을 수 없습니다.",
    429 := "너무 많은 요청을 보냈습니다. 잠시 후 다시 시도해주세요.",
    500 := "서버 오류가 발생했습니다."]

  /** The table has an entry for exactly 400, 401, 403, 404, 429 and 500, each a non-empty message. */
  lemma ErrorMessagesKeys()
    ensures ERROR_MESSAGES.Keys == {400, 401, 403, 404, 429, 500}
    ensures forall status :: status in ERROR_MESSAGES ==> ERROR_MESSAGES[status] != ""
  {
  }

  /** Looking a status up: the message for the six listed statuses, nothing otherwise. */
  function ErrorMessage(status: int): (r: Option<string>)
    ensures r.Some? <==> status in {400, 401, 403, 404, 429, 500}
    ensures status == 401 ==> r == Some("인증이 필요합니다.")
    ensures status == 404 ==> r == Some("요청한 리소스를 찾을 수 없습니다.")
  {
    if status in ERROR_MESSAGES then Some(ERROR_MESSAGES[status]) else None
  }
}
