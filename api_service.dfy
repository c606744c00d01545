/**
 * The frontend `HttpClient`: the message shown for an error status, the
 * fallback for an error body that is not JSON, the classification of what a
 * request can throw, and the body rule of `post`. The fetch, the abort timer
 * and JSON parsing are outside the model: a request is given the outcome of
 * the fetch and the serialiser as values.
 */
module ApiService {
  import opened Wrappers
  import opened Text

  /** The error body the backend sends; `message` may be missing. */
  datatype ApiError = ApiError(typ: string, message: Option<string>)

  /** `ApiServiceError(message, statusCode?, apiError?)`. */
  datatype ApiServiceError = ApiServiceError(message: string, statusCode: Option<int>, apiError: Option<ApiError>)

  const INVALID_REQUEST := "Invalid request. Please check your input."
  const AUTH_REQUIRED := "Authentication required. Please log in."
  const FORBIDDEN := "You do not have permission to perform this action."
  const NOT_FOUND := "The requested resource was not found."
  const TOO_MANY := "Too many requests. Please wait a moment and try again."
  const SERVER_ERROR := "Server error. Please try again later."
  const UNAVAILABLE := "Service temporarily unavailable. Please try again later."

  /** The statuses whose message ignores the body. */
  predicate FixedStatus(status: int) {
    status in {401, 403, 404, 429, 500, 502, 503, 504}
  }

  function RequestFailed(status: int): string {
    "Request failed (" + IntToString(status) + ")"
  }

  /** `getErrorMessage(statusCode, apiError)`. */
  function GetErrorMessage(status: int, apiError: ApiError): (r: string)
    ensures r != ""
    ensures status == 401 ==> r == AUTH_REQUIRED
    ensures status == 403 ==> r == FORBIDDEN
    ensures status == 404 ==> r == NOT_FOUND
    ensures status == 429 ==> r == TOO_MANY
    ensures status == 500 ==> r == SERVER_ERROR
    ensures status in {502, 503, 504} ==> r == UNAVAILABLE
    ensures !FixedStatus(status) && Truthy(apiError.message) ==> r == apiError.message.value
    ensures status == 400 && !Truthy(apiError.message) ==> r == INVALID_REQUEST
    ensures status != 400 && !FixedStatus(status) && !Truthy(apiError.message) ==> r == RequestFailed(status)
  {
    match status
    case 400 => if Truthy(apiError.message) then apiError.message.value else INVALID_REQUEST
    case 401 => AUTH_REQUIRED
    case 403 => FORBIDDEN
    case 404 => NOT_FOUND
    case 429 => TOO_MANY
    case 500 => SERVER_ERROR
    case 502 => UNAVAILABLE
    case 503 => UNAVAILABLE
    case 504 => UNAVAILABLE
    case _ => if Truthy(apiError.message) then apiError.message.value else RequestFailed(status)
  }

  /** For the fixed statuses the body makes no difference. */
  lemma FixedStatusIgnoresBody(status: int, a1: ApiError, a2: ApiError)
    requires FixedStatus(status)
    ensures GetErrorMessage(status, a1) == GetErrorMessage(status, a2)
  {
  }

  /** Without a message in the body, the fallback text names the status: two
      statuses with the same fallback message are equal. */
  lemma RequestFailedNamesStatus(a: int, b: int)
    requires RequestFailed(a) == RequestFailed(b)
    ensures a == b
  {
    var head := "Request failed (";
    var sa, sb := IntToString(a), IntToString(b);
    assert RequestFailed(a) == head + (sa + ")");
    assert RequestFailed(b) == head + (sb + ")");
    Concat(head, sa + ")");
    Concat(head, sb + ")");
    assert sa + ")" == sb + ")";
    assert sa == (sa + ")")[..|sa|];
    IntToStringInjective(a, b);
  }

  const UNKNOWN_ERROR_TYPE := "unknown_error"
  const UNKNOWN_ERROR := "Unknown error occurred"

  /** `handleErrorResponse`: the parsed body, or for a body that is not JSON
      (`body == None`) a fallback built from the status text. */
  function HandleErrorResponse(status: int, statusText: string, body: Option<ApiError>): (r: ApiServiceError)
    ensures r.statusCode == Some(status) && r.apiError.Some?
    ensures body.Some? ==> r.apiError == body
    ensures body.None? ==> r.apiError.value.typ == UNKNOWN_ERROR_TYPE
    ensures body.None? ==> r.apiError.value.message == Some(if statusText != "" then statusText else UNKNOWN_ERROR)
    ensures r.message == GetErrorMessage(status, r.apiError.value) && r.message != ""
  {
    var apiError := if body.Some? then body.value
                    else ApiError(UNKNOWN_ERROR_TYPE, Some(if statusText != "" then statusText else UNKNOWN_ERROR));
    ApiServiceError(GetErrorMessage(status, apiError), Some(status), Some(apiError))
  }

  /** With a non-JSON body, a status outside the fixed ones shows the status
      text, or the generic text when there is none; never "Request failed". */
  lemma NonJsonBodyShowsStatusText(status: int, statusText: string)
    requires !FixedStatus(status)
    ensures HandleErrorResponse(status, statusText, None).message
            == if statusText != "" then statusText else UNKNOWN_ERROR
  {
  }

  /** What the `try` block of `request` can throw, seen from the `catch`. */
  datatype Thrown =
    | AbortError                 // the timer aborted the fetch
    | ErrorObject(text: string)  // any other `Error`, with its message
    | NonError                   // a thrown value that is not an `Error`

  /** How the fetch went. A non-ok response has its error body parsed (`None`
      when it is not JSON); an ok response has its JSON parsed, or the parse
      throws. */
  datatype FetchOutcome<T> =
    | Threw(thrown: Thrown)
    | NotOk(status: int, statusText: string, errorBody: Option<ApiError>)
    | OkJson(value: T)
    | OkNotJson(parseError: string)

  datatype Outcome<T> = Success(value: T) | Failure(error: ApiServiceError)

  const TIMED_OUT := "Request timed out"
  const NETWORK_ERROR := "Network error: "
  const UNKNOWN := "Unknown error"

  /** The `catch` of `request`: an abort becomes a 408 timeout, an
      `ApiServiceError` is rethrown unchanged, anything else becomes a network
      error without a status. */
  function Classify(thrown: Thrown): (r: ApiServiceError)
    ensures thrown.AbortError? <==> r.statusCode == Some(408)
    ensures thrown.AbortError? ==> r.message == TIMED_OUT
    ensures !thrown.AbortError? ==> r.statusCode.None? && r.apiError.None? && StartsWith(r.message, NETWORK_ERROR)
    ensures thrown.ErrorObject? ==> r.message[|NETWORK_ERROR|..] == thrown.text
    ensures thrown.NonError? ==> r.message == NETWORK_ERROR + UNKNOWN
  {
    match thrown
    case AbortError => ApiServiceError(TIMED_OUT, Some(408), None)
    case ErrorObject(text) =>
      Concat(NETWORK_ERROR, text);
      ApiServiceError(NETWORK_ERROR + text, None, None)
    case NonError =>
      Concat(NETWORK_ERROR, UNKNOWN);
      ApiServiceError(NETWORK_ERROR + UNKNOWN, None, None)
  }

  /** `request` after the fetch: success only for an ok response whose body
      parses; an error response's `ApiServiceError` is rethrown as it is; a
      parse failure of an ok body is an `Error`, so a network error. */
  function Request<T>(outcome: FetchOutcome<T>): (r: Outcome<T>)
    ensures r.Success? <==> outcome.OkJson?
    ensures r.Success? ==> r.value == outcome.value
    ensures outcome.NotOk? ==> r == Failure(HandleErrorResponse(outcome.status, outcome.statusText, outcome.errorBody))
    ensures outcome.Threw? ==> r == Failure(Classify(outcome.thrown))
    ensures outcome.OkNotJson? ==> r == Failure(Classify(ErrorObject(outcome.parseError)))
  {
    match outcome
    case Threw(thrown) => Failure(Classify(thrown))
    case NotOk(status, statusText, errorBody) => Failure(HandleErrorResponse(status, statusText, errorBody))
    case OkJson(value) => Success(value)
    case OkNotJson(parseError) => Failure(Classify(ErrorObject(parseError)))
  }

  /** A failure carries a status exactly when the server answered or the
      request timed out, and every failure has a message to show. */
  lemma FailureStatus<T>(outcome: FetchOutcome<T>)
    ensures Request(outcome).Failure? ==> Request(outcome).error.message != ""
    ensures Request(outcome).Failure? ==>
              (Request(outcome).error.statusCode.Some? <==> outcome.NotOk? || outcome == Threw(AbortError))
  {
    if Request(outcome).Failure? && !outcome.NotOk? {
      assert NETWORK_ERROR != "";
    }
  }

  /** A JavaScript value as `post` sees it. */
  datatype JsValue =
    | Undefined
    | Null
    | Bool(b: bool)
    | Number(n: real)
    | NaN
    | Str(s: string)
    | Object  // objects and arrays, whatever their contents

  /** JavaScript truthiness. */
  predicate Truthiness(v: JsValue) {
    match v
    case Undefined => false
    case Null => false
    case Bool(b) => b
    case Number(n) => n != 0.0
    case NaN => false
    case Str(s) => s != ""
    case Object => true
  }

  /** The fetch `post` starts. */
  datatype FetchRequest = FetchRequest(url: string, verb: string, contentType: string, body: Option<string>)

  /** `HttpClient`: its base URL and timeout are set once. */
  datatype HttpClient = HttpClient(baseUrl: string, timeout: int)

  const API_TIMEOUT := 30000

  /** `post(endpoint, data)`: JSON content type always; a body only for a
      truthy `data`, serialised by `stringify`. */
  function Post(client: HttpClient, endpoint: string, data: JsValue, stringify: JsValue -> string): (r: FetchRequest)
    ensures r.url == client.baseUrl + endpoint && r.verb == "POST" && r.contentType == "application/json"
    ensures r.body.None? <==> !Truthiness(data)
    ensures r.body.Some? ==> r.body.value == stringify(data)
  {
    FetchRequest(client.baseUrl + endpoint, "POST", "application/json",
                 if Truthiness(data) then Some(stringify(data)) else None)
  }

  /** `get(endpoint)`: never a body. */
  function Get(client: HttpClient, endpoint: string): (r: FetchRequest)
    ensures r.url == client.baseUrl + endpoint && r.verb == "GET" && r.body.None?
    ensures r.contentType == "application/json"
  {
    FetchRequest(client.baseUrl + endpoint, "GET", "application/json", None)
  }

  /** `post` and `get` differ only in the verb and the body: with a falsy
      payload a post is a bodiless get with the POST verb. */
  lemma PostIsGetWithBody(client: HttpClient, endpoint: string, data: JsValue, stringify: JsValue -> string)
    ensures Post(client, endpoint, data, stringify).(verb := "GET", body := None) == Get(client, endpoint)
    ensures !Truthiness(data) ==> Post(client, endpoint, data, stringify) == Get(client, endpoint).(verb := "POST")
  {
  }
}
