/**
 * The four FastAPI exception handlers: each turns an exception of its class
 * into a status code and an `ErrorResponse` body.
 */
module ExceptionHandlers {
  import opened Wrappers
  import opened Errors

  /** The `details` dict of a `CodeTooLargeError` response. */
  datatype SizeDetails = SizeDetails(actualSize: int, maxSize: int)

  /** `ErrorResponse`: `details` is optional and absent unless set. */
  datatype ErrorResponse = ErrorResponse(typ: string, message: string, details: Option<SizeDetails>)

  datatype JsonResponse = JsonResponse(statusCode: int, content: ErrorResponse)

  const PROVIDER_UNAVAILABLE := "AI service temporarily unavailable"
  const UNEXPECTED := "An unexpected error occurred"

  /** `domain_error_handler`: 400 with `str(exc)`. */
  function DomainErrorHandler(e: Error): (r: JsonResponse)
    requires IsDomainError(e)
    ensures r.statusCode == 400
    ensures r.content == ErrorResponse("domain_error", Message(e), None)
  {
    JsonResponse(400, ErrorResponse("domain_error", Message(e), None))
  }

  /** `validation_error_handler`: 422 with `str(exc)`; the size pair is added
      only for a `CodeTooLargeError`. */
  function ValidationErrorHandler(e: Error): (r: JsonResponse)
    requires IsValidationError(e)
    ensures r.statusCode == 422
    ensures r.content.typ == "validation_error" && r.content.message == Message(e)
    ensures r.content.details.Some? <==> e.CodeTooLarge?
    ensures e.CodeTooLarge? ==> r.content.details == Some(SizeDetails(e.actualSize, e.maxSize))
  {
    var details := if e.CodeTooLarge? then Some(SizeDetails(e.actualSize, e.maxSize)) else None;
    JsonResponse(422, ErrorResponse("validation_error", Message(e), details))
  }

  /** `ai_provider_error_handler`: 503 with a fixed message. */
  function AIProviderErrorHandler(e: Error): (r: JsonResponse)
    requires IsProviderError(e)
    ensures r.statusCode == 503
    ensures r.content == ErrorResponse("ai_provider_error", PROVIDER_UNAVAILABLE, None)
  {
    JsonResponse(503, ErrorResponse("ai_provider_error", PROVIDER_UNAVAILABLE, None))
  }

  /** `general_exception_handler`: 500 with a fixed message, for any exception. */
  function GeneralExceptionHandler(e: Error): (r: JsonResponse)
    ensures r.statusCode == 500
    ensures r.content == ErrorResponse("internal_error", UNEXPECTED, None)
  {
    JsonResponse(500, ErrorResponse("internal_error", UNEXPECTED, None))
  }

  /** The provider handler exposes nothing of the exception: every provider
      error, of whatever kind and message, gives the same response. */
  lemma ProviderResponseHidesError(e1: Error, e2: Error)
    requires IsProviderError(e1) && IsProviderError(e2)
    ensures AIProviderErrorHandler(e1) == AIProviderErrorHandler(e2)
  {
  }

  /** The domain and validation handlers report the exception's own text; for
      a `CodeTooLargeError` the details and the message agree. */
  lemma ClientErrorsCarryMessage(e: Error)
    requires IsValidationError(e)
    ensures DomainErrorHandler(e).content.message == ValidationErrorHandler(e).content.message == Message(e)
    ensures e.CodeTooLarge? ==>
              var d := ValidationErrorHandler(e).content.details.value;
              Message(e) == TooLargeMessage(d.actualSize, d.maxSize)
  {
  }

  /** Errors the caller can fix get a 4xx status (section 15.5 of RFC 9110),
      provider and unexpected failures a 5xx status (section 15.6). */
  lemma StatusClasses(e: Error)
    ensures IsDomainError(e) ==> 400 <= DomainErrorHandler(e).statusCode < 500
    ensures IsValidationError(e) ==> 400 <= ValidationErrorHandler(e).statusCode < 500
    ensures IsProviderError(e) ==> 500 <= AIProviderErrorHandler(e).statusCode < 600
    ensures 500 <= GeneralExceptionHandler(e).statusCode < 600
  {
    Hierarchy(e);
  }
}
