/**
 * The backend's exception hierarchy as one closed datatype.
 *
 *   DomainError
 *     ValidationError
 *       CodeTooLargeError(actual_size, max_size)
 *   AIProviderError
 *     AIProviderTimeoutError
 *     AIProviderQuotaError
 *
 * and `Other` for every exception outside that hierarchy (`ValueError`,
 * `KeyError`, `AttributeError`, ...). `message` is what `str(exc)` gives.
 */
module Errors {
  import opened Text

  datatype Error =
    | Domain(message: string)              // a DomainError raised as such
    | Validation(message: string)          // ValidationError
    | CodeTooLarge(actualSize: int, maxSize: int)
    | Provider(message: string)            // AIProviderError
    | ProviderTimeout(message: string)     // AIProviderTimeoutError
    | ProviderQuota(message: string)       // AIProviderQuotaError
    | Other(message: string)               // any other exception

  /** `isinstance(e, ValidationError)`. */
  predicate IsValidationError(e: Error) {
    e.Validation? || e.CodeTooLarge?
  }

  /** `isinstance(e, DomainError)`. */
  predicate IsDomainError(e: Error) {
    e.Domain? || IsValidationError(e)
  }

  /** `isinstance(e, AIProviderError)`. */
  predicate IsProviderError(e: Error) {
    e.Provider? || e.ProviderTimeout? || e.ProviderQuota?
  }

  /** The class hierarchy: validation errors are domain errors, the timeout and
      quota errors are provider errors, and no provider error is a domain error. */
  lemma Hierarchy(e: Error)
    ensures IsValidationError(e) ==> IsDomainError(e)
    ensures e.CodeTooLarge? ==> IsValidationError(e)
    ensures (e.ProviderTimeout? || e.ProviderQuota?) ==> IsProviderError(e)
    ensures !(IsDomainError(e) && IsProviderError(e))
    ensures e.Other? ==> !IsDomainError(e) && !IsProviderError(e)
  {
  }

  /** `CodeTooLargeError`'s message: "Code size {actual} exceeds maximum {max}". */
  function TooLargeMessage(actualSize: int, maxSize: int): string {
    "Code size " + (IntToString(actualSize) + (" exceeds maximum " + IntToString(maxSize)))
  }

  /** `str(exc)`. */
  function Message(e: Error): string {
    if e.CodeTooLarge? then TooLargeMessage(e.actualSize, e.maxSize) else e.message
  }

  /** The message of a `CodeTooLargeError` determines both sizes. */
  lemma TooLargeMessageDeterminesSizes(a1: int, m1: int, a2: int, m2: int)
    requires TooLargeMessage(a1, m1) == TooLargeMessage(a2, m2)
    ensures a1 == a2 && m1 == m2
  {
    var head := "Code size ";
    var mid := " exceeds maximum ";
    var s1, s2 := IntToString(a1), IntToString(a2);
    var t1, t2 := IntToString(m1), IntToString(m2);
    Concat(head, s1 + (mid + t1));
    Concat(head, s2 + (mid + t2));
    UpToFirstSpace(s1, mid + t1, s2, mid + t2);
    Concat(mid, t1);
    Concat(mid, t2);
    IntToStringInjective(a1, a2);
    IntToStringInjective(m1, m2);
  }

  /** What a raising call yields: a value or the exception it raised. */
  datatype Result<+T> = Ok(value: T) | Err(error: Error) {
    predicate IsFailure() {
      Err?
    }

    function PropagateFailure<U>(): Result<U>
      requires Err?
    {
      Err(error)
    }

    function Extract(): T
      requires Ok?
    {
      value
    }
  }
}
