/**
 * The exception classes of the pipeline and the mapping of an error to an
 * HTTP status (backend/app/utils/error_handler.py). An operation that can
 * raise returns an `Outcome`: the value, or the exception it raised.
 */
module Errors {
  import opened Wrappers

  /**
   * The exception classes the core raises or meets. `ModelTimeoutError`,
   * `ModelAPIError` and `ValidationError` derive from `PipelineError`;
   * `JSONDecodeError` derives from `ValueError`; everything else is named by
   * `OtherError` (for instance `TypeError`, `AttributeError`).
   */
  datatype ExcKind =
    | PipelineError
    | ModelTimeoutError
    | ModelAPIError
    | ValidationError
    | ValueError
    | JSONDecodeError
    | OtherError(name: string)

  /** A raised exception: its class and `str(e)`. */
  datatype Exc = Exc(kind: ExcKind, message: string)

  /** The result of an operation that either returns a value or raises. */
  datatype Outcome<+T> = Success(value: T) | Failure(error: Exc)

  /** `isinstance(e, PipelineError)` */
  predicate IsPipelineError(k: ExcKind) {
    k.PipelineError? || k.ModelTimeoutError? || k.ModelAPIError? || k.ValidationError?
  }

  /** `isinstance(e, ValueError)` */
  predicate IsValueError(k: ExcKind) {
    k.ValueError? || k.JSONDecodeError?
  }

  /** `type(e).__name__` */
  function TypeName(k: ExcKind): string {
    match k
    case PipelineError => "PipelineError"
    case ModelTimeoutError => "ModelTimeoutError"
    case ModelAPIError => "ModelAPIError"
    case ValidationError => "ValidationError"
    case ValueError => "ValueError"
    case JSONDecodeError => "JSONDecodeError"
    case OtherError(name) => name
  }

  datatype ErrorDetail = ErrorDetail(error: string, message: string, requestId: string, processingTime: real)

  datatype ErrorResponse = ErrorResponse(statusCode: int, detail: ErrorDetail)

  /**
   * `handle_pipeline_error`: the first matching class in the order timeout,
   * model API, validation, value error decides the status; anything else,
   * including a bare `PipelineError`, is a 500.
   */
  function HandlePipelineError(e: Exc, requestId: string, processingTime: real): (r: ErrorResponse)
    ensures r.statusCode == 504 <==> e.kind == ModelTimeoutError
    ensures r.statusCode == 502 <==> e.kind == ModelAPIError
    ensures r.statusCode == 422 <==> e.kind == ValidationError
    ensures r.statusCode == 400 <==> IsValueError(e.kind)
    ensures r.statusCode == 500 <==> !IsValueError(e.kind) && (e.kind.PipelineError? || e.kind.OtherError?)
    ensures r.detail.error == TypeName(e.kind)
    ensures r.detail.requestId == requestId && r.detail.processingTime == processingTime
  {
    var (status, detail) :=
      if e.kind.ModelTimeoutError? then (504, "Model request timed out: " + e.message)
      else if e.kind.ModelAPIError? then (502, "Model API error: " + e.message)
      else if e.kind.ValidationError? then (422, "Validation error: " + e.message)
      else if IsValueError(e.kind) then (400, "Invalid input: " + e.message)
      else (500, "Internal server error: " + e.message);
    ErrorResponse(status, ErrorDetail(TypeName(e.kind), detail, requestId, processingTime))
  }

  /** The status depends on the class of the error only, never on its message. */
  lemma StatusIgnoresMessage(k: ExcKind, m1: string, m2: string, id: string, t: real)
    ensures HandlePipelineError(Exc(k, m1), id, t).statusCode == HandlePipelineError(Exc(k, m2), id, t).statusCode
  {
  }

  /**
   * `safe_execute(func, fallback=...)`: `outcome` is what calling `func`
   * gave; an exception is replaced by the fallback when there is one and
   * raised again otherwise.
   */
  function SafeExecute<T>(outcome: Outcome<T>, fallback: Option<T>): (r: Outcome<T>)
    ensures outcome.Success? ==> r == outcome
    ensures outcome.Failure? && fallback.Some? ==> r == Success(fallback.value)
    ensures outcome.Failure? && fallback.None? ==> r == outcome
  {
    match outcome
    case Success(_) => outcome
    case Failure(_) => if fallback.Some? then Success(fallback.value) else outcome
  }

  /** With a fallback, `safe_execute` never raises. */
  lemma SafeExecuteWithFallbackSucceeds<T>(outcome: Outcome<T>, fallback: T)
    ensures SafeExecute(outcome, Some(fallback)).Success?
  {
  }

  /** Wrapping twice with the same fallback is wrapping once. */
  lemma SafeExecuteIdempotent<T>(outcome: Outcome<T>, fallback: Option<T>)
    ensures SafeExecute(SafeExecute(outcome, fallback), fallback) == SafeExecute(outcome, fallback)
  {
  }
}
