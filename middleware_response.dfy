/**
 * The scrubbing of an `AppError` before it leaves the service
 * (src/controller/middleware_response.rs): the location and the detailed
 * error text are cleared, everything else is kept.
 */
module MiddlewareResponse {
  import opened Wrappers

  /** `AppError`; the two error maps are kept as opaque maps and only ever copied. */
  datatype AppError = AppError(
    id: string,
    message: string,
    detailedError: string,
    requestId: string,
    statusCode: int,
    where: string,
    skipTranslation: bool,
    errors: Option<map<string, string>>,
    errorsNested: Option<map<string, map<string, string>>>)

  /** sanitize_app_error */
  function Sanitize(e: AppError): AppError {
    e.(where := "", detailedError := "")
  }

  /**
   * The sensitive fields come out empty and every other field is copied
   * unchanged, so the result differs from the input only in those two fields.
   */
  lemma SanitizeScrubs(e: AppError)
    ensures Sanitize(e).where == "" && Sanitize(e).detailedError == ""
    ensures Sanitize(e).id == e.id && Sanitize(e).message == e.message
    ensures Sanitize(e).requestId == e.requestId && Sanitize(e).statusCode == e.statusCode
    ensures Sanitize(e).skipTranslation == e.skipTranslation
    ensures Sanitize(e).errors == e.errors && Sanitize(e).errorsNested == e.errorsNested
  {
  }

  /** Sanitizing twice is sanitizing once; an error is left as it is iff it has nothing to scrub. */
  lemma SanitizeIdempotent(e: AppError)
    ensures Sanitize(Sanitize(e)) == Sanitize(e)
    ensures Sanitize(e) == e <==> e.where == "" && e.detailedError == ""
  {
  }

  /** Two errors that agree on the kept fields sanitize to the same value. */
  lemma SanitizeForgetsScrubbed(e: AppError, where: string, detail: string)
    ensures Sanitize(e.(where := where, detailedError := detail)) == Sanitize(e)
  {
  }
}
