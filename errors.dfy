/**
 * The error vocabulary of the service (src/models/errors.rs): the `ErrorType`
 * tags with their display names, the `InternalError` record with its display
 * format and its `source`, and the boxed error that flows between components.
 */
module Errors {
  import opened Wrappers

  datatype ErrorType =
    | NoRows
    | UniqueViolation
    | ForeignKeyViolation
    | NotNullViolation
    | JsonMarshal
    | JsonUnmarshal
    | Connection
    | Privileges
    | Internal
    | DBConnectionError
    | ConfigError

  /** A displayable name is non-empty and made of lower-case ASCII letters and `_`. */
  ghost predicate SnakeCaseName(s: string) {
    |s| > 0 && forall i :: 0 <= i < |s| ==> ('a' <= s[i] <= 'z') || s[i] == '_'
  }

  /** `impl Display for ErrorType` */
  function ErrorTypeName(t: ErrorType): string
  {
    match t
    case DBConnectionError => "db_connection_error"
    case NoRows => "no_rows"
    case UniqueViolation => "unique_violation"
    case ForeignKeyViolation => "foreign_key_violation"
    case NotNullViolation => "not_null_violation"
    case JsonMarshal => "json_marshal"
    case JsonUnmarshal => "json_unmarshal"
    case Connection => "connection_exception"
    case Privileges => "insufficient_privilege"
    case ConfigError => "config_error"
    case Internal => "internal_error"
  }

  // The eleven names, checked a few at a time so that each proof stays small.
  lemma StoreErrorNamesSnakeCase()
    ensures SnakeCaseName("db_connection_error") && SnakeCaseName("no_rows")
    ensures SnakeCaseName("unique_violation") && SnakeCaseName("foreign_key_violation")
  {
  }

  lemma DataErrorNamesSnakeCase()
    ensures SnakeCaseName("not_null_violation") && SnakeCaseName("json_marshal")
    ensures SnakeCaseName("json_unmarshal") && SnakeCaseName("connection_exception")
  {
  }

  lemma OtherErrorNamesSnakeCase()
    ensures SnakeCaseName("insufficient_privilege") && SnakeCaseName("config_error")
    ensures SnakeCaseName("internal_error")
  {
  }

  /** Every display name is a non-empty snake_case word. */
  lemma ErrorTypeNameSnakeCase(t: ErrorType)
    ensures SnakeCaseName(ErrorTypeName(t))
  {
    StoreErrorNamesSnakeCase();
    DataErrorNamesSnakeCase();
    OtherErrorNamesSnakeCase();
  }

  /** Distinct tags are displayed differently, so the name identifies the tag. */
  lemma ErrorTypeNameInjective(a: ErrorType, b: ErrorType)
    ensures ErrorTypeName(a) == ErrorTypeName(b) ==> a == b
  {
  }

  /**
   * A `Box<dyn Error>`: either an error from a library outside this model,
   * known only by its display text, or one of the service's own `InternalError`s.
   */
  datatype BoxedErr = Foreign(text: string) | Wrapped(inner: InternalError)

  datatype InternalError = InternalError(
    err: BoxedErr,
    errType: ErrorType,
    temp: bool,
    msg: string,
    path: string)

  /** Rust's `Display` for `bool`. */
  function BoolString(b: bool): (s: string)
    ensures b <==> s == "true"
    ensures !b <==> s == "false"
  {
    if b then "true" else "false"
  }

  /** The display text of a boxed error. */
  function ShowBoxed(b: BoxedErr): string
    decreases b
  {
    match b
    case Foreign(text) => text
    case Wrapped(e) => ShowInternal(e)
  }

  /** `#[display("InternalError: {path}: {msg}, temp: {temp}, err: {err_type} {err}")]` */
  function ShowInternal(e: InternalError): string
    decreases e
  {
    "InternalError: " + e.path + ": " + e.msg + ", temp: " + BoolString(e.temp)
      + ", err: " + ErrorTypeName(e.errType) + " " + ShowBoxed(e.err)
  }

  /** `impl Error for InternalError { fn source(&self) }` */
  function Source(e: InternalError): Option<BoxedErr> {
    Some(e.err)
  }

  /**
   * `source()` never returns None, and the text it points to is exactly the
   * suffix of the display: the cause's display is what the rendering ends with.
   */
  lemma SourceIsDisplayedLast(e: InternalError)
    ensures Source(e).Some?
    ensures var cause := ShowBoxed(Source(e).value);
            var s := ShowInternal(e);
            |cause| <= |s| && s[|s| - |cause|..] == cause
  {
    var front := "InternalError: " + e.path + ": " + e.msg + ", temp: " + BoolString(e.temp)
      + ", err: " + ErrorTypeName(e.errType) + " ";
    assert ShowInternal(e) == front + ShowBoxed(e.err);
  }

  /** The error tag, `temp` flag and the message appear in the display in that order. */
  lemma ShowInternalLayout(e: InternalError)
    ensures var head := "InternalError: " + e.path + ": " + e.msg + ", temp: " + BoolString(e.temp) + ", err: ";
            var s := ShowInternal(e);
            |head| <= |s| && s[..|head|] == head
            && s[|head|..|head| + |ErrorTypeName(e.errType)|] == ErrorTypeName(e.errType)
  {
    var head := "InternalError: " + e.path + ": " + e.msg + ", temp: " + BoolString(e.temp) + ", err: ";
    var tail := " " + ShowBoxed(e.err);
    assert ShowInternal(e) == head + (ErrorTypeName(e.errType) + tail);
  }
}
