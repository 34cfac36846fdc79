/**
 * The wire types of the external-authorization protocol that the core builds
 * and returns: gRPC status codes, the `google.rpc.Status` carried in a check
 * response, header options, and the CheckResponse itself. Only the fields
 * the core sets are modelled; every other field keeps its protobuf default.
 */
module Protocol {
  import opened Wrappers

  /** The gRPC status codes (tonic's `Code`). */
  datatype Code =
    | OK | Cancelled | Unknown | InvalidArgument | DeadlineExceeded | NotFound
    | AlreadyExists | PermissionDenied | ResourceExhausted | FailedPrecondition
    | Aborted | OutOfRange | Unimplemented | Internal | Unavailable | DataLoss
    | Unauthenticated

  /** `google.protobuf.Any` */
  datatype Any = Any(typeUrl: string, value: seq<bv8>)

  /** `google.rpc.Status`, as carried inside a CheckResponse. */
  datatype RpcStatus = RpcStatus(code: Code, message: string, details: seq<Any>)

  /** tonic's `Status`, the error side of the RPC handler's result. */
  datatype Status = Status(code: Code, message: string)

  /** The keys of the headers the core forwards downstream. */
  datatype Header =
    | SessionId | Token | CreatedAt | ExpiresAt | LastActivityAt | UserId
    | DeviceId | Roles | IsOauth | Props
    | XRequestId | XIpAddress | XForwardedFor | Path | UserAgent | AcceptLanguage

  /** `HeaderValueOption.HeaderAppendAction` */
  datatype AppendAction =
    | AppendIfExistsOrAdd | AddIfAbsent | OverwriteIfExistsOrAdd | OverwriteIfExists

  /** `HeaderValue` */
  datatype HeaderValue = HeaderValue(key: Header, value: string, rawValue: seq<bv8>)

  /** `HeaderValueOption`; `append` is the optional `BoolValue` wrapper. */
  datatype HeaderOption = HeaderOption(
    append: Option<bool>,
    appendAction: AppendAction,
    keepEmptyValue: bool,
    header: Option<HeaderValue>)

  /** `OkHttpResponse`, with its header list. */
  datatype OkHttpResponse = OkHttpResponse(headers: seq<HeaderOption>)

  /** `check_response::HttpResponse` as far as the core produces it. */
  datatype HttpResponse = OkResponse(ok: OkHttpResponse)

  /** `CheckResponse` */
  datatype CheckResponse = CheckResponse(status: Option<RpcStatus>, httpResponse: Option<HttpResponse>)

  /** A response lets the request through iff its status is present with code OK. */
  predicate Allows(r: CheckResponse) {
    r.status.Some? && r.status.value.code == OK
  }
}
