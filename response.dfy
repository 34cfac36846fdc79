/**
 * The response and header builder of src/controller/response.rs: the request
 * context, the ordered list of headers forwarded downstream with a fixed
 * overwrite policy, and the Ok / Internal check responses built from it.
 *
 * Inputs the source obtains from code outside the model are parameters: the
 * essential HTTP headers of the request, the raw bearer token, the identity
 * data lookup for a subject, the current UTC time and the translation catalog.
 */
module Response {
  import opened Wrappers
  import opened Errors
  import opened Protocol
  import opened Extension
  import opened UserStore

  /** The parts of a `CheckRequest` the core reads: attributes.request.http.path. */
  datatype HttpRequest = HttpRequest(path: string)
  datatype RequestAttributes = RequestAttributes(http: Option<HttpRequest>)
  datatype AttributeContext = AttributeContext(request: Option<RequestAttributes>)
  datatype CheckRequest = CheckRequest(attributes: Option<AttributeContext>)

  /** The `attributes.request.http.path` chain; None when any link is missing. */
  function RequestPath(req: CheckRequest): (p: Option<string>)
    ensures p.Some? <==> req.attributes.Some? && req.attributes.value.request.Some?
                         && req.attributes.value.request.value.http.Some?
    ensures p.Some? ==> p.value == req.attributes.value.request.value.http.value.path
  {
    match req.attributes
    case None => None
    case Some(a) =>
      match a.request
      case None => None
      case Some(r) =>
        match r.http
        case None => None
        case Some(h) => Some(h.path)
  }

  /** `EssentialHttpHeaders`, as get_essential_http_headers returns them. */
  datatype EssentialHeaders = EssentialHeaders(
    path: string,
    httpMethod: string,
    userAgent: string,
    xForwardedFor: string,
    xRequestId: string,
    acceptLanguage: string)

  /** `Session::default()`: the context of a check carries no session. */
  datatype Session = DefaultSession

  /** The per-request `Context`. */
  datatype Context = Context(
    session: Session,
    ipAddress: string,
    xForwardedFor: string,
    requestId: string,
    path: string,
    userAgent: string,
    acceptLanguage: string)

  /** get_context */
  function GetContext(req: CheckRequest, h: EssentialHeaders): Context {
    Context(
      session := DefaultSession,
      ipAddress := h.xForwardedFor,
      xForwardedFor := h.xForwardedFor,
      requestId := h.xRequestId,
      path := RequestPath(req).GetOr(""),
      userAgent := h.userAgent,
      acceptLanguage := h.acceptLanguage)
  }

  /**
   * The context's path is the request's HTTP path, or "" when the attributes
   * do not reach one (the header bundle's own path is not used); the client
   * ip is the forwarded-for value; the session is the default one.
   */
  lemma ContextFromRequest(req: CheckRequest, h: EssentialHeaders, otherPath: string)
    ensures RequestPath(req).None? ==> GetContext(req, h).path == ""
    ensures RequestPath(req).Some? ==> GetContext(req, h).path == RequestPath(req).value
    ensures GetContext(req, h.(path := otherPath)) == GetContext(req, h)
    ensures GetContext(req, h).ipAddress == GetContext(req, h).xForwardedFor == h.xForwardedFor
    ensures GetContext(req, h).requestId == h.xRequestId && GetContext(req, h).userAgent == h.userAgent
    ensures GetContext(req, h).acceptLanguage == h.acceptLanguage
    ensures GetContext(req, h).session == DefaultSession
  {
  }

  /** The JWT claims the header builder reads; `iat`/`exp` are timestamps in seconds. */
  datatype JwtClaims = JwtClaims(jti: string, sub: string, iat: Option<int>, exp: Option<int>)

  const DumpDeviceId: string := "dump device id"
  const PrepareHeadersPath: string := "auth.controller.prepare_headers"
  const UserDataFailureMsg: string :=
    "failed to get/insert uesr data to be fowarded to downstream services as metadata"

  /** The `header` closure: every header overwrites, is dropped when empty, carries no raw bytes. */
  function MakeHeader(key: Header, value: string): HeaderOption {
    HeaderOption(Some(false), OverwriteIfExistsOrAdd, false, Some(HeaderValue(key, value, [])))
  }

  /** The fixed policy every emitted header follows. */
  ghost predicate FixedPolicy(h: HeaderOption) {
    && h.append == Some(false)
    && h.appendAction == OverwriteIfExistsOrAdd
    && !h.keepEmptyValue
    && h.header.Some?
    && h.header.value.rawValue == []
  }

  /** The key and value of each header of a list. */
  function Pairs(hs: seq<HeaderOption>): seq<(Header, string)>
    requires forall i :: 0 <= i < |hs| ==> hs[i].header.Some?
  {
    seq(|hs|, i requires 0 <= i < |hs| => (hs[i].header.value.key, hs[i].header.value.value))
  }

  function DigitChar(d: nat): (c: char)
    requires d < 10
    ensures '0' <= c <= '9' && c as int - '0' as int == d
  {
    ('0' as int + d) as char
  }

  /** The number a string of decimal digits denotes, most significant digit first. */
  function DigitsValue(s: string): nat
    requires forall i :: 0 <= i < |s| ==> '0' <= s[i] <= '9'
    decreases |s|
  {
    if s == [] then 0 else 10 * DigitsValue(s[..|s| - 1]) + (s[|s| - 1] as int - '0' as int)
  }

  /** The decimal digits of a natural number, most significant first. */
  function Digits(n: nat): (s: string)
    ensures |s| > 0
    ensures forall i :: 0 <= i < |s| ==> '0' <= s[i] <= '9'
    decreases n
  {
    if n < 10 then [DigitChar(n)] else Digits(n / 10) + [DigitChar(n % 10)]
  }

  /** `Digits(n)` denotes `n`, and has no leading zero. */
  lemma {:induction false} DigitsDenote(n: nat)
    ensures DigitsValue(Digits(n)) == n
    ensures |Digits(n)| > 1 ==> Digits(n)[0] != '0'
    decreases n
  {
    if n >= 10 {
      DigitsDenote(n / 10);
      var front := Digits(n / 10);
      var s := Digits(n);
      assert s == front + [DigitChar(n % 10)];
      assert s[..|s| - 1] == front;
      assert s[0] == front[0];
    }
  }

  /** Rust's `Display` for `i64`: a minus sign for negative numbers, then the digits. */
  function DecimalString(n: int): (s: string)
    ensures |s| > 0
    ensures s[0] == '-' <==> n < 0
  {
    if n < 0 then "-" + Digits(-n) else Digits(n)
  }

  /** `to_string()` of a non-negative `i64`: digits denoting `n`, with no leading zero. */
  lemma NonNegativeDecimal(n: int)
    requires n >= 0
    ensures var s := DecimalString(n);
            && (forall i :: 0 <= i < |s| ==> '0' <= s[i] <= '9')
            && DigitsValue(s) == n
            && (|s| > 1 ==> s[0] != '0')
  {
    assert DecimalString(n) == Digits(n);
    DigitsDenote(n);
  }

  /** `to_string()` of a negative `i64`: '-' then digits denoting `-n`, with no leading zero. */
  lemma NegativeDecimal(n: int)
    requires n < 0
    ensures var s := DecimalString(n);
            && s[0] == '-'
            && (forall i :: 1 <= i < |s| ==> '0' <= s[i] <= '9')
            && DigitsValue(s[1..]) == -n
            && (|s| > 2 ==> s[1] != '0')
  {
    var d := Digits(-n);
    assert DecimalString(n) == "-" + d;
    assert ("-" + d)[1..] == d;
    DigitsDenote(-n);
  }

  /** `t.seconds.to_string()` for a present timestamp, "" for an absent one. */
  function SecondsString(t: Option<int>): string {
    match t
    case Some(s) => DecimalString(s)
    case None => ""
  }

  /** The ten identity headers, in the order they are pushed. */
  function IdentityHeaders(c: JwtClaims, token: string, data: CachedUserData, nowUtc: int): seq<HeaderOption> {
    [ MakeHeader(SessionId, c.jti),
      MakeHeader(Token, token),
      MakeHeader(CreatedAt, SecondsString(c.iat)),
      MakeHeader(ExpiresAt, SecondsString(c.exp)),
      MakeHeader(LastActivityAt, DecimalString(nowUtc)),
      MakeHeader(UserId, c.sub),
      MakeHeader(DeviceId, DumpDeviceId),
      MakeHeader(Roles, data.roles),
      MakeHeader(IsOauth, BoolString(data.isOauth)),
      MakeHeader(Props, data.props) ]
  }

  /** The six context headers, always last. */
  function ContextHeaders(ctx: Context): seq<HeaderOption> {
    [ MakeHeader(XRequestId, ctx.requestId),
      MakeHeader(XIpAddress, ctx.ipAddress),
      MakeHeader(XForwardedFor, ctx.xForwardedFor),
      MakeHeader(Path, ctx.path),
      MakeHeader(UserAgent, ctx.userAgent),
      MakeHeader(AcceptLanguage, ctx.acceptLanguage) ]
  }

  /** The error prepare_headers returns when the identity data lookup fails. */
  function UserDataError(err: BoxedErr): BoxedErr {
    Wrapped(InternalError(err, ErrorType.Internal, true, UserDataFailureMsg, PrepareHeadersPath))
  }

  /**
   * The header list for a request whose identity headers are built from
   * `identity` (None: context headers only). The identity data is looked up
   * for the claims' subject; a failed lookup yields an error and no headers.
   */
  function BuildHeaders(identity: Option<JwtClaims>, ctx: Context, rawToken: Option<string>,
                        userData: string -> Result<CachedUserData, BoxedErr>, nowUtc: int)
    : Result<seq<HeaderOption>, BoxedErr>
  {
    match identity
    case None => Ok(ContextHeaders(ctx))
    case Some(c) =>
      match userData(c.sub)
      case Err(err) => Err(UserDataError(err))
      case Ok(data) => Ok(IdentityHeaders(c, rawToken.GetOr(""), data, nowUtc) + ContextHeaders(ctx))
  }

  /** The gate as written: identity headers only for claims whose `jti` and `sub` are both empty. */
  predicate IdentityGate(c: JwtClaims) {
    c.jti == "" && c.sub == ""
  }

  /** The headers prepare_headers produces. */
  function HeaderPlan(ctx: Context, rawToken: Option<string>, claims: Option<JwtClaims>,
                      userData: string -> Result<CachedUserData, BoxedErr>, nowUtc: int)
    : Result<seq<HeaderOption>, BoxedErr>
  {
    BuildHeaders(if claims.Some? && IdentityGate(claims.value) then claims else None,
                 ctx, rawToken, userData, nowUtc)
  }

  /** prepare_headers: push the identity headers (when the gate lets them) and then the context headers. */
  method PrepareHeaders(ctx: Context, rawToken: Option<string>, claims: Option<JwtClaims>,
                        userData: string -> Result<CachedUserData, BoxedErr>, nowUtc: int)
    returns (r: Result<seq<HeaderOption>, BoxedErr>)
    ensures r == HeaderPlan(ctx, rawToken, claims, userData, nowUtc)
  {
    var headers: seq<HeaderOption> := [];
    ghost var identity: seq<HeaderOption> := [];
    var deviceId := DumpDeviceId;
    if claims.Some? {
      var c := claims.value;
      if c.jti == "" && c.sub == "" {
        var token := rawToken.GetOr("");
        var userId := c.sub;
        var authData := userData(userId);
        if authData.Err? {
          return Err(UserDataError(authData.error));
        }
        headers := headers + [MakeHeader(SessionId, c.jti)];
        headers := headers + [MakeHeader(Token, token)];
        headers := headers + [MakeHeader(CreatedAt, SecondsString(c.iat))];
        headers := headers + [MakeHeader(ExpiresAt, SecondsString(c.exp))];
        headers := headers + [MakeHeader(LastActivityAt, DecimalString(nowUtc))];
        headers := headers + [MakeHeader(UserId, c.sub)];
        headers := headers + [MakeHeader(DeviceId, deviceId)];
        headers := headers + [MakeHeader(Roles, authData.value.roles)];
        headers := headers + [MakeHeader(IsOauth, BoolString(authData.value.isOauth))];
        headers := headers + [MakeHeader(Props, authData.value.props)];
        identity := IdentityHeaders(c, token, authData.value, nowUtc);
        assert headers == identity;
      }
    }
    headers := headers + [MakeHeader(XRequestId, ctx.requestId)];
    headers := headers + [MakeHeader(XIpAddress, ctx.ipAddress)];
    headers := headers + [MakeHeader(XForwardedFor, ctx.xForwardedFor)];
    headers := headers + [MakeHeader(Path, ctx.path)];
    headers := headers + [MakeHeader(UserAgent, ctx.userAgent)];
    headers := headers + [MakeHeader(AcceptLanguage, ctx.acceptLanguage)];
    assert headers == identity + ContextHeaders(ctx);
    r := Ok(headers);
    if !(claims.Some? && IdentityGate(claims.value)) {
      assert identity + ContextHeaders(ctx) == ContextHeaders(ctx);
    }
  }

  /** Every header of every produced list follows the fixed overwrite policy. */
  lemma HeadersFixedPolicy(identity: Option<JwtClaims>, ctx: Context, rawToken: Option<string>,
                           userData: string -> Result<CachedUserData, BoxedErr>, nowUtc: int)
    ensures var r := BuildHeaders(identity, ctx, rawToken, userData, nowUtc);
            r.Ok? ==> forall i :: 0 <= i < |r.value| ==> FixedPolicy(r.value[i])
  {
  }

  /**
   * The six context headers close every list, in the order request id, client
   * ip, forwarded-for, path, user agent, accept-language, with the context's values.
   */
  lemma ContextHeadersLast(identity: Option<JwtClaims>, ctx: Context, rawToken: Option<string>,
                           userData: string -> Result<CachedUserData, BoxedErr>, nowUtc: int)
    ensures var r := BuildHeaders(identity, ctx, rawToken, userData, nowUtc);
            r.Ok? ==>
              && |r.value| >= 6
              && r.value[|r.value| - 6..] == ContextHeaders(ctx)
              && Pairs(r.value[|r.value| - 6..])
                 == [ (XRequestId, ctx.requestId), (XIpAddress, ctx.ipAddress),
                      (XForwardedFor, ctx.xForwardedFor), (Path, ctx.path),
                      (UserAgent, ctx.userAgent), (AcceptLanguage, ctx.acceptLanguage) ]
  {
    var r := BuildHeaders(identity, ctx, rawToken, userData, nowUtc);
    if r.Ok? && identity.Some? {
      var data := userData(identity.value.sub).value;
      var front := IdentityHeaders(identity.value, rawToken.GetOr(""), data, nowUtc);
      assert r.value == front + ContextHeaders(ctx);
      assert r.value[|r.value| - 6..] == ContextHeaders(ctx);
    }
  }

  /**
   * The identity headers come first, ten of them in the order session id,
   * token, issued-at, expires-at, last activity, subject, device id, roles,
   * federation flag, properties; the session id is the token id, the user id
   * the subject, the timestamps decimal seconds or "".
   */
  lemma IdentityHeaderOrder(c: JwtClaims, ctx: Context, rawToken: Option<string>,
                            userData: string -> Result<CachedUserData, BoxedErr>, nowUtc: int)
    requires userData(c.sub).Ok?
    ensures var r := BuildHeaders(Some(c), ctx, rawToken, userData, nowUtc);
            var d := userData(c.sub).value;
            && r.Ok? && |r.value| == 16
            && Pairs(r.value[..10])
               == [ (SessionId, c.jti), (Token, rawToken.GetOr("")),
                    (CreatedAt, SecondsString(c.iat)), (ExpiresAt, SecondsString(c.exp)),
                    (LastActivityAt, DecimalString(nowUtc)), (UserId, c.sub),
                    (DeviceId, "dump device id"), (Roles, d.roles),
                    (IsOauth, BoolString(d.isOauth)), (Props, d.props) ]
  {
    var r := BuildHeaders(Some(c), ctx, rawToken, userData, nowUtc);
    var d := userData(c.sub).value;
    assert r.value[..10] == IdentityHeaders(c, rawToken.GetOr(""), d, nowUtc);
  }

  /**
   * As written, the list has the ten identity headers (16 in all) exactly when
   * claims are present with an empty `jti` and an empty `sub`, and otherwise
   * only the 6 context headers; a failed identity lookup is an error tagged
   * "auth.controller.prepare_headers" with `temp = true`, and no headers.
   */
  lemma HeaderPlanShape(ctx: Context, rawToken: Option<string>, claims: Option<JwtClaims>,
                        userData: string -> Result<CachedUserData, BoxedErr>, nowUtc: int)
    ensures var r := HeaderPlan(ctx, rawToken, claims, userData, nowUtc);
            var gated := claims.Some? && IdentityGate(claims.value);
            && (!gated ==> r == Ok(ContextHeaders(ctx)))
            && (gated && userData(claims.value.sub).Ok? ==> r.Ok? && |r.value| == 16)
            && (gated && userData(claims.value.sub).Err? ==>
                  r.Err? && r.error.Wrapped? && r.error.inner.path == "auth.controller.prepare_headers"
                  && r.error.inner.temp && r.error.inner.errType == ErrorType.Internal
                  && r.error.inner.err == userData(claims.value.sub).error)
            && (r.Ok? ==> |r.value| == 6 || |r.value| == 16)
  {
  }

  /**
   * The consequence of the gate as written: claims with a token id or a
   * subject never get identity headers, and when identity headers are
   * emitted the session id and user id headers are always empty.
   */
  lemma GateDropsAuthenticatedIdentity(ctx: Context, rawToken: Option<string>, c: JwtClaims,
                                       userData: string -> Result<CachedUserData, BoxedErr>, nowUtc: int)
    ensures c.jti != "" || c.sub != "" ==> HeaderPlan(ctx, rawToken, Some(c), userData, nowUtc) == Ok(ContextHeaders(ctx))
    ensures var r := HeaderPlan(ctx, rawToken, Some(c), userData, nowUtc);
            r.Ok? && |r.value| == 16 ==>
              r.value[0].header.value.value == "" && r.value[5].header.value.value == ""
  {
  }

  /** The gate evidently intended: identity headers for claims with both a token id and a subject. */
  predicate IntendedIdentityGate(c: JwtClaims) {
    c.jti != "" && c.sub != ""
  }

  function IntendedHeaderPlan(ctx: Context, rawToken: Option<string>, claims: Option<JwtClaims>,
                              userData: string -> Result<CachedUserData, BoxedErr>, nowUtc: int)
    : Result<seq<HeaderOption>, BoxedErr>
  {
    BuildHeaders(if claims.Some? && IntendedIdentityGate(claims.value) then claims else None,
                 ctx, rawToken, userData, nowUtc)
  }

  /**
   * With the intended gate, claims carrying a token id and a subject get the
   * identity headers, whose session id is the token id and whose user id is
   * the subject, both non-empty.
   */
  lemma IntendedGateForwardsIdentity(ctx: Context, rawToken: Option<string>, c: JwtClaims,
                                     userData: string -> Result<CachedUserData, BoxedErr>, nowUtc: int)
    requires c.jti != "" && c.sub != "" && userData(c.sub).Ok?
    ensures var r := IntendedHeaderPlan(ctx, rawToken, Some(c), userData, nowUtc);
            && r.Ok? && |r.value| == 16
            && r.value[0].header.value.key == SessionId && r.value[0].header.value.value == c.jti
            && r.value[5].header.value.key == UserId && r.value[5].header.value.value == c.sub
            && r.value[0].header.value.value != "" && r.value[5].header.value.value != ""
  {
  }

  /**
   * response_ok: an error while preparing the headers gives an Internal status
   * with the localized internal-error message and no HTTP payload; otherwise
   * an OK status with an empty message whose OK payload holds exactly the
   * prepared headers.
   */
  method ResponseOk(ctx: Context, rawToken: Option<string>, claims: Option<JwtClaims>,
                    userData: string -> Result<CachedUserData, BoxedErr>, nowUtc: int, tr: Translate)
    returns (r: CheckResponse)
    ensures var hs := HeaderPlan(ctx, rawToken, claims, userData, nowUtc);
            && (hs.Err? ==> r == CheckResponse(Some(RpcStatus(Code.Internal, IntErrMsg(tr, ctx.acceptLanguage), [])), None))
            && (hs.Ok? ==> r == CheckResponse(Some(RpcStatus(OK, "", [])), Some(OkResponse(OkHttpResponse(hs.value)))))
  {
    var headers := PrepareHeaders(ctx, rawToken, claims, userData, nowUtc);
    if headers.Err? {
      return CheckResponse(Some(RpcStatus(Code.Internal, IntErrMsg(tr, ctx.acceptLanguage), [])), None);
    }
    r := CheckResponse(Some(RpcStatus(OK, "", [])), Some(OkResponse(OkHttpResponse(headers.value))));
  }
}
