# megacommerce-auth: the authorization decision engine, in Dafny

This project models the core of an external-authorization sidecar. A gateway asks it, for each inbound request, whether to let the request through. The model covers:

- the decision of `check` in `src/controller/router.rs`: path extraction, route lookup, token requirement, the token-status cache with its 300-second revalidation window, the OAuth authority (Hydra) fallback, and the best-effort cache writes;
- the token-status store of `src/controller/token.rs`, as a class over a `map` from token id to stored slot;
- the cache and authority result types with their shipped stubs (`redis.rs`, `hydra.rs`), and both static route tables;
- the response and header builder (`response.rs`, `extension.rs`);
- three small pure pieces: the `ErrorType` display and `InternalError` (`src/models/errors.rs`), the user-row projection (`src/store/pg_impl/user.rs`), and error scrubbing (`middleware_response.rs`).

The two external capabilities that `check` uses, the Redis client and the Hydra client, are function values from a token to a result. `Router.Decide` is the decision as a pure function of the request and of what those capabilities answer. It also returns the list of external calls it makes, in order. That list is how "the authority is not consulted" and "the cache is not written" are stated. Lemmas show that a capability that is not called has no influence on the result.

`Router.Check` runs the same decision on a `Token.TokenCache` object and performs the writes. Its postcondition ties the response to `Decide` and the new store contents to `StoreAfter` of the calls made. A `Link` parameter decides each store round trip: up, pool failure, or command failure. A stored value that fails to deserialize is a `Malformed` slot.

The crate is mid-refactor, and the model takes each file as written:

- `RedisCheck::Allowed` carries the stored `Option<TokenStatus>`, as `token.rs` builds it. The router's `last_checked` is derived from it by `Redis.LastChecked`. `redis.rs` declares the variant with a bare timestamp instead.
- `denied` and the three localized messages are defined once, in `Extension`. `response.rs` holds identical copies.
- The crate's `check` reaches the store through `self.redis`, a `DefaultRedisClient` whose `RedisClient` implementation is the stub of `redis.rs`. `token.rs` is not declared as a module of the controller, and its `mark_checked_ok` takes no timestamp argument, so the shipped `check` never reaches it. `Router.Check` is the model's own wiring: it plugs `token.rs`'s operations in as the router's cache. `Router.StubsAllowEveryToken` is the behaviour as shipped.
- The router uses its own table, `Router.RouterRoutes`, whose key is `"/user.v1.UsersService/CreateSupplier"`. That key is not in `routes.rs`'s table (`Routes.UsersRoutes`). Neither table has a protected route, so with the shipped tables the protected branch is unreachable (`Router.ShippedTablesNeverProtect`).

Where the design description and the code disagree, the model follows the code:

- On an absent entry, `revoke_token` writes `{revoked: true, last_checked: now, dev_id: ""}`, not a default with `last_checked = 0`.
- `mark_checked_ok` does clear `revoked`. Revocation is still one-way under sequential checks, because the router marks only tokens the cache did not report revoked (`Router.RevocationSticky`). Two interleaved updates can lose a revocation (`Token.InterleavedRevokeAndMark`).
- `check` answers an allow with a bare `ok()`. It never calls `response_ok`, so no identity headers and no identity lookup are attached to an allow.
- `HydraValidation::Valid` carries no subject or expiry.
- The not-found, missing-path and missing-token statuses of `check` use fixed English texts, not the localized messages.
- Headers are emitted with `keep_empty_value = false`, which asks the proxy to drop empty ones. Their values can still be empty.
- `revoke_token` tags its store errors with the path `"auth.controller.check_token"`, as the source does.

`UserStore.Split` has no counterpart in the source. It is a reference inverse, used to show that the comma join of roles and properties loses nothing.

## Model

| member | source | states |
|---|---|---|
| Router.Decide | src/controller/router.rs:25-78 | each external call is made at most once, in pipeline order: cache check, then authority, then one cache write (mark checked with `now`, or revoke), all for the request's token |
| Router.Check | src/controller/router.rs:25-78 | the response is `Decide`'s outcome for the request path, the extracted token and the store's own check answers; the new store is the old one after exactly the writes `Decide` lists; write failures do not change the response |
| Router.NoPathIsInvalidArgument | src/controller/router.rs:28-34 | no HTTP path gives InvalidArgument "The requested path is not provided!", and no call is made |
| Router.UnlistedPathIsNotFound | src/controller/router.rs:36-39 | a path missing from the table gives NotFound, before any token or cache work |
| Router.PublicRouteAllows | src/controller/router.rs:41-43 | a route mapped to false is allowed with `ok()`, whatever the token, and no call is made |
| Router.MissingTokenIsUnauthenticated | src/controller/router.rs:45-46 | a protected route without a token gives Unauthenticated, and the cache is not read |
| Router.RevokedIsDenied | src/controller/router.rs:48-51 | a cached revocation gives `denied("revoked: " + reason)`; the only call is the cache check, so the authority is not asked and nothing is written, whatever the clock |
| Router.AuthorityAskedIffStale | src/controller/router.rs:52-59 | the authority is asked iff the cache allowed the token with no timestamp or one more than 300 seconds old (both directions) |
| Router.FreshStatusAllows | src/controller/router.rs:71-74 | a status checked at most 300 seconds ago (exactly 300 included) is allowed with the cache check as the only call |
| Router.StaleValidMarksChecked | src/controller/router.rs:60-64 | stale and `Valid`: allowed, after the authority call and a mark-checked write stamped `now` |
| Router.StaleInvalidRevokes | src/controller/router.rs:65-68 | stale and `Invalid(reason)`: `denied(reason)`, after the authority call and a revoke |
| Router.FailuresAreInternal | src/controller/router.rs:69-76 | a cache-check error gives Internal "redis error: ..." with no authority call; an authority error gives Internal "hydra error: ..." with no write; after either failure nothing is written |
| Router.AllowIsEarned | src/controller/router.rs:36-74 | an allow means the route is listed and, if protected, the token was present, not revoked in the cache, and either fresh or just confirmed `Valid` |
| Router.AuthorityIgnoredUnlessAsked | src/controller/router.rs:52-74 | when the decision does not call the authority, any other authority gives the same decision |
| Router.CacheIgnoredUnlessRead | src/controller/router.rs:28-47 | when the decision does not read the cache, neither the cache nor the authority influences it |
| Router.RevocationSticky | src/controller/router.rs:48-68 | an entry stored as revoked is unchanged by any check, whatever the links, token or authority |
| Router.FirstCheckRecordsFreshness | src/controller/router.rs:52-64 | an unknown token with a `Valid` answer is allowed after exactly one authority call, the store then holds `{false, now, ""}` for it, and a second check within 300 seconds calls only the cache |
| Router.StubsAllowEveryToken | src/controller/redis.rs:27-29 | with the stub cache and stub authority, every token on a protected route goes to the authority, is found valid, is marked and is allowed |
| Router.ShippedTablesNeverProtect | src/controller/router.rs:17-19 | with either shipped table, a check makes no call and ends in InvalidArgument, NotFound or `ok()` |
| Router.StoreAfterDecisionCalls | src/controller/router.rs:60-68 | of the call lists a decision makes, only the third call (the write) changes the store |
| Token.TokenCache.GetToken | src/controller/token.rs:73-96 | the read result is `Fetch`: a pool or command failure is an error, an absent key is `None`, a malformed value is a deserialize error, a stored status is returned as stored |
| Token.TokenCache.SetToken | src/controller/token.rs:98-118 | on a working link the key maps to the status and the result is Ok; on a failed link the store is unchanged |
| Token.TokenCache.CheckToken | src/controller/token.rs:13-26 | the answer is `CheckTokenSpec` of the store; the method only reads (no modifies clause) |
| Token.TokenCache.RevokeToken | src/controller/token.rs:29-48 | result and new store are `RevokeSpec`: read, set `revoked`, write back |
| Token.TokenCache.MarkCheckedOk | src/controller/token.rs:51-71 | result and new store are `MarkSpec`: read, clear `revoked`, stamp `last_checked`, write back |
| Token.CheckTokenClassifies | src/controller/token.rs:13-26 | absent gives `Allowed(None)`; stored revoked gives `Revoked("token got revoked")`; stored not revoked gives `Allowed(Some(s))` with exactly the stored status; a failed read passes its error on |
| Token.RevokedOnlyWhenStored | src/controller/token.rs:16-19 | a revocation is reported iff the link is up and the store holds a readable revoked status |
| Token.StoreErrorsTagged | src/controller/token.rs:78-80 | every store error is a pool error, or an Internal error with the operation's path and `temp = false`; reads fail iff the link fails or the value is malformed, writes iff the link fails |
| Token.SetThenGet | src/controller/token.rs:73-118 | after a successful set, a get of the same key returns `Some(s)`; no other key changes |
| Token.SetFailureWritesNothing | src/controller/token.rs:108-115 | a failed set leaves the store as it was |
| Token.RevokeEffect | src/controller/token.rs:29-48 | on success the entry is revoked, keeping `last_checked`/`dev_id`, or is created as `{true, clock, ""}`; on failure nothing is written and a failed first read is the error returned; other keys unchanged |
| Token.MarkEffect | src/controller/token.rs:51-71 | on success `revoked = false` and `last_checked = clock`, keeping `dev_id`, or created as `{false, clock, ""}`; on failure nothing is written; other keys unchanged |
| Token.MarkIdempotent | src/controller/token.rs:51-71 | marking twice at the same clock reading equals marking once (result and store) |
| Token.LastCheckedNeverDecreases | src/controller/token.rs:51-71 | over any run of marks and revokes with a non-decreasing clock, starting from a stamp not ahead of it, `last_checked` never decreases |
| Token.StampBounded | src/controller/token.rs:37-45 | during such a run the stored stamp never exceeds the next clock reading |
| Token.OpStampStep | src/controller/token.rs:37-67 | when the stored stamp is not ahead of the operation's clock, one mark or revoke never lowers it and leaves it at most that clock |
| Token.InterleavedRevokeAndMark | src/controller/token.rs:31-68 | when a revoke and a mark read the same status before writing, the later write wins; with the mark's write last, the revocation is lost |
| Redis.LastChecked | src/controller/redis.rs:8 | the router's timestamp is present iff a status is, and is that status's `last_checked` |
| Redis.StubNeverRevokesOrFails | src/controller/redis.rs:27-29 | the stub check always answers `Allowed` with no timestamp, never an error or a revocation |
| Redis.StubWritesStateless | src/controller/redis.rs:31-37 | the stub revoke and mark always return Ok, whatever their arguments |
| Hydra.StubIgnoresInputs | src/controller/hydra.rs:25-27 | the stub's answer depends on neither `base_url` nor the token |
| Hydra.StubAlwaysValid | src/controller/hydra.rs:25-27 | the stub always answers `Ok(Valid)`, never `Invalid` or an error |
| Routes.UsersRoutesListed | src/controller/routes.rs:4-5 | CreateSupplier and Login are listed as public |
| Routes.UsersRoutesAllPublic | src/controller/routes.rs:3-6 | no route of the table is protected |
| Routes.UsersRoutesExactMatch | src/controller/routes.rs:3-6 | a path is listed iff it is one of the two literal keys, so router.rs's "/user.v1..." key is absent |
| Extension.ConstructorsMeaning | src/controller/extension.rs:14-30 | `ok()` allows, with an empty message, no details and no HTTP payload; `denied(msg)` refuses with PermissionDenied and `msg` verbatim (same in response.rs:164-175), so equal denials have equal messages |
| Extension.Localized | src/controller/extension.rs:34-49 | a message is the catalog's translation when it has one, else the fallback |
| Extension.MessagesUseTheirKeys | src/controller/extension.rs:34-49 | the three messages look up "error.not_found", "jwt.payload.invalid" and "error.internal" (same in response.rs:142-157) |
| Extension.FallbacksFixed | src/controller/extension.rs:34-49 | without catalog entries each message is its fixed English text: non-empty, the same for every language, and distinct from the other two |
| Response.RequestPath | src/controller/response.rs:26-31 | the path is present iff attributes, request and http are all present, and is then the HTTP path |
| Response.ContextFromRequest | src/controller/response.rs:24-43 | the context path is the HTTP path or ""; client ip and forwarded-for are both the forwarded-for header; the default session; the header bundle's own path is unused |
| Response.PrepareHeaders | src/controller/response.rs:74-140 | the pushed list is `HeaderPlan`: identity headers when the gate lets them, then the context headers |
| Response.HeadersFixedPolicy | src/controller/response.rs:83-94 | every emitted header has `append = false`, action OverwriteIfExistsOrAdd, `keep_empty_value = false`, a header value and empty raw bytes |
| Response.ContextHeadersLast | src/controller/response.rs:133-138 | the list always ends with the six context headers: request id, client ip, forwarded-for, path, user agent, accept-language, with the context's values |
| Response.IdentityHeaderOrder | src/controller/response.rs:114-129 | the ten identity headers come first, in order, with session id = `jti`, user id = `sub`, device id "dump device id", timestamps as decimal seconds or "", for 16 headers in all |
| Response.HeaderPlanShape | src/controller/response.rs:96-112 | as written, identity headers are emitted iff claims are present with empty `jti` and empty `sub`; a failed lookup is an error tagged "auth.controller.prepare_headers" with `temp = true` and no headers; the length is 6 or 16 |
| Response.GateDropsAuthenticatedIdentity | src/controller/response.rs:96-98 | claims with a token id or a subject get only the context headers; when identity headers are emitted, session id and user id are empty |
| Response.IntendedGateForwardsIdentity | src/controller/response.rs:96-129 | with the gate requiring both `jti` and `sub` to be non-empty, such claims get a session id header equal to `jti` and a user id header equal to `sub`, both non-empty |
| Response.ResponseOk | src/controller/response.rs:45-72 | a header error gives Internal with the localized internal-error message and no payload; otherwise OK with an empty message and an OK payload holding exactly the prepared headers |
| Response.Digits | src/controller/response.rs:118-124 | the decimal rendering is non-empty and made of digits |
| Response.DigitsDenote | src/controller/response.rs:118-124 | the rendered digits evaluate back to `n` (most significant first), with no leading zero |
| Response.DecimalString | src/controller/response.rs:118-124 | an `i64` renders non-empty, starting with '-' iff it is negative |
| Response.NonNegativeDecimal | src/controller/response.rs:118-124 | `to_string()` of a non-negative `i64` is a digit string evaluating to `n`, with no leading zero |
| Response.NegativeDecimal | src/controller/response.rs:118-124 | `to_string()` of a negative `i64` is '-' followed by a digit string evaluating to `-n`, with no leading zero |
| Errors.ErrorTypeNameSnakeCase | src/models/errors.rs:26-42 | every one of the 11 tags has a non-empty display made only of lower-case letters and '_' |
| Errors.ErrorTypeNameInjective | src/models/errors.rs:28-40 | distinct tags display differently |
| Errors.BoolString | src/models/errors.rs:45 | the `temp` flag renders as "true" or "false" |
| Errors.ShowInternalLayout | src/models/errors.rs:44-45 | the display begins "InternalError: " + path + ": " + msg + ", temp: " + temp + ", err: ", followed by the tag's name |
| Errors.SourceIsDisplayedLast | src/models/errors.rs:44-58 | `source()` is always `Some` of the wrapped error, and the display ends with that error's display |
| UserStore.AuthDataFields | src/store/pg_impl/user.rs:23-27 | `is_oauth` iff `auth_service` is present and non-empty; roles and props are comma-joined in order; NULL props or no roles give "" |
| UserStore.UserTypeIgnored | src/store/pg_impl/user.rs:18-27 | the `user_type` column does not influence the output |
| UserStore.QueryErrorTagged | src/store/pg_impl/user.rs:17-21 | a query error yields no data and a store error with path "auth.store.user_get_auth_data"; a row yields its projection |
| UserStore.SplitJoin | src/store/pg_impl/user.rs:25-26 | the comma join loses nothing when no element contains ',': splitting the joined string on ',' gives back the non-empty list, in order |
| MiddlewareResponse.SanitizeScrubs | src/controller/middleware_response.rs:3-16 | `where` and `detailed_error` come out empty; id, message, request id, status code, skip-translation and both error maps are copied unchanged |
| MiddlewareResponse.SanitizeIdempotent | src/controller/middleware_response.rs:3-16 | sanitizing twice equals sanitizing once; an error is a fixed point iff it has nothing to scrub |
| MiddlewareResponse.SanitizeForgetsScrubbed | src/controller/middleware_response.rs:12-14 | the output does not depend on the scrubbed fields |

## Findings

| source | as written | input that shows it | evidently intended | confidence | as-written member | corrected member |
|---|---|---|---|---|---|---|
| src/controller/response.rs:98 | identity headers are built only when `jti` and `sub` are both empty | claims with `jti = "t1"`, `sub = "u1"` give only the 6 context headers, with no session or user header; blank claims give a session id and a user id that are both "" | identity headers for claims whose `jti` and `sub` are both non-empty | medium, not executed | Response.GateDropsAuthenticatedIdentity | Response.IntendedGateForwardsIdentity |

`Response.HeaderPlan`, `Response.PrepareHeaders` and `Response.ResponseOk` keep the gate as written, because they describe what the service does. `Response.IntendedHeaderPlan` is the same builder with the corrected gate.

## Left out

- Transport and storage: the Redis pool, `get_conn`, the key namespacing function `auth_token_status_key`, and serde. The store is keyed by token id. Serializing a status never fails, and the round trip is the identity. A pool failure's error is an opaque `Foreign` text.
- The request helpers `extract_jwt_from_request`, `extract_jwt_token_from_request` and `get_essential_http_headers` are not part of this model. Their results are inputs.
- `get_or_insert_auth_cached_user_data` is not part of this model. It is a function parameter from subject to identity data or error.
- The SQL query and `handle_db_error`. The query's outcome is an input. The mapped error keeps only the path and the driver's text.
- `tr` is the uninterpreted `Translate` parameter.
- The clocks (`Local::now`, `Utc::now`, `time_get_seconds`) are parameters. `token.rs` reads the wall clock itself when it stamps an entry. The model gives the store the router's `now`, so a check sees one clock reading.
- 64-bit arithmetic: `now - ts` (which can overflow an `i64`) and the cast `time_get_seconds() as i64` are taken on unbounded integers.
- Concurrency: the model is sequential. The read-modify-write race appears only as the interleaving lemma `Token.InterleavedRevokeAndMark`.
- `report_internal_error` (audit.rs): a fire-and-forget task with an empty body. `response_ok` drops the error instead.
- The display strings of the shared crate's `Header` enum are not part of this model. Header keys are the enum values.
- The `RedisClient` and `HydraClient` traits become function-valued capabilities. Their real Hydra implementation is not in the source, only the stub.
- CheckResponse fields the core never sets (dynamic metadata, denied response) and OkHttpResponse fields other than the headers keep their defaults and are not modelled.
- Bootstrap, configuration, pools, the common-service client, `Controller::new`/`run`, `validate_url_target`, `user_cache.rs` and the store trait plumbing: I/O and wiring with no decision logic.
- `ErrorType`'s serde `rename_all`: library behaviour.
