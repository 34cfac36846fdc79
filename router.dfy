/**
 * The authorization decision of src/controller/router.rs (`check`): read the
 * request path, classify it against the route table, require a token on a
 * protected route, consult the token-status cache (a revocation wins
 * outright), ask the OAuth authority when the cached answer is missing or
 * older than 300 seconds, and record the authority's answer in the cache on a
 * best-effort basis.
 *
 * `Decide` is the decision as a pure function of the request and of what the
 * two capabilities (cache check, authority validation) answer; it also lists
 * the external calls the decision makes, in order. `Check` runs the same
 * decision against a `TokenCache` object and performs the cache writes.
 */
module Router {
  import opened Wrappers
  import opened Errors
  import opened Protocol
  import opened Extension
  import opened Redis
  import opened Hydra
  import opened Token
  import opened Routes
  import opened Response

  /** The `ROUTES` table router.rs itself declares and uses. */
  const RouterRoutes: RouteTable := map["/user.v1.UsersService/CreateSupplier" := false]

  /** Seconds after which a cached "not revoked" answer is re-confirmed with the authority. */
  const RevalidationWindow: int := 300

  const NoPathMessage: string := "The requested path is not provided!"
  const NotFoundMessage: string := "The requested resource is not found"
  const MissingTokenMessage: string := "Missing authentication credentials"

  /** The token cache's `check_token`, as a capability. */
  type CacheCapability = string -> Result<RedisCheck, BoxedErr>
  /** The authority's `validate_token`, as a capability. */
  type AuthorityCapability = string -> Result<HydraValidation, BoxedErr>

  /** An external call the decision makes. */
  datatype Call =
    | CacheCheck(token: string)
    | AuthorityValidate(token: string)
    | CacheMarkCheckedOk(token: string, ts: int)
    | CacheRevoke(token: string)

  datatype Decision = Decision(outcome: Result<CheckResponse, Status>, calls: seq<Call>)

  /** `needs_hydra`: no timestamp, or strictly more than the window since it. */
  function NeedsAuthority(lastChecked: Option<int>, now: int): bool {
    match lastChecked
    case Some(ts) => now - ts > RevalidationWindow
    case None => true
  }

  ghost predicate AsksAuthority(calls: seq<Call>) {
    exists i :: 0 <= i < |calls| && calls[i].AuthorityValidate?
  }

  ghost predicate ReadsCache(calls: seq<Call>) {
    exists i :: 0 <= i < |calls| && calls[i].CacheCheck?
  }

  ghost predicate WritesCache(calls: seq<Call>) {
    exists i :: 0 <= i < |calls| && (calls[i].CacheMarkCheckedOk? || calls[i].CacheRevoke?)
  }

  /** The decision for one check request. */
  function Decide(routes: RouteTable, path: Option<string>, token: Option<string>,
                  cache: CacheCapability, authority: AuthorityCapability, now: int): (d: Decision)
    // each call is made at most once, in pipeline order, and only for the request's token
    ensures |d.calls| <= 3
    ensures d.calls != [] ==> token.Some? && d.calls[0] == CacheCheck(token.value)
    ensures |d.calls| > 1 ==> d.calls[1] == AuthorityValidate(token.value)
    ensures |d.calls| > 2 ==> d.calls[2] in {CacheMarkCheckedOk(token.value, now), CacheRevoke(token.value)}
  {
    match path
    case None => Decision(Err(Status(InvalidArgument, NoPathMessage)), [])
    case Some(p) =>
      if p !in routes then Decision(Err(Status(NotFound, NotFoundMessage)), [])
      else if !routes[p] then Decision(Ok(CheckOk()), [])
      else
        match token
        case None => Decision(Err(Status(Unauthenticated, MissingTokenMessage)), [])
        case Some(t) =>
          match cache(t)
          case Err(err) => Decision(Err(Status(Code.Internal, "redis error: " + ShowBoxed(err))), [CacheCheck(t)])
          case Ok(Revoked(reason)) => Decision(Ok(Denied("revoked: " + reason)), [CacheCheck(t)])
          case Ok(Allowed(status)) =>
            if !NeedsAuthority(LastChecked(status), now) then
              Decision(Ok(CheckOk()), [CacheCheck(t)])
            else
              match authority(t)
              case Ok(Valid) =>
                Decision(Ok(CheckOk()), [CacheCheck(t), AuthorityValidate(t), CacheMarkCheckedOk(t, now)])
              case Ok(Invalid(reason)) =>
                Decision(Ok(Denied(reason)), [CacheCheck(t), AuthorityValidate(t), CacheRevoke(t)])
              case Err(err) =>
                Decision(Err(Status(Code.Internal, "hydra error: " + ShowBoxed(err))), [CacheCheck(t), AuthorityValidate(t)])
  }

  // ---------------------------------------------------------------------------
  // Running the decision against the token store

  /** The outcomes of the store's round trips during one check. */
  datatype Links = Links(lookup: Link, reread: Link, write: Link)

  /** The cache capability that a store with `entries` offers over `link`. */
  function CacheView(entries: Store, link: Link): CacheCapability {
    jti => CheckTokenSpec(entries, jti, link)
  }

  /** The store after one call; reads leave it alone, failed writes too. */
  function Effect(entries: Store, call: Call, clock: int, links: Links): Store {
    match call
    case CacheMarkCheckedOk(t, ts) => MarkSpec(entries, t, ts, links.reread, links.write).entries
    case CacheRevoke(t) => RevokeSpec(entries, t, clock, links.reread, links.write).entries
    case _ => entries
  }

  /** The store after the calls of a decision, in order. */
  function StoreAfter(entries: Store, calls: seq<Call>, clock: int, links: Links): Store
    decreases |calls|
  {
    if calls == [] then entries else StoreAfter(Effect(entries, calls[0], clock, links), calls[1..], clock, links)
  }

  /** The store after each call list a decision can make: only the third call writes. */
  lemma StoreAfterDecisionCalls(entries: Store, t: string, write: Call, clock: int, links: Links)
    ensures StoreAfter(entries, [], clock, links) == entries
    ensures StoreAfter(entries, [CacheCheck(t)], clock, links) == entries
    ensures StoreAfter(entries, [CacheCheck(t), AuthorityValidate(t)], clock, links) == entries
    ensures StoreAfter(entries, [CacheCheck(t), AuthorityValidate(t), write], clock, links)
            == Effect(entries, write, clock, links)
  {
    var three := [CacheCheck(t), AuthorityValidate(t), write];
    assert three[1..] == [AuthorityValidate(t), write];
    assert [AuthorityValidate(t), write][1..] == [write];
    assert [CacheCheck(t), AuthorityValidate(t)][1..] == [AuthorityValidate(t)];
    calc {
      StoreAfter(entries, three, clock, links);
      StoreAfter(entries, [AuthorityValidate(t), write], clock, links);
      StoreAfter(entries, [write], clock, links);
      StoreAfter(Effect(entries, write, clock, links), [], clock, links);
    }
  }

  /**
   * `check`. The token is what extract_jwt_from_request found; `now` is the
   * clock reading of this request, also used by the store when it stamps a
   * newly created entry. Cache writes are best effort: their results are dropped.
   */
  method Check(routes: RouteTable, req: CheckRequest, token: Option<string>, cache: TokenCache,
               authority: AuthorityCapability, now: int, links: Links)
    returns (r: Result<CheckResponse, Status>)
    modifies cache
    ensures var d := Decide(routes, RequestPath(req), token, CacheView(old(cache.entries), links.lookup), authority, now);
            r == d.outcome && cache.entries == StoreAfter(old(cache.entries), d.calls, now, links)
  {
    var path := RequestPath(req);
    if path.None? {
      return Err(Status(InvalidArgument, NoPathMessage));
    }
    if path.value !in routes {
      return Err(Status(NotFound, NotFoundMessage));
    }
    var protected := routes[path.value];
    if !protected {
      return Ok(CheckOk());
    }
    if token.None? {
      return Err(Status(Unauthenticated, MissingTokenMessage));
    }
    var t := token.value;
    ghost var before := cache.entries;
    StoreAfterDecisionCalls(before, t, CacheMarkCheckedOk(t, now), now, links);
    StoreAfterDecisionCalls(before, t, CacheRevoke(t), now, links);
    var checked := cache.CheckToken(t, links.lookup);
    match checked {
      case Ok(Revoked(reason)) =>
        r := Ok(Denied("revoked: " + reason));
      case Ok(Allowed(status)) =>
        var lastChecked := LastChecked(status);
        var needsHydra := NeedsAuthority(lastChecked, now);
        if needsHydra {
          var answer := authority(t);
          match answer {
            case Ok(Valid) =>
              var _ := cache.MarkCheckedOk(t, now, links.reread, links.write);
              r := Ok(CheckOk());
            case Ok(Invalid(reason)) =>
              var _ := cache.RevokeToken(t, now, links.reread, links.write);
              r := Ok(Denied(reason));
            case Err(err) =>
              r := Err(Status(Code.Internal, "hydra error: " + ShowBoxed(err)));
          }
        } else {
          r := Ok(CheckOk());
        }
      case Err(err) =>
        r := Err(Status(Code.Internal, "redis error: " + ShowBoxed(err)));
    }
  }

  // ---------------------------------------------------------------------------
  // Properties of the decision

  /** No HTTP path: InvalidArgument, and nothing is consulted. */
  lemma NoPathIsInvalidArgument(routes: RouteTable, token: Option<string>,
                                cache: CacheCapability, authority: AuthorityCapability, now: int)
    ensures Decide(routes, None, token, cache, authority, now)
            == Decision(Err(Status(InvalidArgument, "The requested path is not provided!")), [])
  {
  }

  /** A path absent from the table: NotFound, before any token or cache work. */
  lemma UnlistedPathIsNotFound(routes: RouteTable, p: string, token: Option<string>,
                               cache: CacheCapability, authority: AuthorityCapability, now: int)
    requires p !in routes
    ensures Decide(routes, Some(p), token, cache, authority, now)
            == Decision(Err(Status(NotFound, "The requested resource is not found")), [])
  {
  }

  /** A public route: allowed, whatever the token, with no cache or authority call. */
  lemma PublicRouteAllows(routes: RouteTable, p: string, token: Option<string>,
                          cache: CacheCapability, authority: AuthorityCapability, now: int)
    requires p in routes && !routes[p]
    ensures Decide(routes, Some(p), token, cache, authority, now) == Decision(Ok(CheckOk()), [])
  {
  }

  /** A protected route without a token: Unauthenticated, and the cache is not read. */
  lemma MissingTokenIsUnauthenticated(routes: RouteTable, p: string,
                                      cache: CacheCapability, authority: AuthorityCapability, now: int)
    requires p in routes && routes[p]
    ensures Decide(routes, Some(p), None, cache, authority, now)
            == Decision(Err(Status(Unauthenticated, "Missing authentication credentials")), [])
  {
  }

  /**
   * A cached revocation is final: denied with "revoked: " + reason, the
   * authority is not asked and nothing is written, whatever the clock says.
   */
  lemma RevokedIsDenied(routes: RouteTable, p: string, t: string,
                        cache: CacheCapability, authority: AuthorityCapability, now: int, reason: string)
    requires p in routes && routes[p]
    requires cache(t) == Ok(Revoked(reason))
    ensures Decide(routes, Some(p), Some(t), cache, authority, now)
            == Decision(Ok(Denied("revoked: " + reason)), [CacheCheck(t)])
    ensures !AsksAuthority(Decide(routes, Some(p), Some(t), cache, authority, now).calls)
    ensures !WritesCache(Decide(routes, Some(p), Some(t), cache, authority, now).calls)
  {
  }

  /**
   * The authority is asked iff the cache allowed the token and its answer has
   * no timestamp or one more than 300 seconds old.
   */
  lemma AuthorityAskedIffStale(routes: RouteTable, p: string, t: string,
                               cache: CacheCapability, authority: AuthorityCapability, now: int)
    requires p in routes && routes[p]
    ensures AsksAuthority(Decide(routes, Some(p), Some(t), cache, authority, now).calls)
            <==> && cache(t).Ok? && cache(t).value.Allowed?
                 && (cache(t).value.status.None? || now - cache(t).value.status.value.lastChecked > 300)
  {
    var d := Decide(routes, Some(p), Some(t), cache, authority, now);
    if cache(t).Ok? && cache(t).value.Allowed? && NeedsAuthority(LastChecked(cache(t).value.status), now) {
      assert d.calls[1].AuthorityValidate?;
    }
  }

  /**
   * A status checked within the window (exactly 300 seconds ago included) is
   * trusted: allowed, with the cache check as the only call.
   */
  lemma FreshStatusAllows(routes: RouteTable, p: string, t: string, s: TokenStatus,
                          cache: CacheCapability, authority: AuthorityCapability, now: int)
    requires p in routes && routes[p]
    requires cache(t) == Ok(Allowed(Some(s)))
    requires now - s.lastChecked <= 300
    ensures Decide(routes, Some(p), Some(t), cache, authority, now) == Decision(Ok(CheckOk()), [CacheCheck(t)])
  {
  }

  /** Stale and confirmed valid: allowed, after asking the authority and then marking the token checked now. */
  lemma StaleValidMarksChecked(routes: RouteTable, p: string, t: string, status: Option<TokenStatus>,
                               cache: CacheCapability, authority: AuthorityCapability, now: int)
    requires p in routes && routes[p]
    requires cache(t) == Ok(Allowed(status)) && NeedsAuthority(LastChecked(status), now)
    requires authority(t) == Ok(Valid)
    ensures Decide(routes, Some(p), Some(t), cache, authority, now)
            == Decision(Ok(CheckOk()), [CacheCheck(t), AuthorityValidate(t), CacheMarkCheckedOk(t, now)])
  {
  }

  /** Stale and declared invalid: denied with the authority's reason, after a revoke. */
  lemma StaleInvalidRevokes(routes: RouteTable, p: string, t: string, status: Option<TokenStatus>,
                            cache: CacheCapability, authority: AuthorityCapability, now: int, reason: string)
    requires p in routes && routes[p]
    requires cache(t) == Ok(Allowed(status)) && NeedsAuthority(LastChecked(status), now)
    requires authority(t) == Ok(Invalid(reason))
    ensures Decide(routes, Some(p), Some(t), cache, authority, now)
            == Decision(Ok(Denied(reason)), [CacheCheck(t), AuthorityValidate(t), CacheRevoke(t)])
  {
  }

  /** A failing cache check or a failing authority is Internal, is followed by no further call, and writes nothing. */
  lemma FailuresAreInternal(routes: RouteTable, p: string, t: string,
                            cache: CacheCapability, authority: AuthorityCapability, now: int)
    requires p in routes && routes[p]
    ensures cache(t).Err? ==>
              Decide(routes, Some(p), Some(t), cache, authority, now)
              == Decision(Err(Status(Code.Internal, "redis error: " + ShowBoxed(cache(t).error))), [CacheCheck(t)])
    ensures cache(t).Ok? && cache(t).value.Allowed? && NeedsAuthority(LastChecked(cache(t).value.status), now)
            && authority(t).Err? ==>
              Decide(routes, Some(p), Some(t), cache, authority, now)
              == Decision(Err(Status(Code.Internal, "hydra error: " + ShowBoxed(authority(t).error))),
                          [CacheCheck(t), AuthorityValidate(t)])
    ensures (cache(t).Err? || authority(t).Err?) ==> !WritesCache(Decide(routes, Some(p), Some(t), cache, authority, now).calls)
  {
  }

  /**
   * An allow is earned: either the route is public, or the request carries a
   * token that the cache does not hold revoked and that was either checked
   * within the window or just confirmed valid by the authority.
   */
  lemma AllowIsEarned(routes: RouteTable, p: string, token: Option<string>,
                      cache: CacheCapability, authority: AuthorityCapability, now: int)
    requires Decide(routes, Some(p), token, cache, authority, now).outcome.Ok?
    requires Allows(Decide(routes, Some(p), token, cache, authority, now).outcome.value)
    ensures p in routes
    ensures routes[p] ==>
              && token.Some? && cache(token.value).Ok? && cache(token.value).value.Allowed?
              && (!NeedsAuthority(LastChecked(cache(token.value).value.status), now)
                  || authority(token.value) == Ok(Valid))
  {
  }

  /** When the authority is not asked, its answer has no influence on the decision. */
  lemma AuthorityIgnoredUnlessAsked(routes: RouteTable, path: Option<string>, token: Option<string>,
                                    cache: CacheCapability, a1: AuthorityCapability, a2: AuthorityCapability, now: int)
    requires !AsksAuthority(Decide(routes, path, token, cache, a1, now).calls)
    ensures Decide(routes, path, token, cache, a1, now) == Decide(routes, path, token, cache, a2, now)
  {
  }

  /** When the cache is not read, neither it nor the authority influences the decision. */
  lemma CacheIgnoredUnlessRead(routes: RouteTable, path: Option<string>, token: Option<string>,
                               c1: CacheCapability, c2: CacheCapability,
                               a1: AuthorityCapability, a2: AuthorityCapability, now: int)
    requires !ReadsCache(Decide(routes, path, token, c1, a1, now).calls)
    ensures Decide(routes, path, token, c1, a1, now) == Decide(routes, path, token, c2, a2, now)
  {
  }

  // ---------------------------------------------------------------------------
  // Properties of checks against the token store

  /**
   * A revoked entry stays revoked through any check: its own token's check is
   * answered from the cache without writing, and the writes of any other
   * token's check touch only that token's entry.
   */
  lemma RevocationSticky(routes: RouteTable, path: Option<string>, token: Option<string>,
                         entries: Store, authority: AuthorityCapability, now: int, links: Links, jti: string)
    requires jti in entries && entries[jti].Json? && entries[jti].status.revoked
    ensures var d := Decide(routes, path, token, CacheView(entries, links.lookup), authority, now);
            var after := StoreAfter(entries, d.calls, now, links);
            jti in after && after[jti] == entries[jti]
  {
    var d := Decide(routes, path, token, CacheView(entries, links.lookup), authority, now);
    if |d.calls| == 3 {
      var t := token.value;
      StoreAfterDecisionCalls(entries, t, d.calls[2], now, links);
      assert d.calls == [CacheCheck(t), AuthorityValidate(t), d.calls[2]];
      if t == jti {
        CheckTokenClassifies(entries, jti, links.lookup);
        assert false;
      }
      MarkEffect(entries, t, now, links.reread, links.write);
      RevokeEffect(entries, t, now, links.reread, links.write);
    } else {
      StoreAfterDecisionCalls(entries, "", CacheCheck(""), now, links);
      if |d.calls| > 0 {
        StoreAfterDecisionCalls(entries, token.value, CacheCheck(""), now, links);
        assert d.calls == [CacheCheck(token.value)] || d.calls == [CacheCheck(token.value), AuthorityValidate(token.value)];
      }
    }
  }

  /**
   * The first check of an unknown token on a protected route asks the
   * authority once; a `Valid` answer allows it and, with the store reachable,
   * records `{revoked: false, last_checked: now, dev_id: ""}`, so a second
   * check within 300 seconds is allowed without asking the authority.
   */
  lemma FirstCheckRecordsFreshness(routes: RouteTable, p: string, t: string, entries: Store,
                                   authority: AuthorityCapability, now: int, later: int)
    requires p in routes && routes[p] && t !in entries
    requires authority(t) == Ok(Valid)
    requires now <= later <= now + 300
    ensures var links := Links(Up, Up, Up);
            var d := Decide(routes, Some(p), Some(t), CacheView(entries, Up), authority, now);
            var after := StoreAfter(entries, d.calls, now, links);
            && d.outcome == Ok(CheckOk())
            && d.calls == [CacheCheck(t), AuthorityValidate(t), CacheMarkCheckedOk(t, now)]
            && t in after && after[t] == Json(TokenStatus(false, now, ""))
            && Decide(routes, Some(p), Some(t), CacheView(after, Up), authority, later)
               == Decision(Ok(CheckOk()), [CacheCheck(t)])
  {
    var links := Links(Up, Up, Up);
    CheckTokenClassifies(entries, t, Up);
    StoreAfterDecisionCalls(entries, t, CacheMarkCheckedOk(t, now), now, links);
    MarkEffect(entries, t, now, Up, Up);
    var after := MarkSpec(entries, t, now, Up, Up).entries;
    CheckTokenClassifies(after, t, Up);
  }

  // ---------------------------------------------------------------------------
  // The shipped wiring: the stub clients and the two static route tables

  /**
   * With the stub cache and the stub authority, every token on a protected
   * route is checked with the authority, found valid, marked and allowed.
   */
  lemma StubsAllowEveryToken(routes: RouteTable, p: string, t: string, client: HydraClient, now: int)
    requires p in routes && routes[p]
    ensures Decide(routes, Some(p), Some(t), StubCheckToken, tok => StubValidateToken(client, tok), now)
            == Decision(Ok(CheckOk()), [CacheCheck(t), AuthorityValidate(t), CacheMarkCheckedOk(t, now)])
  {
    StubNeverRevokesOrFails(t);
  }

  /**
   * Neither shipped table has a protected route, so with either one a check is
   * InvalidArgument, NotFound or allowed, and never calls the cache or the authority.
   */
  lemma ShippedTablesNeverProtect(routes: RouteTable, path: Option<string>, token: Option<string>,
                                  cache: CacheCapability, authority: AuthorityCapability, now: int)
    requires routes == RouterRoutes || routes == UsersRoutes
    ensures var d := Decide(routes, path, token, cache, authority, now);
            && d.calls == []
            && (d.outcome.Err? ==> d.outcome.error.code in {InvalidArgument, NotFound})
            && (d.outcome.Ok? ==> d.outcome.value == CheckOk())
  {
    UsersRoutesAllPublic();
  }
}
