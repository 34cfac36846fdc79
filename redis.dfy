/**
 * The token-status cache capability of src/controller/redis.rs: the result of
 * a cache check, and the stub client that the service currently ships.
 */
module Redis {
  import opened Wrappers
  import opened Errors

  /** `CachedTokenStatus`: what the cache remembers about one token id. */
  datatype TokenStatus = TokenStatus(revoked: bool, lastChecked: int, devId: string)

  /**
   * `RedisCheck`. `Allowed` carries the stored status (the form token.rs
   * builds); the timestamp redis.rs carries is derived from it by LastChecked.
   */
  datatype RedisCheck = Allowed(status: Option<TokenStatus>) | Revoked(reason: string)

  /** The `last_checked` the router sees in an `Allowed` answer. */
  function LastChecked(status: Option<TokenStatus>): (ts: Option<int>)
    ensures ts.Some? <==> status.Some?
    ensures ts.Some? ==> ts.value == status.value.lastChecked
  {
    match status
    case Some(s) => Some(s.lastChecked)
    case None => None
  }

  /** `DefaultRedisClient::check_token`: always allowed, never checked. */
  function StubCheckToken(token: string): Result<RedisCheck, BoxedErr> {
    Ok(Allowed(None))
  }

  /** `DefaultRedisClient::revoke_token`: succeeds and records nothing. */
  function StubRevokeToken(token: string): Result<(), BoxedErr> {
    Ok(())
  }

  /** `DefaultRedisClient::mark_checked_ok`: succeeds and records nothing. */
  function StubMarkCheckedOk(token: string, ts: int): Result<(), BoxedErr> {
    Ok(())
  }

  /**
   * The stub never errors and never reports a revocation, and the answer it
   * gives carries no timestamp, whatever the token.
   */
  lemma StubNeverRevokesOrFails(token: string)
    ensures StubCheckToken(token).Ok?
    ensures StubCheckToken(token).value.Allowed?
    ensures LastChecked(StubCheckToken(token).value.status).None?
  {
  }

  /** The stub writes answer the same for every argument: they hold no state. */
  lemma StubWritesStateless(t1: string, t2: string, ts1: int, ts2: int)
    ensures StubRevokeToken(t1) == StubRevokeToken(t2) == Ok(())
    ensures StubMarkCheckedOk(t1, ts1) == StubMarkCheckedOk(t2, ts2) == Ok(())
  {
  }
}
