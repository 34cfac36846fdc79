/**
 * The token-status store of src/controller/token.rs: a key-value store keyed
 * by token id (jti) holding one serialized `TokenStatus` per key, with plain
 * `get`/`set` and the two read-modify-write operations `revoke_token` and
 * `mark_checked_ok`.
 *
 * Every store round trip goes over a link whose outcome the environment
 * decides (a `Link` parameter); a stored value that does not deserialize is a
 * `Malformed` slot. Serializing a status never fails, and serializing then
 * deserializing it gives it back, so a written status is stored as `Json(s)`.
 */
module Token {
  import opened Wrappers
  import opened Errors
  import opened Redis

  /** What the store holds under one key. */
  datatype Slot = Json(status: TokenStatus) | Malformed(parseError: string)

  /** The outcome of one round trip to the store. */
  datatype Link =
    | Up                               // connection obtained, command answered
    | PoolError(reason: string)        // `get_conn` failed
    | CommandError(reason: string)     // the GET or SET command failed

  type Store = map<string, Slot>

  /** The new store contents and the operation's result. */
  datatype Written = Written(result: Result<(), BoxedErr>, entries: Store)

  const CheckTokenPath: string := "auth.controller.check_token"
  /** revoke_token tags its errors with the check_token path, as the source does. */
  const RevokeTokenPath: string := "auth.controller.check_token"
  const MarkCheckedOkPath: string := "auth.controller.mark_checked_ok"
  const RevokedReason: string := "token got revoked"

  /** The `ie` closure of get_token and set_token. */
  function StoreError(path: string, cause: string, msg: string): BoxedErr {
    Wrapped(InternalError(Foreign(cause), ErrorType.Internal, false, msg, path))
  }

  /** An error a store operation tagged with `path` is allowed to return. */
  ghost predicate StoreErrorFor(e: BoxedErr, path: string) {
    e.Foreign? || (e.inner.path == path && !e.inner.temp && e.inner.errType == ErrorType.Internal)
  }

  /** get_token: what reading `token` returns. */
  function Fetch(entries: Store, token: string, path: string, link: Link): Result<Option<TokenStatus>, BoxedErr> {
    match link
    case PoolError(reason) => Err(Foreign(reason))
    case CommandError(reason) => Err(StoreError(path, reason, "failed to get token data from redis"))
    case Up =>
      if token !in entries then Ok(None)
      else match entries[token]
        case Json(s) => Ok(Some(s))
        case Malformed(why) => Err(StoreError(path, why, "failed to deserialize CachedTokenStatus"))
  }

  /** set_token: the result and the store after writing `data` under `jti`. */
  function Put(entries: Store, jti: string, data: TokenStatus, path: string, link: Link): Written {
    match link
    case PoolError(reason) => Written(Err(Foreign(reason)), entries)
    case CommandError(reason) => Written(Err(StoreError(path, reason, "failed to set CachedTokenStatus in redis")), entries)
    case Up => Written(Ok(()), entries[jti := Json(data)])
  }

  /** check_token: classify what the store holds for `jti`. */
  function CheckTokenSpec(entries: Store, jti: string, link: Link): Result<RedisCheck, BoxedErr> {
    match Fetch(entries, jti, CheckTokenPath, link)
    case Err(e) => Err(e)
    case Ok(None) => Ok(Allowed(None))
    case Ok(Some(s)) => if s.revoked then Ok(Revoked(RevokedReason)) else Ok(Allowed(Some(s)))
  }

  /** The status revoke_token writes back, given what it read. */
  function RevokedPayload(read: Option<TokenStatus>, clock: int): TokenStatus {
    match read
    case None => TokenStatus(true, clock, "")
    case Some(s) => s.(revoked := true)
  }

  /** The status mark_checked_ok writes back, given what it read. */
  function CheckedPayload(read: Option<TokenStatus>, clock: int): TokenStatus {
    match read
    case None => TokenStatus(false, clock, "")
    case Some(s) => s.(revoked := false, lastChecked := clock)
  }

  /** revoke_token: read, set `revoked`, write back. */
  function RevokeSpec(entries: Store, jti: string, clock: int, readLink: Link, writeLink: Link): Written {
    match Fetch(entries, jti, RevokeTokenPath, readLink)
    case Err(e) => Written(Err(e), entries)
    case Ok(read) => Put(entries, jti, RevokedPayload(read, clock), RevokeTokenPath, writeLink)
  }

  /** mark_checked_ok: read, clear `revoked`, stamp `last_checked`, write back. */
  function MarkSpec(entries: Store, jti: string, clock: int, readLink: Link, writeLink: Link): Written {
    match Fetch(entries, jti, MarkCheckedOkPath, readLink)
    case Err(e) => Written(Err(e), entries)
    case Ok(read) => Put(entries, jti, CheckedPayload(read, clock), MarkCheckedOkPath, writeLink)
  }

  /** `b` equals `a` on every key other than `jti`. */
  ghost predicate SameExcept(a: Store, b: Store, jti: string) {
    forall k :: k != jti ==> (k in a <==> k in b) && (k in a ==> a[k] == b[k])
  }

  /**
   * check_token classifies exactly: a missing entry is allowed with no status,
   * a stored revoked status is reported revoked with the fixed reason, any
   * other stored status is allowed and carried as stored; a failed read is
   * passed on unchanged.
   */
  lemma CheckTokenClassifies(entries: Store, jti: string, link: Link)
    ensures link.Up? && jti !in entries ==> CheckTokenSpec(entries, jti, link) == Ok(Allowed(None))
    ensures link.Up? && jti in entries && entries[jti].Json? && entries[jti].status.revoked
            ==> CheckTokenSpec(entries, jti, link) == Ok(Revoked(RevokedReason))
    ensures link.Up? && jti in entries && entries[jti].Json? && !entries[jti].status.revoked
            ==> CheckTokenSpec(entries, jti, link) == Ok(Allowed(Some(entries[jti].status)))
    ensures CheckTokenSpec(entries, jti, link).Err?
            <==> Fetch(entries, jti, CheckTokenPath, link).Err?
    ensures CheckTokenSpec(entries, jti, link).Err?
            ==> CheckTokenSpec(entries, jti, link).error == Fetch(entries, jti, CheckTokenPath, link).error
  {
  }

  /** A revocation is reported iff the store holds a readable revoked status. */
  lemma RevokedOnlyWhenStored(entries: Store, jti: string, link: Link)
    ensures CheckTokenSpec(entries, jti, link).Ok? && CheckTokenSpec(entries, jti, link).value.Revoked?
            <==> link.Up? && jti in entries && entries[jti].Json? && entries[jti].status.revoked
  {
  }

  /** Every error the store returns carries its operation's path, `temp = false` and the Internal tag. */
  lemma StoreErrorsTagged(entries: Store, jti: string, data: TokenStatus, path: string, link: Link)
    ensures Fetch(entries, jti, path, link).Err? ==> StoreErrorFor(Fetch(entries, jti, path, link).error, path)
    ensures Put(entries, jti, data, path, link).result.Err?
            ==> StoreErrorFor(Put(entries, jti, data, path, link).result.error, path)
    ensures Fetch(entries, jti, path, link).Err? <==> !link.Up? || (jti in entries && entries[jti].Malformed?)
    ensures Put(entries, jti, data, path, link).result.Err? <==> !link.Up?
  {
  }

  /**
   * Round trip: after a successful set, a get of the same key returns what was
   * set; a set touches no other key; a failed set leaves the store as it was.
   */
  lemma SetThenGet(entries: Store, jti: string, data: TokenStatus, path: string, path': string)
    ensures Put(entries, jti, data, path, Up).result == Ok(())
    ensures Fetch(Put(entries, jti, data, path, Up).entries, jti, path', Up) == Ok(Some(data))
    ensures SameExcept(entries, Put(entries, jti, data, path, Up).entries, jti)
  {
  }

  lemma SetFailureWritesNothing(entries: Store, jti: string, data: TokenStatus, path: string, link: Link)
    ensures Put(entries, jti, data, path, link).result.Err? ==> Put(entries, jti, data, path, link).entries == entries
  {
  }

  /**
   * revoke_token: on success the entry is revoked, keeping `last_checked` and
   * `dev_id` of an existing entry, or created as `{true, clock, ""}`; a
   * failure (of the first read or of the write) writes nothing, and a failed
   * first read is the error returned; no other key changes.
   */
  lemma RevokeEffect(entries: Store, jti: string, clock: int, readLink: Link, writeLink: Link)
    ensures var w := RevokeSpec(entries, jti, clock, readLink, writeLink);
            && (w.result.Err? ==> w.entries == entries)
            && (Fetch(entries, jti, RevokeTokenPath, readLink).Err?
                ==> w.result == Err(Fetch(entries, jti, RevokeTokenPath, readLink).error))
            && (w.result.Ok? ==> jti in w.entries && w.entries[jti].Json? && w.entries[jti].status.revoked)
            && (w.result.Ok? && jti in entries && entries[jti].Json?
                ==> w.entries[jti].status == entries[jti].status.(revoked := true))
            && (w.result.Ok? && jti !in entries ==> w.entries[jti].status == TokenStatus(true, clock, ""))
            && SameExcept(entries, w.entries, jti)
  {
  }

  /**
   * mark_checked_ok: on success the entry is `revoked = false` with
   * `last_checked = clock`, keeping an existing `dev_id`, or created as
   * `{false, clock, ""}`; a failure writes nothing; no other key changes.
   */
  lemma MarkEffect(entries: Store, jti: string, clock: int, readLink: Link, writeLink: Link)
    ensures var w := MarkSpec(entries, jti, clock, readLink, writeLink);
            && (w.result.Err? ==> w.entries == entries)
            && (Fetch(entries, jti, MarkCheckedOkPath, readLink).Err?
                ==> w.result == Err(Fetch(entries, jti, MarkCheckedOkPath, readLink).error))
            && (w.result.Ok? ==>
                  jti in w.entries && w.entries[jti].Json?
                  && !w.entries[jti].status.revoked && w.entries[jti].status.lastChecked == clock)
            && (w.result.Ok? && jti in entries && entries[jti].Json?
                ==> w.entries[jti].status.devId == entries[jti].status.devId)
            && (w.result.Ok? && jti !in entries ==> w.entries[jti].status == TokenStatus(false, clock, ""))
            && SameExcept(entries, w.entries, jti)
  {
  }

  /** Marking a token checked twice at the same clock reading is the same as marking it once. */
  lemma MarkIdempotent(entries: Store, jti: string, clock: int)
    ensures var once := MarkSpec(entries, jti, clock, Up, Up);
            MarkSpec(once.entries, jti, clock, Up, Up) == once
  {
  }

  /** One cache write of the router's stale path, with the clock reading it uses. */
  datatype Op = MarkOp(clock: int) | RevokeOp(clock: int)

  function ApplyOp(entries: Store, jti: string, op: Op): Store {
    match op
    case MarkOp(c) => MarkSpec(entries, jti, c, Up, Up).entries
    case RevokeOp(c) => RevokeSpec(entries, jti, c, Up, Up).entries
  }

  /** The store after running `ops` in order on the key `jti`, every round trip succeeding. */
  function Run(entries: Store, jti: string, ops: seq<Op>): Store
    decreases |ops|
  {
    if ops == [] then entries
    else ApplyOp(Run(entries, jti, ops[..|ops| - 1]), jti, ops[|ops| - 1])
  }

  /** The `last_checked` readable under `jti`, if any. */
  function Stamp(entries: Store, jti: string): Option<int> {
    if jti in entries && entries[jti].Json? then Some(entries[jti].status.lastChecked) else None
  }

  ghost predicate StampAtMost(st: Option<int>, clock: int) {
    st.None? || st.value <= clock
  }

  ghost predicate StampLe(a: Option<int>, b: Option<int>) {
    a.None? || (b.Some? && a.value <= b.value)
  }

  ghost predicate ClocksNonDecreasing(ops: seq<Op>) {
    forall i, j :: 0 <= i <= j < |ops| ==> ops[i].clock <= ops[j].clock
  }

  lemma RunPrefix(entries: Store, jti: string, ops: seq<Op>, i: nat)
    requires i < |ops|
    ensures Run(entries, jti, ops[..i + 1]) == ApplyOp(Run(entries, jti, ops[..i]), jti, ops[i])
  {
    assert ops[..i + 1][..i] == ops[..i];
  }

  /** One operation never lowers the stamp, and leaves it at most its own clock. */
  lemma OpStampStep(entries: Store, jti: string, op: Op)
    requires StampAtMost(Stamp(entries, jti), op.clock)
    ensures StampLe(Stamp(entries, jti), Stamp(ApplyOp(entries, jti, op), jti))
    ensures StampAtMost(Stamp(ApplyOp(entries, jti, op), jti), op.clock)
  {
  }

  lemma {:induction false} StampBounded(entries: Store, jti: string, ops: seq<Op>, i: nat)
    requires ClocksNonDecreasing(ops)
    requires |ops| > 0 ==> StampAtMost(Stamp(entries, jti), ops[0].clock)
    requires i < |ops|
    ensures StampAtMost(Stamp(Run(entries, jti, ops[..i]), jti), ops[i].clock)
  {
    if i == 0 {
      assert ops[..0] == [];
    } else {
      StampBounded(entries, jti, ops, i - 1);
      RunPrefix(entries, jti, ops, i - 1);
      OpStampStep(Run(entries, jti, ops[..i - 1]), jti, ops[i - 1]);
    }
  }

  /**
   * With a non-decreasing clock, and a stored stamp not ahead of the first
   * clock reading, `last_checked` never decreases from one write to the next.
   */
  lemma LastCheckedNeverDecreases(entries: Store, jti: string, ops: seq<Op>, i: nat)
    requires ClocksNonDecreasing(ops)
    requires |ops| > 0 ==> StampAtMost(Stamp(entries, jti), ops[0].clock)
    requires i < |ops|
    ensures StampLe(Stamp(Run(entries, jti, ops[..i]), jti), Stamp(Run(entries, jti, ops[..i + 1]), jti))
  {
    StampBounded(entries, jti, ops, i);
    RunPrefix(entries, jti, ops, i);
    OpStampStep(Run(entries, jti, ops[..i]), jti, ops[i]);
  }

  /**
   * The read-modify-write hazard: when a revoke and a mark both read the same
   * status before either writes, the write that lands last wins; with the
   * mark's write last the revocation is lost.
   */
  lemma InterleavedRevokeAndMark(entries: Store, jti: string, c1: int, c2: int)
    requires Fetch(entries, jti, RevokeTokenPath, Up).Ok?
    ensures var read := Fetch(entries, jti, RevokeTokenPath, Up).value;
            var revoked := Put(entries, jti, RevokedPayload(read, c1), RevokeTokenPath, Up).entries;
            var marked := Put(revoked, jti, CheckedPayload(read, c2), MarkCheckedOkPath, Up).entries;
            marked[jti].Json? && !marked[jti].status.revoked
    ensures var read := Fetch(entries, jti, MarkCheckedOkPath, Up).value;
            var marked := Put(entries, jti, CheckedPayload(read, c2), MarkCheckedOkPath, Up).entries;
            var revoked := Put(marked, jti, RevokedPayload(read, c1), RevokeTokenPath, Up).entries;
            revoked[jti].Json? && revoked[jti].status.revoked
  {
  }

  /** The client the token.rs functions take: a handle on the token-status store. */
  class TokenCache {
    var entries: Store

    constructor (initial: Store)
      ensures entries == initial
    {
      entries := initial;
    }

    method GetToken(token: string, path: string, link: Link) returns (r: Result<Option<TokenStatus>, BoxedErr>)
      ensures r == Fetch(entries, token, path, link)
    {
      match link {
        case PoolError(reason) =>
          return Err(Foreign(reason));
        case CommandError(reason) =>
          return Err(StoreError(path, reason, "failed to get token data from redis"));
        case Up =>
      }
      if token !in entries {
        return Ok(None);
      }
      match entries[token] {
        case Json(s) =>
          r := Ok(Some(s));
        case Malformed(why) =>
          r := Err(StoreError(path, why, "failed to deserialize CachedTokenStatus"));
      }
    }

    method SetToken(jti: string, data: TokenStatus, path: string, link: Link) returns (r: Result<(), BoxedErr>)
      modifies this
      ensures Written(r, entries) == Put(old(entries), jti, data, path, link)
    {
      match link {
        case PoolError(reason) =>
          return Err(Foreign(reason));
        case CommandError(reason) =>
          return Err(StoreError(path, reason, "failed to set CachedTokenStatus in redis"));
        case Up =>
      }
      entries := entries[jti := Json(data)];
      r := Ok(());
    }

    method CheckToken(jti: string, link: Link) returns (r: Result<RedisCheck, BoxedErr>)
      ensures r == CheckTokenSpec(entries, jti, link)
    {
      var res := GetToken(jti, CheckTokenPath, link);
      if res.Err? {
        return Err(res.error);
      }
      match res.value {
        case Some(status) =>
          if status.revoked {
            return Ok(Revoked(RevokedReason));
          }
          r := Ok(Allowed(Some(status)));
        case None =>
          r := Ok(Allowed(None));
      }
    }

    method RevokeToken(jti: string, clock: int, readLink: Link, writeLink: Link) returns (r: Result<(), BoxedErr>)
      modifies this
      ensures Written(r, entries) == RevokeSpec(old(entries), jti, clock, readLink, writeLink)
    {
      var path := RevokeTokenPath;
      var res := GetToken(jti, path, readLink);
      if res.Err? {
        return Err(res.error);
      }
      if res.value.None? {
        var payload := TokenStatus(true, clock, "");
        r := SetToken(jti, payload, path, writeLink);
        return;
      }
      var payload := res.value.value;
      payload := payload.(revoked := true);
      r := SetToken(jti, payload, path, writeLink);
    }

    method MarkCheckedOk(jti: string, clock: int, readLink: Link, writeLink: Link) returns (r: Result<(), BoxedErr>)
      modifies this
      ensures Written(r, entries) == MarkSpec(old(entries), jti, clock, readLink, writeLink)
    {
      var path := MarkCheckedOkPath;
      var res := GetToken(jti, path, readLink);
      if res.Err? {
        return Err(res.error);
      }
      if res.value.None? {
        var payload := TokenStatus(false, clock, "");
        r := SetToken(jti, payload, path, writeLink);
        return;
      }
      var payload := res.value.value;
      payload := payload.(revoked := false);
      payload := payload.(lastChecked := clock);
      r := SetToken(jti, payload, path, writeLink);
    }
  }
}
