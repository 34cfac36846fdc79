/**
 * The projection of a user row into the identity data forwarded downstream
 * (src/store/pg_impl/user.rs). The SQL query is outside the model: its
 * outcome, one row or a driver error, is the input.
 */
module UserStore {
  import opened Wrappers

  /** The selected columns `user_type, roles, props, auth_service`; NULL is None. */
  datatype UserRow = UserRow(
    userType: Option<string>,
    roles: seq<string>,
    props: Option<seq<string>>,
    authService: Option<string>)

  /** `CachedUserData` */
  datatype CachedUserData = CachedUserData(isOauth: bool, roles: string, props: string)

  /** The store error `handle_db_error(err, path)` builds from a driver error. */
  datatype DBError = DBError(path: string, cause: string)

  const UserGetAuthDataPath: string := "auth.store.user_get_auth_data"

  /** Rust's `join(",")` on a list of strings. */
  function Join(xs: seq<string>): string
    decreases |xs|
  {
    if |xs| == 0 then ""
    else if |xs| == 1 then xs[0]
    else xs[0] + "," + Join(xs[1..])
  }

  /** Rust's `split(',')`: the pieces between commas; the empty string is one empty piece. */
  function Split(s: string): (pieces: seq<string>)
    ensures |pieces| > 0
    decreases |s|
  {
    if |s| == 0 then [""]
    else if s[0] == ',' then [""] + Split(s[1..])
    else
      var rest := Split(s[1..]);
      [[s[0]] + rest[0]] + rest[1..]
  }

  /** The row -> `CachedUserData` projection of user_get_auth_data. */
  function AuthData(row: UserRow): CachedUserData {
    CachedUserData(
      isOauth := |row.authService.GetOr("")| != 0,
      roles := Join(row.roles),
      props := Join(row.props.GetOr([])))
  }

  /** user_get_auth_data, given the outcome of the query (a row, or the driver's error text). */
  function UserGetAuthData(query: Result<UserRow, string>): Result<CachedUserData, DBError> {
    match query
    case Err(cause) => Err(DBError(UserGetAuthDataPath, cause))
    case Ok(row) => Ok(AuthData(row))
  }

  /**
   * The user is federated iff `auth_service` is present and non-empty (NULL
   * counts as empty); roles and props are comma-joined in order, NULL props
   * and an empty list giving "".
   */
  lemma AuthDataFields(row: UserRow)
    ensures AuthData(row).isOauth <==> row.authService.Some? && row.authService.value != ""
    ensures AuthData(row).roles == Join(row.roles)
    ensures row.props.None? ==> AuthData(row).props == ""
    ensures row.props.Some? ==> AuthData(row).props == Join(row.props.value)
    ensures row.roles == [] ==> AuthData(row).roles == ""
  {
  }

  /** The selected `user_type` column has no influence on the output. */
  lemma UserTypeIgnored(row: UserRow, userType: Option<string>)
    ensures AuthData(row.(userType := userType)) == AuthData(row)
  {
  }

  /** A query error yields no data and is tagged with the store operation's path. */
  lemma QueryErrorTagged(query: Result<UserRow, string>)
    ensures UserGetAuthData(query).Err? <==> query.Err?
    ensures UserGetAuthData(query).Err? ==> UserGetAuthData(query).error == DBError(UserGetAuthDataPath, query.error)
    ensures query.Ok? ==> UserGetAuthData(query) == Ok(AuthData(query.value))
  {
  }

  ghost predicate NoComma(xs: seq<string>) {
    forall i :: 0 <= i < |xs| ==> ',' !in xs[i]
  }

  lemma {:induction false} SplitWord(a: string)
    requires ',' !in a
    ensures Split(a) == [a]
    decreases |a|
  {
    if |a| > 0 {
      SplitWord(a[1..]);
      assert [a[0]] + a[1..] == a;
    }
  }

  lemma {:induction false} SplitAfterWord(a: string, t: string)
    requires ',' !in a
    ensures Split(a + "," + t) == [a] + Split(t)
    decreases |a|
  {
    var s := a + "," + t;
    if |a| == 0 {
      assert s == "," + t && s[1..] == t;
    } else {
      assert s[0] == a[0] && s[1..] == a[1..] + "," + t;
      SplitAfterWord(a[1..], t);
      assert [a[0]] + a[1..] == a;
    }
  }

  /**
   * Splitting the joined list on ',' gives the list back, for a non-empty list
   * whose elements contain no ','. (The empty list joins to "", which splits
   * to [""], so it is excluded.)
   */
  lemma {:induction false} SplitJoin(xs: seq<string>)
    requires |xs| > 0 && NoComma(xs)
    ensures Split(Join(xs)) == xs
    decreases |xs|
  {
    if |xs| == 1 {
      SplitWord(xs[0]);
    } else {
      SplitJoin(xs[1..]);
      SplitAfterWord(xs[0], Join(xs[1..]));
      assert [xs[0]] + xs[1..] == xs;
    }
  }
}
