/**
 * The static route table of src/controller/routes.rs: request path to
 * "protected" flag, looked up by exact string equality.
 */
module Routes {

  /** A route table: path -> does the route require a token. */
  type RouteTable = map<string, bool>

  const CreateSupplierPath: string := "/users.v1.UsersService/CreateSupplier"
  const LoginPath: string := "/users.v1.UsersService/Login"

  /** The `ROUTES` table of routes.rs. */
  const UsersRoutes: RouteTable := map[CreateSupplierPath := false, LoginPath := false]

  /** No route of a table requires a token. */
  ghost predicate AllPublic(table: RouteTable) {
    forall p :: p in table ==> !table[p]
  }

  /** Both listed user-service routes are public. */
  lemma UsersRoutesListed()
    ensures CreateSupplierPath in UsersRoutes && !UsersRoutes[CreateSupplierPath]
    ensures LoginPath in UsersRoutes && !UsersRoutes[LoginPath]
  {
  }

  /** Nothing in the table is protected. */
  lemma UsersRoutesAllPublic()
    ensures AllPublic(UsersRoutes)
  {
  }

  /**
   * Lookup is exact: a path is listed iff it is one of the two literal keys, so
   * a near miss such as "/user.v1.UsersService/CreateSupplier" is absent.
   */
  lemma UsersRoutesExactMatch(p: string)
    ensures p in UsersRoutes <==> p == CreateSupplierPath || p == LoginPath
    ensures "/user.v1.UsersService/CreateSupplier" !in UsersRoutes
  {
    assert "/user.v1.UsersService/CreateSupplier"[5] != CreateSupplierPath[5];
  }
}
