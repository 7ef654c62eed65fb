/** `GET /api/users`, with its optional `?role=` filter. */
module UsersRoute {
  import opened Wrappers
  import opened JsValues
  import opened Auth
  import opened Api

  /** The `role` filter the query gets: only the two staff roles are honoured. */
  function RoleFilter(param: Option<string>): (f: Option<string>)
    ensures f.Some? <==> param == Some("doctor") || param == Some("nurse")
    ensures f.Some? ==> f == param
  {
    if param.Some? && |param.value| > 0 && (param.value == "doctor" || param.value == "nurse") then param else None
  }

  /** `.eq('role', role)` over the rows of `users`. */
  function WithRole(users: seq<Value>, role: string): (r: seq<Value>)
    ensures |r| <= |users|
    ensures forall u :: u in r ==> u in users && Field(u, "role") == Str(role)
  {
    if users == [] then []
    else if Field(users[0], "role") == Str(role) then [users[0]] + WithRole(users[1..], role)
    else WithRole(users[1..], role)
  }

  /** Every row of the given role is kept: the filter drops nothing it should keep. */
  lemma {:induction false} WithRoleKeepsMatches(users: seq<Value>, role: string, u: Value)
    requires u in users && Field(u, "role") == Str(role)
    ensures u in WithRole(users, role)
  {
    if users[0] != u {
      assert u in users[1..];
      WithRoleKeepsMatches(users[1..], role, u);
    }
  }

  /**
   * `GET /api/users?role=...`: any nurse or doctor may list users. `param` is
   * the `role` search parameter (None when absent) and `table` the rows the
   * unfiltered query would see (None when the query fails).
   */
  function Get(auth: AuthResult, param: Option<string>, table: Option<seq<Value>>): (r: Response<seq<Value>>)
    ensures auth.AuthError? ==> r == Error(auth.status, auth.error)
    ensures auth.Authenticated? && !IsClinician(auth.user.role) ==> r == Error(403, "Forbidden")
    ensures auth.Authenticated? && IsClinician(auth.user.role) && table.None?
            ==> r == Error(500, "Failed to fetch users")
    ensures r.Ok? <==> auth.Authenticated? && IsClinician(auth.user.role) && table.Some?
    ensures r.Ok? ==> r.status == 200
    // `?role=doctor` lists only doctors (and `?role=nurse` only nurses)
    ensures r.Ok? && param.Some? && (param.value == "doctor" || param.value == "nurse") ==>
              forall u :: u in r.data ==> Field(u, "role") == Str(param.value)
    // any other value, or none, lists every user
    ensures r.Ok? && RoleFilter(param).None? ==> r.data == table.value
  {
    if auth.AuthError? then PassThrough(auth)
    else if !IsClinician(auth.user.role) then Error(403, "Forbidden")
    else match table
      case None => Error(500, "Failed to fetch users")
      case Some(users) =>
        match RoleFilter(param)
        case None => Ok(200, users)
        case Some(role) => Ok(200, WithRole(users, role))
  }

  /** With a staff role in the query, a listed row is exactly a row of that role. */
  lemma ListedIffRole(auth: AuthResult, role: string, users: seq<Value>, u: Value)
    requires auth.Authenticated? && IsClinician(auth.user.role)
    requires role == "doctor" || role == "nurse"
    ensures var r := Get(auth, Some(role), Some(users));
            r.Ok? && (u in r.data <==> u in users && Field(u, "role") == Str(role))
  {
    if u in users && Field(u, "role") == Str(role) {
      WithRoleKeepsMatches(users, role, u);
    }
  }
}
