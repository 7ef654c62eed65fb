/**
 * `getAuthenticatedUser`: resolve the caller of a route from the session and
 * the `users` table. The session lookup and the row lookup are external calls;
 * their outcomes are the parameters.
 */
module Auth {
  import opened Wrappers
  import opened JsValues

  /** Outcome of `supabase.auth.getUser()` (or of creating the client). */
  datatype SessionLookup =
    | SessionThrew
    | Session(hasError: bool, authUserId: Option<string>)

  /** Outcome of `from('users').select(...).eq('user_id', authUser.id).single()`. */
  datatype UserRowLookup =
    | RowThrew
    | RowResult(hasError: bool, row: Option<map<string, Value>>)

  /** The caller as the routes see it: `userData.id` and `userData.role`, cast but never checked. */
  datatype Caller = Caller(id: Value, role: Value)

  datatype AuthResult =
    | AuthError(error: string, status: int)
    | Authenticated(authUserId: string, user: Caller)

  /**
   * The guard clauses of `getAuthenticatedUser`, in order. The row lookup is
   * only consulted once the session has produced a user.
   */
  function GetAuthenticatedUser(session: SessionLookup, rowLookup: UserRowLookup): (r: AuthResult)
    // no session user, or a session error: 401 Unauthorized
    ensures session.Session? && (session.hasError || session.authUserId.None?)
            ==> r == AuthError("Unauthorized", 401)
    // a session user without a users row: 404
    ensures session.Session? && !session.hasError && session.authUserId.Some?
            && rowLookup.RowResult? && (rowLookup.hasError || rowLookup.row.None?)
            ==> r == AuthError("User not found", 404)
    // a row without an `id` or `role` key: 500
    ensures session.Session? && !session.hasError && session.authUserId.Some?
            && rowLookup.RowResult? && !rowLookup.hasError && rowLookup.row.Some?
            && !("id" in rowLookup.row.value && "role" in rowLookup.row.value)
            ==> r == AuthError("Invalid user data structure", 500)
    // success carries the row's id and role exactly as stored
    ensures r.Authenticated? <==>
              session.Session? && !session.hasError && session.authUserId.Some?
              && rowLookup.RowResult? && !rowLookup.hasError && rowLookup.row.Some?
              && "id" in rowLookup.row.value && "role" in rowLookup.row.value
    ensures r.Authenticated? ==>
              r.authUserId == session.authUserId.value
              && r.user == Caller(rowLookup.row.value["id"], rowLookup.row.value["role"])
    // anything thrown on the way is caught: 500 Internal server error
    ensures session.SessionThrew? ==> r == AuthError("Internal server error", 500)
    ensures session.Session? && !session.hasError && session.authUserId.Some? && rowLookup.RowThrew?
            ==> r == AuthError("Internal server error", 500)
    // every error is one of 401, 404, 500
    ensures r.AuthError? ==> r.status in {401, 404, 500}
  {
    match session
    case SessionThrew => AuthError("Internal server error", 500)
    case Session(hasError, authUser) =>
      if hasError || authUser.None? then AuthError("Unauthorized", 401)
      else
        match rowLookup
        case RowThrew => AuthError("Internal server error", 500)
        case RowResult(rowError, row) =>
          if rowError || row.None? then AuthError("User not found", 404)
          else if !("id" in row.value) || !("role" in row.value) then AuthError("Invalid user data structure", 500)
          else Authenticated(authUser.value, Caller(row.value["id"], row.value["role"]))
  }

  /**
   * The role is cast, not checked: a users row whose role is neither "nurse"
   * nor "doctor" still authenticates, so each route's own role test is the
   * only gate.
   */
  lemma RoleIsNotChecked(authUserId: string, id: Value, role: Value)
    ensures GetAuthenticatedUser(Session(false, Some(authUserId)),
                                 RowResult(false, Some(map["id" := id, "role" := role])))
            == Authenticated(authUserId, Caller(id, role))
  {
  }
}

/** What every route handler shares: responses, request bodies and the role tests. */
module Api {
  import opened Wrappers
  import opened JsValues
  import opened Auth

  /** A `NextResponse.json(...)`: an `{ error }` body with its status, or a data body. */
  datatype Response<T> =
    | Error(status: int, message: string)
    | Ok(status: int, data: T)

  /**
   * What a handler did: the response it sent and the database statement it
   * issued on the way (an insert or a filtered query), if it got that far.
   */
  datatype Handled<S, T> = Handled(response: Response<T>, issued: Option<S>)

  /** `await request.json()`: either it throws on a malformed body, or yields a value. */
  datatype Body = Malformed | Parsed(json: Value)

  /** Outcome of a `select` that returns rows: an error, or `data` (possibly null). */
  datatype Query<T> = QueryFailed | Rows(data: Option<seq<T>>)

  /** Outcome of an `insert(...).select().single()`: an error with its message, or the stored row. */
  datatype Insert = InsertFailed(message: string) | Inserted(row: Value)

  /** Outcome of a `.single()` lookup of a referenced row; an error counts as "not found" in every route. */
  datatype Lookup = Found | NotFound | LookupFailed

  predicate IsNurse(role: Value) { role == Str("nurse") }
  predicate IsDoctor(role: Value) { role == Str("doctor") }
  /** `role === 'nurse' || role === 'doctor'` (and `['nurse','doctor'].includes(role)`). */
  predicate IsClinician(role: Value) { IsNurse(role) || IsDoctor(role) }

  /** The response for an authentication failure: its message and status, unchanged. */
  function PassThrough<T>(auth: AuthResult): Response<T>
    requires auth.AuthError?
  {
    Error(auth.status, auth.error)
  }

  /** Fields of a parsed body, or None when destructuring it throws. */
  function Fields(body: Body): Option<Value> {
    match body
    case Malformed => None
    case Parsed(json) => if Destructurable(json) then Some(json) else None
  }
}
