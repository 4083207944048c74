/** The login state machine (frontend/src/redux/slices/authSlice.js): a reducer
    that returns a new state per action type, and the `loginUser` thunk, which is
    only a fixed sequence of dispatches around one login request. The request's
    outcome is a parameter. */
module AuthSlice {
  import opened Common

  /** The user object the login reply carries (opaque to the reducer). */
  datatype AuthUser = AuthUser(id: string, name: string, email: string)

  datatype AuthState = AuthState(
    user: Option<AuthUser>,
    token: Option<string>,
    role: Option<string>,
    loading: bool,
    error: Option<string>)

  /** user, token and role null, not loading, no error. */
  const Initial := AuthState(None, None, None, false, None)

  /** The four action types, and any other action the reducer may be handed. */
  datatype AuthAction =
    | LoginRequest
    | LoginSuccess(user: Option<AuthUser>, token: Option<string>)
    | LoginFailure(message: string)
    | Logout
    | Other(kind: string)

  /** authReducer. */
  function Reduce(s: AuthState, a: AuthAction): (r: AuthState)
    ensures a == LoginRequest ==> r == s.(loading := true, error := None)
    ensures a.LoginSuccess? ==> r == s.(user := a.user, token := a.token, loading := false)
    ensures a.LoginFailure? ==> r == s.(error := Some(a.message), loading := false)
    ensures a == Logout ==> r == Initial
    ensures a.Other? ==> r == s
    ensures a != Logout ==> r.role == s.role
  {
    match a
    case LoginRequest => s.(loading := true, error := None)
    case LoginSuccess(user, token) => s.(user := user, token := token, loading := false)
    case LoginFailure(message) => s.(error := Some(message), loading := false)
    case Logout => Initial
    case Other(_) => s
  }

  /** The state after a sequence of dispatches: without a logout the role is untouched, and a
      sequence that ends in a logout ends in the initial state. */
  function ReduceAll(s: AuthState, actions: seq<AuthAction>): (r: AuthState)
    ensures Logout !in actions ==> r.role == s.role
    ensures actions != [] && actions[|actions| - 1] == Logout ==> r == Initial
    decreases |actions|
  {
    if actions == [] then s else ReduceAll(Reduce(s, actions[0]), actions[1..])
  }

  /** Logging out twice is logging out once, from any state. */
  lemma LogoutIdempotent(s: AuthState)
    ensures Reduce(Reduce(s, Logout), Logout) == Reduce(s, Logout)
    ensures Reduce(s, Logout) == Initial
  {
  }

  /** No action sets a role: from the initial state, the role stays null whatever is dispatched. */
  lemma {:induction false} RoleStaysNull(s: AuthState, actions: seq<AuthAction>)
    requires s.role.None?
    ensures ReduceAll(s, actions).role.None?
    decreases |actions|
  {
    if actions != [] {
      RoleStaysNull(Reduce(s, actions[0]), actions[1..]);
    }
  }

  /** What the login request came back with: a reply (ok or not, with the fields of its
      JSON body) or a thrown error (network failure, unreadable body) with its message. */
  datatype LoginOutcome =
    | Reply(ok: bool, user: Option<AuthUser>, token: Option<string>, message: Option<string>)
    | Thrown(errorMessage: string)

  /** loginUser: LOGIN_REQUEST, then exactly one of LOGIN_SUCCESS and LOGIN_FAILURE. A reply
      that is not ok throws `new Error(data.message)`, whose message is '' when the body
      has none. */
  function LoginUserDispatches(outcome: LoginOutcome): (d: seq<AuthAction>)
    ensures |d| == 2 && d[0] == LoginRequest
    ensures d[1].LoginSuccess? <==> outcome.Reply? && outcome.ok
    ensures d[1].LoginFailure? <==> !(outcome.Reply? && outcome.ok)
    ensures d[1].LoginSuccess? ==> d[1] == LoginSuccess(outcome.user, outcome.token)
    ensures outcome.Reply? && !outcome.ok ==> d[1] == LoginFailure(outcome.message.GetOr(""))
    ensures outcome.Thrown? ==> d[1] == LoginFailure(outcome.errorMessage)
  {
    match outcome
    case Reply(ok, user, token, message) =>
      if ok then [LoginRequest, LoginSuccess(user, token)]
      else [LoginRequest, LoginFailure(message.GetOr(""))]
    case Thrown(m) => [LoginRequest, LoginFailure(m)]
  }

  /** After loginUser has run, loading is over; a success stores the reply's user and token
      and leaves no error (the request cleared it); a failure records its message and keeps
      the user and token of before. The role never changes. */
  lemma LoginUserSettles(s: AuthState, outcome: LoginOutcome)
    ensures var r := ReduceAll(s, LoginUserDispatches(outcome));
            !r.loading && r.role == s.role
            && (outcome.Reply? && outcome.ok ==> r.user == outcome.user && r.token == outcome.token && r.error.None?)
            && (!(outcome.Reply? && outcome.ok) ==> r.user == s.user && r.token == s.token && r.error.Some?)
  {
    var d := LoginUserDispatches(outcome);
    var s1 := Reduce(s, d[0]);
    assert d[1..] == [d[1]];
    assert ReduceAll(s1, [d[1]]) == ReduceAll(Reduce(s1, d[1]), []);
    assert ReduceAll(s, d) == Reduce(s1, d[1]);
  }
}
