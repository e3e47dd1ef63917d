/** The `user` slice: the signed-in user, the session token and the
    authentication flag. */
module UserStore {
  import opened Common

  datatype User = User(id: string, email: string, name: string)

  datatype State = State(isAuthenticated: bool, token: Option<string>, user: Option<User>)

  const InitialState: State := State(false, None, None)

  /** `setUser` takes `User | null`. */
  datatype Action = SetUser(user: Option<User>) | SetToken(token: string) | Logout

  function Reduce(s: State, a: Action): (r: State)
    ensures a.SetUser? ==> r.user == a.user && r.isAuthenticated && r.token == s.token
    ensures a.SetToken? ==> r.token == Some(a.token) && r.user == s.user && r.isAuthenticated == s.isAuthenticated
    ensures a.Logout? ==> !r.isAuthenticated && r.token.None? && r.user.None?
  {
    match a
    case SetUser(u) => s.(user := u, isAuthenticated := true)
    case SetToken(t) => s.(token := Some(t))
    case Logout => State(false, None, None)
  }

  /** Logging out from any state gives the initial state. */
  lemma LogoutRestores(s: State)
    ensures Reduce(s, Logout) == InitialState
  {
  }

  /** `setUser(null)` still marks the session authenticated. */
  lemma NullUserAuthenticates(s: State)
    ensures Reduce(s, SetUser(None)).isAuthenticated
    ensures Reduce(s, SetUser(None)).user.None?
  {
  }

  /** The token never decides authentication: setting one on a signed-out
      state leaves it signed out. */
  lemma TokenDoesNotAuthenticate(t: string)
    ensures !Reduce(InitialState, SetToken(t)).isAuthenticated
  {
  }
}
