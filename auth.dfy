/** The session state of the newer client (Frontend/src/context/AuthContext.tsx): the
    token read at start-up, the role checks, and what login, logout and the current-user
    fetch do to the user, the token and the browser's two token stores. The server's
    answers arrive as `Api.Outcome`s. */
module Auth {
  import opened Js
  import Api

  /** `user?.role` */
  function RoleOf(user: Option<Value>): (r: Option<Value>)
    ensures user.None? ==> r.None?
  {
    PropertyOf(user, "role")
  }

  /** `user?.role === 'admin'` */
  predicate IsAdmin(user: Option<Value>) {
    RoleOf(user) == StrV("admin")
  }

  /** `user?.role === 'cashier'` */
  predicate IsCashier(user: Option<Value>) {
    RoleOf(user) == StrV("cashier")
  }

  /** No user is both, and without a user neither holds. */
  lemma RolesExclusive(user: Option<Value>)
    ensures !(IsAdmin(user) && IsCashier(user))
    ensures user.None? ==> !IsAdmin(user) && !IsCashier(user)
  {
  }

  /** `normalizeToken(data?.token ?? null)`: a falsy value is no token, anything else
      goes through `String(...)` first. */
  function ReceivedToken(data: Option<Value>): (r: Option<string>)
    ensures !Truthy(PropertyOf(data, "token")) ==> r.None?
    ensures PropertyOf(data, "token") == StrV("") ==> r.None?
    ensures forall t :: PropertyOf(data, "token") == StrV(t) ==> r == Api.NormalizeToken(Some(t))
  {
    var raw := PropertyOf(data, "token");
    if Truthy(raw) then Api.NormalizeToken(Some(ToStr(raw))) else None
  }

  /** The user a login response names: its truthy `user`, else the response itself when
      truthy, else `null`. */
  function LoggedInUser(data: Option<Value>): (r: Option<Value>)
    ensures Truthy(PropertyOf(data, "user")) ==> r == PropertyOf(data, "user")
    ensures !Truthy(PropertyOf(data, "user")) && Truthy(data) ==> r == data
    ensures !Truthy(PropertyOf(data, "user")) && !Truthy(data) ==> r.None?
  {
    if Truthy(PropertyOf(data, "user")) then PropertyOf(data, "user")
    else if Truthy(data) then data
    else None
  }

  const LoginFailed := "Login failed"
  const SessionExpired := "Your session has expired. Sign in to continue."

  /** The provider's state. `remembered` and `sessionOnly` are the raw texts under the
      key "token" in localStorage and sessionStorage. */
  class AuthState {
    var user: Option<Value>
    var token: Option<string>
    var loading: bool
    var error: Option<string>
    var remembered: Option<string>
    var sessionOnly: Option<string>

    /** The token starts as the remembered one when it normalises to something,
        otherwise the session one. */
    constructor (remembered: Option<string>, sessionOnly: Option<string>)
      ensures token == Api.StoredToken(remembered, sessionOnly)
      ensures this.remembered == remembered && this.sessionOnly == sessionOnly
      ensures user.None? && !loading && error.None?
    {
      this.remembered := remembered;
      this.sessionOnly := sessionOnly;
      token := Api.StoredToken(remembered, sessionOnly);
      user := None;
      loading := false;
      error := None;
    }

    /** `login(credentials, rememberMe)` given the server's outcome; `ok` is false when
        the error is rethrown to the caller. */
    method Login(outcome: Api.Outcome, rememberMe: bool) returns (ok: bool)
      modifies this
      ensures !loading
      ensures !outcome.Data? ==> !ok && error == Some(LoginFailed)
      ensures !outcome.Data? ==> user == old(user) && token == old(token)
      ensures !outcome.Data? ==> remembered == old(remembered) && sessionOnly == old(sessionOnly)
      ensures outcome.Data? ==> ok && error.None? && user == LoggedInUser(outcome.value)
      ensures outcome.Data? ==> token == ReceivedToken(outcome.value)
      // A received token goes to exactly one store; without one both are cleared.
      ensures outcome.Data? && token.Some? && rememberMe ==> remembered == token && sessionOnly.None?
      ensures outcome.Data? && token.Some? && !rememberMe ==> sessionOnly == token && remembered.None?
      ensures outcome.Data? && token.None? ==> remembered.None? && sessionOnly.None?
    {
      loading := true;
      if !outcome.Data? {
        error := Some(LoginFailed);
        loading := false;
        return false;
      }
      var data := outcome.value;
      var received := ReceivedToken(data);
      if received.Some? {
        token := received;
        if rememberMe {
          remembered := received;
          sessionOnly := None;
        } else {
          sessionOnly := received;
          remembered := None;
        }
      } else {
        remembered := None;
        sessionOnly := None;
        token := None;
      }
      user := LoggedInUser(data);
      error := None;
      loading := false;
      return true;
    }

    /** `logout()`: the server call's failure is swallowed, so the session is always
        cleared. */
    method Logout()
      modifies this
      ensures user.None? && token.None? && remembered.None? && sessionOnly.None?
      ensures error.None? && !loading
    {
      loading := true;
      user := None;
      token := None;
      remembered := None;
      sessionOnly := None;
      error := None;
      loading := false;
    }

    /** `fetchCurrentUser()` given the outcome of `GET /auth/me`. */
    method FetchCurrentUser(outcome: Api.Outcome)
      modifies this`user, this`error, this`loading
      ensures !loading
      ensures outcome.Data? ==> user == (if Truthy(outcome.value) then outcome.value else None) && error.None?
      ensures !outcome.Data? ==> user.None? && error == Some(SessionExpired)
    {
      loading := true;
      if outcome.Data? {
        user := if Truthy(outcome.value) then outcome.value else None;
        error := None;
      } else {
        user := None;
        error := Some(SessionExpired);
      }
      loading := false;
    }
  }

  /** After a login that stored a plain token, a reload starts from that same token,
      whichever store it went to. */
  lemma ReloadAfterLogin(t: string, rememberMe: bool)
    requires Api.Plain(t)
    ensures rememberMe ==> Api.StoredToken(Some(t), None) == Some(t)
    ensures !rememberMe ==> Api.StoredToken(None, Some(t)) == Some(t)
  {
    Api.PlainTokenUnchanged(t);
  }

  /** A remembered token wins over a session one at start-up. */
  lemma RememberedTokenWins(remembered: string, sessionOnly: string)
    requires Api.Plain(remembered)
    ensures Api.StoredToken(Some(remembered), Some(sessionOnly)) == Some(remembered)
  {
    Api.PlainTokenUnchanged(remembered);
  }
}
