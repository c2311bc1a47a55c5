/**
 * The `useAuth` hook (hooks/useAuth.ts): one `AuthState` record replaced by `setState`, the
 * stored token, and the page the router was sent to.
 */
module UseAuthHook {
  import opened Wrappers
  import opened Errors
  import opened Types
  import Fitness

  const TokenKey := "token"
  const SessionExpired := "Сессия истекла"

  datatype AuthState = AuthState(user: Option<User>, isLoading: bool, error: Option<string>, isAuthenticated: bool)

  /** The state the hook starts in: loading, nobody signed in. */
  const Initial := AuthState(None, true, None, false)

  /** `localStorage.getItem('token')` */
  function StoredToken(storage: map<string, string>): Option<string> {
    if TokenKey in storage then Some(storage[TokenKey]) else None
  }

  /** The state after the mount effect `loadUser`, given the stored token and the `/users/me` answer. */
  function Loaded(s: AuthState, token: Option<string>, me: Result<User, Thrown>): (r: AuthState)
    ensures !r.isLoading
    ensures r.isAuthenticated <==> Fitness.Truthy(token) && me.Ok?
    // without a token nothing is fetched and the user and error stay as they were
    ensures !Fitness.Truthy(token) ==> r.user == s.user && r.error == s.error
    ensures r.isAuthenticated ==> r.user == Some(me.value) && r.error.None?
    // a failed fetch always leaves a non-empty error and no user
    ensures Fitness.Truthy(token) && me.Err? ==> r.user.None? && r.error.Some? && r.error.value != ""
    ensures Fitness.Truthy(token) && me.Err? && GetErrorMessage(me.error) != "" ==>
      r.error == Some(GetErrorMessage(me.error))
    // an error without a message reads as an expired session
    ensures Fitness.Truthy(token) && me.Err? && GetErrorMessage(me.error) == "" ==>
      r.error == Some(SessionExpired)
  {
    if !Fitness.Truthy(token) then s.(isLoading := false, isAuthenticated := false)
    else
      match me
      case Ok(user) => AuthState(Some(user), false, None, true)
      case Err(e) =>
        var message := GetErrorMessage(e);
        AuthState(None, false, Some(if message != "" then message else SessionExpired), false)
  }

  /** Both requests of a login answered. */
  predicate Succeeded(login: Result<string, Thrown>, me: Result<User, Thrown>) {
    login.Ok? && me.Ok?
  }

  /** The state after `login`, given what `/auth/login` (the token) and `/users/me` answer. */
  function LoggedIn(s: AuthState, login: Result<string, Thrown>, me: Result<User, Thrown>): (r: AuthState)
    ensures !r.isLoading
    ensures Succeeded(login, me) ==> r == AuthState(Some(me.value), false, None, true)
    // a failure keeps the user and the authentication flag, and reports the message as it is
    ensures !Succeeded(login, me) ==>
      && r.user == s.user && r.isAuthenticated == s.isAuthenticated
      && r.error == Some(GetErrorMessage(if login.Err? then login.error else me.error))
  {
    match login
    case Err(e) => s.(isLoading := false, error := Some(GetErrorMessage(e)))
    case Ok(_) =>
      match me
      case Err(e) => s.(isLoading := false, error := Some(GetErrorMessage(e)))
      case Ok(user) => AuthState(Some(user), false, None, true)
  }

  /** The state after `register`: a failed registration reports its message, else it is `login`. */
  function Registered(s: AuthState, register: Result<(), Thrown>, login: Result<string, Thrown>, me: Result<User, Thrown>): (r: AuthState)
    ensures register.Err? ==>
      r == s.(isLoading := false, error := Some(GetErrorMessage(register.error)))
  {
    if register.Err? then s.(isLoading := false, error := Some(GetErrorMessage(register.error)))
    else LoggedIn(s, login, me)
  }

  /** After a successful registration, `register` ends exactly as `login` would. */
  lemma RegisterIsLogin(s: AuthState, login: Result<string, Thrown>, me: Result<User, Thrown>)
    ensures Registered(s, Ok(()), login, me) == LoggedIn(s, login, me)
    ensures Registered(s, Ok(()), login, me).isAuthenticated <==> Succeeded(login, me) || s.isAuthenticated
  {
  }

  /** A failed login while signed in does not sign the user out. */
  lemma FailedLoginKeepsSession(s: AuthState, e: Thrown, me: Result<User, Thrown>)
    requires s.isAuthenticated
    ensures LoggedIn(s, Err(e), me).isAuthenticated
    ensures LoggedIn(s, Err(e), me).user == s.user
  {
  }

  /**
   * Unlike `loadUser`, `login` has no fallback text: an error without a message leaves an
   * empty error string, which the mount effect would have replaced by "Сессия истекла".
   */
  lemma LoginErrorMayBeEmpty(s: AuthState)
    ensures LoggedIn(s, Err(PlainError("")), Err(PlainError(""))).error == Some("")
    ensures Loaded(s, Some("t"), Err(PlainError(""))).error == Some(SessionExpired)
  {
  }

  /** The state after `logout`. */
  const LoggedOut := AuthState(None, false, None, false)

  class AuthHook {
    var state: AuthState
    var storage: map<string, string>   // the browser's localStorage
    var location: Option<string>       // the last `router.push` target

    constructor (storage0: map<string, string>)
      ensures state == Initial && storage == storage0 && location.None?
    {
      state := Initial;
      storage := storage0;
      location := None;
    }

    /** The mount effect `loadUser`; `me` is what `/users/me` would answer. */
    method LoadUser(me: Result<User, Thrown>)
      modifies this
      ensures state == Loaded(old(state), StoredToken(old(storage)), me)
      // a failed fetch removes the stored token
      ensures storage == if Fitness.Truthy(StoredToken(old(storage))) && me.Err?
        then old(storage) - {TokenKey} else old(storage)
      ensures location == old(location)
    {
      var token := StoredToken(storage);
      if !Fitness.Truthy(token) {
        state := state.(isLoading := false, isAuthenticated := false);
        return;
      }
      match me
      case Ok(user) =>
        state := AuthState(Some(user), false, None, true);
      case Err(e) =>
        storage := storage - {TokenKey};
        var message := GetErrorMessage(e);
        state := AuthState(None, false, Some(if message != "" then message else SessionExpired), false);
    }

    /** `login(email, password)`, given what the two requests would answer. */
    method Login(email: string, password: string, login: Result<string, Thrown>, me: Result<User, Thrown>)
      returns (ok: bool)
      modifies this
      ensures ok == Succeeded(login, me)
      ensures state == LoggedIn(old(state), login, me)
      // the token is stored as soon as it arrives, even if fetching the user then fails
      ensures storage == if login.Ok? then old(storage)[TokenKey := login.value] else old(storage)
      ensures location == if ok then Some("/profile") else old(location)
    {
      state := state.(isLoading := true, error := None);
      match login
      case Err(e) =>
        state := state.(isLoading := false, error := Some(GetErrorMessage(e)));
        return false;
      case Ok(token) =>
        storage := storage[TokenKey := token];
        match me
        case Err(e) =>
          state := state.(isLoading := false, error := Some(GetErrorMessage(e)));
          return false;
        case Ok(user) =>
          state := AuthState(Some(user), false, None, true);
          location := Some("/profile");
          return true;
    }

    /** `register(email, password)`: registration, then `login` only if it succeeded. */
    method Register(email: string, password: string, register: Result<(), Thrown>, login: Result<string, Thrown>, me: Result<User, Thrown>)
      returns (ok: bool)
      modifies this
      ensures ok == (register.Ok? && Succeeded(login, me))
      ensures state == Registered(old(state), register, login, me)
      ensures register.Err? ==> storage == old(storage) && location == old(location)
      ensures register.Ok? ==>
        storage == (if login.Ok? then old(storage)[TokenKey := login.value] else old(storage))
      // the profile page only once both registration and login have succeeded
      ensures location == if ok then Some("/profile") else old(location)
    {
      state := state.(isLoading := true, error := None);
      match register
      case Err(e) =>
        state := state.(isLoading := false, error := Some(GetErrorMessage(e)));
        return false;
      case Ok(_) =>
        ok := Login(email, password, login, me);
    }

    /** `logout`: removes the token, resets the state and goes to the home page. */
    method Logout()
      modifies this
      ensures state == LoggedOut
      ensures storage == old(storage) - {TokenKey}
      ensures location == Some("/")
    {
      storage := storage - {TokenKey};
      state := LoggedOut;
      location := Some("/");
    }
  }
}
