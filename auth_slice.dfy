/**
 * The authentication slice of the Redux store (store/features/authSlice.ts): the signed-in
 * user's e-mail, the token, the last error, the loading flag and the `isAuth` flag, together
 * with the `localStorage` entry the slice reads and writes.
 */
module AuthSlice {
  import opened Wrappers
  import opened Errors

  /** The `localStorage` key the token is kept under. */
  const TokenKey := "token"

  const LoginFallback := "Ошибка входа"
  const RegisterFallback := "Ошибка регистрации"

  /** What a fulfilled `login` or `register` thunk delivers. */
  datatype Session = Session(token: string, user: string)

  /** The effect of one thunk run: the token written to storage (if any) and its outcome. */
  datatype ThunkRun = ThunkRun(stored: Option<string>, outcome: Result<Session, string>)

  /**
   * The `login` thunk, given what `authApi.login` (the token) and `usersApi.getMe` (the
   * e-mail) answer. The token is stored as soon as it is received, before the user is asked for.
   */
  function LoginThunk(login: Result<string, Thrown>, me: Result<string, Thrown>): (run: ThunkRun)
    ensures run.outcome.Ok? <==> login.Ok? && me.Ok?
    ensures run.outcome.Ok? ==> run.outcome.value == Session(login.value, me.value)
    // the token is stored exactly when the login request itself succeeded
    ensures run.stored.Some? <==> login.Ok?
    ensures run.stored.Some? ==> run.stored.value == login.value
    ensures run.outcome.Err? ==>
      run.outcome.error == MessageOr(if login.Err? then login.error else me.error, LoginFallback)
  {
    match login
    case Err(e) => ThunkRun(None, Err(MessageOr(e, LoginFallback)))
    case Ok(token) =>
      match me
      case Err(e) => ThunkRun(Some(token), Err(MessageOr(e, LoginFallback)))
      case Ok(email) => ThunkRun(Some(token), Ok(Session(token, email)))
  }

  /**
   * The `register` thunk: registration, then the same login and `getMe` steps as `login`;
   * any failure is reported with the registration fallback.
   */
  function RegisterThunk(register: Result<(), Thrown>, login: Result<string, Thrown>, me: Result<string, Thrown>): (run: ThunkRun)
    ensures register.Err? ==> run == ThunkRun(None, Err(MessageOr(register.error, RegisterFallback)))
    // after a registration, a failed login or `getMe` is reported with the registration fallback too
    ensures register.Ok? && !(login.Ok? && me.Ok?) ==>
      run.outcome == Err(MessageOr(if login.Err? then login.error else me.error, RegisterFallback))
  {
    match register
    case Err(e) => ThunkRun(None, Err(MessageOr(e, RegisterFallback)))
    case Ok(_) =>
      match login
      case Err(e) => ThunkRun(None, Err(MessageOr(e, RegisterFallback)))
      case Ok(token) =>
        match me
        case Err(e) => ThunkRun(Some(token), Err(MessageOr(e, RegisterFallback)))
        case Ok(email) => ThunkRun(Some(token), Ok(Session(token, email)))
  }

  /**
   * After a successful registration, `register` behaves as `login` does: same stored token,
   * same session, and the same failures up to the fallback text.
   */
  lemma RegisterThenLogin(login: Result<string, Thrown>, me: Result<string, Thrown>)
    ensures RegisterThunk(Ok(()), login, me).stored == LoginThunk(login, me).stored
    ensures RegisterThunk(Ok(()), login, me).outcome.Ok? <==> LoginThunk(login, me).outcome.Ok?
    ensures LoginThunk(login, me).outcome.Ok? ==>
      RegisterThunk(Ok(()), login, me).outcome == LoginThunk(login, me).outcome
    ensures LoginThunk(login, me).outcome.Err? && (login.Err? ==> IsError(login.error)) && (login.Ok? ==> IsError(me.error)) ==>
      RegisterThunk(Ok(()), login, me).outcome == LoginThunk(login, me).outcome
  {
  }

  /** The token `restoreSession` leaves in the state: a non-empty stored one, else the current one. */
  function RestoredToken(storage: map<string, string>, current: Option<string>): (t: Option<string>)
    ensures t != current ==> TokenKey in storage && t == Some(storage[TokenKey]) && storage[TokenKey] != ""
    ensures TokenKey !in storage ==> t == current
  {
    if TokenKey in storage && storage[TokenKey] != "" then Some(storage[TokenKey]) else current
  }

  /** The storage after a thunk run. */
  function AfterRun(storage: map<string, string>, run: ThunkRun): map<string, string> {
    if run.stored.Some? then storage[TokenKey := run.stored.value] else storage
  }

  /**
   * A login whose `getMe` step fails still leaves its token in storage, so the next
   * `restoreSession` brings the token back although the login was rejected.
   */
  lemma HalfLoginRestored(storage: map<string, string>, token: string, e: Thrown, current: Option<string>)
    requires token != ""
    ensures LoginThunk(Ok(token), Err(e)).outcome.Err?
    ensures RestoredToken(AfterRun(storage, LoginThunk(Ok(token), Err(e))), current) == Some(token)
  {
  }

  /** After `logout` removes the key, `restoreSession` has nothing to bring back. */
  lemma LogoutThenRestore(storage: map<string, string>)
    ensures RestoredToken(storage - {TokenKey}, None) == None
  {
  }

  class AuthStore {
    var user: Option<string>     // the signed-in user's e-mail
    var token: Option<string>
    var error: Option<string>
    var loading: bool
    var isAuth: bool
    var storage: map<string, string>   // the browser's localStorage

    /** `isAuth` is never set without a user, and a pending request has no error. */
    predicate Valid()
      reads this
    {
      (isAuth ==> user.Some?) && (loading ==> error.None?)
    }

    /** `initialState`, over the browser's current storage. */
    constructor (storage0: map<string, string>)
      ensures user.None? && token.None? && error.None? && !loading && !isAuth
      ensures storage == storage0
      ensures Valid()
    {
      user, token, error, loading, isAuth := None, None, None, false, false;
      storage := storage0;
    }

    /** `setUser`: `isAuth` follows the truthiness of the payload. */
    method SetUser(payload: Option<string>)
      requires Valid()
      modifies this
      ensures Valid()
      ensures user == payload && (isAuth <==> payload.Some? && payload.value != "")
      ensures token == old(token) && error == old(error) && loading == old(loading) && storage == old(storage)
    {
      user := payload;
      isAuth := payload.Some? && payload.value != "";
    }

    /** `setToken`. */
    method SetToken(payload: Option<string>)
      requires Valid()
      modifies this
      ensures Valid()
      ensures token == payload
      ensures user == old(user) && error == old(error) && loading == old(loading) && isAuth == old(isAuth)
      ensures storage == old(storage)
    {
      token := payload;
    }

    /** `clearError`. */
    method ClearError()
      requires Valid()
      modifies this
      ensures Valid()
      ensures error.None?
      ensures user == old(user) && token == old(token) && loading == old(loading) && isAuth == old(isAuth)
      ensures storage == old(storage)
    {
      error := None;
    }

    /** `logout`: forgets the session and removes the stored token; `loading` is left alone. */
    method Logout()
      requires Valid()
      modifies this
      ensures Valid()
      ensures user.None? && token.None? && !isAuth && error.None?
      ensures loading == old(loading)
      ensures storage == old(storage) - {TokenKey}
    {
      user, token, isAuth, error := None, None, false, None;
      storage := storage - {TokenKey};
    }

    /** `restoreSession`: takes a non-empty stored token; the user is not loaded here. */
    method RestoreSession()
      requires Valid()
      modifies this
      ensures Valid()
      ensures token == RestoredToken(storage, old(token))
      ensures user == old(user) && error == old(error) && loading == old(loading) && isAuth == old(isAuth)
      ensures storage == old(storage)
    {
      if TokenKey in storage && storage[TokenKey] != "" {
        token := Some(storage[TokenKey]);
      }
    }

    /** `login.pending` and `register.pending`. */
    method Pending()
      requires Valid()
      modifies this
      ensures Valid()
      ensures loading && error.None?
      ensures user == old(user) && token == old(token) && isAuth == old(isAuth) && storage == old(storage)
    {
      loading, error := true, None;
    }

    /** `login.fulfilled` and `register.fulfilled`. */
    method Fulfilled(s: Session)
      requires Valid()
      modifies this
      ensures Valid()
      ensures !loading && token == Some(s.token) && user == Some(s.user) && isAuth && error.None?
      ensures storage == old(storage)
    {
      loading, token, user, isAuth, error := false, Some(s.token), Some(s.user), true, None;
    }

    /** `login.rejected` and `register.rejected`: the user and token are left as they were. */
    method Rejected(message: string)
      requires Valid()
      modifies this
      ensures Valid()
      ensures !loading && error == Some(message) && !isAuth
      ensures user == old(user) && token == old(token) && storage == old(storage)
    {
      loading, error, isAuth := false, Some(message), false;
    }

    /** Applies a settled thunk run: its storage write, then its fulfilled or rejected action. */
    method Settle(run: ThunkRun)
      requires Valid() && loading
      modifies this
      ensures Valid()
      ensures storage == AfterRun(old(storage), run)
      ensures !loading
      ensures run.outcome.Ok? ==>
        token == Some(run.outcome.value.token) && user == Some(run.outcome.value.user) && isAuth && error.None?
      ensures run.outcome.Err? ==>
        error == Some(run.outcome.error) && !isAuth && token == old(token) && user == old(user)
    {
      if run.stored.Some? {
        storage := storage[TokenKey := run.stored.value];
      }
      match run.outcome
      case Ok(s) => Fulfilled(s);
      case Err(m) => Rejected(m);
    }

    /** `dispatch(login({email, password}))`, given the answers of the two requests. */
    method DispatchLogin(login: Result<string, Thrown>, me: Result<string, Thrown>)
      requires Valid()
      modifies this
      ensures Valid()
      ensures storage == AfterRun(old(storage), LoginThunk(login, me))
      ensures !loading
      ensures isAuth <==> login.Ok? && me.Ok?
      ensures isAuth ==> token == Some(login.value) && user == Some(me.value) && error.None?
      ensures !isAuth ==> token == old(token) && user == old(user)
      ensures !isAuth ==> error == Some(LoginThunk(login, me).outcome.error)
    {
      Pending();
      Settle(LoginThunk(login, me));
    }

    /** `dispatch(register({email, password}))`, given the answers of the three requests. */
    method DispatchRegister(register: Result<(), Thrown>, login: Result<string, Thrown>, me: Result<string, Thrown>)
      requires Valid()
      modifies this
      ensures Valid()
      ensures storage == AfterRun(old(storage), RegisterThunk(register, login, me))
      ensures !loading
      ensures isAuth <==> register.Ok? && login.Ok? && me.Ok?
      ensures isAuth ==> token == Some(login.value) && user == Some(me.value) && error.None?
      ensures !isAuth ==> token == old(token) && user == old(user)
      ensures !isAuth ==> error == Some(RegisterThunk(register, login, me).outcome.error)
    {
      Pending();
      Settle(RegisterThunk(register, login, me));
    }
  }
}
