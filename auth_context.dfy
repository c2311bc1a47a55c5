/**
 * The legacy authentication context (src/contexts/AuthContext.tsx): `AuthProvider`'s user,
 * token and loading flag, the stored token, and the `useAuth` accessor.
 */
module AuthContext {
  import opened Wrappers
  import opened Errors
  import opened Types
  import Fitness

  const TokenKey := "token"
  const OutsideProvider := "useAuth должен использоваться внутри AuthProvider"

  /** `localStorage.getItem('token')` */
  function StoredToken(storage: map<string, string>): Option<string> {
    if TokenKey in storage then Some(storage[TokenKey]) else None
  }

  /** The value the provider puts into the context. */
  datatype ContextValue = ContextValue(user: Option<User>, token: Option<string>, loading: bool)

  class AuthProvider {
    var user: Option<User>
    var token: Option<string>
    var loading: bool
    var storage: map<string, string>   // the browser's localStorage

    /** The provider's initial state: the token is read from storage. */
    constructor (storage0: map<string, string>)
      ensures user.None? && token == StoredToken(storage0) && loading && storage == storage0
    {
      user := None;
      token := StoredToken(storage0);
      loading := true;
      storage := storage0;
    }

    function Value(): ContextValue
      reads this
    {
      ContextValue(user, token, loading)
    }

    /**
     * One run of the effect on `token`; `me` is what `getUser` would answer. With a token the
     * user is fetched, and a failure forgets the token; either way loading ends.
     */
    method TokenEffect(me: Result<User, Thrown>)
      modifies this
      ensures !loading
      ensures !Fitness.Truthy(old(token)) ==> user == old(user) && token == old(token) && storage == old(storage)
      ensures Fitness.Truthy(old(token)) && me.Ok? ==>
        user == Some(me.value) && token == old(token) && storage == old(storage)
      // a failed fetch clears the token but leaves any user loaded before
      ensures Fitness.Truthy(old(token)) && me.Err? ==>
        user == old(user) && token.None? && storage == old(storage) - {TokenKey}
    {
      if Fitness.Truthy(token) {
        match me
        case Ok(u) =>
          user := Some(u);
        case Err(_) =>
          storage := storage - {TokenKey};
          token := None;
      }
      loading := false;
    }

    /** `login(data)`, given what the login request would answer; a failure is rethrown. */
    method Login(reply: Result<string, Thrown>) returns (thrown: Option<Thrown>)
      modifies this
      ensures thrown.Some? <==> reply.Err?
      ensures reply.Err? ==> thrown == Some(reply.error) && unchanged(this)
      ensures reply.Ok? ==> token == Some(reply.value) && storage == old(storage)[TokenKey := reply.value]
      ensures user == old(user) && loading == old(loading)
    {
      match reply
      case Err(e) =>
        thrown := Some(e);
      case Ok(t) =>
        storage := storage[TokenKey := t];
        token := Some(t);
        thrown := None;
    }

    /** `register(data)`: registration, then `login` only if it succeeded. */
    method Register(register: Result<(), Thrown>, login: Result<string, Thrown>) returns (thrown: Option<Thrown>)
      modifies this
      ensures register.Err? ==> thrown == Some(register.error) && unchanged(this)
      ensures register.Ok? ==> thrown == (if login.Err? then Some(login.error) else None)
      ensures register.Ok? && login.Ok? ==>
        token == Some(login.value) && storage == old(storage)[TokenKey := login.value]
      ensures register.Ok? && login.Err? ==> unchanged(this)
      ensures user == old(user) && loading == old(loading)
    {
      match register
      case Err(e) =>
        thrown := Some(e);
      case Ok(_) =>
        thrown := Login(login);
    }

    /** `logout`: forgets the token and the user; `loading` is left alone. */
    method Logout()
      modifies this
      ensures token.None? && user.None? && loading == old(loading)
      ensures storage == old(storage) - {TokenKey}
    {
      storage := storage - {TokenKey};
      token := None;
      user := None;
    }
  }

  /** The JavaScript error raised by calling the identifier `useContext`, which is never imported. */
  const MissingImport := PlainError("useContext is not defined")

  /** `useAuth` as written: evaluating `useContext` throws before the provider is consulted. */
  function UseAuthAsWritten(context: Option<ContextValue>): (r: Result<ContextValue, Thrown>)
    ensures r == Err(MissingImport)
  {
    Err(MissingImport)
  }

  /** `useAuth` with `useContext` imported: it fails only outside a provider. */
  function UseAuth(context: Option<ContextValue>): (r: Result<ContextValue, Thrown>)
    ensures r.Ok? <==> context.Some?
    ensures r.Ok? ==> r.value == context.value
    ensures r.Err? ==> r.error == PlainError(OutsideProvider)
  {
    match context
    case None => Err(PlainError(OutsideProvider))
    case Some(v) => Ok(v)
  }

  /** Inside a provider the written accessor still fails, where the intended one returns the value. */
  lemma UseAuthFailsInsideProvider(v: ContextValue)
    ensures UseAuthAsWritten(Some(v)).Err?
    ensures UseAuth(Some(v)) == Ok(v)
    ensures GetErrorMessage(UseAuthAsWritten(Some(v)).error) == "useContext is not defined"
  {
  }
}
