/**
 * The sign-up page (app/auth/signup/page.tsx) and the two sign-in pages (app/auth/signin/page.tsx,
 * which reports with `alert`, and app/services/auth/signin/page.tsx, which reports with a toast):
 * their ordered field checks, the `clearError` on mount and the display of the store's error.
 */
module AuthForms {
  import opened Wrappers
  import opened Text
  import opened Errors
  import opened AuthSlice

  const FillAllFields := "Заполните все поля"
  const PasswordsDiffer := "Пароли не совпадают"
  const PasswordTooShort := "Пароль должен содержать минимум 6 символов"

  /** The sign-up page's own minimum, on the untrimmed password. */
  const MinPasswordLength := 6

  /** How a page reports to the user. */
  datatype Channel = AlertBox | Toast
  datatype Notice = Notice(channel: Channel, text: string)

  /** What a submit does: refuse with a message, or dispatch a thunk with the typed values. */
  datatype Submission =
    | Refused(message: string)
    | Register(email: string, password: string)
    | Login(email: string, password: string)

  /** `handleRegister`'s checks: blank fields, then mismatch, then length; the first failure is reported. */
  function SignupSubmission(email: string, password: string, repeat: string): (r: Submission)
    ensures r.Refused? || r.Register?
    ensures r.Register? <==>
      !IsBlank(email) && !IsBlank(password) && !IsBlank(repeat) && password == repeat && |password| >= MinPasswordLength
    ensures r.Register? ==> r == Register(email, password)
    ensures r == Refused(FillAllFields) <==> IsBlank(email) || IsBlank(password) || IsBlank(repeat)
    ensures r == Refused(PasswordsDiffer) <==>
      !IsBlank(email) && !IsBlank(password) && !IsBlank(repeat) && password != repeat
    ensures r == Refused(PasswordTooShort) <==>
      !IsBlank(email) && !IsBlank(password) && !IsBlank(repeat) && password == repeat && |password| < MinPasswordLength
  {
    if IsBlank(email) || IsBlank(password) || IsBlank(repeat) then Refused(FillAllFields)
    else if password != repeat then Refused(PasswordsDiffer)
    else if |password| < MinPasswordLength then Refused(PasswordTooShort)
    else Register(email, password)
  }

  /** `handleLogin`'s check, the same on both sign-in pages. */
  function SigninSubmission(email: string, password: string): (r: Submission)
    ensures r.Refused? || r.Login?
    ensures r.Refused? <==> IsBlank(email) || IsBlank(password)
    ensures r.Refused? ==> r.message == FillAllFields
    ensures r.Login? ==> r == Login(email, password)
  {
    if IsBlank(email) || IsBlank(password) then Refused(FillAllFields) else Login(email, password)
  }

  /** The length check counts the surrounding blanks: a padded short password passes it. */
  lemma PaddedPasswordPasses()
    ensures SignupSubmission("a@b.ru", " abc  ", " abc  ") == Register("a@b.ru", " abc  ")
  {
    var p := " abc  ";
    assert p[1] == 'a';
    assert !AllWhitespace(p) by { assert !IsWhitespace(p[1]); }
    BlankIffAllWhitespace(p);
    assert !AllWhitespace("a@b.ru") by { assert !IsWhitespace("a@b.ru"[0]); }
    BlankIffAllWhitespace("a@b.ru");
  }

  /** A whitespace-only field is blank, so the page refuses before comparing the passwords. */
  lemma WhitespaceFieldRefused(password: string, repeat: string)
    ensures SignupSubmission("   ", password, repeat) == Refused(FillAllFields)
    ensures SigninSubmission("   ", password) == Refused(FillAllFields)
  {
    assert AllWhitespace("   ") by {
      forall i | 0 <= i < 3 ensures IsWhitespace("   "[i]) {}
    }
    BlankIffAllWhitespace("   ");
  }

  /** The `if (error)` effect: a non-empty store error is shown on the page's channel. */
  function ErrorNotice(channel: Channel, error: Option<string>): (n: Option<Notice>)
    ensures n.Some? <==> error.Some? && error.value != ""
    ensures n.Some? ==> n.value == Notice(channel, error.value)
  {
    if error.Some? && error.value != "" then Some(Notice(channel, error.value)) else None
  }

  /** A rejected thunk whose error has a message is reported on the page. */
  lemma RejectionShown(channel: Channel, login: Result<string, Thrown>, me: Result<string, Thrown>)
    requires LoginThunk(login, me).outcome.Err? && LoginThunk(login, me).outcome.error != ""
    ensures ErrorNotice(channel, Some(LoginThunk(login, me).outcome.error)).Some?
  {
  }

  /** The sign-up page: its three inputs and the store it dispatches to. */
  class SignupPage {
    var email: string
    var password: string
    var repeat: string
    const store: AuthStore

    constructor (store: AuthStore)
      ensures this.store == store
      ensures email == "" && password == "" && repeat == ""
    {
      this.store := store;
      email, password, repeat := "", "", "";
    }

    /** The mount effect: `clearError`. */
    method Mount()
      requires store.Valid()
      modifies store
      ensures store.Valid() && store.error.None?
      ensures store.user == old(store.user) && store.token == old(store.token)
      ensures store.isAuth == old(store.isAuth) && store.loading == old(store.loading)
      ensures store.storage == old(store.storage)
    {
      store.ClearError();
    }

    method SetEmail(value: string)
      modifies this
      ensures email == value && password == old(password) && repeat == old(repeat)
    {
      email := value;
    }

    method SetPassword(value: string)
      modifies this
      ensures password == value && email == old(email) && repeat == old(repeat)
    {
      password := value;
    }

    method SetRepeat(value: string)
      modifies this
      ensures repeat == value && email == old(email) && password == old(password)
    {
      repeat := value;
    }

    /** `handleRegister`, given what the three requests of the `register` thunk would answer. */
    method Submit(register: Result<(), Thrown>, login: Result<string, Thrown>, me: Result<string, Thrown>)
      returns (notice: Option<Notice>)
      requires store.Valid()
      modifies store
      ensures store.Valid()
      ensures SignupSubmission(email, password, repeat).Refused? ==>
        notice == Some(Notice(AlertBox, SignupSubmission(email, password, repeat).message)) && unchanged(store)
      ensures SignupSubmission(email, password, repeat).Register? ==>
        && notice.None?
        && store.storage == AfterRun(old(store.storage), RegisterThunk(register, login, me))
        && !store.loading
        && (store.isAuth <==> register.Ok? && login.Ok? && me.Ok?)
        && (store.isAuth ==> store.token == Some(login.value) && store.user == Some(me.value) && store.error.None?)
        && (!store.isAuth ==> store.token == old(store.token) && store.user == old(store.user))
        && (!store.isAuth ==> store.error == Some(RegisterThunk(register, login, me).outcome.error))
    {
      var s := SignupSubmission(email, password, repeat);
      if s.Refused? {
        notice := Some(Notice(AlertBox, s.message));
      } else {
        notice := None;
        store.DispatchRegister(register, login, me);
      }
    }
  }

  /** A sign-in page; `channel` tells the alert page from the toast page. */
  class SigninPage {
    var email: string
    var password: string
    const store: AuthStore
    const channel: Channel

    constructor (store: AuthStore, channel: Channel)
      ensures this.store == store && this.channel == channel
      ensures email == "" && password == ""
    {
      this.store := store;
      this.channel := channel;
      email, password := "", "";
    }

    /** The mount effect: `clearError`. */
    method Mount()
      requires store.Valid()
      modifies store
      ensures store.Valid() && store.error.None?
      ensures store.user == old(store.user) && store.token == old(store.token)
      ensures store.isAuth == old(store.isAuth) && store.loading == old(store.loading)
      ensures store.storage == old(store.storage)
    {
      store.ClearError();
    }

    method SetEmail(value: string)
      modifies this
      ensures email == value && password == old(password)
    {
      email := value;
    }

    method SetPassword(value: string)
      modifies this
      ensures password == value && email == old(email)
    {
      password := value;
    }

    /** `handleLogin`, given what the two requests of the `login` thunk would answer. */
    method Submit(login: Result<string, Thrown>, me: Result<string, Thrown>) returns (notice: Option<Notice>)
      requires store.Valid()
      modifies store
      ensures store.Valid()
      ensures SigninSubmission(email, password).Refused? ==>
        notice == Some(Notice(channel, FillAllFields)) && unchanged(store)
      ensures SigninSubmission(email, password).Login? ==>
        && notice.None?
        && store.storage == AfterRun(old(store.storage), LoginThunk(login, me))
        && !store.loading
        && (store.isAuth <==> login.Ok? && me.Ok?)
        && (store.isAuth ==> store.token == Some(login.value) && store.user == Some(me.value) && store.error.None?)
        && (!store.isAuth ==> store.token == old(store.token) && store.user == old(store.user))
        && (!store.isAuth ==> store.error == Some(LoginThunk(login, me).outcome.error))
    {
      var s := SigninSubmission(email, password);
      if s.Refused? {
        notice := Some(Notice(channel, s.message));
      } else {
        notice := None;
        store.DispatchLogin(login, me);
      }
    }
  }
}
