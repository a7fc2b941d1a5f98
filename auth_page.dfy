/** The sign-in / sign-up screen (`src/screens/AuthPage.tsx`). Each submit handler is split
    at its `await`: the first method validates and, when the form passes, raises the loading
    flag and returns the store call to make; the second receives the call's outcome and
    lowers the flag, as the `finally` block does. */
module AuthPage {
  import opened Wrappers
  import opened Forms

  datatype RegisterForm = RegisterForm(name: string, email: string, password: string, isArtist: bool)

  const EmptyRegisterForm := RegisterForm("", "", "", false)

  /** The alerts the screen can raise. */
  datatype Notice = IncompleteLogin | LoggedIn | WrongCredentials | LoginNetworkError
                  | IncompleteRegistration | PasswordTooShort | Registered | RegistrationRejected
                  | RegistrationNetworkError

  const MinPasswordLength := 6

  /** The first check a registration form fails, if any: emptiness before length. */
  function RegisterRejection(f: RegisterForm): (r: Option<Notice>)
    ensures r.None? <==> f.name != "" && f.email != "" && |f.password| >= MinPasswordLength
    ensures r.Some? ==> r.value == IncompleteRegistration || r.value == PasswordTooShort
  {
    if f.name == "" || f.email == "" || f.password == "" then Some(IncompleteRegistration)
    else if |f.password| < MinPasswordLength then Some(PasswordTooShort)
    else None
  }

  /** An empty password is reported as missing, not as too short; a short non-empty one as
      too short. */
  lemma EmptinessBeforeLength(f: RegisterForm)
    ensures f.password == "" ==> RegisterRejection(f) == Some(IncompleteRegistration)
    ensures f.name != "" && f.email != "" && 0 < |f.password| < 6 ==> RegisterRejection(f) == Some(PasswordTooShort)
    ensures RegisterRejection(RegisterForm(" ", " ", "      ", false)).None?
  {
  }

  function LoginNotice(outcome: Outcome): Notice {
    match outcome
    case Succeeded => LoggedIn
    case Failed => WrongCredentials
    case Threw => LoginNetworkError
  }

  function RegisterNotice(outcome: Outcome): Notice {
    match outcome
    case Succeeded => Registered
    case Failed => RegistrationRejected
    case Threw => RegistrationNetworkError
  }

  function WithArtistToggled(f: RegisterForm): RegisterForm {
    f.(isArtist := !f.isArtist)
  }

  /** The checkbox touches only the artist flag, and two presses restore the form. */
  lemma ArtistToggleTwice(f: RegisterForm)
    ensures WithArtistToggled(WithArtistToggled(f)) == f
    ensures WithArtistToggled(f).isArtist != f.isArtist
    ensures WithArtistToggled(f).(isArtist := f.isArtist) == f
  {
  }

  class AuthScreen {
    var loginForm: LoginForm
    var registerForm: RegisterForm
    var isLoading: bool
    /** Set once the screen has called `handleClose`, which navigates back when a
        `navigation` prop was given. */
    var closed: bool

    constructor ()
      ensures loginForm == EmptyLoginForm && registerForm == EmptyRegisterForm && !isLoading && !closed
    {
      loginForm, registerForm := EmptyLoginForm, EmptyRegisterForm;
      isLoading, closed := false, false;
    }

    /** Both submit buttons are disabled while a call is in flight. */
    predicate SubmitEnabled()
      reads this
    {
      !isLoading
    }

    /** `handleLogin` up to the `await`: the `login` call to make, or the alert raised. */
    method BeginLogin() returns (r: Result<LoginForm, Notice>)
      modifies this
      ensures r.Ok? <==> LoginComplete(old(loginForm))
      ensures r.Ok? ==> r.value == loginForm && isLoading
      ensures r.Err? ==> r.error == IncompleteLogin && isLoading == old(isLoading)
      ensures loginForm == old(loginForm) && registerForm == old(registerForm) && closed == old(closed)
    {
      if loginForm.email == "" || loginForm.password == "" {
        return Err(IncompleteLogin);
      }
      isLoading := true;
      r := Ok(loginForm);
    }

    /** `handleLogin` after the `await`: success calls `handleClose`; every path lowers the
        flag. `closed` records that call; the screen only goes back when it was opened with
        a `navigation` prop, which the model does not track. */
    method FinishLogin(outcome: Outcome) returns (notice: Notice)
      modifies this
      ensures !isLoading
      ensures notice == LoginNotice(outcome)
      ensures closed == (old(closed) || outcome == Succeeded)
      ensures loginForm == old(loginForm) && registerForm == old(registerForm)
    {
      notice := LoginNotice(outcome);
      if outcome == Succeeded {
        closed := true;
      }
      isLoading := false;
    }

    /** `handleRegister` up to the `await`: the `register` call (the whole form, the artist
        flag included) or the first failed check. */
    method BeginRegister() returns (r: Result<RegisterForm, Notice>)
      modifies this
      ensures r.Err? <==> RegisterRejection(old(registerForm)).Some?
      ensures r.Err? ==> Some(r.error) == RegisterRejection(old(registerForm)) && isLoading == old(isLoading)
      ensures r.Ok? ==> r.value == registerForm && isLoading
      ensures loginForm == old(loginForm) && registerForm == old(registerForm) && closed == old(closed)
    {
      if registerForm.name == "" || registerForm.email == "" || registerForm.password == "" {
        return Err(IncompleteRegistration);
      }
      if |registerForm.password| < MinPasswordLength {
        return Err(PasswordTooShort);
      }
      isLoading := true;
      r := Ok(registerForm);
    }

    /** `handleRegister` after the `await`: every path lowers the flag; on success the screen
        closes only once the alert is confirmed, so not here. */
    method FinishRegister(outcome: Outcome) returns (notice: Notice)
      modifies this
      ensures !isLoading && notice == RegisterNotice(outcome)
      ensures loginForm == old(loginForm) && registerForm == old(registerForm) && closed == old(closed)
    {
      notice := RegisterNotice(outcome);
      isLoading := false;
    }

    /** The whole `handleLogin`: a complete form raises the flag for the call and the flag is
        down again afterwards whatever the outcome; an incomplete form never makes the call. */
    method HandleLogin(outcome: Outcome) returns (called: bool, notice: Notice)
      modifies this
      ensures called <==> LoginComplete(old(loginForm))
      ensures called ==> !isLoading && notice == LoginNotice(outcome) && closed == (old(closed) || outcome == Succeeded)
      ensures !called ==> notice == IncompleteLogin && isLoading == old(isLoading) && closed == old(closed)
      ensures loginForm == old(loginForm) && registerForm == old(registerForm)
    {
      var r := BeginLogin();
      called := r.Ok?;
      if r.Ok? {
        notice := FinishLogin(outcome);
      } else {
        notice := r.error;
      }
    }

    /** The whole `handleRegister`, in the same shape. */
    method HandleRegister(outcome: Outcome) returns (called: bool, notice: Notice)
      modifies this
      ensures called <==> RegisterRejection(old(registerForm)).None?
      ensures called ==> !isLoading && notice == RegisterNotice(outcome)
      ensures !called ==> Some(notice) == RegisterRejection(old(registerForm)) && isLoading == old(isLoading)
      ensures loginForm == old(loginForm) && registerForm == old(registerForm) && closed == old(closed)
    {
      var r := BeginRegister();
      called := r.Ok?;
      if r.Ok? {
        notice := FinishRegister(outcome);
      } else {
        notice := r.error;
      }
    }

    /** The "I am an artist" checkbox. */
    method ToggleArtist()
      modifies this
      ensures registerForm == WithArtistToggled(old(registerForm))
      ensures loginForm == old(loginForm) && isLoading == old(isLoading) && closed == old(closed)
    {
      registerForm := registerForm.(isArtist := !registerForm.isArtist);
    }
  }
}
