/** The sign-in, sign-up and artist-application modals of the profile screen
    (`src/screens/ProfilePage.tsx`). The awaited `login` / `register` outcome is a
    parameter; a successful call closes its modal and clears its form. */
module ProfilePage {
  import opened Wrappers
  import opened Forms

  datatype RegisterForm = RegisterForm(name: string, email: string, password: string)

  datatype ArtistApplication = ArtistApplication(name: string, email: string, password: string,
                                                 artStyle: string, bio: string, portfolio: string)

  const EmptyRegisterForm := RegisterForm("", "", "")
  const EmptyApplication := ArtistApplication("", "", "", "", "", "")

  predicate RegisterComplete(f: RegisterForm) {
    f.name != "" && f.email != "" && f.password != ""
  }

  /** Every field but the portfolio link is required. */
  predicate ApplicationComplete(a: ArtistApplication) {
    a.name != "" && a.email != "" && a.password != "" && a.artStyle != "" && a.bio != ""
  }

  lemma PortfolioOptional(a: ArtistApplication)
    ensures ApplicationComplete(a) <==> ApplicationComplete(a.(portfolio := ""))
    ensures !ApplicationComplete(a.(artStyle := ""))
  {
  }

  class ProfileScreen {
    var loginForm: LoginForm
    var registerForm: RegisterForm
    var application: ArtistApplication
    var showLoginModal: bool
    var showRegisterModal: bool
    var showArtistRegisterModal: bool

    constructor ()
      ensures loginForm == EmptyLoginForm && registerForm == EmptyRegisterForm && application == EmptyApplication
      ensures !showLoginModal && !showRegisterModal && !showArtistRegisterModal
    {
      loginForm, registerForm, application := EmptyLoginForm, EmptyRegisterForm, EmptyApplication;
      showLoginModal, showRegisterModal, showArtistRegisterModal := false, false, false;
    }

    /** `handleLogin`: the `login` call, made only for a complete form; success closes the
        modal and clears the form, failure and errors keep both. */
    method HandleLogin(outcome: Outcome) returns (call: Option<LoginForm>)
      modifies this
      ensures call.Some? <==> LoginComplete(old(loginForm))
      ensures call.Some? ==> call.value == old(loginForm)
      ensures call.Some? && outcome == Succeeded ==> loginForm == EmptyLoginForm && !showLoginModal
      ensures call.None? || outcome != Succeeded ==> loginForm == old(loginForm) && showLoginModal == old(showLoginModal)
      ensures registerForm == old(registerForm) && application == old(application)
      ensures showRegisterModal == old(showRegisterModal) && showArtistRegisterModal == old(showArtistRegisterModal)
    {
      if loginForm.email == "" || loginForm.password == "" {
        return None;
      }
      call := Some(loginForm);
      if outcome == Succeeded {
        showLoginModal := false;
        loginForm := EmptyLoginForm;
      }
    }

    /** `handleRegister`, in the same shape. */
    method HandleRegister(outcome: Outcome) returns (call: Option<RegisterForm>)
      modifies this
      ensures call.Some? <==> RegisterComplete(old(registerForm))
      ensures call.Some? ==> call.value == old(registerForm)
      ensures call.Some? && outcome == Succeeded ==> registerForm == EmptyRegisterForm && !showRegisterModal
      ensures call.None? || outcome != Succeeded ==> registerForm == old(registerForm) && showRegisterModal == old(showRegisterModal)
      ensures loginForm == old(loginForm) && application == old(application)
      ensures showLoginModal == old(showLoginModal) && showArtistRegisterModal == old(showArtistRegisterModal)
    {
      if registerForm.name == "" || registerForm.email == "" || registerForm.password == "" {
        return None;
      }
      call := Some(registerForm);
      if outcome == Succeeded {
        showRegisterModal := false;
        registerForm := EmptyRegisterForm;
      }
    }

    /** `handleArtistRegister`: no store call; an accepted application closes the modal and
        clears all six fields, a rejected one changes nothing. */
    method HandleArtistRegister() returns (accepted: bool)
      modifies this
      ensures accepted <==> ApplicationComplete(old(application))
      ensures accepted ==> application == EmptyApplication && !showArtistRegisterModal
      ensures !accepted ==> application == old(application) && showArtistRegisterModal == old(showArtistRegisterModal)
      ensures loginForm == old(loginForm) && registerForm == old(registerForm)
      ensures showLoginModal == old(showLoginModal) && showRegisterModal == old(showRegisterModal)
    {
      var a := application;
      if a.name == "" || a.email == "" || a.password == "" || a.artStyle == "" || a.bio == "" {
        return false;
      }
      showArtistRegisterModal := false;
      application := EmptyApplication;
      accepted := true;
    }
  }
}
