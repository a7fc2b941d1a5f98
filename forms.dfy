/** What the sign-in and sign-up screens share: the login form, the outcome of an awaited
    store call, and JavaScript's truthiness test on a text field (`!field`). */
module Forms {
  /** How an awaited `login` / `register` call ended: resolved true, resolved false, or threw. */
  datatype Outcome = Succeeded | Failed | Threw

  datatype LoginForm = LoginForm(email: string, password: string)

  const EmptyLoginForm := LoginForm("", "")

  /** The login check both screens use: a field passes when it is not the empty string,
      so whitespace-only input passes. */
  predicate LoginComplete(f: LoginForm) {
    f.email != "" && f.password != ""
  }

  lemma WhitespaceLoginPasses()
    ensures LoginComplete(LoginForm(" ", " ")) && !LoginComplete(LoginForm("", "secret"))
  {
  }
}
