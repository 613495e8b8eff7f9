/** The log-in form's check. */
module Login {
  import opened Common
  import opened Ui
  import opened Signup

  datatype LoginOutcome = MissingFields | SubmitLogin(email: string, password: string)

  /** `handleLogin`: both fields must be non-empty strings; nothing is
      trimmed, and sign-in gets them verbatim. */
  function HandleLogin(email: string, password: string): (r: LoginOutcome)
    ensures r == MissingFields <==> email == "" || password == ""
    ensures r.SubmitLogin? ==> r.email == email && r.password == password
  {
    if email == "" || password == "" then MissingFields else SubmitLogin(email, password)
  }

  /** Blank but non-empty fields pass, since there is no trimming. */
  lemma BlankFieldsPass()
    ensures HandleLogin(" ", "\t") == SubmitLogin(" ", "\t")
  {
  }

  /** The log-in check is weaker than the sign-up checks: credentials the
      sign-up form submits are always submitted by the log-in form. */
  lemma SignupCredentialsPassLogin(name: string, email: string, password: string, isVendor: bool)
    requires HandleSignup(name, email, password, isVendor).SubmitSignup?
    ensures HandleLogin(email, password) == SubmitLogin(email, password)
  {
  }

  /** The alert a rejection shows; a submission shows none. */
  function LoginAlert(r: LoginOutcome): (a: Option<AlertContent>)
    ensures a.None? <==> r.SubmitLogin?
    ensures a.Some? ==> a.value.title == "Missing Fields" && a.value.alertType == "warning"
  {
    match r
    case MissingFields =>
      Some(AlertContent("Missing Fields", "Please enter both email and password.", "warning", [AlertButton("OK", false, None, None)]))
    case SubmitLogin(_, _) => None
  }
}
