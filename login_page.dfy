/**
 * The sign-in page (src/pages/auth/LoginPage.tsx): the form schema and the
 * submit handler, modelled like the sign-up page: parsing followed by the
 * handler, the email-format check as the parameter `isEmail`, the login
 * request's settled outcome as a parameter and the navigation as a result.
 */
module LoginPageModel {
  import opened Wrappers

  /** `rememberMe` is optional: `None` when the checkbox value is absent. */
  datatype LoginForm = LoginForm(email: string, password: string, rememberMe: Option<bool>)

  datatype Path = EmailPath | PasswordPath

  datatype Issue = Issue(path: Path, message: string)

  const EmailMessage := "Please enter a valid email address"
  const PasswordMessage := "Password must be at least 6 characters"

  const DashboardRoute := "/dashboard"

  /** The values the form starts with; the checkbox starts unticked. */
  const DefaultValues := LoginForm("", "", Some(false))

  /** What the page sends to the login endpoint. */
  datatype LoginRequest = LoginRequest(email: string, password: string)

  /** `loginSchema`: the email must be well-formed and the password at least six characters. */
  function LoginIssues(d: LoginForm, isEmail: string -> bool): (r: seq<Issue>)
    ensures Issue(EmailPath, EmailMessage) in r <==> !isEmail(d.email)
    ensures Issue(PasswordPath, PasswordMessage) in r <==> |d.password| < 6
    ensures r == [] <==> isEmail(d.email) && |d.password| >= 6
    ensures |r| <= 2
  {
    (if !isEmail(d.email) then [Issue(EmailPath, EmailMessage)] else []) +
    (if |d.password| < 6 then [Issue(PasswordPath, PasswordMessage)] else [])
  }

  /** Whether the box is ticked, absent or present, never affects acceptance. */
  lemma RememberMeIrrelevant(d: LoginForm, remember: Option<bool>, isEmail: string -> bool)
    ensures LoginIssues(d.(rememberMe := remember), isEmail) == LoginIssues(d, isEmail)
  {
  }

  /** The untouched form is never accepted: its password is too short. */
  lemma DefaultValuesRejected(isEmail: string -> bool)
    ensures Issue(PasswordPath, PasswordMessage) in LoginIssues(DefaultValues, isEmail)
    ensures DefaultValues.rememberMe == Some(false)
  {
  }

  /**
   * Submitting the form: a request goes out only for an acceptable form and
   * carries its email and password, never the remember-me flag; the page
   * moves to the dashboard only once that request has succeeded.
   */
  method Submit(d: LoginForm, isEmail: string -> bool, outcome: Outcome<()>)
    returns (request: Option<LoginRequest>, navigation: Option<string>)
    ensures request.Some? <==> LoginIssues(d, isEmail) == []
    ensures request.Some? ==> request.value == LoginRequest(d.email, d.password)
    ensures navigation.Some? <==> request.Some? && outcome.Resolved?
    ensures navigation.Some? ==> navigation.value == DashboardRoute
  {
    request := None;
    navigation := None;
    if LoginIssues(d, isEmail) != [] {
      return;
    }
    request := Some(LoginRequest(d.email, d.password));
    if outcome.Resolved? {
      navigation := Some(DashboardRoute);
    }
  }
}
