/**
 * The sign-up page (src/pages/auth/RegisterPage.tsx): the form schema and
 * the submit handler. The form library hands the handler the parsed values
 * only when the schema accepts them, so submitting is modelled as parsing
 * followed by the handler. The email-format check of the schema library is
 * the parameter `isEmail`. The registration request's settled outcome is a
 * parameter, and the navigation it triggers is a result.
 */
module RegisterPageModel {
  import opened Wrappers

  datatype RegisterForm = RegisterForm(
    name: string,
    email: string,
    password: string,
    confirmPassword: string,
    acceptTerms: bool
  )

  /** The form field an issue is reported on. */
  datatype Path = NamePath | EmailPath | PasswordPath | ConfirmPasswordPath | AcceptTermsPath

  datatype Issue = Issue(path: Path, message: string)

  const NameMessage := "Name must be at least 2 characters"
  const EmailMessage := "Please enter a valid email address"
  const PasswordMessage := "Password must be at least 6 characters"
  const TermsMessage := "You must accept the terms and conditions"
  const MismatchMessage := "Passwords don't match"

  const VerifyEmailRoute := "/auth/verify-email"

  /** The values the form starts with. */
  const DefaultValues := RegisterForm("", "", "", "", false)

  /** What the page sends to the registration endpoint. */
  datatype RegisterRequest = RegisterRequest(name: string, email: string, password: string)

  /** The form is acceptable: each field rule holds and the two passwords agree. */
  predicate Acceptable(d: RegisterForm, isEmail: string -> bool) {
    |d.name| >= 2 && isEmail(d.email) && |d.password| >= 6 && d.acceptTerms && d.password == d.confirmPassword
  }

  /** The one-issue list a failed check reports, or no issue. */
  function IssueIf(failed: bool, path: Path, message: string): (r: seq<Issue>)
    ensures Issue(path, message) in r <==> failed
    ensures forall i :: 0 <= i < |r| ==> r[i] == Issue(path, message)
  {
    if failed then [Issue(path, message)] else []
  }

  /** The issues of the name and email rules. */
  function IdentityIssues(d: RegisterForm, isEmail: string -> bool): (r: seq<Issue>)
    ensures Issue(NamePath, NameMessage) in r <==> |d.name| < 2
    ensures Issue(EmailPath, EmailMessage) in r <==> !isEmail(d.email)
    ensures forall i :: 0 <= i < |r| ==> r[i].path == NamePath || r[i].path == EmailPath
    ensures r == [] <==> |d.name| >= 2 && isEmail(d.email)
  {
    var name := IssueIf(|d.name| < 2, NamePath, NameMessage);
    var email := IssueIf(!isEmail(d.email), EmailPath, EmailMessage);
    name + email
  }

  /** The issues of the password and terms rules. */
  function CredentialIssues(d: RegisterForm): (r: seq<Issue>)
    ensures Issue(PasswordPath, PasswordMessage) in r <==> |d.password| < 6
    ensures Issue(AcceptTermsPath, TermsMessage) in r <==> !d.acceptTerms
    ensures forall i :: 0 <= i < |r| ==> r[i].path == PasswordPath || r[i].path == AcceptTermsPath
    ensures r == [] <==> |d.password| >= 6 && d.acceptTerms
  {
    var password := IssueIf(|d.password| < 6, PasswordPath, PasswordMessage);
    var terms := IssueIf(!d.acceptTerms, AcceptTermsPath, TermsMessage);
    password + terms
  }

  /** The issues of the field rules, in field order. */
  function FieldIssues(d: RegisterForm, isEmail: string -> bool): (r: seq<Issue>)
    ensures Issue(NamePath, NameMessage) in r <==> |d.name| < 2
    ensures Issue(EmailPath, EmailMessage) in r <==> !isEmail(d.email)
    ensures Issue(PasswordPath, PasswordMessage) in r <==> |d.password| < 6
    ensures Issue(AcceptTermsPath, TermsMessage) in r <==> !d.acceptTerms
    ensures forall i :: 0 <= i < |r| ==> r[i].path != ConfirmPasswordPath
    ensures r == [] <==> |d.name| >= 2 && isEmail(d.email) && |d.password| >= 6 && d.acceptTerms
  {
    var identity := IdentityIssues(d, isEmail);
    var credentials := CredentialIssues(d);
    assert Issue(NamePath, NameMessage) !in credentials;
    assert Issue(EmailPath, EmailMessage) !in credentials;
    assert Issue(PasswordPath, PasswordMessage) !in identity;
    assert Issue(AcceptTermsPath, TermsMessage) !in identity;
    identity + credentials
  }

  /**
   * `registerSchema`: the field issues, then the object-level password
   * comparison, reported on `confirmPassword`. A failed length, format or
   * terms rule does not stop the comparison from running.
   */
  function RegisterIssues(d: RegisterForm, isEmail: string -> bool): (r: seq<Issue>)
    ensures Issue(NamePath, NameMessage) in r <==> |d.name| < 2
    ensures Issue(EmailPath, EmailMessage) in r <==> !isEmail(d.email)
    ensures Issue(PasswordPath, PasswordMessage) in r <==> |d.password| < 6
    ensures Issue(AcceptTermsPath, TermsMessage) in r <==> !d.acceptTerms
    ensures Issue(ConfirmPasswordPath, MismatchMessage) in r <==> d.password != d.confirmPassword
    ensures r == [] <==> Acceptable(d, isEmail)
  {
    var fields := FieldIssues(d, isEmail);
    var mismatch := IssueIf(d.password != d.confirmPassword, ConfirmPasswordPath, MismatchMessage);
    assert Issue(ConfirmPasswordPath, MismatchMessage) !in fields;
    fields + mismatch
  }

  /** The untouched form is never accepted: its name, password and terms all fail. */
  lemma DefaultValuesRejected(isEmail: string -> bool)
    ensures Issue(NamePath, NameMessage) in RegisterIssues(DefaultValues, isEmail)
    ensures Issue(PasswordPath, PasswordMessage) in RegisterIssues(DefaultValues, isEmail)
    ensures Issue(AcceptTermsPath, TermsMessage) in RegisterIssues(DefaultValues, isEmail)
    ensures Issue(ConfirmPasswordPath, MismatchMessage) !in RegisterIssues(DefaultValues, isEmail)
  {
  }

  /**
   * Submitting the form: a request goes out only for an acceptable form and
   * carries its name, email and password and nothing else; the page moves to
   * the email-verification route only once that request has succeeded.
   */
  method Submit(d: RegisterForm, isEmail: string -> bool, outcome: Outcome<()>)
    returns (request: Option<RegisterRequest>, navigation: Option<string>)
    ensures request.Some? <==> RegisterIssues(d, isEmail) == []
    ensures request.Some? ==> request.value == RegisterRequest(d.name, d.email, d.password)
    ensures request.Some? ==> d.password == d.confirmPassword && d.acceptTerms
    ensures navigation.Some? <==> request.Some? && outcome.Resolved?
    ensures navigation.Some? ==> navigation.value == VerifyEmailRoute
  {
    request := None;
    navigation := None;
    if RegisterIssues(d, isEmail) != [] {
      return;
    }
    request := Some(RegisterRequest(d.name, d.email, d.password));
    match outcome {
      case Resolved(_) =>
        navigation := Some(VerifyEmailRoute);
      case Rejected(_) =>
    }
  }
}
