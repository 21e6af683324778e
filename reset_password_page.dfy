/**
 * The set-a-new-password page (src/pages/auth/ResetPasswordPage.tsx). The
 * token comes from the link's query string and is fixed for the page's
 * life. The requests the page sends to the password-reset endpoint are
 * recorded in order; each request's settled outcome is a parameter.
 */
module ResetPasswordPageModel {
  import opened Wrappers

  datatype ResetStatus = Pending | Success | Error

  /** The inputs' `minLength`. */
  const MinPasswordLength := 8

  /** The payload of the password-reset confirmation. */
  datatype ResetRequest = ResetRequest(token: string, newPassword: string)

  datatype Field = PasswordField | ConfirmPasswordField

  class ResetPasswordPage {
    const token: Option<string>
    var password: string
    var confirmPassword: string
    var status: ResetStatus
    var requests: seq<ResetRequest>

    /**
     * A request is sent only with a token, and always with that token;
     * success is reported only after a request was sent.
     */
    ghost predicate Valid()
      reads this
    {
      (|requests| > 0 ==> TruthyString(token)) &&
      (forall i :: 0 <= i < |requests| ==> requests[i].token == token.value) &&
      (status == Success ==> |requests| > 0)
    }

    constructor (token: Option<string>)
      ensures Valid()
      ensures this.token == token && password == "" && confirmPassword == ""
      ensures status == Pending && requests == []
    {
      this.token := token;
      password := "";
      confirmPassword := "";
      status := Pending;
      requests := [];
    }

    /** The mount effect: a missing or empty token is an error at once. */
    method TokenEffect()
      requires Valid()
      modifies this
      ensures Valid()
      ensures !TruthyString(token) ==> status == Error
      ensures TruthyString(token) ==> status == old(status)
      ensures password == old(password) && confirmPassword == old(confirmPassword) && requests == old(requests)
    {
      if !TruthyString(token) {
        status := Error;
      }
    }

    /** `handleInputChange`: one of the two fields takes the typed value. */
    method HandleInputChange(field: Field, value: string)
      requires Valid()
      modifies this
      ensures Valid()
      ensures field == PasswordField ==> password == value && confirmPassword == old(confirmPassword)
      ensures field == ConfirmPasswordField ==> confirmPassword == value && password == old(password)
      ensures status == old(status) && requests == old(requests)
    {
      match field {
        case PasswordField => password := value;
        case ConfirmPasswordField => confirmPassword := value;
      }
    }

    /** The submit button is disabled while a request is pending or the two entries differ. */
    predicate SubmitDisabled(isPending: bool)
      reads this
    {
      isPending || password != confirmPassword
    }

    /**
     * `handleSubmit`: entries that differ stop it with nothing sent and
     * nothing changed; without a token it reports an error and sends
     * nothing; otherwise it sends the token with the new password and
     * reports success or, on any failure, an error.
     */
    method HandleSubmit(outcome: Outcome<()>)
      requires Valid()
      modifies this
      ensures Valid()
      ensures password != confirmPassword ==> status == old(status) && requests == old(requests)
      ensures password == confirmPassword && !TruthyString(token) ==>
        status == Error && requests == old(requests)
      ensures password == confirmPassword && TruthyString(token) ==>
        requests == old(requests) + [ResetRequest(token.value, password)] &&
        status == (if outcome.Resolved? then Success else Error)
      ensures password == old(password) && confirmPassword == old(confirmPassword)
    {
      if password != confirmPassword {
        return;
      }
      if !TruthyString(token) {
        status := Error;
        return;
      }
      requests := requests + [ResetRequest(token.value, password)];
      match outcome {
        case Resolved(_) => status := Success;
        case Rejected(_) => status := Error;
      }
    }

    /** Both inputs are `required` with `minLength={8}`: the browser's gate in front of `handleSubmit`. */
    predicate BrowserAccepts()
      reads this
    {
      |password| >= MinPasswordLength && |confirmPassword| >= MinPasswordLength
    }

    /**
     * Pressing "Reset Password": the browser fires the submit event, and
     * `handleSubmit` runs, only when both entries have at least 8
     * characters; otherwise nothing changes. Every password this sends
     * therefore has at least 8 characters.
     */
    method SubmitForm(outcome: Outcome<()>)
      requires Valid()
      modifies this
      ensures Valid()
      ensures !old(BrowserAccepts()) ==> status == old(status) && requests == old(requests)
      ensures old(BrowserAccepts()) && password == confirmPassword && TruthyString(token) ==>
        requests == old(requests) + [ResetRequest(token.value, password)] &&
        status == (if outcome.Resolved? then Success else Error)
      ensures old(BrowserAccepts()) && password == confirmPassword && !TruthyString(token) ==>
        status == Error && requests == old(requests)
      ensures password != confirmPassword ==> status == old(status) && requests == old(requests)
      ensures forall i :: |old(requests)| <= i < |requests| ==> |requests[i].newPassword| >= MinPasswordLength
      ensures password == old(password) && confirmPassword == old(confirmPassword)
    {
      if BrowserAccepts() {
        HandleSubmit(outcome);
      }
    }
  }
}
