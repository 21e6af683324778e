/**
 * The forgot-password page (src/pages/auth/ForgotPasswordPage.tsx). The
 * emails sent to the password-reset endpoint are recorded in order; each
 * request's settled outcome is a parameter.
 */
module ForgotPasswordPageModel {
  import opened Wrappers

  class ForgotPasswordPage {
    var email: string
    var emailSent: bool
    var requests: seq<string>

    /** The confirmation screen is shown only after a reset link was requested. */
    ghost predicate Valid()
      reads this
    {
      emailSent ==> |requests| > 0
    }

    constructor ()
      ensures Valid()
      ensures email == "" && !emailSent && requests == []
    {
      email := "";
      emailSent := false;
      requests := [];
    }

    /** Typing in the email field. */
    method HandleEmailChange(value: string)
      requires Valid()
      modifies this
      ensures Valid()
      ensures email == value && emailSent == old(emailSent) && requests == old(requests)
    {
      email := value;
    }

    /**
     * `handleSubmit`: requests a reset link for the typed email, unchanged;
     * success shows the confirmation screen and a failure leaves the page
     * as it was.
     */
    method HandleSubmit(outcome: Outcome<()>)
      requires Valid()
      modifies this
      ensures Valid()
      ensures requests == old(requests) + [old(email)]
      ensures outcome.Resolved? ==> emailSent
      ensures outcome.Rejected? ==> emailSent == old(emailSent)
      ensures email == old(email)
    {
      requests := requests + [email];
      if outcome.Resolved? {
        emailSent := true;
      }
    }

    /**
     * Pressing "Send Reset Link": the email input is `type="email"` and
     * `required`, so the browser fires the submit event, and `handleSubmit`
     * runs, only for a non-empty, well-formed address. The browser's
     * address check is the parameter `isEmail`.
     */
    method SubmitForm(isEmail: string -> bool, outcome: Outcome<()>)
      requires Valid()
      modifies this
      ensures Valid()
      ensures old(email) != "" && isEmail(old(email)) ==>
        requests == old(requests) + [old(email)] && (outcome.Resolved? ==> emailSent) &&
        (outcome.Rejected? ==> emailSent == old(emailSent))
      ensures !(old(email) != "" && isEmail(old(email))) ==>
        requests == old(requests) && emailSent == old(emailSent)
      ensures forall i :: |old(requests)| <= i < |requests| ==> requests[i] != "" && isEmail(requests[i])
      ensures email == old(email)
    {
      if email != "" && isEmail(email) {
        HandleSubmit(outcome);
      }
    }

    /**
     * Both buttons of the confirmation screen, "Try Different Email" and
     * "Resend Reset Link": back to the form, with the email kept and
     * nothing sent.
     */
    method BackToForm()
      requires Valid()
      modifies this
      ensures Valid()
      ensures !emailSent && email == old(email) && requests == old(requests)
    {
      emailSent := false;
    }
  }
}
