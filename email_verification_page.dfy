/**
 * The email-verification page (src/pages/auth/EmailVerificationPage.tsx).
 * The token comes from the link's query string and is fixed for the page's
 * life. The tokens sent to the verification endpoint and the number of
 * resend requests are recorded; each request's settled outcome is a
 * parameter.
 */
module EmailVerificationPageModel {
  import opened Wrappers

  datatype VerificationStatus = Pending | Success | Error

  class EmailVerificationPage {
    const token: Option<string>
    var status: VerificationStatus
    var verifications: seq<string>
    var resends: nat

    /**
     * The outcome shown is that of a verification that was sent, and every
     * verification carries the link's token.
     */
    ghost predicate Valid()
      reads this
    {
      (status != Pending ==> |verifications| > 0) &&
      (forall i :: 0 <= i < |verifications| ==> Some(verifications[i]) == token && verifications[i] != "")
    }

    constructor (token: Option<string>)
      ensures Valid()
      ensures this.token == token && status == Pending && verifications == [] && resends == 0
    {
      this.token := token;
      status := Pending;
      verifications := [];
      resends := 0;
    }

    /**
     * `handleEmailVerification`: sends `verificationToken` and shows success
     * if the request succeeds and an error if it fails.
     */
    method HandleEmailVerification(verificationToken: string, outcome: Outcome<()>)
      requires Valid() && Some(verificationToken) == token && verificationToken != ""
      modifies this
      ensures Valid()
      ensures verifications == old(verifications) + [verificationToken]
      ensures status == (if outcome.Resolved? then Success else Error)
      ensures resends == old(resends)
    {
      verifications := verifications + [verificationToken];
      match outcome {
        case Resolved(_) => status := Success;
        case Rejected(_) => status := Error;
      }
    }

    /**
     * The token effect: with a non-empty token the page verifies it;
     * without one nothing is sent and the page stays as it is.
     */
    method TokenEffect(outcome: Outcome<()>)
      requires Valid()
      modifies this
      ensures Valid()
      ensures TruthyString(token) ==>
        verifications == old(verifications) + [token.value] &&
        status == (if outcome.Resolved? then Success else Error)
      ensures !TruthyString(token) ==> status == old(status) && verifications == old(verifications)
      ensures resends == old(resends)
    {
      if TruthyString(token) {
        HandleEmailVerification(token.value, outcome);
      }
    }

    /** `handleResendVerification`: one more resend request; a failure is swallowed and the status stays. */
    method HandleResendVerification(outcome: Outcome<()>)
      requires Valid()
      modifies this
      ensures Valid()
      ensures resends == old(resends) + 1
      ensures status == old(status) && verifications == old(verifications)
    {
      resends := resends + 1;
    }
  }
}
