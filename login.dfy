/** The web login page: the validator, the login request made only for a valid
    form, the redirect chosen by the account type, and the error shown when the
    request fails. */
module Login {
  import opened Wrappers
  import opened Forms

  const EmailRequired := "Valid Email is required"
  const PasswordRequired := "Password must be at least 6 characters long"
  const SomethingWrong := "Something went wrong!"

  /** Citizens go to their reports, every other account to the dashboard. */
  function Redirect(userType: string): (path: string)
    ensures path == "/my-reports" <==> userType == "user"
    ensures path == "/admin" <==> userType != "user"
  {
    if userType == "user" then "/my-reports" else "/admin"
  }

  datatype Credentials = Credentials(email: string, password: string)

  /** What the failure branch evidently means to show: the map `validate` has
      just built, which for a form that passed is empty, with `general` added.
      No field message can outlive the rule that produced it. */
  function IntendedFailureErrors(email: string, password: string, message: string): (r: Errors)
    ensures General in r && r[General] == message
    ensures Email in r <==> EmailInvalid(email)
    ensures Password in r <==> PasswordTooShort(password)
    ensures !EmailInvalid(email) && !PasswordTooShort(password) ==> r == map[General := message]
  {
    var rebuilt := CredentialErrors(email, password, EmailRequired, PasswordRequired);
    assert !EmailInvalid(email) && !PasswordTooShort(password) ==> rebuilt == map[];
    rebuilt[General := message]
  }

  class LoginPage {
    var email: string
    var password: string
    var rememberMe: bool
    var errors: Errors

    constructor()
      ensures email == "" && password == "" && !rememberMe && errors == map[]
    {
      email, password, rememberMe, errors := "", "", false, map[];
    }

    /** `validate`: the error map is rebuilt from scratch and the result says
        whether it is empty. */
    method Validate() returns (ok: bool)
      modifies this
      ensures errors == CredentialErrors(email, password, EmailRequired, PasswordRequired)
      ensures ok <==> !EmailInvalid(email) && !PasswordTooShort(password)
      ensures email == old(email) && password == old(password) && rememberMe == old(rememberMe)
    {
      var tempErrors: Errors := map[];
      if EmailInvalid(email) {
        tempErrors := tempErrors[Email := EmailRequired];
      }
      if PasswordTooShort(password) {
        tempErrors := tempErrors[Password := PasswordRequired];
      }
      errors := tempErrors;
      ok := |tempErrors| == 0;
      assert ok <==> tempErrors == map[] by {
        if tempErrors != map[] {
          var k :| k in tempErrors;
        }
      }
    }

    /** `handleLogin`: nothing is sent unless the form is valid. On success the
        page navigates by account type. On failure `general` is added to the
        errors as they were when the handler started: the handler spreads the
        `errors` it closed over, not the map `validate` has just set. */
    method HandleLogin(outcome: LoginOutcome) returns (sent: Option<Credentials>, navigated: Option<string>)
      modifies this
      ensures !(!EmailInvalid(old(email)) && !PasswordTooShort(old(password))) ==>
        && sent == None && navigated == None
        && errors == CredentialErrors(old(email), old(password), EmailRequired, PasswordRequired)
      ensures !EmailInvalid(old(email)) && !PasswordTooShort(old(password)) ==>
        sent == Some(Credentials(old(email), old(password)))
      ensures !EmailInvalid(old(email)) && !PasswordTooShort(old(password)) && outcome.LoggedIn? ==>
        navigated == Some(Redirect(outcome.userType)) && errors == map[]
      ensures !EmailInvalid(old(email)) && !PasswordTooShort(old(password)) && !outcome.LoggedIn? ==>
        navigated == None && errors == old(errors)[General := ServerMessage(LoginError(outcome), SomethingWrong)]
      ensures email == old(email) && password == old(password) && rememberMe == old(rememberMe)
    {
      sent, navigated := None, None;
      var before := errors;
      var ok := Validate();
      if ok {
        sent := Some(Credentials(email, password));
        if outcome.LoggedIn? {
          navigated := Some(Redirect(outcome.userType));
        } else {
          errors := before[General := ServerMessage(LoginError(outcome), SomethingWrong)];
        }
      }
    }
  }

  /** A submit with the bad address "a@b" records the e-mail error; after the
      address is corrected to "a@b.c" a refused login still shows that error next
      to `general`, although the address now passes. */
  method StaleEmailErrorShown() returns (page: LoginPage)
    ensures page.email == "a@b.c" && !EmailInvalid(page.email)
    ensures Email in page.errors && page.errors[Email] == EmailRequired
    ensures General in page.errors && page.errors[General] == SomethingWrong
    ensures page.errors != IntendedFailureErrors(page.email, page.password, SomethingWrong)
  {
    EmailExamples();
    PasswordRuleCountsCodeUnits("secret");
    page := new LoginPage();
    page.email, page.password := "a@b", "secret";
    var sent, navigated := page.HandleLogin(OtherFailure);
    page.email := "a@b.c";
    sent, navigated := page.HandleLogin(OtherFailure);
  }
}
