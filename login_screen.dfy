/** The mobile login screen: the same two rules as the web page, the login
    request made only for a valid form, and the error shown when it fails. */
module MobileLogin {
  import opened Wrappers
  import opened Forms

  const EmailRequired := "Valid Email is required"
  const PasswordRequired := "Password must be at least 6 characters"
  const InvalidCredentials := "Invalid credentials"

  class LoginScreen {
    var email: string
    var password: string
    var loading: bool
    var errors: Errors

    constructor()
      ensures email == "" && password == "" && !loading && errors == map[]
    {
      email, password, loading, errors := "", "", false, map[];
    }

    /** `validate`. */
    method Validate() returns (ok: bool)
      modifies this
      ensures errors == CredentialErrors(email, password, EmailRequired, PasswordRequired)
      ensures ok <==> !EmailInvalid(email) && !PasswordTooShort(password)
      ensures email == old(email) && password == old(password) && loading == old(loading)
    {
      var tempErrors: Errors := map[];
      if EmailInvalid(email) {
        tempErrors := tempErrors[Email := EmailRequired];
      }
      if PasswordTooShort(password) {
        tempErrors := tempErrors[Password := PasswordRequired];
      }
      errors := tempErrors;
      ok := |tempErrors| == 0;
      assert ok <==> tempErrors == map[] by {
        if tempErrors != map[] {
          var k :| k in tempErrors;
        }
      }
    }

    /** `handleLogin`: an invalid form returns before anything but the errors
        changes. Otherwise the credentials are sent; success moves to the tabs,
        failure replaces the errors by `general` alone; loading ends false. */
    method HandleLogin(outcome: LoginOutcome) returns (sent: Option<(string, string)>, navigated: bool)
      modifies this
      ensures !(!EmailInvalid(old(email)) && !PasswordTooShort(old(password))) ==>
        && sent == None && !navigated && loading == old(loading)
        && errors == CredentialErrors(old(email), old(password), EmailRequired, PasswordRequired)
      ensures !EmailInvalid(old(email)) && !PasswordTooShort(old(password)) ==>
        && sent == Some((old(email), old(password))) && !loading
        && (navigated <==> outcome.LoggedIn?)
        && errors == (if outcome.LoggedIn? then map[] else map[General := ServerMessage(LoginError(outcome), InvalidCredentials)])
      ensures email == old(email) && password == old(password)
    {
      sent, navigated := None, false;
      var ok := Validate();
      if !ok {
        return;
      }
      loading := true;
      sent := Some((email, password));
      if outcome.LoggedIn? {
        navigated := true;
      } else {
        errors := map[General := ServerMessage(LoginError(outcome), InvalidCredentials)];
      }
      loading := false;
    }
  }
}
