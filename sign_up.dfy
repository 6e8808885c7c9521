/** The web sign-up page: the validator over the seven form fields, and the
    submit handler that posts the form only when it is valid and clears it after
    the account is created. */
module SignUp {
  import opened Wrappers
  import opened JsValues
  import opened Forms

  datatype SignUpForm = SignUpForm(
    firstName: string, lastName: string, email: string, phoneNumber: string,
    address: string, aadharNumber: string, password: string)

  const EmptyForm := SignUpForm("", "", "", "", "", "", "")

  const FirstNameRequired := "First Name is required"
  const LastNameRequired := "Last Name is required"
  const EmailRequired := "Valid Email is required"
  const PhoneRequired := "Valid 10-digit Phone Number is required"
  const AadharRequired := "Valid 12-digit Aadhar Number is required"
  const PasswordRequired := "Password must be at least 6 characters long"

  /** Every rule holds: both names given, an e-mail match, a 10-digit phone
      number, a 12-digit Aadhar number and a password of at least 6 characters.
      The address is not checked. */
  predicate IsValid(f: SignUpForm) {
    && f.firstName != "" && f.lastName != ""
    && !EmailInvalid(f.email)
    && !DigitsInvalid(f.phoneNumber, 10)
    && !DigitsInvalid(f.aadharNumber, 12)
    && !PasswordTooShort(f.password)
  }

  /** The errors `validate` records: one entry per failed rule. */
  function SignUpErrors(f: SignUpForm): (errs: Errors)
    ensures FirstName in errs <==> f.firstName == ""
    ensures LastName in errs <==> f.lastName == ""
    ensures Email in errs <==> EmailInvalid(f.email)
    ensures PhoneNumber in errs <==> DigitsInvalid(f.phoneNumber, 10)
    ensures AadharNumber in errs <==> DigitsInvalid(f.aadharNumber, 12)
    ensures Password in errs <==> PasswordTooShort(f.password)
    ensures errs.Keys <= {FirstName, LastName, Email, PhoneNumber, AadharNumber, Password}
    ensures errs == map[] <==> IsValid(f)
  {
    var e0: Errors := map[];
    var e1 := Flag(e0, f.firstName == "", FirstName, FirstNameRequired);
    var e2 := Flag(e1, f.lastName == "", LastName, LastNameRequired);
    var e3 := Flag(e2, EmailInvalid(f.email), Email, EmailRequired);
    var e4 := Flag(e3, DigitsInvalid(f.phoneNumber, 10), PhoneNumber, PhoneRequired);
    var e5 := Flag(e4, DigitsInvalid(f.aadharNumber, 12), AadharNumber, AadharRequired);
    var e6 := Flag(e5, PasswordTooShort(f.password), Password, PasswordRequired);
    assert !IsValid(f) ==> e6 != map[] by {
      if f.firstName == "" { assert FirstName in e6; }
      else if f.lastName == "" { assert LastName in e6; }
      else if EmailInvalid(f.email) { assert Email in e6; }
      else if DigitsInvalid(f.phoneNumber, 10) { assert PhoneNumber in e6; }
      else if DigitsInvalid(f.aadharNumber, 12) { assert AadharNumber in e6; }
      else if PasswordTooShort(f.password) { assert Password in e6; }
    }
    e6
  }

  /** The outcome of posting the form: a success response with its status; an
      error response, with the value of its `detail`; or no response. */
  datatype SignUpOutcome = Success(status: nat) | Rejected(detail: JsValue) | NoResponse

  const Created := "Account created successfully!"
  const SignUpFailed := "Error occurred while signing up."
  const Unexpected := "An unexpected error occurred."

  class SignUpPage {
    var form: SignUpForm
    var errors: Errors
    var message: string
    var error: JsValue

    constructor()
      ensures form == EmptyForm && errors == map[] && message == "" && error == Str("")
    {
      form, errors, message, error := EmptyForm, map[], "", Str("");
    }

    /** `validate`: the error map is rebuilt from scratch, one rule at a time,
        and the result says whether it is empty. */
    method Validate() returns (ok: bool)
      modifies this
      ensures errors == SignUpErrors(form) && (ok <==> IsValid(form))
      ensures form == old(form) && message == old(message) && error == old(error)
    {
      var tempErrors: Errors := map[];
      if form.firstName == "" {
        tempErrors := tempErrors[FirstName := FirstNameRequired];
      }
      if form.lastName == "" {
        tempErrors := tempErrors[LastName := LastNameRequired];
      }
      if EmailInvalid(form.email) {
        tempErrors := tempErrors[Email := EmailRequired];
      }
      if DigitsInvalid(form.phoneNumber, 10) {
        tempErrors := tempErrors[PhoneNumber := PhoneRequired];
      }
      if DigitsInvalid(form.aadharNumber, 12) {
        tempErrors := tempErrors[AadharNumber := AadharRequired];
      }
      if PasswordTooShort(form.password) {
        tempErrors := tempErrors[Password := PasswordRequired];
      }
      errors := tempErrors;
      ok := |tempErrors| == 0;
      assert ok <==> tempErrors == map[] by {
        if tempErrors != map[] {
          var k :| k in tempErrors;
        }
      }
    }

    /** `handleSubmit`: an invalid form is not posted. A valid one is posted as
        it stands; status 201 shows the success message, clears every field and
        moves to the login page; a failure shows the server's `detail` or a
        fixed text. */
    method HandleSubmit(outcome: SignUpOutcome) returns (posted: Option<SignUpForm>, navigated: Option<string>)
      modifies this
      ensures errors == SignUpErrors(old(form))
      ensures !IsValid(old(form)) ==>
        && posted == None && navigated == None
        && form == old(form) && message == old(message) && error == old(error)
      ensures IsValid(old(form)) ==> posted == Some(old(form))
      ensures IsValid(old(form)) && outcome == Success(201) ==>
        && form == EmptyForm && message == Created && error == Str("") && navigated == Some("/login")
      ensures IsValid(old(form)) && outcome.Success? && outcome.status != 201 ==>
        && form == old(form) && message == "" && error == Str("") && navigated == None
      ensures IsValid(old(form)) && outcome.Rejected? ==>
        && form == old(form) && message == "" && navigated == None
        && error == OrElse(outcome.detail, Str(SignUpFailed))
      ensures IsValid(old(form)) && outcome.NoResponse? ==>
        && form == old(form) && message == "" && navigated == None && error == Str(Unexpected)
    {
      posted, navigated := None, None;
      var ok := Validate();
      if !ok {
        return;
      }
      message := "";
      error := Str("");
      posted := Some(form);
      match outcome
      case Success(status) =>
        if status == 201 {
          message := Created;
          form := EmptyForm;
          navigated := Some("/login");
        }
      case Rejected(detail) =>
        error := OrElse(detail, Str(SignUpFailed));
      case NoResponse =>
        error := Str(Unexpected);
    }
  }
}
