/** The mobile sign-up screen: nine fields, seven of which only need to be
    non-empty, the shared e-mail rule and the password length; the request is
    made only for a valid form. */
module MobileSignup {
  import opened Wrappers
  import opened Forms

  datatype SignupForm = SignupForm(
    firstName: string, lastName: string, email: string, phoneNumber: string,
    address: string, aadharNumber: string, emergencyContact1: string,
    emergencyContact2: string, password: string)

  const EmptyForm := SignupForm("", "", "", "", "", "", "", "", "")
  const CheckDetails := "Check your details"
  const AccountCreated := "Account created!"

  /** Every field given, an e-mail match and a password of at least 6
      characters; phone and Aadhar numbers have no format rule here. */
  predicate IsValid(f: SignupForm) {
    && f.firstName != "" && f.lastName != "" && !EmailInvalid(f.email)
    && f.phoneNumber != "" && f.address != "" && f.aadharNumber != ""
    && f.emergencyContact1 != "" && f.emergencyContact2 != ""
    && !PasswordTooShort(f.password)
  }

  /** Whether the rule for field `k` fails. */
  predicate Fails(f: SignupForm, k: Field) {
    match k
    case FirstName => f.firstName == ""
    case LastName => f.lastName == ""
    case Email => EmailInvalid(f.email)
    case PhoneNumber => f.phoneNumber == ""
    case Address => f.address == ""
    case AadharNumber => f.aadharNumber == ""
    case EmergencyContact1 => f.emergencyContact1 == ""
    case EmergencyContact2 => f.emergencyContact2 == ""
    case Password => PasswordTooShort(f.password)
    case General => false
  }

  /** The message recorded when the rule for field `k` fails. */
  function Message(k: Field): string {
    match k
    case FirstName => "First name is required"
    case LastName => "Last name is required"
    case Email => "Valid Email is required"
    case PhoneNumber => "Phone number is required"
    case Address => "Address is required"
    case AadharNumber => "Aadhar number is required"
    case EmergencyContact1 => "Emergency contact 1 is required"
    case EmergencyContact2 => "Emergency contact 2 is required"
    case Password => "Password must be at least 6 characters"
    case General => ""
  }

  /** The position of field `k`'s rule among the checks `validate` makes, in
      order; `general` has no rule and comes after all nine. */
  function Rank(k: Field): (r: nat)
    ensures r <= 9 && (r == 9 <==> k == General)
  {
    match k
    case FirstName => 0
    case LastName => 1
    case Email => 2
    case PhoneNumber => 3
    case Address => 4
    case AadharNumber => 5
    case EmergencyContact1 => 6
    case EmergencyContact2 => 7
    case Password => 8
    case General => 9
  }

  /** Distinct fields have distinct positions. */
  lemma RankInjective(j: Field, k: Field)
    ensures Rank(j) == Rank(k) ==> j == k
  {
  }

  /** The field of the rule checked `i`-th. */
  function RuleAt(i: nat): (k: Field)
    requires i < 9
    ensures Rank(k) == i
  {
    match i
    case 0 => FirstName
    case 1 => LastName
    case 2 => Email
    case 3 => PhoneNumber
    case 4 => Address
    case 5 => AadharNumber
    case 6 => EmergencyContact1
    case 7 => EmergencyContact2
    case _ => Password
  }

  /** The errors recorded after the first `n` checks: each adds its message when
      its rule fails. */
  function Checked(f: SignupForm, n: nat): Errors
    requires n <= 9
  {
    if n == 0 then map[] else Flag(Checked(f, n - 1), Fails(f, RuleAt(n - 1)), RuleAt(n - 1), Message(RuleAt(n - 1)))
  }

  /** After `n` checks exactly the failed rules among the first `n` have an
      entry, holding their message. */
  lemma {:induction false} CheckedKeys(f: SignupForm, n: nat)
    requires n <= 9
    ensures forall k :: k in Checked(f, n) <==> Rank(k) < n && Fails(f, k)
    ensures forall k | k in Checked(f, n) :: Checked(f, n)[k] == Message(k)
  {
    if n > 0 {
      CheckedKeys(f, n - 1);
      forall k ensures Rank(k) == n - 1 ==> k == RuleAt(n - 1) {
        RankInjective(k, RuleAt(n - 1));
      }
    }
  }

  /** A form is valid exactly when none of its rules fails. */
  lemma ValidIffNoFailure(f: SignupForm)
    ensures IsValid(f) <==> forall k :: !Fails(f, k)
  {
    if forall k :: !Fails(f, k) {
      assert !Fails(f, FirstName) && !Fails(f, LastName) && !Fails(f, Email)
        && !Fails(f, PhoneNumber) && !Fails(f, Address) && !Fails(f, AadharNumber)
        && !Fails(f, EmergencyContact1) && !Fails(f, EmergencyContact2) && !Fails(f, Password);
    }
  }

  /** `validate`'s error object: the nine checks made in order. It holds an entry
      for exactly the fields whose rule fails, each with its message, and is
      empty exactly for a valid form. */
  function SignupErrors(f: SignupForm): (errs: Errors)
    ensures forall k :: k in errs <==> Fails(f, k)
    ensures forall k | k in errs :: errs[k] == Message(k)
    ensures errs == map[] <==> IsValid(f)
  {
    CheckedKeys(f, 9);
    ValidIffNoFailure(f);
    var errs := Checked(f, 9);
    assert errs == map[] <==> forall k :: k !in errs;
    errs
  }

  /** The checks one after another, exactly as `validate` writes them, record
      `SignupErrors`. */
  lemma ChecksInOrder(f: SignupForm, e0: Errors, e1: Errors, e2: Errors, e3: Errors, e4: Errors,
                      e5: Errors, e6: Errors, e7: Errors, e8: Errors, e9: Errors)
    requires e0 == map[]
    requires e1 == Flag(e0, f.firstName == "", FirstName, "First name is required")
    requires e2 == Flag(e1, f.lastName == "", LastName, "Last name is required")
    requires e3 == Flag(e2, EmailInvalid(f.email), Email, "Valid Email is required")
    requires e4 == Flag(e3, f.phoneNumber == "", PhoneNumber, "Phone number is required")
    requires e5 == Flag(e4, f.address == "", Address, "Address is required")
    requires e6 == Flag(e5, f.aadharNumber == "", AadharNumber, "Aadhar number is required")
    requires e7 == Flag(e6, f.emergencyContact1 == "", EmergencyContact1, "Emergency contact 1 is required")
    requires e8 == Flag(e7, f.emergencyContact2 == "", EmergencyContact2, "Emergency contact 2 is required")
    requires e9 == Flag(e8, PasswordTooShort(f.password), Password, "Password must be at least 6 characters")
    ensures e9 == SignupErrors(f)
  {
    assert e0 == Checked(f, 0);
    assert e1 == Checked(f, 1);
    assert e2 == Checked(f, 2);
    assert e3 == Checked(f, 3);
    assert e4 == Checked(f, 4);
    assert e5 == Checked(f, 5);
    assert e6 == Checked(f, 6);
    assert e7 == Checked(f, 7);
    assert e8 == Checked(f, 8);
    assert e9 == Checked(f, 9);
  }

  /** How the sign-up request ends: accepted, with the body's `message` when it
      is a string; refused, with the body's `error` when it is a string; or any
      other failure. */
  datatype SignupOutcome = SignedUp(message: Option<string>) | SignupRefused(serverError: Option<string>) | SignupFailed

  /** `data.message || 'Account created!'`. */
  function SuccessAlert(message: Option<string>): (text: string)
    ensures message.Some? && message.value != "" ==> text == message.value
    ensures message.None? || message.value == "" ==> text == AccountCreated
  {
    if message.Some? && message.value != "" then message.value else AccountCreated
  }

  /** The server's error of a failed sign-up, `None` when it gave none. */
  function ServerError(outcome: SignupOutcome): Option<string> {
    if outcome.SignupRefused? then outcome.serverError else None
  }

  /** The route the screen moves to after signing up. */
  const Tabs := "(tabs)"

  class SignupScreen {
    var form: SignupForm
    var loading: bool
    var errors: Errors

    constructor()
      ensures form == EmptyForm && !loading && errors == map[]
    {
      form, loading, errors := EmptyForm, false, map[];
    }

    /** `validate`: the errors are rebuilt from scratch, one rule at a time, and
        the result says whether none was recorded. */
    method Validate() returns (ok: bool)
      modifies this
      ensures errors == SignupErrors(form) && (ok <==> IsValid(form))
      ensures form == old(form) && loading == old(loading)
    {
      var t: Errors := map[];
      ghost var e0 := t;
      t := Flag(t, form.firstName == "", FirstName, "First name is required");
      ghost var e1 := t;
      t := Flag(t, form.lastName == "", LastName, "Last name is required");
      ghost var e2 := t;
      t := Flag(t, EmailInvalid(form.email), Email, "Valid Email is required");
      ghost var e3 := t;
      t := Flag(t, form.phoneNumber == "", PhoneNumber, "Phone number is required");
      ghost var e4 := t;
      t := Flag(t, form.address == "", Address, "Address is required");
      ghost var e5 := t;
      t := Flag(t, form.aadharNumber == "", AadharNumber, "Aadhar number is required");
      ghost var e6 := t;
      t := Flag(t, form.emergencyContact1 == "", EmergencyContact1, "Emergency contact 1 is required");
      ghost var e7 := t;
      t := Flag(t, form.emergencyContact2 == "", EmergencyContact2, "Emergency contact 2 is required");
      ghost var e8 := t;
      t := Flag(t, PasswordTooShort(form.password), Password, "Password must be at least 6 characters");
      ghost var e9 := t;
      ChecksInOrder(form, e0, e1, e2, e3, e4, e5, e6, e7, e8, e9);
      errors := t;
      ok := t == map[];
    }

    /** `handleSignup`: an invalid form returns with only the errors changed.
        Otherwise the form is sent; success shows the server's message (or a
        fixed one) and moves to the tabs; failure replaces the errors by
        `general` alone; loading ends false. */
    method HandleSignup(outcome: SignupOutcome) returns (posted: Option<SignupForm>, alert: Option<string>, navigated: Option<string>)
      modifies this
      ensures !IsValid(old(form)) ==>
        && posted == None && alert == None && navigated == None
        && loading == old(loading) && errors == SignupErrors(old(form))
      ensures IsValid(old(form)) ==> posted == Some(old(form)) && !loading
      ensures IsValid(old(form)) && outcome.SignedUp? ==>
        errors == map[] && alert == Some(SuccessAlert(outcome.message)) && navigated == Some(Tabs)
      ensures IsValid(old(form)) && !outcome.SignedUp? ==>
        && errors == map[General := ServerMessage(ServerError(outcome), CheckDetails)]
        && alert == None && navigated == None
      ensures form == old(form)
    {
      posted, alert, navigated := None, None, None;
      var ok := Validate();
      if !ok {
        return;
      }
      loading := true;
      posted := Some(form);
      if outcome.SignedUp? {
        alert := Some(SuccessAlert(outcome.message));
        navigated := Some(Tabs);
      } else {
        errors := map[General := ServerMessage(ServerError(outcome), CheckDetails)];
      }
      loading := false;
    }
  }
}
