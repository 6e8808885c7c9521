/** The rules the sign-up and login forms share: the unanchored e-mail pattern
    `\S+@\S+\.\S+`, the anchored digit patterns `^\d{n}$`, the password length,
    and the error maps the validators fill in one rule at a time. */
module Forms {
  import opened Wrappers
  import opened JsStrings

  /** The keys of the error objects: one per form field (`firstName`,
      `lastName`, `email`, `phoneNumber`, `address`, `aadharNumber`,
      `emergencyContact1`, `emergencyContact2`, `password`) and `general` for a
      failed request. */
  datatype Field =
    | FirstName | LastName | Email | PhoneNumber | Address | AadharNumber
    | EmergencyContact1 | EmergencyContact2 | Password | General

  /** `{ field: message }` as `validate` fills it; `Object.keys(.).length === 0`
      is `errs == map[]`. */
  type Errors = map<Field, string>

  /** `if (failed) errs[key] = msg`: the statement each validator repeats, one
      per rule. */
  function Flag(errs: Errors, failed: bool, key: Field, msg: string): (r: Errors)
    ensures failed ==> r == errs[key := msg]
    ensures !failed ==> r == errs
  {
    if failed then errs[key := msg] else errs
  }

  /** No character matches `\s`. */
  predicate NoWhiteSpace(t: string) {
    forall i | 0 <= i < |t| :: !IsWhiteSpace(t[i])
  }

  /** `\S+@\S+\.\S+` matches `s[p..q]` with its `@` at `at` and its `.` at `dot`:
      three non-empty runs of non-white-space characters around them. */
  predicate EmailMatchAt(s: string, p: nat, at: nat, dot: nat, q: nat) {
    && p < at && at + 1 < dot && dot + 1 < q && q <= |s|
    && s[at] == '@' && s[dot] == '.'
    && NoWhiteSpace(s[p..q])
  }

  /** `/\S+@\S+\.\S+/.test(s)`: the pattern is not anchored, so any substring
      may match. */
  predicate HasEmailMatch(s: string) {
    exists p: nat, at: nat, dot: nat, q: nat | p < at < dot < q <= |s| :: EmailMatchAt(s, p, at, dot, q)
  }

  /** A match exists exactly when some `@` has a non-white-space character before
      it and, with only non-white-space in between, a `.` at least two places
      later that is followed by one more non-white-space character. */
  lemma EmailMatchIff(s: string)
    ensures HasEmailMatch(s) <==>
      exists at: nat, dot: nat | 1 <= at && dot + 2 <= |s| ::
        at + 1 < dot && s[at] == '@' && s[dot] == '.' && NoWhiteSpace(s[at - 1..dot + 2])
  {
    if HasEmailMatch(s) {
      var p: nat, at: nat, dot: nat, q: nat :| p < at < dot < q <= |s| && EmailMatchAt(s, p, at, dot, q);
      var w := s[at - 1..dot + 2];
      forall i | 0 <= i < |w| ensures !IsWhiteSpace(w[i]) {
        assert w[i] == s[p..q][at - 1 - p + i];
      }
      assert NoWhiteSpace(s[at - 1..dot + 2]);
    }
    if exists at: nat, dot: nat | 1 <= at && dot + 2 <= |s| ::
        at + 1 < dot && s[at] == '@' && s[dot] == '.' && NoWhiteSpace(s[at - 1..dot + 2]) {
      var at: nat, dot: nat :| 1 <= at && dot + 2 <= |s| &&
        at + 1 < dot && s[at] == '@' && s[dot] == '.' && NoWhiteSpace(s[at - 1..dot + 2]);
      assert EmailMatchAt(s, at - 1, at, dot, dot + 2);
    }
  }

  /** The pattern is found inside surrounding text, and not without a `.` after
      the `@`. */
  lemma EmailExamples()
    ensures HasEmailMatch("a@b.c")
    ensures HasEmailMatch("see: a@b.c now")
    ensures !HasEmailMatch("a@b")
    ensures !HasEmailMatch("a @b.c")
  {
    assert EmailMatchAt("a@b.c", 0, 1, 3, 5);
    assert EmailMatchAt("see: a@b.c now", 5, 6, 8, 10);
    EmailMatchIff("a@b");
    EmailMatchIff("a @b.c");
    var s := "a @b.c";
    forall at: nat, dot: nat | 1 <= at && dot + 2 <= |s| && at + 1 < dot && s[at] == '@' && s[dot] == '.'
      ensures !NoWhiteSpace(s[at - 1..dot + 2])
    {
      assert at == 2 && s[at - 1..dot + 2][0] == ' ';
    }
  }

  /** `!s || !/\S+@\S+\.\S+/.test(s)`: the e-mail rule. */
  predicate EmailInvalid(s: string) {
    s == "" || !HasEmailMatch(s)
  }

  /** `!s || s.length < 6`: the password rule, on UTF-16 code units. */
  predicate PasswordTooShort(s: string) {
    s == "" || JsLength(s) < 6
  }

  /** Three emoji are six code units, so they pass the rule although they are
      three characters; six characters pass whatever they are, and five
      characters of the Basic Multilingual Plane do not. */
  lemma PasswordRuleCountsCodeUnits(s: string)
    ensures !PasswordTooShort("\U{1F600}\U{1F600}\U{1F600}")
    ensures |s| >= 6 ==> !PasswordTooShort(s)
    ensures |s| == 5 && (forall i | 0 <= i < |s| :: !IsAstral(s[i])) ==> PasswordTooShort(s)
  {
    JsLengthAllAstral("\U{1F600}\U{1F600}\U{1F600}");
    if |s| == 5 && (forall i | 0 <= i < |s| :: !IsAstral(s[i])) {
      JsLengthWithoutAstral(s);
    }
  }

  /** `/^\d{n}$/.test(s)`: exactly `n` ASCII digits. */
  predicate DigitsOfLength(s: string, n: nat) {
    |s| == n && AllDigits(s)
  }

  /** `!s || !/^\d{n}$/.test(s)`. */
  predicate DigitsInvalid(s: string, n: nat) {
    s == "" || !DigitsOfLength(s, n)
  }

  /** A number rule rejects one digit too few or too many, and accepts exactly `n`
      digits. */
  lemma DigitsExamples()
    ensures !DigitsInvalid("9876543210", 10)
    ensures DigitsInvalid("987654321", 10)
    ensures DigitsInvalid("98765432100", 10)
    ensures DigitsInvalid("98765-4321", 10)
  {
    assert !IsDigit("98765-4321"[5]);
  }

  /** The login validator shared by the web page and the mobile screen, which
      differ only in the password message. */
  function CredentialErrors(email: string, password: string, emailMessage: string, passwordMessage: string): (errs: Errors)
    ensures Email in errs <==> EmailInvalid(email)
    ensures Password in errs <==> PasswordTooShort(password)
    ensures Email in errs ==> errs[Email] == emailMessage
    ensures Password in errs ==> errs[Password] == passwordMessage
    ensures errs.Keys <= {Email, Password}
    ensures errs == map[] <==> !EmailInvalid(email) && !PasswordTooShort(password)
  {
    var e1 := Flag(map[], EmailInvalid(email), Email, emailMessage);
    var e2 := Flag(e1, PasswordTooShort(password), Password, passwordMessage);
    assert EmailInvalid(email) ==> Email in e2;
    e2
  }

  /** How a login request ends: accepted, with the body's `user_type`; refused
      by the server, with the body's `error` when it is a string; or any other
      failure (no response, or a success body without the expected fields,
      which throws inside the same `try`). */
  datatype LoginOutcome = LoggedIn(userType: string) | Refused(serverError: Option<string>) | OtherFailure

  /** `err?.response?.data?.error || fallback`, where `serverError` is the
      `error` of the response body when there was one. */
  function ServerMessage(serverError: Option<string>, fallback: string): (msg: string)
    ensures serverError.Some? && serverError.value != "" ==> msg == serverError.value
    ensures serverError.None? || serverError.value == "" ==> msg == fallback
  {
    if serverError.Some? && serverError.value != "" then serverError.value else fallback
  }

  /** The server's error of a failed login, `None` when it gave none. */
  function LoginError(outcome: LoginOutcome): Option<string> {
    if outcome.Refused? then outcome.serverError else None
  }
}
