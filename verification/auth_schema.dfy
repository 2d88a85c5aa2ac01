/** The authentication schemas: an e-mail address and a password, combined
    into the login/registration, reset-request and password-update
    commands. The e-mail format check belongs to the schema library; its
    verdict is a parameter here. */
module AuthSchema {
  import opened Wrappers
  import opened Text
  import opened Issues

  const MaxEmailLength := 254
  const MinPasswordLength := 8
  const MaxPasswordLength := 72

  const InvalidEmail := "Invalid email address."
  const EmailTooLong := "Email address is too long."
  const PasswordTooShort := "Password must be at least 8 characters."
  const PasswordTooLong := "Password is too long."
  const PasswordNeedsLetter := "Password must contain at least one letter."
  const PasswordNeedsDigit := "Password must contain at least one digit."

  predicate IsAsciiLetter(c: char) {
    'a' <= c <= 'z' || 'A' <= c <= 'Z'
  }

  /** A left-to-right test of a one-character class, as a regular expression
      without anchors performs it: it succeeds exactly when some character
      of `s` from `from` on is in the class. */
  function Test(s: string, from: nat, inClass: char -> bool): (r: bool)
    requires from <= |s|
    ensures r <==> exists i :: from <= i < |s| && inClass(s[i])
    decreases |s| - from
  {
    if from == |s| then false
    else inClass(s[from]) || Test(s, from + 1, inClass)
  }

  /** The e-mail checks in order: the format verdict, then the length. Both
      can fire. */
  function EmailIssues(email: string, wellFormed: bool): (r: seq<string>)
    ensures r == [] <==> wellFormed && |email| <= MaxEmailLength
    ensures InvalidEmail in r <==> !wellFormed
    ensures EmailTooLong in r <==> |email| > MaxEmailLength
  {
    (if wellFormed then [] else [InvalidEmail])
    + (if |email| > MaxEmailLength then [EmailTooLong] else [])
  }

  /** The password checks in order: minimum and maximum length, a letter, a
      digit. Every failing check reports; none fails exactly for a password
      of 8 to 72 characters holding an ASCII letter and an ASCII digit. */
  function PasswordIssues(password: string): (r: seq<string>)
    ensures r == [] <==>
              MinPasswordLength <= |password| <= MaxPasswordLength
              && (exists i :: 0 <= i < |password| && IsAsciiLetter(password[i]))
              && (exists i :: 0 <= i < |password| && IsDigit(password[i]))
    ensures PasswordTooShort in r <==> |password| < MinPasswordLength
    ensures PasswordTooLong in r <==> |password| > MaxPasswordLength
    ensures PasswordNeedsLetter in r <==> !exists i :: 0 <= i < |password| && IsAsciiLetter(password[i])
    ensures PasswordNeedsDigit in r <==> !exists i :: 0 <= i < |password| && IsDigit(password[i])
  {
    (if |password| < MinPasswordLength then [PasswordTooShort] else [])
    + (if |password| > MaxPasswordLength then [PasswordTooLong] else [])
    + (if Test(password, 0, IsAsciiLetter) then [] else [PasswordNeedsLetter])
    + (if Test(password, 0, IsDigit) then [] else [PasswordNeedsDigit])
  }

  function EmailField(email: Option<string>, wellFormed: string -> bool): seq<Issue> {
    match email
    case None => [WrongType("email")]
    case Some(e) => AtPath("email", EmailIssues(e, wellFormed(e)))
  }

  function PasswordField(password: Option<string>): seq<Issue> {
    match password
    case None => [WrongType("password")]
    case Some(p) => AtPath("password", PasswordIssues(p))
  }

  datatype Credentials = Credentials(email: string, password: string)

  /** The login command, which the registration command repeats field for
      field: the e-mail's issues come before the password's, and it succeeds
      exactly when both fields pass, returning them unchanged. */
  function ParseCredentials(email: Option<string>, password: Option<string>, wellFormed: string -> bool)
    : (r: Result<Credentials, seq<Issue>>)
    ensures r.Success? <==> EmailField(email, wellFormed) == [] && PasswordField(password) == []
    ensures r.Success? ==> r.value == Credentials(email.value, password.value)
    ensures r.Failure? ==> r.error == EmailField(email, wellFormed) + PasswordField(password)
  {
    var issues := EmailField(email, wellFormed) + PasswordField(password);
    if issues == [] then Success(Credentials(email.value, password.value)) else Failure(issues)
  }

  /** The reset-request command: the e-mail alone. */
  function ParseResetRequest(email: Option<string>, wellFormed: string -> bool): (r: Result<string, seq<Issue>>)
    ensures r.Success? <==> email.Some? && wellFormed(email.value) && |email.value| <= MaxEmailLength
    ensures r.Success? ==> r.value == email.value
    ensures r.Failure? ==> r.error == EmailField(email, wellFormed)
  {
    var issues := EmailField(email, wellFormed);
    if issues == [] then Success(email.value) else Failure(issues)
  }

  /** The password-update command: the password alone. */
  function ParsePasswordUpdate(password: Option<string>): (r: Result<string, seq<Issue>>)
    ensures r.Success? <==> password.Some? && PasswordIssues(password.value) == []
    ensures r.Success? ==> r.value == password.value
    ensures r.Failure? ==> r.error == PasswordField(password)
  {
    var issues := PasswordField(password);
    if issues == [] then Success(password.value) else Failure(issues)
  }

  /** The two-field command accepts exactly what both one-field commands
      accept, and reports the issues of both, e-mail first. */
  lemma CredentialsAreBothParts(email: Option<string>, password: Option<string>, wellFormed: string -> bool)
    ensures ParseCredentials(email, password, wellFormed).Success? <==>
              ParseResetRequest(email, wellFormed).Success? && ParsePasswordUpdate(password).Success?
  {
  }

  /** Eight letters and no digit: only the digit rule complains. */
  lemma LettersOnlyNeedDigit()
    ensures PasswordIssues("abcdefgh") == [PasswordNeedsDigit]
  {
    assert IsAsciiLetter("abcdefgh"[0]);
    assert !Test("abcdefgh", 0, IsDigit);
  }

  /** The empty password breaks three rules, in rule order. */
  lemma EmptyPasswordIssues()
    ensures PasswordIssues("") == [PasswordTooShort, PasswordNeedsLetter, PasswordNeedsDigit]
  {
  }
}
