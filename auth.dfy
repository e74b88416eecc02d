/** The sign-up and log-in forms (app/Signup.tsx, app/Login.tsx): guard chains that report the first
    rule a form breaks. Neither screen talks to a backend. */
module Auth {
  import opened Common
  import Text

  /** `!email || !email.includes("@")`: empty, or without an '@'. */
  predicate BadEmail(email: string)
  {
    email == [] || !Text.Includes(email, "@")
  }

  /** `!password || password.length < 6`, the length counted in UTF-16 code units as JavaScript does. */
  predicate ShortPassword(password: string)
  {
    password == [] || Text.Utf16Length(password) < 6
  }

  /** An email is bad exactly when it has no '@' (the empty one has none). */
  lemma BadEmailIffNoAt(email: string)
    ensures BadEmail(email) <==> '@' !in email
  {
    Text.IncludesChar(email, '@');
  }

  // ---------------------------------------------------------------- sign-up

  const NAME_MESSAGE: string := "Please enter your full name"
  const EMAIL_MESSAGE: string := "Please enter a valid email"
  const PASSWORD_MESSAGE: string := "Password must be at least 6 characters"
  const CONFIRM_MESSAGE: string := "Passwords do not match"
  const TERMS_MESSAGE: string := "You must agree to the Terms of Service and Privacy Policy"

  /** What handleCreate shows: a "Validation" alert with one message, or the account-created alert
      whose OK button navigates to the log-in screen. */
  datatype SignupOutcome = Invalid(message: string) | Created

  /** handleCreate: the checks in order, the first failing one reported. */
  function HandleCreate(fullName: string, email: string, password: string, confirm: string, agree: bool)
    : (r: SignupOutcome)
    ensures r == Invalid(NAME_MESSAGE) <==> Text.IsBlank(fullName)
    ensures r == Invalid(EMAIL_MESSAGE) <==> !Text.IsBlank(fullName) && BadEmail(email)
    ensures r == Invalid(PASSWORD_MESSAGE) <==>
              !Text.IsBlank(fullName) && !BadEmail(email) && ShortPassword(password)
    ensures r == Invalid(CONFIRM_MESSAGE) <==>
              !Text.IsBlank(fullName) && !BadEmail(email) && !ShortPassword(password) && password != confirm
    ensures r == Invalid(TERMS_MESSAGE) <==>
              !Text.IsBlank(fullName) && !BadEmail(email) && !ShortPassword(password) && password == confirm && !agree
    ensures r == Created <==>
              !Text.IsBlank(fullName) && !BadEmail(email) && !ShortPassword(password) && password == confirm && agree
  {
    if Text.IsBlank(fullName) then Invalid(NAME_MESSAGE)
    else if BadEmail(email) then Invalid(EMAIL_MESSAGE)
    else if ShortPassword(password) then Invalid(PASSWORD_MESSAGE)
    else if password != confirm then Invalid(CONFIRM_MESSAGE)
    else if !agree then Invalid(TERMS_MESSAGE)
    else Created
  }

  // ---------------------------------------------------------------- log-in

  const LOGIN_EMAIL_ERROR: string := "Please enter a valid email address"
  const LOGIN_PASSWORD_ERROR: string := "Password must be at least 6 characters"

  /** The log-in form's state: the two fields and the error line under them. */
  class LoginForm {
    var email: string
    var password: string
    var error: string

    constructor ()
      ensures email == "" && password == "" && error == ""
    {
      email, password, error := "", "", "";
    }

    /** handleLogin: sets the error of the first failing check; when both pass, clears the error
        and greets the user by email. */
    method HandleLogin() returns (greeting: Option<string>)
      modifies this
      ensures email == old(email) && password == old(password)
      ensures BadEmail(email) ==> error == LOGIN_EMAIL_ERROR && greeting.None?
      ensures !BadEmail(email) && ShortPassword(password) ==> error == LOGIN_PASSWORD_ERROR && greeting.None?
      ensures greeting.Some? <==> !BadEmail(email) && !ShortPassword(password)
      ensures greeting.Some? <==> error == ""
      ensures greeting.Some? ==> greeting.value == "Welcome, " + email
      ensures error == LoginError(email, password)
    {
      if BadEmail(email) {
        error := LOGIN_EMAIL_ERROR;
        return None;
      }
      if ShortPassword(password) {
        error := LOGIN_PASSWORD_ERROR;
        return None;
      }
      error := "";
      greeting := Some("Welcome, " + email);
    }
  }

  /** What handleLogin decides for a pair of fields, as a value: the error it leaves. */
  function LoginError(email: string, password: string): (e: string)
    ensures e == "" <==> !BadEmail(email) && !ShortPassword(password)
    ensures e in {"", LOGIN_EMAIL_ERROR, LOGIN_PASSWORD_ERROR}
  {
    if BadEmail(email) then LOGIN_EMAIL_ERROR
    else if ShortPassword(password) then LOGIN_PASSWORD_ERROR
    else ""
  }

  /** An account the sign-up form accepts can be logged into with the same email and password:
      the sign-up rules include the log-in rules. */
  lemma CreatedCanLogIn(fullName: string, email: string, password: string, confirm: string, agree: bool)
    ensures HandleCreate(fullName, email, password, confirm, agree) == Created ==> LoginError(email, password) == ""
  {
  }

  /** Characters outside the Basic Multilingual Plane count twice: a password of three emoji is
      six UTF-16 units long and passes the length check. */
  lemma AstralCharactersCountTwice()
    ensures !ShortPassword("\U{1F600}\U{1F600}\U{1F600}")
  {
    assert Text.Utf16Length("\U{1F600}\U{1F600}\U{1F600}") == 6;
  }
}
