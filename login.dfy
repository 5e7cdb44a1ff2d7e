/**
 * The login screen's "Login" check. Unlike sign-in, each failing check
 * replaces the message instead of appending to it, so the last failure wins,
 * and the password is only checked for blankness.
 */
module Login {
  import opened JsString
  import opened FormPatterns

  const EmailRequiredLine: string := "Email is required\n"
  const EmailInvalidLine: string := "Invalid email format\n"
  const PasswordRequiredLine: string := "Password is required\n"

  /** The message the form ends with, and whether the form is valid. */
  method CheckForm(email: string, password: string) returns (msg: string, isValid: bool)
    ensures msg in {"", EmailRequiredLine, EmailInvalidLine, PasswordRequiredLine}
    ensures IsBlank(password) ==> msg == PasswordRequiredLine
    ensures !IsBlank(password) && IsBlank(email) ==> msg == EmailRequiredLine
    ensures !IsBlank(password) && !IsBlank(email) && !MatchesEmail(email) ==> msg == EmailInvalidLine
    ensures isValid <==> !IsBlank(email) && MatchesEmail(email) && !IsBlank(password)
    ensures isValid <==> msg == ""
  {
    msg := "";
    isValid := true;
    if IsBlank(email) {
      msg := EmailRequiredLine;
      isValid := false;
    } else if !MatchesEmail(email) {
      msg := EmailInvalidLine;
      isValid := false;
    }
    if IsBlank(password) {
      msg := PasswordRequiredLine;
      isValid := false;
    }
  }

  /**
   * The strength pattern is declared but never applied: a password that
   * fails it is still accepted when it is not blank.
   */
  lemma WeakPasswordIsNotRejected()
    ensures !IsBlank("abc") && !MatchesStrongPassword("abc")
  {
    assert "abc"[0] == 'a';
  }

  /** The screen's state: the two inputs and the last error text. */
  class LoginScreen {
    var email: string
    var password: string
    var errorText: string

    constructor()
      ensures email == "" && password == "" && errorText == ""
    {
      email, password, errorText := "", "", "";
    }

    /**
     * `validateForm()`: stores the message, then either alerts success and
     * moves to the home screen, or alerts the message.
     */
    method ValidateForm() returns (alert: string, goHome: bool)
      modifies this`errorText
      ensures errorText in {"", EmailRequiredLine, EmailInvalidLine, PasswordRequiredLine}
      ensures goHome <==> !IsBlank(email) && MatchesEmail(email) && !IsBlank(password)
      ensures goHome <==> errorText == ""
      ensures IsBlank(password) ==> errorText == PasswordRequiredLine
      ensures !IsBlank(password) && IsBlank(email) ==> errorText == EmailRequiredLine
      ensures !IsBlank(password) && !IsBlank(email) && !MatchesEmail(email) ==> errorText == EmailInvalidLine
      ensures alert == if goHome then "Login Successful" else errorText
    {
      var msg, isValid := CheckForm(email, password);
      errorText := msg;
      if isValid {
        alert, goHome := "Login Successful", true;
      } else {
        alert, goHome := msg, false;
      }
    }
  }
}
