/**
 * The sign-in screen: its phone field keeps only digits as the user types,
 * and "Sign In" checks the four fields, accumulating one error line per
 * failing field (or one line when every field is blank), then shows either
 * the lines or a success alert.
 */
module SignIn {
  import opened JsString
  import opened FormPatterns

  /** `text.replace(/[^0-9]/g, '')`. */
  function DigitsOnly(text: string): (r: string)
    ensures |r| <= |text|
    ensures forall k :: 0 <= k < |r| ==> IsDigit(r[k])
  {
    if text == [] then []
    else (if IsDigit(text[0]) then [text[0]] else []) + DigitsOnly(text[1..])
  }

  /** A string of digits passes through unchanged. */
  lemma {:induction false} DigitsOnlyKeepsDigits(s: string)
    requires forall k :: 0 <= k < |s| ==> IsDigit(s[k])
    ensures DigitsOnly(s) == s
  {
    if s != [] {
      DigitsOnlyKeepsDigits(s[1..]);
      assert [s[0]] + s[1..] == s;
    }
  }

  lemma DigitsOnlyIdempotent(s: string)
    ensures DigitsOnly(DigitsOnly(s)) == DigitsOnly(s)
  {
    DigitsOnlyKeepsDigits(DigitsOnly(s));
  }

  /** Filtering keeps the digits in their order: it works piece by piece. */
  lemma {:induction false} DigitsOnlyAppend(a: string, b: string)
    ensures DigitsOnly(a + b) == DigitsOnly(a) + DigitsOnly(b)
  {
    if a != [] {
      assert (a + b)[1..] == a[1..] + b;
      DigitsOnlyAppend(a[1..], b);
    } else {
      assert a + b == b;
    }
  }

  /** Every digit is kept as often as it occurs, and nothing else is kept. */
  lemma {:induction false} DigitsOnlyCounts(s: string, c: char)
    ensures multiset(DigitsOnly(s))[c] == if IsDigit(c) then multiset(s)[c] else 0
  {
    if s != [] {
      DigitsOnlyCounts(s[1..], c);
      assert s == [s[0]] + s[1..];
    }
  }

  /** The problems the form reports, one error line each. */
  datatype Problem =
    | AllFieldsRequired
    | NameRequired
    | PhoneRequired | PhoneInvalid
    | EmailRequired | EmailInvalid
    | PasswordRequired | PasswordWeak

  function Line(p: Problem): (l: string)
    ensures l != ""
  {
    match p
    case AllFieldsRequired => "All feilds are required!\n"
    case NameRequired => "Name is required\n"
    case PhoneRequired => "Phone number is required\n"
    case PhoneInvalid => "Enter a valid 10-digit phone number\n"
    case EmailRequired => "Email is required\n"
    case EmailInvalid => "Invalid email format\n"
    case PasswordRequired => "Password is required\n"
    case PasswordWeak => "Password must be 8+ chars, include upper, lower, and a number\n"
  }

  /** The position of a problem's field on the form: name, phone, email, password. */
  function FieldOf(p: Problem): nat {
    match p
    case AllFieldsRequired | NameRequired => 0
    case PhoneRequired | PhoneInvalid => 1
    case EmailRequired | EmailInvalid => 2
    case PasswordRequired | PasswordWeak => 3
  }

  predicate AllBlank(name: string, phone: string, email: string, password: string) {
    IsBlank(name) && IsBlank(phone) && IsBlank(email) && IsBlank(password)
  }

  function NameProblems(name: string): (r: seq<Problem>)
    ensures |r| <= 1 && forall p :: p in r ==> FieldOf(p) == 0 && p != AllFieldsRequired
  {
    if IsBlank(name) then [NameRequired] else []
  }

  function PhoneProblems(phone: string): (r: seq<Problem>)
    ensures |r| <= 1 && forall p :: p in r ==> FieldOf(p) == 1
  {
    if IsBlank(phone) then [PhoneRequired] else if !MatchesPhone(phone) then [PhoneInvalid] else []
  }

  function EmailProblems(email: string): (r: seq<Problem>)
    ensures |r| <= 1 && forall p :: p in r ==> FieldOf(p) == 2
  {
    if IsBlank(email) then [EmailRequired] else if !MatchesEmail(email) then [EmailInvalid] else []
  }

  function PasswordProblems(password: string): (r: seq<Problem>)
    ensures |r| <= 1 && forall p :: p in r ==> FieldOf(p) == 3
  {
    if IsBlank(password) then [PasswordRequired]
    else if !MatchesStrongPassword(password) then [PasswordWeak] else []
  }

  /**
   * The problems found in the four fields. Blankness looks at the trimmed
   * value, the patterns at the value as typed.
   */
  function Problems(name: string, phone: string, email: string, password: string): seq<Problem> {
    if AllBlank(name, phone, email, password) then [AllFieldsRequired]
    else NameProblems(name) + PhoneProblems(phone) + EmailProblems(email) + PasswordProblems(password)
  }

  /** Each problem belongs to a later field than the one before it. */
  predicate FieldsIncrease(ps: seq<Problem>) {
    forall i, j :: 0 <= i < j < |ps| ==> FieldOf(ps[i]) < FieldOf(ps[j])
  }

  lemma FieldsIncreaseAppend(ps: seq<Problem>, qs: seq<Problem>)
    requires FieldsIncrease(ps) && FieldsIncrease(qs)
    requires forall p, q :: p in ps && q in qs ==> FieldOf(p) < FieldOf(q)
    ensures FieldsIncrease(ps + qs)
  {
    forall i, j | 0 <= i < j < |ps + qs|
      ensures FieldOf((ps + qs)[i]) < FieldOf((ps + qs)[j])
    {
      if j < |ps| {
      } else if i < |ps| {
        assert (ps + qs)[i] in ps && (ps + qs)[j] in qs;
      } else {
        assert (ps + qs)[i] == qs[i - |ps|] && (ps + qs)[j] == qs[j - |ps|];
      }
    }
  }

  /** The error lines, one after another. */
  function Render(ps: seq<Problem>): string {
    if ps == [] then "" else Line(ps[0]) + Render(ps[1..])
  }

  /** Every line is non-empty, so the text is empty exactly when there is no problem. */
  lemma {:induction false} RenderEmptyIffNoProblems(ps: seq<Problem>)
    ensures Render(ps) == "" <==> ps == []
  {
    if ps != [] {
      assert Render(ps) == Line(ps[0]) + Render(ps[1..]);
    }
  }

  lemma RenderOne(p: Problem)
    ensures Render([p]) == Line(p)
  {
    assert [p][1..] == [];
  }

  lemma {:induction false} RenderAppend(ps: seq<Problem>, qs: seq<Problem>)
    ensures Render(ps + qs) == Render(ps) + Render(qs)
  {
    if ps == [] {
      assert ps + qs == qs;
    } else {
      assert (ps + qs)[1..] == ps[1..] + qs;
      RenderAppend(ps[1..], qs);
    }
  }

  /** The name block: a blank name appends its line and makes the form invalid. */
  method CheckName(name: string, msgIn: string, validIn: bool) returns (msg: string, isValid: bool)
    ensures msg == msgIn + Render(NameProblems(name))
    ensures isValid <==> validIn && NameProblems(name) == []
  {
    msg, isValid := msgIn, validIn;
    if IsBlank(name) {
      msg := msg + Line(NameRequired);
      isValid := false;
      RenderOne(NameRequired);
    }
  }

  /** The phone block: blank, then the 10-digit pattern, at most one line. */
  method CheckPhone(phone: string, msgIn: string, validIn: bool) returns (msg: string, isValid: bool)
    ensures msg == msgIn + Render(PhoneProblems(phone))
    ensures isValid <==> validIn && PhoneProblems(phone) == []
  {
    msg, isValid := msgIn, validIn;
    if IsBlank(phone) {
      msg := msg + Line(PhoneRequired);
      isValid := false;
      RenderOne(PhoneRequired);
    } else if !MatchesPhone(phone) {
      msg := msg + Line(PhoneInvalid);
      isValid := false;
      RenderOne(PhoneInvalid);
    }
  }

  /** The email block: blank, then the email pattern on the text as typed. */
  method CheckEmail(email: string, msgIn: string, validIn: bool) returns (msg: string, isValid: bool)
    ensures msg == msgIn + Render(EmailProblems(email))
    ensures isValid <==> validIn && EmailProblems(email) == []
  {
    msg, isValid := msgIn, validIn;
    if IsBlank(email) {
      msg := msg + Line(EmailRequired);
      isValid := false;
      RenderOne(EmailRequired);
    } else if !MatchesEmail(email) {
      msg := msg + Line(EmailInvalid);
      isValid := false;
      RenderOne(EmailInvalid);
    }
  }

  /** The password block: blank, then the strength pattern on the text as typed. */
  method CheckPassword(password: string, msgIn: string, validIn: bool) returns (msg: string, isValid: bool)
    ensures msg == msgIn + Render(PasswordProblems(password))
    ensures isValid <==> validIn && PasswordProblems(password) == []
  {
    msg, isValid := msgIn, validIn;
    if IsBlank(password) {
      msg := msg + Line(PasswordRequired);
      isValid := false;
      RenderOne(PasswordRequired);
    } else if !MatchesStrongPassword(password) {
      msg := msg + Line(PasswordWeak);
      isValid := false;
      RenderOne(PasswordWeak);
    }
  }

  /**
   * The message the form builds, appended to line by line, and whether the
   * form is valid.
   */
  method CheckForm(name: string, phone: string, email: string, password: string)
    returns (msg: string, isValid: bool)
    ensures msg == Render(Problems(name, phone, email, password))
    ensures isValid <==> Problems(name, phone, email, password) == []
    ensures isValid <==> msg == ""
  {
    msg := "";
    isValid := true;
    if IsBlank(name) && IsBlank(phone) && IsBlank(email) && IsBlank(password) {
      msg := msg + Line(AllFieldsRequired);
      isValid := false;
      RenderOne(AllFieldsRequired);
      assert Problems(name, phone, email, password) == [AllFieldsRequired];
    } else {
      ghost var np, pp, ep, wp := NameProblems(name), PhoneProblems(phone), EmailProblems(email), PasswordProblems(password);
      msg, isValid := CheckName(name, msg, isValid);
      assert msg == Render(np) by { assert "" + Render(np) == Render(np); }
      msg, isValid := CheckPhone(phone, msg, isValid);
      RenderAppend(np, pp);
      msg, isValid := CheckEmail(email, msg, isValid);
      RenderAppend(np + pp, ep);
      msg, isValid := CheckPassword(password, msg, isValid);
      RenderAppend(np + pp + ep, wp);
      assert isValid <==> |np + pp + ep + wp| == 0;
      assert Problems(name, phone, email, password) == np + pp + ep + wp;
    }
    RenderEmptyIffNoProblems(Problems(name, phone, email, password));
  }

  /** Four blank fields give exactly one line. */
  lemma AllBlankMessage(name: string, phone: string, email: string, password: string)
    requires AllBlank(name, phone, email, password)
    ensures Render(Problems(name, phone, email, password)) == "All feilds are required!\n"
  {
  }

  /**
   * Otherwise each field contributes at most one line, in the order of the
   * form, and the all-blank line does not appear.
   */
  lemma OneLinePerFieldInOrder(name: string, phone: string, email: string, password: string)
    requires !AllBlank(name, phone, email, password)
    ensures var ps := Problems(name, phone, email, password);
      AllFieldsRequired !in ps && FieldsIncrease(ps)
  {
    var n, ph, e, pw := NameProblems(name), PhoneProblems(phone), EmailProblems(email), PasswordProblems(password);
    FieldsIncreaseAppend(n, ph);
    FieldsIncreaseAppend(n + ph, e);
    FieldsIncreaseAppend(n + ph + e, pw);
  }

  /** Each pattern only accepts text that is not blank. */
  lemma PatternsRejectBlank(s: string)
    requires IsBlank(s)
    ensures !MatchesPhone(s) && !MatchesEmail(s) && !MatchesStrongPassword(s)
  {
    assert forall k :: 0 <= k < |s| ==> !IsDigit(s[k]) && s[k] != '@';
    if |s| > 0 {
      assert !IsDigit(s[0]);
    }
  }

  /** The form is valid exactly when the name is filled in and the other three fields match their patterns. */
  lemma ValidIffAllFieldsPass(name: string, phone: string, email: string, password: string)
    ensures Problems(name, phone, email, password) == [] <==>
      !IsBlank(name) && MatchesPhone(phone) && MatchesEmail(email) && MatchesStrongPassword(password)
  {
    if IsBlank(phone) { PatternsRejectBlank(phone); }
    if IsBlank(email) { PatternsRejectBlank(email); }
    if IsBlank(password) { PatternsRejectBlank(password); }
  }

  /**
   * Blankness is judged after trimming but the pattern sees the untrimmed
   * text, so an address typed with a leading space is reported as malformed.
   */
  lemma PaddedEmailIsInvalid(name: string, phone: string, email: string, password: string)
    requires !IsBlank(email) && IsWhitespace(email[0])
    ensures EmailInvalid in Problems(name, phone, email, password)
  {
    assert EmailProblems(email) == [EmailInvalid];
    var ps := NameProblems(name) + PhoneProblems(phone) + EmailProblems(email) + PasswordProblems(password);
    assert ps[|NameProblems(name) + PhoneProblems(phone)|] == EmailInvalid;
  }

  /** The screen's state: the four inputs and the last error text. */
  class SignInScreen {
    var name: string
    var phone: string
    var email: string
    var password: string
    var errorText: string

    constructor()
      ensures name == "" && phone == "" && email == "" && password == "" && errorText == ""
    {
      name, phone, email, password, errorText := "", "", "", "", "";
    }

    /** `handlePhoneChange(text)`: the phone field keeps only the digits typed. */
    method HandlePhoneChange(text: string)
      modifies this`phone
      ensures phone == DigitsOnly(text)
    {
      phone := DigitsOnly(text);
    }

    /**
     * `validateForm()`: stores the message, then either alerts success and
     * moves to the home screen, or alerts the message.
     */
    method ValidateForm() returns (alert: string, goHome: bool)
      modifies this`errorText
      ensures errorText == Render(Problems(name, phone, email, password))
      ensures goHome <==> errorText == ""
      ensures alert == if goHome then "Sign In successful!" else errorText
    {
      var msg, isValid := CheckForm(name, phone, email, password);
      errorText := msg;
      if isValid {
        alert, goHome := "Sign In successful!", true;
      } else {
        alert, goHome := msg, false;
      }
    }
  }
}
