/**
 * The regular expressions the sign-in and login forms apply, each read as a
 * predicate on the whole string (all three are anchored with `^` and `$`,
 * and none has the `m` or `s` flag), together with plain statements of what
 * they accept.
 */
module FormPatterns {
  import opened JsString

  /** `/^\d{10}$/`. */
  predicate MatchesPhone(s: string) {
    |s| == 10 && forall k :: 0 <= k < |s| ==> IsDigit(s[k])
  }

  /** `[^\s@]`. */
  predicate EmailChar(c: char) {
    !IsWhitespace(c) && c != '@'
  }

  /**
   * `/^[^\s@]+@[^\s@]+\.[^\s@]+$/`: an "@" at `i` and a "." at `j` split the
   * string into three non-empty runs, and every other character is in `[^\s@]`
   * (so is the ".", which the middle run may also contain).
   */
  predicate MatchesEmail(s: string) {
    exists i, j :: 0 < i && i + 1 < j < |s| - 1 && s[i] == '@' && s[j] == '.' &&
      forall k :: 0 <= k < |s| && k != i ==> EmailChar(s[k])
  }

  /**
   * `/^(?=.*[a-z])(?=.*[A-Z])(?=.*\d).{8,}$/`: each look-ahead finds its class
   * after a run of characters that `.` matches; the body takes 8 or more of
   * them. Without the `u` flag `.` matches one UTF-16 code unit, so the length
   * is counted in code units and a character outside the Basic Multilingual
   * Plane counts twice (neither half of it is a line terminator).
   */
  predicate MatchesStrongPassword(s: string) {
    && (exists k :: 0 <= k < |s| && IsLower(s[k]) && forall m :: 0 <= m < k ==> !IsLineTerminator(s[m]))
    && (exists k :: 0 <= k < |s| && IsUpper(s[k]) && forall m :: 0 <= m < k ==> !IsLineTerminator(s[m]))
    && (exists k :: 0 <= k < |s| && IsDigit(s[k]) && forall m :: 0 <= m < k ==> !IsLineTerminator(s[m]))
    && Utf16Length(s) >= 8 && forall m :: 0 <= m < |s| ==> !IsLineTerminator(s[m])
  }

  function CountOf(s: string, c: char): nat {
    if s == [] then 0 else (if s[0] == c then 1 else 0) + CountOf(s[1..], c)
  }

  /** The first position of `c`, or `|s|` when there is none. */
  function IndexOf(s: string, c: char): (i: nat)
    ensures i <= |s|
    ensures i < |s| ==> s[i] == c
    ensures forall k :: 0 <= k < i ==> s[k] != c
    ensures i == |s| ==> CountOf(s, c) == 0
  {
    if s == [] then 0
    else if s[0] == c then 0
    else 1 + IndexOf(s[1..], c)
  }

  /** `c` occurs exactly once exactly when its first occurrence is its only one. */
  lemma {:induction false} CountOfOne(s: string, c: char)
    ensures CountOf(s, c) == 1 <==>
      IndexOf(s, c) < |s| && forall k :: 0 <= k < |s| && k != IndexOf(s, c) ==> s[k] != c
  {
    if s != [] {
      CountOfOne(s[1..], c);
      if s[0] == c {
        CountOfZero(s[1..], c);
        assert forall k :: 1 <= k < |s| ==> s[k] == s[1..][k - 1];
      } else {
        assert forall k :: 1 <= k < |s| ==> s[k] == s[1..][k - 1];
      }
    }
  }

  lemma {:induction false} CountOfZero(s: string, c: char)
    ensures CountOf(s, c) == 0 <==> forall k :: 0 <= k < |s| ==> s[k] != c
  {
    if s != [] {
      CountOfZero(s[1..], c);
      assert forall k :: 1 <= k < |s| ==> s[k] == s[1..][k - 1];
    }
  }

  /**
   * What the email pattern accepts, in plain terms: no whitespace, exactly one
   * "@", something before it, and after it a "." with text on both sides.
   */
  predicate EmailShape(s: string) {
    && (forall k :: 0 <= k < |s| ==> !IsWhitespace(s[k]))
    && CountOf(s, '@') == 1
    && var at := IndexOf(s, '@');
    && 0 < at
    && exists j :: at + 1 < j < |s| - 1 && s[j] == '.'
  }

  lemma EmailPatternIsEmailShape(s: string)
    ensures MatchesEmail(s) <==> EmailShape(s)
  {
    CountOfOne(s, '@');
    var at := IndexOf(s, '@');
    if MatchesEmail(s) {
      var i, j :| 0 < i && i + 1 < j < |s| - 1 && s[i] == '@' && s[j] == '.' &&
        forall k :: 0 <= k < |s| && k != i ==> EmailChar(s[k]);
      assert at == i;
    }
    if EmailShape(s) {
      var j :| at + 1 < j < |s| - 1 && s[j] == '.';
      assert forall k :: 0 <= k < |s| && k != at ==> EmailChar(s[k]);
      assert 0 < at && at + 1 < j < |s| - 1 && s[at] == '@' && s[j] == '.';
    }
  }

  /**
   * What the password pattern accepts, in plain terms: at least 8 UTF-16 code
   * units, no line terminator, and a lower-case letter, an upper-case letter
   * and a digit.
   */
  predicate PasswordShape(s: string) {
    && Utf16Length(s) >= 8
    && (forall k :: 0 <= k < |s| ==> !IsLineTerminator(s[k]))
    && (exists k :: 0 <= k < |s| && IsLower(s[k]))
    && (exists k :: 0 <= k < |s| && IsUpper(s[k]))
    && (exists k :: 0 <= k < |s| && IsDigit(s[k]))
  }

  lemma PasswordPatternIsPasswordShape(s: string)
    ensures MatchesStrongPassword(s) <==> PasswordShape(s)
  {
  }

  /**
   * Six characters can pass the length test: three letters-and-digit plus three
   * emoji make nine code units.
   */
  lemma AstralCharactersCountTwice()
    ensures MatchesStrongPassword("Ab1\U{1F600}\U{1F600}\U{1F600}")
  {
    var s := "Ab1\U{1F600}\U{1F600}\U{1F600}";
    assert Utf16Length(s) == 9 by {
      assert s == "Ab1" + "\U{1F600}\U{1F600}\U{1F600}";
      Utf16LengthAppend("Ab1", "\U{1F600}\U{1F600}\U{1F600}");
    }
    assert forall m :: 0 <= m < |s| ==> !IsLineTerminator(s[m]);
    StrongPasswordAt(s, 1, 0, 2);
  }

  /** A single-line text with a lower-case letter, an upper-case letter and a digit passes once it is 8 code units long. */
  lemma StrongPasswordAt(s: string, lower: nat, upper: nat, digit: nat)
    requires lower < |s| && upper < |s| && digit < |s|
    requires IsLower(s[lower]) && IsUpper(s[upper]) && IsDigit(s[digit])
    requires forall m :: 0 <= m < |s| ==> !IsLineTerminator(s[m])
    requires Utf16Length(s) >= 8
    ensures MatchesStrongPassword(s)
  {
  }

  /** A password of basic-plane characters needs 8 of them, as the message says. */
  lemma BasicPasswordNeedsEightCharacters(s: string)
    requires forall k :: 0 <= k < |s| ==> !IsAstral(s[k])
    ensures MatchesStrongPassword(s) ==> |s| >= 8
  {
    Utf16LengthOfBasic(s);
  }
}
