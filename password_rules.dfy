/**
 * The two password checks of the form, as pure decisions: complexity
 * (validatePasswordComplexity) and confirmation (validatePasswordMatch).
 * Writing the message slot is the job of SignupForm.
 */
module PasswordRules {
  import opened CharClasses

  /**
   * The regular expression `^(?=.*[a-zA-Z])(?=.*\d)(?=.*[@$!%*?&])[A-Za-z\d@$!%*?&]{8,}$`
   * read as it is written: three lookaheads at the start of the string, each
   * `.*` followed by one character of a class (`.` does not cross a line
   * terminator), then eight or more characters of the allowed class up to
   * the end.
   */
  predicate PasswordPatternMatches(s: string) {
    LookaheadFinds(s, IsAsciiLetter)
    && LookaheadFinds(s, IsDecimalDigit)
    && LookaheadFinds(s, IsPasswordSymbol)
    && |s| >= 8
    && forall k :: 0 <= k < |s| ==> IsPasswordChar(s[k])
  }

  /** `(?=.*[class])` at the start of `s` */
  predicate LookaheadFinds(s: string, inClass: char -> bool) {
    exists k :: 0 <= k < |s| && inClass(s[k]) && NoLineTerminatorBefore(s, k)
  }

  predicate NoLineTerminatorBefore(s: string, k: int)
    requires 0 <= k <= |s|
  {
    forall j :: 0 <= j < k ==> !IsLineTerminator(s[j])
  }

  predicate HasAsciiLetter(s: string) { exists k :: 0 <= k < |s| && IsAsciiLetter(s[k]) }
  predicate HasDecimalDigit(s: string) { exists k :: 0 <= k < |s| && IsDecimalDigit(s[k]) }
  predicate HasPasswordSymbol(s: string) { exists k :: 0 <= k < |s| && IsPasswordSymbol(s[k]) }
  predicate OnlyPasswordChars(s: string) { forall k :: 0 <= k < |s| ==> IsPasswordChar(s[k]) }

  /**
   * The verdict of validatePasswordComplexity: an empty password is let
   * through, any other must be 8 or more allowed characters among which a
   * letter, a digit and a symbol.
   */
  predicate PasswordComplexityOk(password: string) {
    !(|password| > 0 && !(|password| >= 8 && HasAsciiLetter(password) && HasDecimalDigit(password)
                          && HasPasswordSymbol(password) && OnlyPasswordChars(password)))
  }

  /** The verdict agrees with the regular expression, apart from the exemption for "". */
  lemma {:induction false} ComplexityIsPattern(password: string)
    ensures PasswordComplexityOk(password) <==> password == [] || PasswordPatternMatches(password)
  {
    PatternIsRules(password);
  }

  /** The pattern holds exactly when the five plain conditions do. */
  lemma PatternIsRules(s: string)
    ensures PasswordPatternMatches(s) <==>
      |s| >= 8 && HasAsciiLetter(s) && HasDecimalDigit(s) && HasPasswordSymbol(s) && OnlyPasswordChars(s)
  {
    if OnlyPasswordChars(s) {
      forall k | 0 <= k <= |s|
        ensures NoLineTerminatorBefore(s, k)
      {
        assert forall j :: 0 <= j < k ==> IsPasswordChar(s[j]);
      }
      if HasAsciiLetter(s) {
        var k :| 0 <= k < |s| && IsAsciiLetter(s[k]);
        assert IsAsciiLetter(s[k]) && NoLineTerminatorBefore(s, k);
      }
      if HasDecimalDigit(s) {
        var k :| 0 <= k < |s| && IsDecimalDigit(s[k]);
        assert IsDecimalDigit(s[k]) && NoLineTerminatorBefore(s, k);
      }
      if HasPasswordSymbol(s) {
        var k :| 0 <= k < |s| && IsPasswordSymbol(s[k]);
        assert IsPasswordSymbol(s[k]) && NoLineTerminatorBefore(s, k);
      }
    }
  }

  /** An empty password never draws the complexity message. */
  lemma EmptyPasswordPasses()
    ensures PasswordComplexityOk("")
  {
  }

  /**
   * A non-empty password is rejected exactly when it is shorter than 8,
   * lacks a letter, a digit or a symbol, or holds some other character.
   */
  lemma NonEmptyPasswordRejectedExactly(password: string)
    requires password != []
    ensures !PasswordComplexityOk(password) <==>
      |password| < 8
      || (forall k :: 0 <= k < |password| ==> !IsAsciiLetter(password[k]))
      || (forall k :: 0 <= k < |password| ==> !IsDecimalDigit(password[k]))
      || (forall k :: 0 <= k < |password| ==> !IsPasswordSymbol(password[k]))
      || (exists k :: 0 <= k < |password| && !IsPasswordChar(password[k]))
  {
  }

  /** "Abc12345!" satisfies the rule; "abcdefgh" (no digit, no symbol) does not. */
  lemma PasswordExamples()
    ensures PasswordComplexityOk("Abc12345!")
    ensures !PasswordComplexityOk("abcdefgh")
    ensures !PasswordComplexityOk("Ab1!")
    ensures !PasswordComplexityOk("Abc 12345!")
  {
    var good := "Abc12345!";
    assert IsAsciiLetter(good[0]) && IsDecimalDigit(good[3]) && IsPasswordSymbol(good[8]);
    var space := "Abc 12345!";
    assert !IsPasswordChar(space[3]);
  }

  /**
   * The verdict of validatePasswordMatch: the confirmation fails only when
   * it is non-empty and differs from the password.
   */
  function PasswordMatchOk(password: string, confirmation: string): (ok: bool)
    ensures !ok <==> confirmation != [] && confirmation != password
  {
    !(|confirmation| > 0 && password != confirmation)
  }

  /** An empty confirmation passes whatever the password; equal strings pass. */
  lemma MatchPassThroughs(password: string, confirmation: string)
    ensures PasswordMatchOk(password, "")
    ensures PasswordMatchOk(password, password)
    ensures confirmation != [] ==> (PasswordMatchOk(password, confirmation) <==> confirmation == password)
  {
  }
}
