/**
 * The submit-time email check `^[a-zA-Z0-9._-]+@[a-zA-Z0-9.-]+\.[a-zA-Z]{2,6}$`
 * on a trimmed value. EmailPatternMatches reads the expression as written
 * (some split of the string into its four parts exists); EmailOk decides it
 * by locating the one `@` and the last `.`.
 */
module EmailRule {
  import opened Wrappers
  import opened CharClasses
  import opened JsStrings

  /**
   * `s` splits as local `@` domain `.` tld with the `@` at index `at` and
   * the `.` at index `dot`: a non-empty local part of `[a-zA-Z0-9._-]`, a
   * non-empty domain of `[a-zA-Z0-9.-]`, and a top-level domain of 2 to 6
   * ASCII letters.
   */
  predicate EmailSplit(s: string, at: int, dot: int) {
    0 < at && at + 1 < dot && dot + 3 <= |s| <= dot + 7
    && s[at] == '@' && s[dot] == '.'
    && (forall k :: 0 <= k < at ==> IsEmailLocalChar(s[k]))
    && (forall k :: at < k < dot ==> IsEmailDomainChar(s[k]))
    && (forall k :: dot < k < |s| ==> IsAsciiLetter(s[k]))
  }

  /** The regular expression matches the whole of `s`. */
  ghost predicate EmailPatternMatches(s: string) {
    exists at, dot :: EmailSplit(s, at, dot)
  }

  predicate AllLocalChars(s: string) { forall k :: 0 <= k < |s| ==> IsEmailLocalChar(s[k]) }
  predicate AllDomainChars(s: string) { forall k :: 0 <= k < |s| ==> IsEmailDomainChar(s[k]) }
  predicate AllAsciiLetters(s: string) { forall k :: 0 <= k < |s| ==> IsAsciiLetter(s[k]) }

  /**
   * The email decision: one `@` with a non-empty local part before it; the
   * domain after it is made of domain characters, and its last `.` has a
   * non-empty prefix and 2 to 6 letters after it.
   */
  function EmailOk(email: string): bool {
    match IndexOf(email, '@')
    case None => false
    case Some(at) =>
      var domain := email[at + 1..];
      at > 0 && AllLocalChars(email[..at]) && AllDomainChars(domain)
      && (match LastIndexOf(domain, '.')
          case None => false
          case Some(d) => d > 0 && 2 <= |domain| - d - 1 <= 6 && AllAsciiLetters(domain[d + 1..]))
  }

  /** The decision accepts exactly the strings the regular expression matches. */
  lemma EmailOkIsPattern(email: string)
    ensures EmailOk(email) <==> EmailPatternMatches(email)
  {
    if EmailPatternMatches(email) {
      var at, dot :| EmailSplit(email, at, dot);
      SplitIsForced(email, at, dot);
    } else {
      match IndexOf(email, '@') {
      case None =>
      case Some(at) =>
        var domain := email[at + 1..];
        match LastIndexOf(domain, '.') {
        case None =>
        case Some(d) =>
          if at > 0 && AllLocalChars(email[..at]) && AllDomainChars(domain)
             && d > 0 && 2 <= |domain| - d - 1 <= 6 && AllAsciiLetters(domain[d + 1..]) {
            var dot := at + 1 + d;
            forall k | dot < k < |email| ensures IsAsciiLetter(email[k]) {
              assert email[k] == domain[d + 1..][k - dot - 1];
            }
            forall k | at < k < dot ensures IsEmailDomainChar(email[k]) {
              assert email[k] == domain[k - at - 1];
            }
            forall k | 0 <= k < at ensures IsEmailLocalChar(email[k]) {
              assert email[k] == email[..at][k];
            }
            assert EmailSplit(email, at, dot);
          }
        }
      }
    }
  }

  /**
   * In any match the `@` is the first (indeed the only) one and the `.`
   * is the last `.` of the domain: the split is unique.
   */
  lemma SplitIsForced(s: string, at: int, dot: int)
    requires EmailSplit(s, at, dot)
    ensures IndexOf(s, '@') == Some(at)
    ensures var domain := s[at + 1..];
      AllLocalChars(s[..at]) && AllDomainChars(domain)
      && LastIndexOf(domain, '.') == Some(dot - at - 1)
      && AllAsciiLetters(domain[dot - at..])
  {
    var domain := s[at + 1..];
    assert forall k :: 0 <= k < at ==> IsEmailLocalChar(s[k]);
    assert forall k :: 0 <= k < at ==> s[..at][k] == s[k];
    assert forall k :: 0 <= k < |domain| ==> domain[k] == s[at + 1 + k];
    assert forall k :: at < k < dot ==> IsEmailDomainChar(s[k]);
    assert forall k :: dot < k < |s| ==> IsAsciiLetter(s[k]);
  }

  /**
   * An accepted address has exactly one `@`, and it is neither the first
   * nor the last character.
   */
  lemma {:induction false} EmailShape(email: string)
    requires EmailOk(email)
    ensures exists at :: (0 < at < |email| - 1 && email[at] == '@'
      && forall k :: 0 <= k < |email| && email[k] == '@' ==> k == at)
  {
    EmailOkIsPattern(email);
    var at, dot :| EmailSplit(email, at, dot);
    forall k | 0 <= k < |email| && k != at ensures email[k] != '@' {
      if k < at {
        assert IsEmailLocalChar(email[k]);
      } else if k < dot {
        assert IsEmailDomainChar(email[k]);
      } else if k > dot {
        assert IsAsciiLetter(email[k]);
      }
    }
  }

  lemma EmailValidExample()
    ensures EmailOk("a@b.com")
  {
    var s := "a@b.com";
    assert EmailSplit(s, 1, 3);
    EmailOkIsPattern(s);
  }

  lemma EmailWithoutDotInvalid()
    ensures !EmailOk("a@b")
  {
  }

  /** Two `@` signs anywhere reject the address. */
  lemma EmailWithTwoAtsRejected(email: string, i: int, j: int)
    requires 0 <= i < j < |email| && email[i] == '@' && email[j] == '@'
    ensures !EmailOk(email)
  {
    if EmailOk(email) {
      EmailShape(email);
    }
  }

  lemma EmailWithTwoAtsInvalid()
    ensures !EmailOk("a.b@@c.com")
  {
    EmailWithTwoAtsRejected("a.b@@c.com", 3, 4);
  }
}
