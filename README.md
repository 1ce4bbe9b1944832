# Sign-up form validation, modelled in Dafny

The page `myPage` has a sign-up form, and `myPage/js/validation.js` checks it.

- **Live checks.** While the user types, the two password fields are checked live. The complexity rule is 8 or more of `[A-Za-z\d@$!%*?&]`, with a letter, a digit and a symbol. The confirmation must equal the password. Each check writes or clears its error message.
- **On submit.**
  - The handler trims the user id, name, age and email.
  - It clears every `.error-message` element.
  - It runs the two password checks again, then checks:
    - the id against `^[a-zA-Z0-9]{5,12}$`;
    - the name against `^[가-힣a-zA-Z]{2,}$`;
    - the age with `parseInt(age, 10)` and the range 14..100;
    - the email against `^[a-zA-Z0-9._-]+@[a-zA-Z0-9.-]+\.[a-zA-Z]{2,6}$`.
  - Every failing check writes its message and turns `isValid` false. The checks never stop early.
  - When `isValid` survives, a success notice is shown.

The project is organised as follows.

- **`wrappers.dfy`**: `Option`, which stands for "not found" and for parseInt's `NaN`.
- **`char_classes.dfy`**: the character classes the regular expressions use, and the ECMAScript white-space set.
- **`js_strings.dfy`**:
  - `String.prototype.trim`, with its characterisation, idempotence and padding lemmas;
  - the first and the last index of a character, which the model's email decision uses (the source itself calls neither).
- **`password_rules.dfy`**: the two password decisions as pure predicates.
  - The complexity regular expression is modelled as written, lookaheads included. It is proved equal to five plain conditions.
  - The empty password is exempt.
- **`field_rules.dfy`**:
  - the id and name rules;
  - `parseInt(s, 10)` as a prefix parser: leading white space, an optional sign, the maximal run of digits, and `None` for `NaN`. It is proved the inverse of decimal printing;
  - the age rule.
- **`email_rule.dfy`**:
  - `EmailPatternMatches` reads the email regular expression as written: some split into local part, `@`, domain, `.` and top-level domain exists;
  - `EmailOk` decides it by locating the first `@` and the last `.`;
  - the two are proved equal.
- **`signup_form.dfy`**: the page state as a class. It holds the two password values and the six error-message slots (`pw-error`, `pw-confirm-error`, `id-error`, `name-error`, `age-error`, `email-error`). Its methods are:
  - the two validators, which write their slot and return the verdict;
  - the two `input` handlers;
  - the `submit` handler. It clears the slots with a loop, then runs the six checks, folding them into `isValid`.

  `Submit` returns `isValid`. The success notice is shown exactly when it is true.

The model follows the code as written. In particular, two empty password fields pass the password part of a submit, because the submit handler reuses the live checks, and those let empty values through (`EmptyPasswordsPassSubmit`).

## Model

| member | source | states |
|---|---|---|
| PasswordRules.PasswordComplexityOk | myPage/js/validation.js:10-21 | Accepts the empty password, and otherwise exactly a password of 8 or more characters, all from `[A-Za-z0-9@$!%*?&]`, that contains an ASCII letter, a digit and one of `@$!%*?&` |
| PasswordRules.PasswordPatternMatches | myPage/js/validation.js:12 | Accepts exactly the strings the complexity regular expression matches: at the start, each of the three lookaheads finds a letter, a digit and a symbol before any line terminator, and the whole string is 8 or more allowed characters |
| PasswordRules.ComplexityIsPattern | myPage/js/validation.js:10-21 | The complexity verdict is true exactly when the password is empty or the regular expression (three lookaheads, then 8+ allowed characters to the end) matches it |
| PasswordRules.NonEmptyPasswordRejectedExactly | myPage/js/validation.js:12-20 | A non-empty password is rejected exactly when it is shorter than 8, has no ASCII letter, has no digit, has no `@$!%*?&`, or contains a character outside those classes |
| PasswordRules.EmptyPasswordPasses | myPage/js/validation.js:14-19 | The empty password is accepted |
| PasswordRules.PasswordExamples | myPage/js/validation.js:12 | "Abc12345!" is accepted; "abcdefgh", "Ab1!" and "Abc 12345!" are rejected |
| PasswordRules.PasswordMatchOk | myPage/js/validation.js:24-32 | The match check fails exactly when the confirmation is non-empty and differs from the password |
| PasswordRules.MatchPassThroughs | myPage/js/validation.js:26-31 | An empty confirmation passes whatever the password; equal strings pass; a non-empty confirmation passes exactly when it equals the password |
| SignupForm.SignupForm.ValidatePasswordComplexity | myPage/js/validation.js:10-21 | Returns the complexity verdict, and leaves `pw-error` empty exactly when it is true (its message otherwise) |
| SignupForm.SignupForm.ValidatePasswordMatch | myPage/js/validation.js:24-33 | Returns the match verdict, and leaves `pw-confirm-error` empty exactly when it is true (its message otherwise) |
| SignupForm.SignupForm.OnPasswordInput | myPage/js/validation.js:38-42 | Stores the new password. Rewrites `pw-error` from the new value and `pw-confirm-error` from the new value against the current confirmation. Leaves the confirmation and the other four slots unchanged. Re-establishes the password-slot invariant |
| SignupForm.SignupForm.OnConfirmInput | myPage/js/validation.js:45-47 | Stores the new confirmation and rewrites only `pw-confirm-error`, from the current password against it. Every other slot, `pw-error` included, and the password are unchanged. The password-slot invariant is preserved |
| SignupForm.SignupForm.SetText | myPage/js/validation.js:62 | Writing one slot's text changes that slot only |
| SignupForm.SignupForm.ClearMessages | myPage/js/validation.js:62 | After the loop over the error-message elements, every slot is empty |
| SignupForm.EverySlotIsAnErrorSlot | myPage/js/validation.js:62 | The elements the clearing loop visits include every message slot |
| SignupForm.SignupForm.CheckUserId | myPage/js/validation.js:74-78 | On a cleared slot: returns the id verdict and leaves `id-error` empty exactly when it passes |
| SignupForm.SignupForm.CheckName | myPage/js/validation.js:81-85 | On a cleared slot: returns the name verdict and leaves `name-error` empty exactly when it passes |
| SignupForm.SignupForm.CheckAge | myPage/js/validation.js:88-92 | On a cleared slot: returns the age verdict and leaves `age-error` empty exactly when it passes |
| SignupForm.SignupForm.CheckEmail | myPage/js/validation.js:95-99 | On a cleared slot: returns the email verdict and leaves `email-error` empty exactly when it passes |
| SignupForm.SignupForm.CheckPasswords | myPage/js/validation.js:65-71 | Both password checks run, neither skipped; the result is their conjunction and each slot shows its own verdict |
| SignupForm.SignupForm.CheckFields | myPage/js/validation.js:73-99 | All four field checks run; the result is their conjunction and each slot shows its own verdict |
| SignupForm.SignupForm.RunChecks | myPage/js/validation.js:56-99 | With the four field slots cleared, the result is the conjunction of all six verdicts (passwords untrimmed, the rest trimmed), and every slot shows its own verdict |
| SignupForm.SignupForm.Submit | myPage/js/validation.js:52-106 | From any state, the result (whether the success notice is shown) is the conjunction of the six verdicts on the current passwords and the trimmed id, name, age and email. Every slot shows its message exactly when its check failed. The passwords are unchanged and the password-slot invariant holds |
| SignupForm.SignupForm.ShowsEverySlot | myPage/js/validation.js:62-99 | After a submit, each slot is empty exactly when its own check passed, and otherwise holds that slot's fixed message |
| SignupForm.SignupForm.constructor | myPage/js/validation.js:4-7 | The page starts with empty fields and empty slots, which satisfies the password-slot invariant |
| SignupForm.Message | myPage/js/validation.js:15 | Every slot's failure message is non-empty |
| SignupForm.SlotText | myPage/js/validation.js:14-19 | A slot's text is empty exactly when its check passed, and is the slot's message otherwise |
| SignupForm.SubmitVerdicts | myPage/js/validation.js:56-99 | The six verdicts of a submit: complexity and match on the untrimmed passwords, and the id, name, age and email rules on the trimmed values |
| SignupForm.ValidIffNoMessage | myPage/js/validation.js:63-103 | `isValid` is true exactly when the submit leaves every slot empty |
| SignupForm.EmptyPasswordsPassSubmit | myPage/js/validation.js:65-71 | Two empty password fields pass both password checks of the submit and leave both password slots empty |
| SignupForm.SubmitIgnoresPadding | myPage/js/validation.js:56-59 | Any white space added before or after the user id, the name, the age or the email, with different pads on each side and for each field, changes no verdict of the submit |
| SignupForm.WellFormedIdAndName | myPage/js/validation.js:56-57 | "user123" and "Kim" pass the id and name checks after trimming |
| SignupForm.WellFormedAgeAndEmail | myPage/js/validation.js:58-59 | "25" and "a@b.com" pass the age and email checks after trimming |
| SignupForm.WellFormedSignupPasses | myPage/js/validation.js:52-103 | A complete well-formed sign-up passes all six checks and leaves every slot empty |
| SignupForm.EmptySignupFails | myPage/js/validation.js:52-99 | An all-empty form fails. The id, name, age and email slots show their messages, and the password slots stay empty |
| JsStrings.LeadingWhitespace | myPage/js/validation.js:56-59 | Counts exactly the white space at the start of the string |
| JsStrings.TrailingWhitespace | myPage/js/validation.js:56-59 | Counts exactly the white space at the end of the string |
| JsStrings.Trim | myPage/js/validation.js:56-59 | `String.prototype.trim`: drops the ECMAScript white space and line terminators at both ends, and nothing else |
| JsStrings.TrimIgnoresPadding | myPage/js/validation.js:56-59 | Any white space added before and after any string, with different pads on each side, leaves its trimmed value unchanged |
| JsStrings.TrimOfBlank | myPage/js/validation.js:56-59 | A string of nothing but white space trims to the empty string |
| JsStrings.TrimCharacterized | myPage/js/validation.js:56-59 | `trim` returns a slice that neither starts nor ends with white space and has only white space around it in the original |
| JsStrings.TrimIdempotent | myPage/js/validation.js:56-59 | Trimming twice is trimming once |
| JsStrings.TrimOfTrimmed | myPage/js/validation.js:56-59 | A string with no white space at either end is unchanged by `trim` |
| JsStrings.TrimDropsPadding | myPage/js/validation.js:56-59 | Any white space added around a non-empty string with no white space at either end is removed by `trim` |
| JsStrings.IndexOf | myPage/js/validation.js:95 | The first position of a character, or none exactly when it does not occur. The source does not call it; it is the model's way of locating the `@` when deciding the email regular expression |
| JsStrings.LastIndexOf | myPage/js/validation.js:95 | The last position of a character, or none exactly when it does not occur. The source does not call it; it is the model's way of locating the domain's last `.` when deciding the email regular expression |
| FieldRules.UserIdOk | myPage/js/validation.js:74-75 | Accepts exactly the ids of 5 to 12 characters, every one an ASCII letter or digit |
| FieldRules.NameOk | myPage/js/validation.js:81-82 | Accepts exactly the names of 2 or more characters, every one an ASCII letter or a Hangul syllable U+AC00..U+D7A3 |
| FieldRules.AgeOk | myPage/js/validation.js:88-89 | Accepts exactly the texts whose `parseInt` is a number, not NaN, between 14 and 100 inclusive |
| FieldRules.UserIdExamples | myPage/js/validation.js:74-75 | "abcde" and "user123" are valid ids; "ab", "abc$12" and a 13-character id are not |
| FieldRules.NameExamples | myPage/js/validation.js:81-82 | "Kim", "김철수" and "Lee민" are valid names; "K", "", "Kim1" and the jamo "ㄱㄴ" are not |
| FieldRules.DigitRun | myPage/js/validation.js:88 | The length of the maximal run of decimal digits at the start of the string |
| FieldRules.ParseInt | myPage/js/validation.js:88 | `parseInt` is NaN exactly when no digit follows the white space and sign; a negative result needs a `-` sign |
| FieldRules.DecimalString | myPage/js/validation.js:88 | The decimal spelling of a number is a non-empty digit string with no leading zero |
| FieldRules.DecimalValueOfString | myPage/js/validation.js:88 | Reading the decimal spelling of `n` gives back `n` |
| FieldRules.ParseIntOfSignedDigits | myPage/js/validation.js:88 | An optional sign, digits, then a non-digit tail: `parseInt` gives the signed value of the digits and ignores the tail |
| FieldRules.ParseIntOfDecimal | myPage/js/validation.js:88 | `parseInt` inverts decimal printing, with no sign, with `+` and with `-` |
| FieldRules.AgeOkExactly | myPage/js/validation.js:88-89 | An age written as a number is accepted exactly in 14..100 (also with `+`); with `-` it is never accepted |
| FieldRules.AgeWithoutDigitsRejected | myPage/js/validation.js:88-89 | A text that does not start with white space, a sign or a digit is NaN and rejected |
| FieldRules.Age14Accepted | myPage/js/validation.js:89 | "14" is accepted (lower bound) |
| FieldRules.Age100Accepted | myPage/js/validation.js:89 | "100" is accepted (upper bound) |
| FieldRules.Age13Rejected | myPage/js/validation.js:89 | "13" is rejected |
| FieldRules.Age101Rejected | myPage/js/validation.js:89 | "101" is rejected |
| FieldRules.AgeNonNumberRejected | myPage/js/validation.js:88-89 | "abc" and "" are NaN and rejected |
| FieldRules.AgePlusSignAccepted | myPage/js/validation.js:88-89 | "+20" is read as 20 and accepted |
| FieldRules.AgeMinusSignRejected | myPage/js/validation.js:88-89 | "-20" is read as -20 and rejected |
| FieldRules.AgeTrailingTextIgnored | myPage/js/validation.js:88-89 | "25years" is read as 25 and accepted |
| FieldRules.AgeTrailingTextIgnoredBelow | myPage/js/validation.js:88-89 | "12abc" is read as 12 and rejected |
| FieldRules.AgeWithTail | myPage/js/validation.js:88-89 | Any text after the leading number is ignored: the verdict is the range test on that number |
| EmailRule.EmailPatternMatches | myPage/js/validation.js:95 | Accepts exactly the strings that split into a non-empty local part of `[a-zA-Z0-9._-]`, an `@`, a non-empty domain of `[a-zA-Z0-9.-]`, a `.` and 2 to 6 ASCII letters, as the email regular expression does |
| EmailRule.EmailOk | myPage/js/validation.js:95-96 | Accepts exactly the addresses whose first `@` has a non-empty local part of local characters before it and a domain of domain characters after it, where the domain's last `.` has a non-empty prefix and 2 to 6 letters after it |
| EmailRule.EmailOkIsPattern | myPage/js/validation.js:95-96 | The decision via the first `@` and the last `.` accepts exactly the strings the email regular expression matches |
| EmailRule.SplitIsForced | myPage/js/validation.js:95 | In any match, the `@` is the first `@` and the `.` is the last `.` of the domain, so the split is unique |
| EmailRule.EmailShape | myPage/js/validation.js:95-96 | An accepted address has exactly one `@`, neither first nor last |
| EmailRule.EmailWithTwoAtsRejected | myPage/js/validation.js:95-96 | Any address with two `@` signs is rejected |
| EmailRule.EmailValidExample | myPage/js/validation.js:95-96 | "a@b.com" is accepted |
| EmailRule.EmailWithoutDotInvalid | myPage/js/validation.js:95-96 | "a@b" is rejected |
| EmailRule.EmailWithTwoAtsInvalid | myPage/js/validation.js:95-96 | "a.b@@c.com" is rejected |
| CharClasses.DigitValue | myPage/js/validation.js:88 | A decimal digit's value is below 10 |
| CharClasses.DigitChar | myPage/js/validation.js:88 | The digit character for a value below 10 is a decimal digit whose value is that number |

## Left out

- **DOM plumbing.**
  - The model leaves out `document.getElementById`, `querySelectorAll`, `addEventListener` and `e.preventDefault()`.
  - The six slots are the class's fields. The model assumes they are all the `.error-message` elements of the page. The HTML is not part of this model.
- **Page at load.** The constructor assumes the page loads with both password inputs and all six message elements empty. The HTML is not part of this model. The invariant `Valid()`, and with it `OnConfirmInput`'s precondition, starts from that assumption.
- **Password values.** The submit handler reads both password inputs from the page (lines 66 and 69). The model reads the values stored by the last `input` event of each field. The model assumes every change to the two password inputs fires `input`, which the invariant `Valid()` and `OnConfirmInput`'s precondition rely on. A form reset, script-set values or a browser restoring form state would not fire it, and the model does not capture those.
- **Unlistened inputs.** The id, name, age and email inputs have no listeners, so their values are parameters of `Submit`.
- **`alert`.** The success alert of line 103 is represented by `Submit` returning true. The alert text is not modelled.
- **`this.submit()`.** The server send at line 105 is commented out in the source and not modelled.
- **Message texts.** The Korean message texts are replaced by short English constants. Only their non-emptiness, and which slot holds which, matter to the behaviour.
- **Strings.**
  - Strings are sequences of Unicode scalar values, not UTF-16 code units.
  - `length` differs only for characters outside the Basic Multilingual Plane.
  - Every character class of the rules rejects those characters, and lone surrogates are not representable.
- **`trim` whitespace set.** It is the ECMAScript WhiteSpace and LineTerminator set as listed in `CharClasses.IsJsWhitespace`. Future Unicode additions to category Zs are not tracked.
- **Trimming order.** `Submit` trims the four values inside `RunChecks`, after clearing the slots rather than before it. Trimming reads only the given values and clearing writes only the slots, so the outcome is the same.
- FieldRules.ParseInt: the result is an unbounded integer. The model does not capture how JavaScript rounds numbers of more than 2^53 to a double, or the sign of `-0`. Neither changes the age decision: rounding preserves the order, 14 and 100 are exact, and `-0` is below 14.
- **General regular expressions.** No general regular-expression engine is modelled. Each pattern is written out:
  - The password pattern is modelled with its lookaheads, including the rule that `.` does not cross a line terminator.
  - The id and name patterns are written as character-class predicates.
  - The email pattern is written as the existence of a split.
