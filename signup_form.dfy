/**
 * The sign-up form as the page holds it: the two password fields and the
 * six error-message slots, with the two live `input` handlers and the
 * `submit` handler that drive them. The four other fields have no
 * listeners; their values are read at submit time and are given to Submit
 * as parameters. Submit's result is whether the success notice is shown.
 */
module SignupForm {
  import opened CharClasses
  import opened JsStrings
  import opened PasswordRules
  import opened FieldRules
  import opened EmailRule

  /** The page's error-message elements, one per checked field. */
  datatype Slot = PwError | PwConfirmError | IdError | NameError | AgeError | EmailError

  /** The elements `querySelectorAll('.error-message')` visits. */
  const ErrorSlots: seq<Slot> := [PwError, PwConfirmError, IdError, NameError, AgeError, EmailError]

  lemma EverySlotIsAnErrorSlot(slot: Slot)
    ensures slot in ErrorSlots
  {
  }

  /**
   * The fixed message each slot shows when its check fails (short English
   * stand-ins for the page's Korean texts).
   */
  function Message(slot: Slot): (m: string)
    ensures m != []
  {
    match slot
    case PwError => "Weak password."
    case PwConfirmError => "Passwords differ."
    case IdError => "Invalid id."
    case NameError => "Invalid name."
    case AgeError => "Invalid age."
    case EmailError => "Invalid email."
  }

  /** What a slot shows after its check: empty exactly when the check passed. */
  function SlotText(slot: Slot, ok: bool): (text: string)
    ensures text == "" <==> ok
    ensures !ok ==> text == Message(slot)
  {
    if ok then "" else Message(slot)
  }

  /** The outcome of the six checks of one submit. */
  datatype Verdicts = Verdicts(password: bool, confirmation: bool, userId: bool,
                               name: bool, age: bool, email: bool)
  {
    /** The verdict that decides `slot`. */
    function Of(slot: Slot): bool {
      match slot
      case PwError => password
      case PwConfirmError => confirmation
      case IdError => userId
      case NameError => name
      case AgeError => age
      case EmailError => email
    }

    /** `isValid` at the end of the submit handler. */
    predicate AllPass() {
      password && confirmation && userId && name && age && email
    }
  }

  /**
   * The six checks on the values read at submit: the passwords as they
   * are, the other four fields trimmed first.
   */
  function SubmitVerdicts(password: string, confirmation: string, userId: string,
                          name: string, age: string, email: string): Verdicts
  {
    Verdicts(PasswordComplexityOk(password), PasswordMatchOk(password, confirmation),
             UserIdOk(Trim(userId)), NameOk(Trim(name)), AgeOk(Trim(age)), EmailOk(Trim(email)))
  }

  /** The form is valid exactly when the submit leaves every slot empty. */
  lemma {:induction false} ValidIffNoMessage(v: Verdicts)
    ensures v.AllPass() <==> forall slot :: SlotText(slot, v.Of(slot)) == ""
  {
    if forall slot :: SlotText(slot, v.Of(slot)) == "" {
      assert SlotText(PwError, v.Of(PwError)) == "" && SlotText(PwConfirmError, v.Of(PwConfirmError)) == "";
      assert SlotText(IdError, v.Of(IdError)) == "" && SlotText(NameError, v.Of(NameError)) == "";
      assert SlotText(AgeError, v.Of(AgeError)) == "" && SlotText(EmailError, v.Of(EmailError)) == "";
    }
  }

  /**
   * Both password fields left empty pass the password part of the submit:
   * the submit reuses the live checks, which let empty values through.
   */
  lemma EmptyPasswordsPassSubmit(userId: string, name: string, age: string, email: string)
    ensures var v := SubmitVerdicts("", "", userId, name, age, email);
      v.password && v.confirmation
      && SlotText(PwError, v.Of(PwError)) == "" && SlotText(PwConfirmError, v.Of(PwConfirmError)) == ""
  {
  }

  /**
   * Whitespace added before or after the id, the name, the age or the
   * email, each with pads of its own, does not change the outcome.
   */
  lemma SubmitIgnoresPadding(password: string, confirmation: string,
                             userId: string, name: string, age: string, email: string,
                             idPre: string, idPost: string, namePre: string, namePost: string,
                             agePre: string, agePost: string, emailPre: string, emailPost: string)
    requires AllWhitespace(idPre) && AllWhitespace(idPost) && AllWhitespace(namePre) && AllWhitespace(namePost)
    requires AllWhitespace(agePre) && AllWhitespace(agePost) && AllWhitespace(emailPre) && AllWhitespace(emailPost)
    ensures SubmitVerdicts(password, confirmation, idPre + userId + idPost, namePre + name + namePost,
                           agePre + age + agePost, emailPre + email + emailPost)
         == SubmitVerdicts(password, confirmation, userId, name, age, email)
  {
    TrimIgnoresPadding(idPre, userId, idPost);
    TrimIgnoresPadding(namePre, name, namePost);
    TrimIgnoresPadding(agePre, age, agePost);
    TrimIgnoresPadding(emailPre, email, emailPost);
  }

  /** The id and name of the well-formed sign-up below pass once trimmed. */
  lemma WellFormedIdAndName()
    ensures UserIdOk(Trim("user123")) && NameOk(Trim("Kim"))
  {
    UserIdExamples();
    NameExamples();
    TrimOfTrimmed("user123");
    TrimOfTrimmed("Kim");
  }

  /** The age and email of the well-formed sign-up below pass once trimmed. */
  lemma WellFormedAgeAndEmail()
    ensures AgeOk(Trim("25")) && EmailOk(Trim("a@b.com"))
  {
    TrimOfTrimmed("25");
    TrimOfTrimmed("a@b.com");
    AgeOfDecimal("25", 25);
    EmailValidExample();
  }

  /** A complete, well-formed sign-up passes every check and leaves no message. */
  lemma WellFormedSignupPasses()
    ensures var v := SubmitVerdicts("Abc12345!", "Abc12345!", "user123", "Kim", "25", "a@b.com");
      v.AllPass() && forall slot :: SlotText(slot, v.Of(slot)) == ""
  {
    PasswordExamples();
    WellFormedIdAndName();
    WellFormedAgeAndEmail();
    ValidIffNoMessage(SubmitVerdicts("Abc12345!", "Abc12345!", "user123", "Kim", "25", "a@b.com"));
  }

  /**
   * A form submitted with every field empty fails, with the id, name, age
   * and email messages shown and the password slots left empty.
   */
  lemma EmptySignupFails()
    ensures var v := SubmitVerdicts("", "", "", "", "", "");
      !v.AllPass()
      && SlotText(IdError, v.Of(IdError)) == Message(IdError)
      && SlotText(NameError, v.Of(NameError)) == Message(NameError)
      && SlotText(AgeError, v.Of(AgeError)) == Message(AgeError)
      && SlotText(EmailError, v.Of(EmailError)) == Message(EmailError)
      && SlotText(PwError, v.Of(PwError)) == "" && SlotText(PwConfirmError, v.Of(PwConfirmError)) == ""
  {
    TrimOfTrimmed("");
    AgeNonNumberRejected();
    assert !EmailOk("");
  }

  class SignupForm {
    /** The current values of the `password` and `password-confirm` inputs. */
    var password: string
    var passwordConfirm: string
    /** The text of the six error-message elements. */
    var pwError: string
    var pwConfirmError: string
    var idError: string
    var nameError: string
    var ageError: string
    var emailError: string

    /** The text `slot` shows now. */
    function Text(slot: Slot): string
      reads this
    {
      match slot
      case PwError => pwError
      case PwConfirmError => pwConfirmError
      case IdError => idError
      case NameError => nameError
      case AgeError => ageError
      case EmailError => emailError
    }

    /**
     * The two password slots always show the verdict on the current
     * password values: each handler that changes what they depend on
     * rewrites them.
     */
    ghost predicate Valid()
      reads this
    {
      pwError == SlotText(PwError, PasswordComplexityOk(password))
      && pwConfirmError == SlotText(PwConfirmError, PasswordMatchOk(password, passwordConfirm))
    }

    /** The page as loaded: empty fields and empty slots. */
    constructor ()
      ensures Valid()
      ensures password == "" && passwordConfirm == ""
      ensures forall slot :: Text(slot) == ""
    {
      password := "";
      passwordConfirm := "";
      pwError, pwConfirmError, idError, nameError, ageError, emailError := "", "", "", "", "", "";
    }

    /** `el.textContent = text` on the element of `slot`. */
    method SetText(slot: Slot, text: string)
      modifies this`pwError, this`pwConfirmError, this`idError, this`nameError, this`ageError, this`emailError
      ensures Text(slot) == text
      ensures forall other :: other != slot ==> Text(other) == old(Text(other))
    {
      match slot
      case PwError => pwError := text;
      case PwConfirmError => pwConfirmError := text;
      case IdError => idError := text;
      case NameError => nameError := text;
      case AgeError => ageError := text;
      case EmailError => emailError := text;
    }

    /** validatePasswordComplexity: decide, then show or clear the password message. */
    method ValidatePasswordComplexity(value: string) returns (ok: bool)
      modifies this`pwError
      ensures ok == PasswordComplexityOk(value)
      ensures pwError == SlotText(PwError, ok)
    {
      ComplexityIsPattern(value);
      if |value| > 0 && !PasswordPatternMatches(value) {
        pwError := Message(PwError);
        ok := false;
      } else {
        pwError := "";
        ok := true;
      }
    }

    /** validatePasswordMatch: decide, then show or clear the confirmation message. */
    method ValidatePasswordMatch(value: string, confirmation: string) returns (ok: bool)
      modifies this`pwConfirmError
      ensures ok == PasswordMatchOk(value, confirmation)
      ensures pwConfirmError == SlotText(PwConfirmError, ok)
    {
      if |confirmation| > 0 && value != confirmation {
        pwConfirmError := Message(PwConfirmError);
        ok := false;
      } else {
        pwConfirmError := "";
        ok := true;
      }
    }

    /**
     * The `input` listener of the password field: the new value is checked
     * for complexity and against the current confirmation.
     */
    method OnPasswordInput(value: string)
      modifies this
      ensures Valid()
      ensures password == value && passwordConfirm == old(passwordConfirm)
      ensures pwError == SlotText(PwError, PasswordComplexityOk(value))
      ensures pwConfirmError == SlotText(PwConfirmError, PasswordMatchOk(value, passwordConfirm))
      ensures forall slot :: slot != PwError && slot != PwConfirmError ==> Text(slot) == old(Text(slot))
    {
      password := value;
      var _ := ValidatePasswordComplexity(password);
      var _ := ValidatePasswordMatch(password, passwordConfirm);
    }

    /**
     * The `input` listener of the confirmation field: only the
     * confirmation slot is rewritten.
     */
    method OnConfirmInput(value: string)
      requires Valid()
      modifies this
      ensures Valid()
      ensures passwordConfirm == value && password == old(password)
      ensures pwConfirmError == SlotText(PwConfirmError, PasswordMatchOk(password, value))
      ensures forall slot :: slot != PwConfirmError ==> Text(slot) == old(Text(slot))
    {
      passwordConfirm := value;
      var _ := ValidatePasswordMatch(password, passwordConfirm);
    }

    /**
     * The slots show the outcome `v` of a submit: each is empty exactly
     * when its check passed and holds its message otherwise.
     */
    predicate Shows(v: Verdicts)
      reads this
    {
      pwError == SlotText(PwError, v.password) && pwConfirmError == SlotText(PwConfirmError, v.confirmation)
      && idError == SlotText(IdError, v.userId) && nameError == SlotText(NameError, v.name)
      && ageError == SlotText(AgeError, v.age) && emailError == SlotText(EmailError, v.email)
    }

    /** Slot by slot, `Shows(v)` is the text `SlotText` gives for `v`. */
    lemma ShowsEverySlot(v: Verdicts)
      requires Shows(v)
      ensures forall slot :: Text(slot) == SlotText(slot, v.Of(slot))
      ensures forall slot :: Text(slot) == "" <==> v.Of(slot)
    {
      forall slot: Slot ensures Text(slot) == SlotText(slot, v.Of(slot)) {
        match slot {
          case PwError =>
          case PwConfirmError =>
          case IdError =>
          case NameError =>
          case AgeError =>
          case EmailError =>
        }
      }
    }

    /** `querySelectorAll('.error-message').forEach(el => el.textContent = '')` */
    method ClearMessages()
      modifies this`pwError, this`pwConfirmError, this`idError, this`nameError, this`ageError, this`emailError
      ensures forall slot :: Text(slot) == ""
    {
      var i := 0;
      while i < |ErrorSlots|
        invariant 0 <= i <= |ErrorSlots|
        invariant forall j :: 0 <= j < i ==> Text(ErrorSlots[j]) == ""
      {
        SetText(ErrorSlots[i], "");
        i := i + 1;
      }
      forall slot: Slot ensures Text(slot) == "" {
        EverySlotIsAnErrorSlot(slot);
      }
    }

    /** `if (!idRegex.test(userId))`: show the id message when the trimmed id fails. */
    method CheckUserId(userId: string) returns (ok: bool)
      requires idError == ""
      modifies this`idError
      ensures ok == UserIdOk(userId)
      ensures idError == SlotText(IdError, ok)
    {
      ok := UserIdOk(userId);
      if !ok {
        idError := Message(IdError);
      }
    }

    /** `if (!nameRegex.test(name))`: show the name message when the trimmed name fails. */
    method CheckName(name: string) returns (ok: bool)
      requires nameError == ""
      modifies this`nameError
      ensures ok == NameOk(name)
      ensures nameError == SlotText(NameError, ok)
    {
      ok := NameOk(name);
      if !ok {
        nameError := Message(NameError);
      }
    }

    /** `parseInt(age, 10)` and the range test: show the age message when they fail. */
    method CheckAge(age: string) returns (ok: bool)
      requires ageError == ""
      modifies this`ageError
      ensures ok == AgeOk(age)
      ensures ageError == SlotText(AgeError, ok)
    {
      ok := AgeOk(age);
      if !ok {
        ageError := Message(AgeError);
      }
    }

    /** `if (!emailRegex.test(email))`: show the email message when the trimmed email fails. */
    method CheckEmail(email: string) returns (ok: bool)
      requires emailError == ""
      modifies this`emailError
      ensures ok == EmailOk(email)
      ensures emailError == SlotText(EmailError, ok)
    {
      ok := EmailOk(email);
      if !ok {
        emailError := Message(EmailError);
      }
    }

    /**
     * Step 3 of the `submit` listener for the passwords: the live checks
     * run again on the current values, on cleared slots.
     */
    method CheckPasswords(passwordValue: string, confirmValue: string) returns (ok: bool)
      modifies this`pwError, this`pwConfirmError
      ensures ok == (PasswordComplexityOk(passwordValue) && PasswordMatchOk(passwordValue, confirmValue))
      ensures pwError == SlotText(PwError, PasswordComplexityOk(passwordValue))
      ensures pwConfirmError == SlotText(PwConfirmError, PasswordMatchOk(passwordValue, confirmValue))
    {
      ok := true;
      var passwordOk := ValidatePasswordComplexity(passwordValue);
      if !passwordOk {
        ok := false;
      }
      var matchOk := ValidatePasswordMatch(passwordValue, confirmValue);
      if !matchOk {
        ok := false;
      }
    }

    /**
     * Step 3 of the `submit` listener for the trimmed id, name, age and
     * email: each failing check writes its message into its cleared slot.
     */
    method CheckFields(userId: string, name: string, age: string, email: string) returns (ok: bool)
      requires idError == "" && nameError == "" && ageError == "" && emailError == ""
      modifies this`idError, this`nameError, this`ageError, this`emailError
      ensures ok == (UserIdOk(userId) && NameOk(name) && AgeOk(age) && EmailOk(email))
      ensures idError == SlotText(IdError, UserIdOk(userId)) && nameError == SlotText(NameError, NameOk(name))
      ensures ageError == SlotText(AgeError, AgeOk(age)) && emailError == SlotText(EmailError, EmailOk(email))
    {
      ok := true;
      var userIdOk := CheckUserId(userId);
      if !userIdOk {
        ok := false;
      }
      var nameOk := CheckName(name);
      if !nameOk {
        ok := false;
      }
      var ageOk := CheckAge(age);
      if !ageOk {
        ok := false;
      }
      var emailOk := CheckEmail(email);
      if !emailOk {
        ok := false;
      }
    }

    /**
     * Steps 1 and 3 of the `submit` listener on cleared slots: trim the id,
     * name, age and email, then run the six checks, each failure turning
     * `isValid` false without stopping the others.
     */
    method RunChecks(passwordValue: string, confirmValue: string, userIdValue: string,
                     nameValue: string, ageValue: string, emailValue: string) returns (isValid: bool)
      requires idError == "" && nameError == "" && ageError == "" && emailError == ""
      modifies this`pwError, this`pwConfirmError, this`idError, this`nameError, this`ageError, this`emailError
      ensures var v := SubmitVerdicts(passwordValue, confirmValue, userIdValue, nameValue, ageValue, emailValue);
        isValid == v.AllPass() && Shows(v)
    {
      var userId := Trim(userIdValue);
      var name := Trim(nameValue);
      var age := Trim(ageValue);
      var email := Trim(emailValue);

      isValid := true;
      var passwordsOk := CheckPasswords(passwordValue, confirmValue);
      if !passwordsOk {
        isValid := false;
      }
      var fieldsOk := CheckFields(userId, name, age, email);
      if !fieldsOk {
        isValid := false;
      }
    }

    /**
     * The `submit` listener: clear every slot, run all six checks (the
     * passwords untrimmed, the rest trimmed) without stopping at the first
     * failure; the success notice is shown exactly when the result is true.
     */
    method Submit(userIdValue: string, nameValue: string, ageValue: string, emailValue: string)
      returns (isValid: bool)
      modifies this
      ensures Valid()
      ensures password == old(password) && passwordConfirm == old(passwordConfirm)
      ensures var v := SubmitVerdicts(password, passwordConfirm, userIdValue, nameValue, ageValue, emailValue);
        isValid == v.AllPass() && Shows(v)
    {
      ClearMessages();
      assert idError == "" && nameError == "" && ageError == "" && emailError == "" by {
        assert Text(IdError) == "" && Text(NameError) == "" && Text(AgeError) == "" && Text(EmailError) == "";
      }
      isValid := RunChecks(password, passwordConfirm, userIdValue, nameValue, ageValue, emailValue);
    }
  }
}
