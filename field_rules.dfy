/**
 * The submit-time checks of the user id, the name and the age, on values
 * that have already been trimmed: `^[a-zA-Z0-9]{5,12}$`, `^[가-힣a-zA-Z]{2,}$`
 * and `parseInt(age, 10)` followed by the range 14..100.
 */
module FieldRules {
  import opened Wrappers
  import opened CharClasses
  import opened JsStrings

  /** `^[a-zA-Z0-9]{5,12}$` */
  predicate UserIdOk(userId: string) {
    5 <= |userId| <= 12 && forall k :: 0 <= k < |userId| ==> IsAsciiAlnum(userId[k])
  }

  lemma UserIdExamples()
    ensures UserIdOk("abcde") && UserIdOk("user123")
    ensures !UserIdOk("ab") && !UserIdOk("abc$12") && !UserIdOk("abcdefghijklm")
  {
    var bad := "abc$12";
    assert !IsAsciiAlnum(bad[3]);
  }

  /** `^[가-힣a-zA-Z]{2,}$` */
  predicate NameOk(name: string) {
    |name| >= 2 && forall k :: 0 <= k < |name| ==> IsNameChar(name[k])
  }

  lemma NameExamples()
    ensures NameOk("Kim") && NameOk("김철수") && NameOk("Lee민")
    ensures !NameOk("K") && !NameOk("") && !NameOk("Kim1") && !NameOk("ㄱㄴ")
  {
    var digit := "Kim1";
    assert !IsNameChar(digit[3]);
    var jamo := "ㄱㄴ";
    assert !IsNameChar(jamo[0]);
  }

  /** The number of decimal digits at the start of `s`. */
  function DigitRun(s: string): (n: nat)
    ensures n <= |s|
    ensures forall k :: 0 <= k < n ==> IsDecimalDigit(s[k])
    ensures n < |s| ==> !IsDecimalDigit(s[n])
  {
    if s == [] || !IsDecimalDigit(s[0]) then 0 else 1 + DigitRun(s[1..])
  }

  predicate AllDigits(s: string) {
    forall k :: 0 <= k < |s| ==> IsDecimalDigit(s[k])
  }

  /** The value of a string of decimal digits, most significant first. */
  function DecimalValue(digits: string): (v: nat)
    requires AllDigits(digits)
  {
    if digits == [] then 0
    else DecimalValue(digits[..|digits| - 1]) * 10 + DigitValue(digits[|digits| - 1])
  }

  /**
   * `parseInt(s, 10)`: skip leading whitespace, take an optional `+` or
   * `-`, then the longest run of decimal digits; None (NaN) when that run
   * is empty. Whatever follows the digits is ignored.
   */
  function ParseInt(s: string): (r: Option<int>)
    ensures r.None? <==> DigitRun(UnsignedPart(s)) == 0
    ensures r.Some? ==> (r.value < 0 ==> SignedNegative(s))
  {
    var body := UnsignedPart(s);
    var n := DigitRun(body);
    if n == 0 then None
    else
      var magnitude: int := DecimalValue(body[..n]);
      Some(if SignedNegative(s) then -magnitude else magnitude)
  }

  /** `s` without its leading whitespace */
  function WithoutLeadingWhitespace(s: string): string {
    s[LeadingWhitespace(s)..]
  }

  predicate SignedNegative(s: string) {
    var t := WithoutLeadingWhitespace(s);
    t != [] && t[0] == '-'
  }

  /** What follows the leading whitespace and the sign, if any. */
  function UnsignedPart(s: string): string {
    var t := WithoutLeadingWhitespace(s);
    if t != [] && (t[0] == '+' || t[0] == '-') then t[1..] else t
  }

  /** The age check: a number (not NaN) between 14 and 100 inclusive. */
  predicate AgeOk(age: string) {
    match ParseInt(age)
    case None => false
    case Some(n) => 14 <= n <= 100
  }

  /** The decimal spelling of `n`, without leading zeros. */
  function DecimalString(n: nat): (s: string)
    ensures s != [] && AllDigits(s)
    ensures |s| > 1 ==> s[0] != '0'
  {
    if n < 10 then [DigitChar(n)]
    else DecimalString(n / 10) + [DigitChar(n % 10)]
  }

  /** DecimalValue reads back what DecimalString wrote. */
  lemma {:induction false} DecimalValueOfString(n: nat)
    ensures DecimalValue(DecimalString(n)) == n
  {
    var s := DecimalString(n);
    if n >= 10 {
      DecimalValueOfString(n / 10);
      assert s[..|s| - 1] == DecimalString(n / 10);
    }
  }

  /**
   * An optional sign, digits, then anything that does not start with a
   * digit: parseInt gives the signed value of the digits.
   */
  lemma ParseIntOfSignedDigits(sign: string, digits: string, tail: string)
    requires sign == "" || sign == "+" || sign == "-"
    requires digits != [] && AllDigits(digits)
    requires tail == [] || !IsDecimalDigit(tail[0])
    ensures ParseInt(sign + digits + tail) ==
      Some(if sign == "-" then -(DecimalValue(digits) as int) else DecimalValue(digits))
  {
    var rest := digits + tail;
    assert sign + digits + tail == sign + rest;
    DigitRunOfDigits(digits, tail);
    assert rest[..|digits|] == digits;
    assert rest[0] == digits[0];
    ParseIntOfSignedRest(sign, rest, digits);
  }

  /** parseInt of a sign and a text whose leading run of digits is `digits`. */
  lemma ParseIntOfSignedRest(sign: string, rest: string, digits: string)
    requires sign == "" || sign == "+" || sign == "-"
    requires digits != [] && AllDigits(digits)
    requires |digits| <= |rest| && rest[..|digits|] == digits && DigitRun(rest) == |digits|
    requires IsDecimalDigit(rest[0])
    ensures ParseInt(sign + rest) ==
      Some(if sign == "-" then -(DecimalValue(digits) as int) else DecimalValue(digits))
  {
    SignThenDigits(sign, rest);
  }

  /** After an optional sign that a digit follows, the digits start at once. */
  lemma SignThenDigits(sign: string, rest: string)
    requires sign == "" || sign == "+" || sign == "-"
    requires rest != [] && IsDecimalDigit(rest[0])
    ensures UnsignedPart(sign + rest) == rest
    ensures SignedNegative(sign + rest) <==> sign == "-"
  {
    var s := sign + rest;
    if sign == "" {
      assert s == rest;
      LeadingNonWhitespace(s);
    } else {
      assert s[0] == sign[0] && s[1..] == rest;
      LeadingNonWhitespace(s);
    }
  }

  /** A string that starts with a sign or digit has no leading whitespace. */
  lemma LeadingNonWhitespace(s: string)
    requires s != [] && (IsDecimalDigit(s[0]) || s[0] == '+' || s[0] == '-')
    ensures WithoutLeadingWhitespace(s) == s
  {
    assert LeadingWhitespace(s) == 0;
  }

  lemma {:induction false} DigitRunOfDigits(digits: string, tail: string)
    requires AllDigits(digits)
    requires tail == [] || !IsDecimalDigit(tail[0])
    ensures DigitRun(digits + tail) == |digits|
  {
    var s := digits + tail;
    assert forall k :: 0 <= k < |digits| ==> s[k] == digits[k];
    if |digits| < |s| {
      assert s[|digits|] == tail[0];
    }
  }

  /** parseInt is the inverse of printing a number in decimal, with or without a sign. */
  lemma ParseIntOfDecimal(n: nat)
    ensures ParseInt(DecimalString(n)) == Some(n)
    ensures ParseInt("+" + DecimalString(n)) == Some(n)
    ensures ParseInt("-" + DecimalString(n)) == Some(-(n as int))
  {
    var s := DecimalString(n);
    DecimalValueOfString(n);
    ParseIntOfSignedNumber("", s, n);
    assert "" + s == s;
    ParseIntOfSignedNumber("+", s, n);
    ParseIntOfSignedNumber("-", s, n);
  }

  /** parseInt of an optional sign followed by nothing but the digits of `n`. */
  lemma ParseIntOfSignedNumber(sign: string, s: string, n: nat)
    requires sign == "" || sign == "+" || sign == "-"
    requires s != [] && AllDigits(s) && DecimalValue(s) == n
    ensures ParseInt(sign + s) == Some(if sign == "-" then -(n as int) else n)
  {
    DigitRunOfAllDigits(s);
    assert s[..|s|] == s;
    ParseIntOfSignedRest(sign, s, s);
  }

  lemma {:induction false} DigitRunOfAllDigits(s: string)
    requires AllDigits(s)
    ensures DigitRun(s) == |s|
  {
    if s != [] {
      DigitRunOfAllDigits(s[1..]);
    }
  }

  /** An age given as a plain decimal number is accepted exactly in 14..100. */
  lemma AgeOkExactly(n: nat)
    ensures AgeOk(DecimalString(n)) <==> 14 <= n <= 100
    ensures AgeOk("+" + DecimalString(n)) <==> 14 <= n <= 100
    ensures !AgeOk("-" + DecimalString(n))
  {
    ParseIntOfDecimal(n);
  }

  /** An age with no digit after the sign is NaN and rejected. */
  lemma AgeWithoutDigitsRejected(age: string)
    requires age == [] || !(IsDecimalDigit(age[0]) || IsJsWhitespace(age[0]) || age[0] == '+' || age[0] == '-')
    ensures ParseInt(age) == None && !AgeOk(age)
  {
    if age != [] {
      assert LeadingWhitespace(age) == 0;
      assert WithoutLeadingWhitespace(age) == age;
    }
  }

  /** The boundaries of the age range: 14 and 100 are in, 13 and 101 are out. */
  lemma Age14Accepted() ensures AgeOk("14") { AgeOfDecimal("14", 14); }
  lemma Age100Accepted() ensures AgeOk("100") { AgeOfDecimal("100", 100); }
  lemma Age13Rejected() ensures !AgeOk("13") { AgeOfDecimal("13", 13); }
  lemma Age101Rejected() ensures !AgeOk("101") { AgeOfDecimal("101", 101); }

  /** Text that is not a number is NaN. */
  lemma AgeNonNumberRejected()
    ensures !AgeOk("abc") && !AgeOk("")
  {
    AgeWithoutDigitsRejected("abc");
    AgeWithoutDigitsRejected("");
  }

  /** A sign is read: "+20" is 20, "-20" is below the range. */
  lemma AgePlusSignAccepted() ensures AgeOk("+20") { AgeWithSign("+", "20", 20); }
  lemma AgeMinusSignRejected() ensures !AgeOk("-20") { AgeWithSign("-", "20", 20); }

  lemma AgeOfDecimal(digits: string, n: nat)
    requires digits == DecimalString(n)
    ensures AgeOk(digits) <==> 14 <= n <= 100
  {
    AgeOkExactly(n);
  }

  lemma AgeWithSign(sign: string, digits: string, n: nat)
    requires sign == "+" || sign == "-"
    requires digits == DecimalString(n)
    ensures AgeOk(sign + digits) <==> sign == "+" && 14 <= n <= 100
  {
    AgeOkExactly(n);
  }

  /** Text after the digits is ignored: "25years" is the age 25, "12abc" the age 12. */
  lemma AgeTrailingTextIgnored() ensures AgeOk("25years") { AgeWithTail("25years", 2, 25); }
  lemma AgeTrailingTextIgnoredBelow() ensures !AgeOk("12abc") { AgeWithTail("12abc", 2, 12); }

  lemma AgeWithTail(age: string, k: nat, n: nat)
    requires k <= |age| && age[..k] == DecimalString(n)
    requires k == |age| || !IsDecimalDigit(age[k])
    ensures AgeOk(age) <==> 14 <= n <= 100
  {
    DecimalValueOfString(n);
    var digits := age[..k];
    DigitRunOfDigits(digits, age[k..]);
    assert digits + age[k..] == age;
    assert "" + age == age;
    ParseIntOfSignedRest("", age, digits);
    assert ParseInt(age) == Some(n);
  }
}
