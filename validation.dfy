/**
 * Form validation rules (src/utils/validation.ts). A rule maps a field
 * value to an error message, the empty string meaning "valid"; a
 * validator built by `createValidator` reports the first error of its
 * rules.
 */
module Validation {
  import opened Common
  import PhoneUtils
  import Sanitization

  // ---------------------------------------------------------------------
  // Single rules
  // ---------------------------------------------------------------------

  const RequiredSuffix := "을(를) 입력해주세요."

  /** `required`: an error for the empty or white-space-only value. */
  function Required(value: string, fieldName: string): (r: string)
  {
    if value == "" || Trim(value) == "" then fieldName + RequiredSuffix else ""
  }

  lemma {:induction false} RequiredIff(value: string, fieldName: string)
    ensures Required(value, fieldName) != "" <==> AllChars(value, IsSpace)
    ensures Required(value, fieldName) != "" ==> Required(value, fieldName) == fieldName + RequiredSuffix
  {
    TrimEmptyIffSpaces(value);
  }

  const EmailError := "올바른 이메일 형식을 입력해주세요."

  /** `email`: empty is fine, otherwise the pattern must match. */
  function Email(value: string): (r: string)
  {
    if value == "" then "" else if !EmailPattern(value) then EmailError else ""
  }

  lemma {:induction false} EmailIff(value: string)
    ensures Email(value) == "" <==> value == "" || EmailLike(value)
  {
    EmailPatternIff(value);
  }

  /** `password`: only presence is checked. */
  function Password(value: string): (r: string)
    ensures r == "" <==> value != ""
  {
    if value == "" then "비밀번호를 입력해주세요." else ""
  }

  /** `confirmPassword` */
  function ConfirmPassword(value: string, original: string): (r: string)
    ensures r == "" <==> value != "" && value == original
  {
    if value == "" then "비밀번호 확인을 입력해주세요."
    else if value != original then "비밀번호가 일치하지 않습니다."
    else ""
  }

  /** `phoneNumber`: empty is fine; then the digit count, then the 01x prefix. */
  function PhoneNumber(value: string): (r: string)
  {
    if value == "" then ""
    else
      var digits := PhoneUtils.ExtractNumbers(value);
      if |digits| < 10 || |digits| > 11 then PhoneUtils.PhoneLengthError
      else if !PhoneUtils.MobilePrefix(digits) then PhoneUtils.MobilePrefixError
      else ""
  }

  /**
   * For a non-empty value the form rule and `validatePhoneNumber` of the
   * phone helpers agree, message for message; the helper alone rejects a
   * value with no digit at all.
   */
  lemma {:induction false} PhoneNumberAgrees(value: string)
    requires value != ""
    ensures PhoneNumber(value) == "" <==> PhoneUtils.ValidatePhoneNumber(value) == PhoneUtils.Valid
    ensures PhoneUtils.ExtractNumbers(value) != "" && PhoneNumber(value) != "" ==>
      PhoneUtils.ValidatePhoneNumber(value) == PhoneUtils.Invalid(PhoneNumber(value))
    ensures PhoneUtils.ExtractNumbers(value) == "" ==> PhoneNumber(value) == PhoneUtils.PhoneLengthError
  {
  }

  /** `minLength(n)`: empty is fine; shorter than `n` is an error. */
  function MinLength(n: int, value: string): (r: string)
  {
    if value == "" then "" else if |value| < n then "최소 " + IntToString(n) + "자 이상 입력해주세요." else ""
  }

  /** `maxLength(n)`: empty is fine; longer than `n` is an error. */
  function MaxLength(n: int, value: string): (r: string)
  {
    if value == "" then "" else if |value| > n then "최대 " + IntToString(n) + "자까지 입력 가능합니다." else ""
  }

  lemma {:induction false} LengthBounds(n: int, value: string)
    ensures MinLength(n, value) != "" <==> value != "" && |value| < n
    ensures MaxLength(n, value) != "" <==> value != "" && |value| > n
    ensures value != "" && MinLength(n, value) == "" && MaxLength(n, value) == "" ==> |value| == n
  {
  }

  /** `numbersOnly`: `/^\d+$/` */
  function NumbersOnly(value: string): (r: string)
    ensures r == "" <==> AllDigits(value)
  {
    if value == "" then "" else if !AllDigits(value) then "숫자만 입력 가능합니다." else ""
  }

  predicate IsKoreanChar(c: char)
  {
    IsJamoConsonant(c) || IsHangul(c) || IsSpace(c)
  }

  /** `koreanOnly`: `/^[ㄱ-ㅎ가-힣\s]+$/` */
  function KoreanOnly(value: string): (r: string)
    ensures r == "" <==> AllChars(value, IsKoreanChar)
  {
    if value == "" then "" else if !AllChars(value, IsKoreanChar) then "한글만 입력 가능합니다." else ""
  }

  const NameTooShort := "이름은 최소 2자 이상 입력해주세요."
  const NameTooLong := "이름은 최대 20자까지 입력 가능합니다."
  const NameBadChar := "이름은 한글 또는 영문만 입력 가능합니다."

  /** `name`: on the trimmed value, the length bounds first, then the characters. */
  function Name(value: string): (r: string)
  {
    if value == "" then ""
    else
      var t := Trim(value);
      if |t| < 2 then NameTooShort
      else if |t| > 20 then NameTooLong
      else if !AllChars(t, Sanitization.IsNameChar) then NameBadChar
      else ""
  }

  lemma {:induction false} NameIff(value: string)
    ensures Name(value) == "" <==>
      value == "" || (2 <= |Trim(value)| <= 20 && AllChars(Trim(value), Sanitization.IsNameChar))
    ensures value != "" && |Trim(value)| < 2 ==> Name(value) == NameTooShort
    ensures value != "" && |Trim(value)| > 20 ==> Name(value) == NameTooLong
  {
  }

  /** A name the name sanitiser produced is accepted whenever its length is 2 to 20. */
  lemma {:induction false} SanitizedNameAccepted(value: string)
    requires 2 <= |Sanitization.SanitizeName(value)| <= 20
    ensures Name(Sanitization.SanitizeName(value)) == ""
  {
    var r := Sanitization.SanitizeName(value);
    Sanitization.SanitizeNameShape(value);
    TrimFixed(r);
  }

  const SuffixTooLong := "동명이인 구분자는 최대 10자까지 입력 가능합니다."
  const SuffixBadChar := "동명이인 구분자는 영문 또는 숫자만 입력 가능합니다."

  /** `nameSuffix`: at most ten characters once trimmed, all ASCII letters or digits. */
  function NameSuffix(value: string): (r: string)
  {
    if value == "" then ""
    else
      var t := Trim(value);
      if |t| > 10 then SuffixTooLong
      else if t == "" || !AllChars(t, IsAsciiAlnum) then SuffixBadChar
      else ""
  }

  lemma {:induction false} NameSuffixIff(value: string)
    ensures NameSuffix(value) == "" <==>
      value == "" || (1 <= |Trim(value)| <= 10 && AllChars(Trim(value), IsAsciiAlnum))
    ensures value != "" && AllChars(value, IsSpace) ==> NameSuffix(value) == SuffixBadChar
  {
    TrimEmptyIffSpaces(value);
  }

  /** A suffix the suffix sanitiser produced is accepted whenever it has 1 to 10 characters. */
  lemma {:induction false} SanitizedSuffixAccepted(value: string)
    requires 1 <= |Sanitization.SanitizeNameSuffix(value)| <= 10
    ensures NameSuffix(Sanitization.SanitizeNameSuffix(value)) == ""
  {
    Sanitization.SanitizeNameSuffixShape(value);
    Sanitization.AlnumUntrimmed(Sanitization.SanitizeNameSuffix(value));
  }

  // ---------------------------------------------------------------------
  // birthDate
  // ---------------------------------------------------------------------

  /** `/^\d{4}-\d{2}-\d{2}$/` */
  predicate DateText(value: string)
  {
    |value| == 10 && AllDigits(value[..4]) && value[4] == '-' && AllDigits(value[5..7])
    && value[7] == '-' && AllDigits(value[8..])
  }

  function IsLeapYear(y: int): bool
  {
    (y % 4 == 0 && y % 100 != 0) || y % 400 == 0
  }

  function DaysInMonth(y: int, m: int): (d: int)
    requires 1 <= m <= 12
    ensures 28 <= d <= 31
  {
    if m == 2 then (if IsLeapYear(y) then 29 else 28)
    else if m == 4 || m == 6 || m == 9 || m == 11 then 30
    else 31
  }

  datatype Date = Date(year: int, month: int, day: int)

  predicate IsCalendarDate(d: Date)
  {
    1 <= d.month <= 12 && 1 <= d.day <= DaysInMonth(d.year, d.month)
  }

  /** The numbers written in a `YYYY-MM-DD` text. */
  function DateOfText(value: string): Date
    requires DateText(value)
  {
    Date(DigitsValue(value[..4]), DigitsValue(value[5..7]), DigitsValue(value[8..]))
  }

  predicate After(a: Date, b: Date)
  {
    a.year > b.year || (a.year == b.year && (a.month > b.month || (a.month == b.month && a.day > b.day)))
  }

  const DateFormatError := "올바른 날짜 형식을 입력해주세요. (YYYY-MM-DD)"
  const InvalidDateError := "유효하지 않은 날짜입니다."
  const FutureDateError := "미래 날짜는 입력할 수 없습니다."
  const Before1900Error := "1900년 이후의 날짜만 입력 가능합니다."

  /**
   * `birthDate`: the text shape, then a real calendar date (both the
   * `Invalid Date` test and the round trip through the date's fields give
   * the same message), then not after `today`, then not before 1900.
   */
  function BirthDate(value: string, today: Date): (r: string)
  {
    if value == "" then ""
    else if !DateText(value) then DateFormatError
    else
      var d := DateOfText(value);
      if !IsCalendarDate(d) then InvalidDateError
      else if After(d, today) then FutureDateError
      else if d.year < 1900 then Before1900Error
      else ""
  }

  lemma {:induction false} BirthDateIff(value: string, today: Date)
    ensures BirthDate(value, today) == "" <==>
      value == "" ||
      (DateText(value) && IsCalendarDate(DateOfText(value)) && !After(DateOfText(value), today)
       && DateOfText(value).year >= 1900)
  {
  }

  /** The thirteenth month and the thirtieth of February are rejected. */
  lemma {:induction false} BirthDateRejectsImpossibleDates(today: Date)
    ensures BirthDate("2024-13-01", today) == InvalidDateError
    ensures BirthDate("2024-02-30", today) == InvalidDateError
  {
    assert DateText("2024-13-01");
    assert "2024-13-01"[5..7] == "13" && "13"[..1] == "1";
    assert DigitsValue("13") == 13;
    assert DateText("2024-02-30");
    assert "2024-02-30"[5..7] == "02" && "02"[..1] == "0";
    assert "2024-02-30"[8..] == "30" && "30"[..1] == "3";
    assert DigitsValue("02") == 2 && DigitsValue("30") == 30;
  }

  // ---------------------------------------------------------------------
  // createValidator and the combinations
  // ---------------------------------------------------------------------

  /** `createValidator(...validators)(value)`: the first non-empty error, else ''. */
  function FirstError(validators: seq<string -> string>, value: string): (r: string)
    ensures r == "" <==> forall k :: 0 <= k < |validators| ==> validators[k](value) == ""
    ensures r != "" ==> exists k :: (0 <= k < |validators| && r == validators[k](value)
      && forall j :: 0 <= j < k ==> validators[j](value) == "")
  {
    if validators == [] then ""
    else
      var e := validators[0](value);
      if e != "" then e
      else
        var r := FirstError(validators[1..], value);
        assert forall k :: 1 <= k < |validators| ==> validators[1..][k - 1] == validators[k];
        r
  }

  /** `value => validationRules.required(value, fieldName)` */
  function RequiredRule(fieldName: string): string -> string
  {
    v => Required(v, fieldName)
  }

  function RequiredEmail(value: string): string
  {
    FirstError([RequiredRule("이메일"), Email], value)
  }

  function RequiredPassword(value: string): string
  {
    FirstError([Password], value)
  }

  function RequiredName(value: string): string
  {
    FirstError([RequiredRule("이름"), KoreanOnly], value)
  }

  function RequiredNameWithEnglish(value: string): string
  {
    FirstError([RequiredRule("이름"), Name], value)
  }

  function RequiredNameSuffix(value: string): string
  {
    FirstError([RequiredRule("동명이인 구분자"), NameSuffix], value)
  }

  function RequiredPhoneNumber(value: string): string
  {
    FirstError([RequiredRule("전화번호"), PhoneNumber], value)
  }

  /** Every `required*` combination reports the required message for an empty or blank value. */
  lemma {:induction false} RequiredComesFirst(value: string)
    requires AllChars(value, IsSpace)
    ensures RequiredEmail(value) == "이메일" + RequiredSuffix
    ensures RequiredName(value) == "이름" + RequiredSuffix
    ensures RequiredNameWithEnglish(value) == "이름" + RequiredSuffix
    ensures RequiredNameSuffix(value) == "동명이인 구분자" + RequiredSuffix
    ensures RequiredPhoneNumber(value) == "전화번호" + RequiredSuffix
  {
    RequiredThenRule("이메일", Email, value);
    RequiredThenRule("이름", KoreanOnly, value);
    RequiredThenRule("이름", Name, value);
    RequiredThenRule("동명이인 구분자", NameSuffix, value);
    RequiredThenRule("전화번호", PhoneNumber, value);
  }

  /** Past the required check, each combination gives its field rule's verdict. */
  lemma {:induction false} FieldRuleAfterRequired(value: string)
    requires !AllChars(value, IsSpace)
    ensures RequiredEmail(value) == Email(value)
    ensures RequiredName(value) == KoreanOnly(value)
    ensures RequiredNameWithEnglish(value) == Name(value)
    ensures RequiredNameSuffix(value) == NameSuffix(value)
    ensures RequiredPhoneNumber(value) == PhoneNumber(value)
  {
    RequiredThenRule("이메일", Email, value);
    RequiredThenRule("이름", KoreanOnly, value);
    RequiredThenRule("이름", Name, value);
    RequiredThenRule("동명이인 구분자", NameSuffix, value);
    RequiredThenRule("전화번호", PhoneNumber, value);
  }

  lemma {:induction false} RequiredThenRule(fieldName: string, rule: string -> string, value: string)
    ensures FirstError([RequiredRule(fieldName), rule], value)
      == if AllChars(value, IsSpace) then fieldName + RequiredSuffix else rule(value)
  {
    RequiredIff(value, fieldName);
    assert [RequiredRule(fieldName), rule][1..] == [rule];
    assert [rule][1..] == [];
  }
}
