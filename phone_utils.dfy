/**
 * Phone-number helpers (src/utils/phoneUtils.ts): digit extraction, the
 * 3-4-4 / 3-3-4 display format and the mobile-number check.
 */
module PhoneUtils {
  import opened Common

  /** `extractNumbers`: `value.replace(/[^0-9]/g, '')` */
  function ExtractNumbers(value: string): (r: string)
  {
    Keep(value, IsDigit)
  }

  /** The result is exactly the digits of the input, in order. */
  lemma {:induction false} ExtractNumbersDigits(value: string)
    ensures AllDigits(ExtractNumbers(value))
    ensures forall c :: c in ExtractNumbers(value) <==> c in value && IsDigit(c)
    ensures AllDigits(value) ==> ExtractNumbers(value) == value
    ensures ExtractNumbers(ExtractNumbers(value)) == ExtractNumbers(value)
  {
    KeepMembers(value, IsDigit);
    if AllDigits(value) {
      KeepAllKept(value, IsDigit);
    }
    KeepIdempotent(value, IsDigit);
  }

  /** `formatPhoneNumber`: groups of 3, 4 and 4 digits (3, 3 and 4 for ten digits). */
  function FormatPhoneNumber(value: string): (r: string)
  {
    var d := ExtractNumbers(value);
    if |d| >= 11 then d[..3] + "-" + d[3..7] + "-" + d[7..11]
    else if |d| >= 10 then d[..3] + "-" + d[3..6] + "-" + d[6..10]
    else if |d| >= 7 then d[..3] + "-" + d[3..6] + "-" + d[6..]
    else if |d| >= 4 then d[..3] + "-" + d[3..]
    else d
  }

  function Min(a: int, b: int): int { if a <= b then a else b }

  /** The digits that survive formatting: the first eleven at most. */
  lemma {:induction false} FormattedDigits(value: string)
    ensures ExtractNumbers(FormatPhoneNumber(value))
      == ExtractNumbers(value)[..Min(11, |ExtractNumbers(value)|)]
  {
    var d := ExtractNumbers(value);
    var n := |d|;
    if n >= 11 {
      ThreeGroups(d, 7, 11);
    } else if n >= 10 {
      ThreeGroups(d, 6, 10);
    } else if n >= 7 {
      ThreeGroups(d, 6, n);
      assert d[6..] == d[6..n];
    } else if n >= 4 {
      DigitsAroundHyphen(d[..3], d[3..]);
      KeepAllKept(d[..3], IsDigit);
      KeepAllKept(d[3..], IsDigit);
      assert d[..3] + d[3..] == d[..n];
    } else {
      KeepAllKept(d, IsDigit);
    }
  }

  /** The digits of `ddd-d..d-d..d`, cut at 3, `j` and `k`, are the first `k` digits. */
  lemma {:induction false} ThreeGroups(d: string, j: nat, k: nat)
    requires 3 <= j <= k <= |d| && AllDigits(d)
    ensures Keep(d[..3] + "-" + d[3..j] + "-" + d[j..k], IsDigit) == d[..k]
  {
    DigitsAroundHyphen(d[..3] + "-" + d[3..j], d[j..k]);
    DigitsAroundHyphen(d[..3], d[3..j]);
    DigitGroups3(d, 3, j, k);
  }

  /** Three slices of a digit string keep their digits and together make its prefix. */
  lemma {:induction false} DigitGroups3(d: string, i: nat, j: nat, k: nat)
    requires i <= j <= k <= |d| && AllDigits(d)
    ensures Keep(d[..i], IsDigit) + Keep(d[i..j], IsDigit) + Keep(d[j..k], IsDigit) == d[..k]
  {
    KeepDigitsSlice(d, 0, i);
    KeepDigitsSlice(d, i, j);
    KeepDigitsSlice(d, j, k);
    assert d[..i] == d[0..i];
    SlicesJoin(d, i, j, k);
  }

  lemma {:induction false} SlicesJoin(d: string, i: nat, j: nat, k: nat)
    requires i <= j <= k <= |d|
    ensures d[..i] + d[i..j] + d[j..k] == d[..k]
  {
    assert d[..j] == d[..i] + d[i..j];
    assert d[..k] == d[..j] + d[j..k];
  }

  /** A slice of a digit string is all digits, so filtering keeps it whole. */
  lemma {:induction false} KeepDigitsSlice(d: string, a: nat, b: nat)
    requires a <= b <= |d| && AllDigits(d)
    ensures Keep(d[a..b], IsDigit) == d[a..b]
  {
    var t := d[a..b];
    assert forall i :: 0 <= i < |t| ==> t[i] == d[a + i];
    KeepAllKept(t, IsDigit);
  }

  /** A hyphen contributes no digit. */
  lemma {:induction false} DigitsAroundHyphen(x: string, y: string)
    ensures Keep(x + "-" + y, IsDigit) == Keep(x, IsDigit) + Keep(y, IsDigit)
  {
    KeepConcat(x + "-", y, IsDigit);
    KeepConcat(x, "-", IsDigit);
    assert Keep("-", IsDigit) == "";
  }

  /** Where the hyphens go, by the number of digits. */
  lemma {:induction false} FormatLayout(value: string)
    ensures var n := |ExtractNumbers(value)|; var r := FormatPhoneNumber(value);
      && (n >= 11 ==> |r| == 13 && r[3] == '-' && r[8] == '-')
      && (n == 10 ==> |r| == 12 && r[3] == '-' && r[7] == '-')
      && (7 <= n <= 9 ==> |r| == n + 2 && r[3] == '-' && r[7] == '-')
      && (4 <= n <= 6 ==> |r| == n + 1 && r[3] == '-')
      && (n <= 3 ==> r == ExtractNumbers(value))
  {
  }

  /** Formatting a formatted number changes nothing. */
  lemma {:induction false} FormatIdempotent(value: string)
    ensures FormatPhoneNumber(FormatPhoneNumber(value)) == FormatPhoneNumber(value)
  {
    var d := ExtractNumbers(value);
    var f := FormatPhoneNumber(value);
    FormattedDigits(value);
    var e := ExtractNumbers(f);
    assert e == d[..Min(11, |d|)];
    if |d| >= 11 {
      assert |e| == 11;
      assert e[..3] == d[..3] && e[3..7] == d[3..7] && e[7..11] == d[7..11];
      assert FormatPhoneNumber(f) == e[..3] + "-" + e[3..7] + "-" + e[7..11];
    } else {
      assert e == d;
    }
  }

  datatype PhoneCheck = Valid | Invalid(error: string)

  const EnterPhoneNumber := "전화번호를 입력해주세요."
  const PhoneLengthError := "올바른 전화번호를 입력해주세요. (10-11자리)"
  const MobilePrefixError := "휴대폰 번호는 010, 011, 016, 017, 018, 019로 시작해야 합니다."

  /** `/^01[0-9]/` on a digit string. */
  predicate MobilePrefix(d: string)
  {
    |d| >= 3 && d[0] == '0' && d[1] == '1' && IsDigit(d[2])
  }

  /** `validatePhoneNumber`: presence, then length, then the 01x prefix. */
  function ValidatePhoneNumber(value: string): (r: PhoneCheck)
    ensures ExtractNumbers(value) == "" ==> r == Invalid(EnterPhoneNumber)
    ensures r == Valid <==>
      10 <= |ExtractNumbers(value)| <= 11 && MobilePrefix(ExtractNumbers(value))
    ensures ExtractNumbers(value) != "" && !(10 <= |ExtractNumbers(value)| <= 11) ==>
      r == Invalid(PhoneLengthError)
  {
    var d := ExtractNumbers(value);
    if d == "" then Invalid(EnterPhoneNumber)
    else if |d| < 10 || |d| > 11 then Invalid(PhoneLengthError)
    else if !MobilePrefix(d) then Invalid(MobilePrefixError)
    else Valid
  }

  /** A number with at most eleven digits keeps its verdict when formatted first. */
  lemma {:induction false} ValidateFormatted(value: string)
    requires |ExtractNumbers(value)| <= 11
    ensures ValidatePhoneNumber(FormatPhoneNumber(value)) == ValidatePhoneNumber(value)
  {
    FormattedDigits(value);
    assert ExtractNumbers(value)[..|ExtractNumbers(value)|] == ExtractNumbers(value);
  }
}
