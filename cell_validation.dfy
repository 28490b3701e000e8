/**
 * Cell rules of the member spreadsheet editor (src/utils/cellValidation.ts).
 * Every rule accepts an empty cell; a column without a rule accepts
 * anything.
 */
module CellValidation {
  import opened Common
  import PhoneUtils
  import Validation

  // ---------------------------------------------------------------------
  // Dates: /^\d{4}[-/](0[1-9]|1[0-2])[-/](0[1-9]|[12]\d|3[01])$/
  // ---------------------------------------------------------------------

  predicate IsDateSeparator(c: char) { c == '-' || c == '/' }

  /** `(0[1-9]|1[0-2])` */
  predicate MonthText(t: string)
  {
    |t| == 2 && ((t[0] == '0' && '1' <= t[1] <= '9') || (t[0] == '1' && '0' <= t[1] <= '2'))
  }

  /** `(0[1-9]|[12]\d|3[01])` */
  predicate DayText(t: string)
  {
    |t| == 2 && ((t[0] == '0' && '1' <= t[1] <= '9') || (('1' <= t[0] <= '2') && IsDigit(t[1]))
      || (t[0] == '3' && '0' <= t[1] <= '1'))
  }

  predicate DatePattern(s: string)
  {
    |s| == 10 && AllDigits(s[..4]) && IsDateSeparator(s[4]) && MonthText(s[5..7])
    && IsDateSeparator(s[7]) && DayText(s[8..])
  }

  /** `validateDate` */
  function ValidateDate(value: string): bool
  {
    value == "" || DatePattern(value)
  }

  function TwoDigitValue(t: string): nat
    requires |t| == 2 && AllDigits(t)
  {
    DigitValue(t[0]) * 10 + DigitValue(t[1])
  }

  /** The month alternatives are exactly the two-digit numbers 1 to 12, the day ones 1 to 31. */
  lemma {:induction false} MonthDayRanges(t: string)
    ensures MonthText(t) <==> |t| == 2 && AllDigits(t) && 1 <= TwoDigitValue(t) <= 12
    ensures DayText(t) <==> |t| == 2 && AllDigits(t) && 1 <= TwoDigitValue(t) <= 31
  {
  }

  lemma {:induction false} TwoDigitValueIsDigitsValue(t: string)
    requires |t| == 2 && AllDigits(t)
    ensures TwoDigitValue(t) == DigitsValue(t)
  {
    assert t[..1][..0] == [];
    assert t[..|t| - 1] == t[..1];
    assert DigitsValue(t[..1]) == DigitValue(t[0]);
  }

  /**
   * A birth date the form accepts is a valid spreadsheet date; the
   * spreadsheet rule itself makes no calendar check and allows either
   * separator in either place.
   */
  lemma {:induction false} FormDateIsCellDate(value: string, today: Validation.Date)
    requires value != "" && Validation.BirthDate(value, today) == ""
    ensures ValidateDate(value)
  {
    Validation.BirthDateIff(value, today);
    var d := Validation.DateOfText(value);
    TwoDigitValueIsDigitsValue(value[5..7]);
    TwoDigitValueIsDigitsValue(value[8..]);
    MonthDayRanges(value[5..7]);
    MonthDayRanges(value[8..]);
  }

  // ---------------------------------------------------------------------
  // E-mail, phone, yes/no, gender
  // ---------------------------------------------------------------------

  /** `validateEmail` */
  function ValidateEmail(value: string): bool
  {
    value == "" || EmailPattern(value)
  }

  lemma {:induction false} ValidateEmailIff(value: string)
    ensures ValidateEmail(value) <==> value == "" || EmailLike(value)
    ensures ValidateEmail(value) <==> Validation.Email(value) == ""
  {
    EmailPatternIff(value);
  }

  predicate NotSpace(c: char) { !IsSpace(c) }

  /**
   * `/^01[0-9]-?\d{3,4}-?\d{4}$/` read literally: `a` and `b` say whether
   * each optional hyphen is present and `k` is the length of the middle group.
   */
  predicate CellPhonePattern(t: string)
  {
    |t| >= 3 && t[0] == '0' && t[1] == '1' && IsDigit(t[2])
    && exists a: nat, k: nat, b: nat | a <= 1 && k <= 4 && b <= 1 :: PhoneTail(t[3..], a, k, b)
  }

  predicate PhoneTail(r: string, a: nat, k: nat, b: nat)
  {
    a <= 1 && 3 <= k <= 4 && b <= 1
    && |r| == a + k + b + 4
    && (a == 1 ==> r[0] == '-')
    && AllDigits(r[a..a + k])
    && (b == 1 ==> r[a + k] == '-')
    && AllDigits(r[a + k + b..])
  }

  /** `validatePhoneNumber`: white space is removed first. */
  function ValidatePhoneNumber(value: string): bool
  {
    value == "" || CellPhonePattern(Keep(value, NotSpace))
  }

  /** The digits of a string that fits the tail pattern: all but the hyphens. */
  lemma {:induction false} PhoneTailDigits(r: string, a: nat, k: nat, b: nat)
    requires PhoneTail(r, a, k, b)
    ensures Keep(r, IsDigit) == r[a..a + k] + r[a + k + b..]
    ensures |Keep(r, IsDigit)| == k + 4
  {
    var h1, g1, h2, g2 := r[..a], r[a..a + k], r[a + k..a + k + b], r[a + k + b..];
    Split4(r, a, a + k, a + k + b);
    HyphenHasNoDigit(h1);
    HyphenHasNoDigit(h2);
    DigitsKept(g1);
    DigitsKept(g2);
    KeepDigitGroups(h1, g1, h2, g2);
  }

  lemma {:induction false} KeepDigitGroups(h1: string, g1: string, h2: string, g2: string)
    requires Keep(h1, IsDigit) == [] && Keep(h2, IsDigit) == []
    requires Keep(g1, IsDigit) == g1 && Keep(g2, IsDigit) == g2
    ensures Keep(h1 + g1 + h2 + g2, IsDigit) == g1 + g2
  {
    var e: string := [];
    calc {
      Keep(h1 + g1 + h2 + g2, IsDigit);
      { KeepConcat4(h1, g1, h2, g2); }
      Keep(h1, IsDigit) + Keep(g1, IsDigit) + Keep(h2, IsDigit) + Keep(g2, IsDigit);
      e + g1 + e + g2;
      { assert e + g1 == g1; assert g1 + e == g1; }
      g1 + g2;
    }
  }

  lemma {:induction false} Split4(r: string, i: nat, j: nat, k: nat)
    requires i <= j <= k <= |r|
    ensures r == r[..i] + r[i..j] + r[j..k] + r[k..]
  {
    assert r[..j] == r[..i] + r[i..j];
    assert r[..k] == r[..j] + r[j..k];
    assert r == r[..k] + r[k..];
  }

  lemma {:induction false} DigitsKept(g: string)
    requires AllDigits(g)
    ensures Keep(g, IsDigit) == g
  {
    assert AllChars(g, IsDigit) by {
      assert forall i :: 0 <= i < |g| ==> IsDigit(g[i]);
    }
    KeepAllKept(g, IsDigit);
  }

  lemma {:induction false} KeepConcat4(w: string, x: string, y: string, z: string)
    ensures Keep(w + x + y + z, IsDigit) == Keep(w, IsDigit) + Keep(x, IsDigit) + Keep(y, IsDigit) + Keep(z, IsDigit)
  {
    KeepConcat(w + x + y, z, IsDigit);
    KeepConcat(w + x, y, IsDigit);
    KeepConcat(w, x, IsDigit);
  }

  /** An optional hyphen contributes no digit. */
  lemma {:induction false} HyphenHasNoDigit(h: string)
    requires |h| <= 1 && (|h| == 1 ==> h[0] == '-')
    ensures Keep(h, IsDigit) == []
  {
    if |h| == 1 {
      assert h[1..] == [];
    }
  }

  /**
   * Whatever the spreadsheet phone pattern accepts, the phone helper's
   * `validatePhoneNumber` accepts too: 10 or 11 digits starting 01x.
   */
  lemma {:induction false} CellPhoneIsMobile(t: string)
    requires CellPhonePattern(t)
    ensures PhoneUtils.ValidatePhoneNumber(t) == PhoneUtils.Valid
  {
    var a, k, b :| PhoneTail(t[3..], a, k, b);
    PhoneTailDigits(t[3..], a, k, b);
    assert t == t[..3] + t[3..];
    KeepConcat(t[..3], t[3..], IsDigit);
    KeepAllKept(t[..3], IsDigit);
    var d := PhoneUtils.ExtractNumbers(t);
    assert d[..3] == t[..3];
  }

  /** A mobile number formatted by the phone helper passes the spreadsheet rule. */
  lemma {:induction false} FormattedMobileAccepted(value: string)
    requires PhoneUtils.ValidatePhoneNumber(value) == PhoneUtils.Valid
    ensures ValidatePhoneNumber(PhoneUtils.FormatPhoneNumber(value))
  {
    var d := PhoneUtils.ExtractNumbers(value);
    PhoneUtils.ExtractNumbersDigits(value);
    var f := PhoneUtils.FormatPhoneNumber(value);
    var k := |d| - 7;
    var x, y, z := d[..3], d[3..3 + k], d[3 + k..|d|];
    FormattedMobileShape(value);
    DigitSlices(d, k);
    HyphenatedHasNoSpace(x, y, z);
    KeepAllKept(f, NotSpace);
    FormattedTail(x, y, z);
  }

  /** A valid mobile number is formatted as three hyphen-joined groups. */
  lemma {:induction false} FormattedMobileShape(value: string)
    requires PhoneUtils.ValidatePhoneNumber(value) == PhoneUtils.Valid
    ensures var d := PhoneUtils.ExtractNumbers(value);
      10 <= |d| <= 11
      && PhoneUtils.FormatPhoneNumber(value) == d[..3] + "-" + d[3..|d| - 4] + "-" + d[|d| - 4..|d|]
  {
  }

  lemma {:induction false} DigitSlices(d: string, k: nat)
    requires AllDigits(d) && 3 + k <= |d|
    ensures AllDigits(d[..3]) && AllDigits(d[3..3 + k]) && AllDigits(d[3 + k..|d|])
  {
    DigitSlice(d, 0, 3);
    DigitSlice(d, 3, 3 + k);
    DigitSlice(d, 3 + k, |d|);
    assert d[..3] == d[0..3];
  }

  lemma {:induction false} DigitSlice(d: string, i: nat, j: nat)
    requires AllDigits(d) && i <= j <= |d|
    ensures AllDigits(d[i..j])
  {
    forall m | 0 <= m < j - i
      ensures IsDigit(d[i..j][m])
    {
      assert d[i..j][m] == d[i + m];
    }
  }

  lemma {:induction false} HyphenatedHasNoSpace(x: string, y: string, z: string)
    requires AllDigits(x) && AllDigits(y) && AllDigits(z)
    ensures AllChars(x + "-" + y + "-" + z, NotSpace)
  {
    var f := x + "-" + y + "-" + z;
    forall i | 0 <= i < |f|
      ensures NotSpace(f[i])
    {
      if i < |x| {
        assert f[i] == x[i];
      } else if i == |x| {
        assert f[i] == '-';
      } else if i < |x| + 1 + |y| {
        assert f[i] == y[i - |x| - 1];
      } else if i == |x| + 1 + |y| {
        assert f[i] == '-';
      } else {
        assert f[i] == z[i - |x| - 2 - |y|];
      }
    }
  }

  lemma {:induction false} FormattedTail(x: string, y: string, z: string)
    requires |x| == 3 && 3 <= |y| <= 4 && |z| == 4 && AllDigits(y) && AllDigits(z)
    ensures PhoneTail((x + "-" + y + "-" + z)[3..], 1, |y|, 1)
  {
    var r := (x + "-" + y + "-" + z)[3..];
    assert r == "-" + y + "-" + z;
    assert r[1..1 + |y|] == y;
    assert r[1 + |y| + 1..] == z;
  }

  /** `validateYesNo`: Y or N in either case. */
  function ValidateYesNo(value: string): bool
  {
    value == "" || ToUpper(value) == "Y" || ToUpper(value) == "N"
  }

  lemma {:induction false} YesNoIff(value: string)
    ensures ValidateYesNo(value) <==> value in {"", "Y", "y", "N", "n"}
  {
    if |value| == 1 {
      assert value == [value[0]];
      assert ToUpper(value) == [UpperChar(value[0])];
    }
  }

  /** `validateGender`: M or F in either case, or 남 / 여 exactly. */
  function ValidateGender(value: string): bool
  {
    value == "" || ToUpper(value) == "M" || ToUpper(value) == "F" || value == "남" || value == "여"
  }

  lemma {:induction false} GenderIff(value: string)
    ensures ValidateGender(value) <==> value in {"", "M", "m", "F", "f", "남", "여"}
  {
    if |value| == 1 {
      assert value == [value[0]];
      assert ToUpper(value) == [UpperChar(value[0])];
    }
  }

  // ---------------------------------------------------------------------
  // Dispatch
  // ---------------------------------------------------------------------

  /** `CELL_VALIDATION_RULES`: the columns that have a rule. */
  const RuleColumns: set<string> := {"생년월일", "교회등록일", "이메일", "전화번호", "성별", "새가족여부", "장기결석여부"}

  /** `validateCellData` */
  function ValidateCellData(column: string, value: string): bool
  {
    if column == "생년월일" || column == "교회등록일" then ValidateDate(value)
    else if column == "이메일" then ValidateEmail(value)
    else if column == "전화번호" then ValidatePhoneNumber(value)
    else if column == "성별" then ValidateGender(value)
    else if column == "새가족여부" || column == "장기결석여부" then ValidateYesNo(value)
    else true
  }

  /** Unruled columns and empty cells are always valid. */
  lemma {:induction false} CellDefaults(column: string, value: string)
    ensures column !in RuleColumns ==> ValidateCellData(column, value)
    ensures value == "" ==> ValidateCellData(column, value)
  {
  }
}
