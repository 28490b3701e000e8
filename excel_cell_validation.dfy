/**
 * Cell rules of the season-change spreadsheet (src/utils/excel/cellValidation.ts).
 * A row is a record from column name to cell text.
 */
module ExcelCellValidation {
  import opened Common
  import PhoneUtils

  /** The trimmed `직분` (role) cell of the row, or "" when there is none. */
  function RoleOf(row: Option<Record>): string
  {
    if row.Some? then Trim(GetOr(row.value, "직분")) else ""
  }

  /** `/^\d{3}-\d{4}-\d{4}$/` */
  predicate Phone344(s: string)
  {
    |s| == 13 && s[3] == '-' && s[8] == '-'
    && AllDigits(s[..3]) && AllDigits(s[4..8]) && AllDigits(s[9..])
  }

  /** `validatePhone`: checked only for members with a role. */
  function ValidatePhone(value: string, row: Option<Record>): bool
  {
    var phone := Trim(value);
    if RoleOf(row) == "" then true
    else if phone == "" then false
    else Phone344(phone)
  }

  lemma {:induction false} ValidatePhoneIff(value: string, row: Option<Record>)
    ensures ValidatePhone(value, row) <==> RoleOf(row) == "" || Phone344(Trim(value))
    ensures RoleOf(row) != "" && AllChars(value, IsSpace) ==> !ValidatePhone(value, row)
  {
    TrimEmptyIffSpaces(value);
  }

  /**
   * A number with at least eleven digits, formatted by the phone helper,
   * passes the rule whatever the role.
   */
  lemma {:induction false} FormattedPhoneAccepted(value: string, row: Option<Record>)
    requires |PhoneUtils.ExtractNumbers(value)| >= 11
    ensures ValidatePhone(PhoneUtils.FormatPhoneNumber(value), row)
  {
    var d := PhoneUtils.ExtractNumbers(value);
    PhoneUtils.ExtractNumbersDigits(value);
    var f := PhoneUtils.FormatPhoneNumber(value);
    Grouped344(d[..3], d[3..7], d[7..11]);
    assert AllChars(f, NotSpace) by {
      assert forall i :: 0 <= i < |f| ==> IsDigit(f[i]) || f[i] == '-';
    }
    TrimFixed(f);
  }

  predicate NotSpace(c: char) { !IsSpace(c) }

  lemma {:induction false} Grouped344(x: string, y: string, z: string)
    requires |x| == 3 && |y| == 4 && |z| == 4 && AllDigits(x) && AllDigits(y) && AllDigits(z)
    ensures Phone344(x + "-" + y + "-" + z)
  {
    var s := x + "-" + y + "-" + z;
    assert s[..3] == x && s[4..8] == y && s[9..] == z;
  }

  /** `validateBirthdate` (the 기수 column): exactly two digits after trimming. */
  function ValidateBirthdate(value: string): bool
  {
    var t := Trim(value);
    if t == "" then false else |t| == 2 && AllDigits(t)
  }

  lemma {:induction false} ValidateBirthdateIff(value: string)
    ensures ValidateBirthdate(value) <==> |Trim(value)| == 2 && AllDigits(Trim(value))
    ensures ValidateBirthdate(value) ==> ValidateBirthdate(Trim(value))
  {
    TrimIdempotent(value);
  }

  /** `validateCell`: 번호 and 기수 have rules, every other column is valid. */
  function ValidateCell(column: string, value: string, row: Option<Record>): bool
  {
    if column == "번호" then ValidatePhone(value, row)
    else if column == "기수" then ValidateBirthdate(value)
    else true
  }

  lemma {:induction false} ValidateCellDefaults(column: string, value: string, row: Option<Record>)
    ensures column != "번호" && column != "기수" ==> ValidateCell(column, value, row)
    ensures column == "번호" && RoleOf(row) == "" ==> ValidateCell(column, value, row)
    ensures column == "기수" && AllChars(value, IsSpace) ==> !ValidateCell(column, value, row)
  {
    TrimEmptyIffSpaces(value);
  }
}
