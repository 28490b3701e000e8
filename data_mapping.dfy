/**
 * Season-change spreadsheet mapping (src/utils/excel/dataMappingUtils.ts):
 * cell parsers, row conversion to API records, and the matching of rows
 * against the server's users by name, then 기수 (birth-year suffix), then
 * 구분 (name suffix).
 */
module DataMapping {
  import opened Common
  import PhoneUtils
  import ExcelFieldMapping
  import ExcelUtils
  import ExcelCellValidation

  /** `excelColumnToApiField` */
  function ExcelColumnToApiField(c: string): (r: Option<string>)
    ensures r == ExcelFieldMapping.ColumnField(c)
  {
    ExcelFieldMapping.ExcelToApiLookup(c);
    Get(ExcelFieldMapping.ExcelToApi, c)
  }

  // ---------------------------------------------------------------------
  // Cell parsers
  // ---------------------------------------------------------------------

  /** `parseBirthDate`: digits only, a four-digit year cut to two, one digit padded. */
  function ParseBirthDate(value: string): (r: string)
  {
    if value == "" then "" else ShortenYear(Keep(Trim(value), IsDigit))
  }

  /** The length rules of `parseBirthDate`, applied to the digits of the cell. */
  function ShortenYear(d: string): (r: string)
  {
    if d == "" then ""
    else
      var y := if |d| == 4 then d[2..] else d;
      if |y| == 1 then "0" + y else y
  }

  /** What `parseBirthDate` makes of each number of digits in the cell. */
  lemma {:induction false} ParseBirthDateShape(value: string)
    ensures var d := Keep(value, IsDigit); var r := ParseBirthDate(value);
      && AllDigits(r)
      && (|d| == 0 ==> r == "")
      && (|d| == 1 ==> r == "0" + d)
      && (|d| == 4 ==> r == d[2..])
      && (|d| != 1 && |d| != 4 ==> r == d)
  {
    ParseBirthDateDigits(value);
    var d := Keep(value, IsDigit);
    assert AllDigits(d) by {
      assert AllChars(d, IsDigit);
    }
    ShortenYearShape(d);
  }

  lemma {:induction false} ParseBirthDateDigits(value: string)
    ensures ParseBirthDate(value) == ShortenYear(Keep(value, IsDigit))
  {
    KeepTrim(value, IsDigit);
  }

  lemma {:induction false} ShortenYearShape(d: string)
    requires AllDigits(d)
    ensures var r := ShortenYear(d);
      && AllDigits(r)
      && (|d| == 0 ==> r == "")
      && (|d| == 1 ==> r == "0" + d)
      && (|d| == 4 ==> r == d[2..])
      && (|d| != 1 && |d| != 4 ==> r == d)
  {
  }

  /** One, two or four digits give a two-digit 기수, and nothing else does. */
  lemma {:induction false} ParsedBirthDateValid(value: string)
    ensures var n := |Keep(value, IsDigit)|;
      ExcelCellValidation.ValidateBirthdate(ParseBirthDate(value)) <==> n == 1 || n == 2 || n == 4
  {
    ParseBirthDateShape(value);
    var r := ParseBirthDate(value);
    DigitsUntrimmed(r);
  }

  lemma {:induction false} DigitsUntrimmed(r: string)
    requires AllDigits(r)
    ensures Trim(r) == r
  {
    TrimFixed(r);
  }

  /** Parsing a parsed 기수 changes nothing. */
  lemma {:induction false} ParseBirthDateIdempotent(value: string)
    ensures ParseBirthDate(ParseBirthDate(value)) == ParseBirthDate(value)
  {
    ParseBirthDateShape(value);
    var r := ParseBirthDate(value);
    ParseBirthDateShape(r);
    KeepAllKept(r, IsDigit);
  }

  predicate NotHyphenOrSpace(c: char) { c != '-' && !IsSpace(c) }

  /** `parsePhoneNumber`: every hyphen and white-space character removed. */
  function ParsePhoneNumber(value: string): (r: string)
  {
    if value == "" then "" else Keep(Trim(value), NotHyphenOrSpace)
  }

  lemma {:induction false} ParsePhoneNumberShape(value: string)
    ensures ParsePhoneNumber(value) == Keep(value, NotHyphenOrSpace)
    ensures AllChars(ParsePhoneNumber(value), NotHyphenOrSpace)
    ensures ParsePhoneNumber(ParsePhoneNumber(value)) == ParsePhoneNumber(value)
  {
    KeepTrim(value, NotHyphenOrSpace);
    KeepIdempotent(value, NotHyphenOrSpace);
    KeepTrim(Keep(value, NotHyphenOrSpace), NotHyphenOrSpace);
  }

  /** A number formatted by the phone helper parses back to its digits. */
  lemma {:induction false} ParseFormattedPhone(value: string)
    requires |PhoneUtils.ExtractNumbers(value)| <= 11
    ensures ParsePhoneNumber(PhoneUtils.FormatPhoneNumber(value)) == PhoneUtils.ExtractNumbers(value)
  {
    var f := PhoneUtils.FormatPhoneNumber(value);
    var d := PhoneUtils.ExtractNumbers(value);
    PhoneUtils.FormattedDigits(value);
    assert d[..|d|] == d;
    FormattedChars(value);
    HyphenFilterIsDigitFilter(f);
    ParsePhoneNumberShape(f);
  }

  predicate DigitOrHyphen(c: char) { IsDigit(c) || c == '-' }

  /** On digits and hyphens, dropping hyphens and spaces is keeping digits. */
  lemma {:induction false} HyphenFilterIsDigitFilter(f: string)
    requires AllChars(f, DigitOrHyphen)
    ensures Keep(f, NotHyphenOrSpace) == Keep(f, IsDigit)
  {
    forall i | 0 <= i < |f| ensures NotHyphenOrSpace(f[i]) == IsDigit(f[i]) {
      assert DigitOrHyphen(f[i]);
      if IsDigit(f[i]) {
        DigitNotSpace(f[i]);
      }
    }
    KeepAgree(f, NotHyphenOrSpace, IsDigit);
  }

  /** The phone helper writes only digits and hyphens. */
  lemma {:induction false} FormattedChars(value: string)
    ensures AllChars(PhoneUtils.FormatPhoneNumber(value), DigitOrHyphen)
  {
    var d := PhoneUtils.ExtractNumbers(value);
    PhoneUtils.ExtractNumbersDigits(value);
    var n := |d|;
    if n >= 11 {
      Groups3Chars(d, 7, 11);
    } else if n >= 10 {
      Groups3Chars(d, 6, 10);
    } else if n >= 7 {
      Groups3Chars(d, 6, n);
      assert d[6..] == d[6..n];
    } else if n >= 4 {
      SliceChars(d, 0, 3);
      SliceChars(d, 3, n);
      assert d[..3] == d[0..3] && d[3..] == d[3..n];
      JoinHyphenChars(d[..3], d[3..]);
    } else {
      SliceChars(d, 0, n);
      assert d == d[0..n];
    }
  }

  lemma {:induction false} Groups3Chars(d: string, j: nat, k: nat)
    requires 3 <= j <= k <= |d| && AllDigits(d)
    ensures AllChars(d[..3] + "-" + d[3..j] + "-" + d[j..k], DigitOrHyphen)
  {
    SliceChars(d, 0, 3);
    SliceChars(d, 3, j);
    SliceChars(d, j, k);
    assert d[..3] == d[0..3];
    JoinHyphenChars(d[..3], d[3..j]);
    JoinHyphenChars(d[..3] + "-" + d[3..j], d[j..k]);
  }

  lemma {:induction false} SliceChars(d: string, i: nat, j: nat)
    requires i <= j <= |d| && AllDigits(d)
    ensures AllChars(d[i..j], DigitOrHyphen)
  {
    forall m | 0 <= m < j - i ensures DigitOrHyphen(d[i..j][m]) {
      assert d[i..j][m] == d[i + m];
    }
  }

  lemma {:induction false} JoinHyphenChars(x: string, y: string)
    requires AllChars(x, DigitOrHyphen) && AllChars(y, DigitOrHyphen)
    ensures AllChars(x + "-" + y, DigitOrHyphen)
  {
    var f := x + "-" + y;
    forall i | 0 <= i < |f| ensures DigitOrHyphen(f[i]) {
      if i < |x| {
        assert f[i] == x[i];
      } else if i > |x| {
        assert f[i] == y[i - |x| - 1];
      }
    }
  }

  /** `extractYearSuffix`: the last two characters of the text before the first `-`. */
  function ExtractYearSuffix(birthDate: string): (r: string)
    ensures |r| <= 2
  {
    var year := Split(birthDate, '-')[0];
    if |year| <= 2 then year else year[|year| - 2..]
  }

  lemma {:induction false} YearSuffixOfDate(year: string, rest: string)
    requires |year| == 4 && '-' !in year
    ensures ExtractYearSuffix(year + "-" + rest) == year[2..]
  {
    SplitFirst(year, rest, '-');
  }

  // ---------------------------------------------------------------------
  // Row conversion
  // ---------------------------------------------------------------------

  /** The key a column is written under: its API field, or its own name. */
  function Target(c: string): string
  {
    match ExcelColumnToApiField(c)
    case Some(f) => f
    case None => c
  }

  /** The value written for a cell: 기수 and 번호 parsed, the rest as is. */
  function Convert(c: string, v: string): string
  {
    if ExcelColumnToApiField(c).Some? then
      if c == "기수" then ParseBirthDate(v)
      else if c == "번호" then ParsePhoneNumber(v)
      else v
    else v
  }

  /** The record after writing each entry in turn. */
  function MapRow(row: Record): Record
  {
    if row == [] then []
    else
      var last := row[|row| - 1];
      Put(MapRow(row[..|row| - 1]), Target(last.0), Convert(last.0, last.1))
  }

  /** `mapExcelRowToApiData` */
  method MapExcelRowToApiData(row: Record) returns (api: Record)
    ensures api == MapRow(row)
  {
    api := [];
    var i := 0;
    while i < |row|
      invariant 0 <= i <= |row|
      invariant api == MapRow(row[..i])
    {
      var (column, value) := row[i];
      assert row[..i + 1][..i] == row[..i];
      api := Put(api, Target(column), Convert(column, value));
      i := i + 1;
    }
    assert row[..|row|] == row;
  }

  /**
   * The last entry written under a key decides its value, and the keys
   * are exactly the targets of the columns.
   */
  lemma {:induction false} MapRowGet(row: Record, i: nat)
    requires i < |row|
    requires forall j :: i < j < |row| ==> Target(row[j].0) != Target(row[i].0)
    ensures Get(MapRow(row), Target(row[i].0)) == Some(Convert(row[i].0, row[i].1))
  {
    var p := row[..|row| - 1];
    var last := row[|row| - 1];
    GetPut(MapRow(p), Target(last.0), Convert(last.0, last.1), Target(row[i].0));
    if i < |row| - 1 {
      assert p[i] == row[i];
      MapRowGet(p, i);
    }
  }

  lemma {:induction false} MapRowKeys(row: Record, k: string)
    ensures Get(MapRow(row), k).Some? <==> k in Targets(row)
  {
    if row != [] {
      var p := row[..|row| - 1];
      var last := row[|row| - 1];
      GetPut(MapRow(p), Target(last.0), Convert(last.0, last.1), k);
      MapRowKeys(p, k);
      assert Targets(row) == Targets(p) + [Target(last.0)];
    }
  }

  /** The key each column is written under, in column order. */
  function Targets(row: Record): (t: seq<string>)
    ensures |t| == |row| && forall i :: 0 <= i < |row| ==> t[i] == Target(row[i].0)
  {
    if row == [] then [] else Targets(row[..|row| - 1]) + [Target(row[|row| - 1].0)]
  }

  /** The eight API field names. */
  predicate IsApiField(c: string)
  {
    c in {"gook", "group", "soon", "name", "name_suffix", "phone", "role", "birth_date"}
  }

  /** Distinct columns that are not themselves API field names land under distinct keys. */
  lemma {:induction false} TargetInjective(c1: string, c2: string)
    requires c1 != c2 && !IsApiField(c1) && !IsApiField(c2)
    ensures Target(c1) != Target(c2)
  {
  }

  /**
   * In a row whose column names are distinct and none is an API field
   * name, every cell ends up under its target, converted.
   */
  lemma {:induction false} MapRowRenames(row: Record, i: nat)
    requires DistinctKeys(row) && forall j :: 0 <= j < |row| ==> !IsApiField(row[j].0)
    requires i < |row|
    ensures Get(MapRow(row), Target(row[i].0)) == Some(Convert(row[i].0, row[i].1))
  {
    forall j | i < j < |row| ensures Target(row[j].0) != Target(row[i].0) {
      TargetInjective(row[j].0, row[i].0);
    }
    MapRowGet(row, i);
  }

  // ---------------------------------------------------------------------
  // Filling empty cells from a server user
  // ---------------------------------------------------------------------

  /** The server user fields the matching reads; "" stands for a missing value. */
  datatype UserData = UserData(name: string, nameSuffix: string, phoneNumber: string, birthDate: string)

  /** One step of `fillEmptyFields`: write `v` under `key` when the cell is empty and the user has a value. */
  function FillIf(r: Record, key: string, present: bool, v: string): Record
  {
    if !Truthy(r, key) && present then Put(r, key, v) else r
  }

  /** `fillEmptyFields`: 구분, 번호 and 기수 are filled when empty and the user has a value. */
  function FillEmptyFields(row: Record, user: UserData): Record
  {
    var r1 := FillIf(row, "구분", user.nameSuffix != "", user.nameSuffix);
    var r2 := FillIf(r1, "번호", user.phoneNumber != "", user.phoneNumber);
    FillIf(r2, "기수", user.birthDate != "", ExtractYearSuffix(user.birthDate))
  }

  /** The value of key `k` after filling, cell by cell. */
  function Filled(row: Record, user: UserData, k: string): Option<string>
  {
    if k == "구분" && !Truthy(row, k) && user.nameSuffix != "" then Some(user.nameSuffix)
    else if k == "번호" && !Truthy(row, k) && user.phoneNumber != "" then Some(user.phoneNumber)
    else if k == "기수" && !Truthy(row, k) && user.birthDate != "" then Some(ExtractYearSuffix(user.birthDate))
    else Get(row, k)
  }

  lemma {:induction false} FillIfGet(r: Record, key: string, present: bool, v: string, k: string)
    ensures Get(FillIf(r, key, present, v), k) == if k == key && !Truthy(r, key) && present then Some(v) else Get(r, k)
  {
    GetPut(r, key, v, k);
  }

  /** Only the three empty cells change; every other key keeps its value. */
  lemma {:induction false} FillEmptyFieldsSpec(row: Record, user: UserData, k: string)
    ensures Get(FillEmptyFields(row, user), k) == Filled(row, user, k)
  {
    var r1 := FillIf(row, "구분", user.nameSuffix != "", user.nameSuffix);
    var r2 := FillIf(r1, "번호", user.phoneNumber != "", user.phoneNumber);
    FillIfGet(row, "구분", user.nameSuffix != "", user.nameSuffix, k);
    FillIfGet(row, "구분", user.nameSuffix != "", user.nameSuffix, "번호");
    FillIfGet(row, "구분", user.nameSuffix != "", user.nameSuffix, "기수");
    FillIfGet(r1, "번호", user.phoneNumber != "", user.phoneNumber, k);
    FillIfGet(r1, "번호", user.phoneNumber != "", user.phoneNumber, "기수");
    FillIfGet(r2, "기수", user.birthDate != "", ExtractYearSuffix(user.birthDate), k);
  }

  lemma {:induction false} FillIfKeys(r: Record, key: string, present: bool, v: string)
    ensures var ks := KeysOf(FillIf(r, key, present, v)); |ks| >= |r| && ks[..|r|] == KeysOf(r)
    ensures DistinctKeys(r) ==> DistinctKeys(FillIf(r, key, present, v))
  {
    PutKeys(r, key, v);
  }

  /** Filling keeps the columns and their order, adding missing filled columns at the end. */
  lemma {:induction false} FillEmptyFieldsKeys(row: Record, user: UserData)
    ensures var ks := KeysOf(FillEmptyFields(row, user)); |ks| >= |row| && ks[..|row|] == KeysOf(row)
    ensures DistinctKeys(row) ==> DistinctKeys(FillEmptyFields(row, user))
  {
    var r1 := FillIf(row, "구분", user.nameSuffix != "", user.nameSuffix);
    var r2 := FillIf(r1, "번호", user.phoneNumber != "", user.phoneNumber);
    var r3 := FillIf(r2, "기수", user.birthDate != "", ExtractYearSuffix(user.birthDate));
    FillIfKeys(row, "구분", user.nameSuffix != "", user.nameSuffix);
    FillIfKeys(r1, "번호", user.phoneNumber != "", user.phoneNumber);
    FillIfKeys(r2, "기수", user.birthDate != "", ExtractYearSuffix(user.birthDate));
    PrefixTrans(KeysOf(row), KeysOf(r1), KeysOf(r2));
    PrefixTrans(KeysOf(row), KeysOf(r2), KeysOf(r3));
  }

  lemma {:induction false} PrefixTrans(a: seq<string>, b: seq<string>, c: seq<string>)
    requires |a| <= |b| && b[..|a|] == a && |b| <= |c| && c[..|b|] == b
    ensures c[..|a|] == a
  {
    assert c[..|a|] == c[..|b|][..|a|];
  }

  /** A step whose cell is already set, or whose value is already there, changes nothing. */
  lemma {:induction false} FillIfNoChange(r: Record, key: string, present: bool, v: string)
    requires Truthy(r, key) || !present || Get(r, key) == Some(v)
    ensures FillIf(r, key, present, v) == r
  {
    if !Truthy(r, key) && present {
      PutSame(r, key, v);
    }
  }

  /** Filling again with the same user changes nothing. */
  lemma {:induction false} FillEmptyFieldsIdempotent(row: Record, user: UserData)
    ensures FillEmptyFields(FillEmptyFields(row, user), user) == FillEmptyFields(row, user)
  {
    var f := FillEmptyFields(row, user);
    FillEmptyFieldsSpec(row, user, "구분");
    FillEmptyFieldsSpec(row, user, "번호");
    FillEmptyFieldsSpec(row, user, "기수");
    FillIfNoChange(f, "구분", user.nameSuffix != "", user.nameSuffix);
    FillIfNoChange(f, "번호", user.phoneNumber != "", user.phoneNumber);
    FillIfNoChange(f, "기수", user.birthDate != "", ExtractYearSuffix(user.birthDate));
  }

  // ---------------------------------------------------------------------
  // Matching a row against the server's users
  // ---------------------------------------------------------------------

  datatype RowOutcome = RowOutcome(row: Record, error: bool)

  function NameIs(name: string): UserData -> bool
  {
    (u: UserData) => u.name == name
  }

  function BirthYearIs(parsed: string): UserData -> bool
  {
    (u: UserData) => u.birthDate != "" && ExtractYearSuffix(u.birthDate) == parsed
  }

  function SuffixIs(suffix: string): UserData -> bool
  {
    (u: UserData) => u.nameSuffix == suffix
  }

  /** The user matched by 기수, when the row has a parsable one. */
  function BirthYearMatch(row: Record, matched: seq<UserData>): Option<UserData>
  {
    if Truthy(row, "기수") && ParseBirthDate(GetOr(row, "기수")) != "" then
      Find(matched, BirthYearIs(ParseBirthDate(GetOr(row, "기수"))))
    else None
  }

  /** One row of `syncExcelDataWithUserData`; `error` marks a row reported in `errorRows`. */
  function SyncRow(row: Record, users: seq<UserData>): RowOutcome
  {
    var name := GetOr(row, "이름");
    if name == "" then RowOutcome(row, false)
    else
      var matched := Filter(users, NameIs(name));
      if |matched| == 0 then RowOutcome(row, false)
      else if |matched| == 1 then RowOutcome(FillEmptyFields(row, matched[0]), false)
      else
        match BirthYearMatch(row, matched)
        case Some(u) => RowOutcome(FillEmptyFields(row, u), false)
        case None =>
          if !Truthy(row, "구분") then RowOutcome(row, true)
          else
            match Find(matched, SuffixIs(GetOr(row, "구분")))
            case Some(u) => RowOutcome(FillEmptyFields(row, u), false)
            case None => RowOutcome(row, false)
  }

  /**
   * A row is left as it is or filled from a user with the row's name, and
   * it is reported exactly when several users share the name, none shares
   * the 기수 and the 구분 cell is empty.
   */
  lemma {:induction false} SyncRowOutcome(row: Record, users: seq<UserData>)
    ensures var o := SyncRow(row, users); var name := GetOr(row, "이름");
      && (o.row == row || exists u :: u in users && u.name == name && o.row == FillEmptyFields(row, u))
      && (o.error <==>
            (name != "" && |Filter(users, NameIs(name))| >= 2
             && BirthYearMatch(row, Filter(users, NameIs(name))).None? && !Truthy(row, "구분")))
  {
    var name := GetOr(row, "이름");
    if name != "" {
      var matched := Filter(users, NameIs(name));
      if |matched| == 1 {
        assert matched[0] in matched;
      }
    }
  }

  /** A name shared by no user leaves the row alone; a name held by one user fills from that user. */
  lemma {:induction false} SyncRowByName(row: Record, users: seq<UserData>)
    ensures GetOr(row, "이름") == "" ==> SyncRow(row, users) == RowOutcome(row, false)
    ensures (forall u :: u in users ==> u.name != GetOr(row, "이름")) ==> SyncRow(row, users) == RowOutcome(row, false)
    ensures GetOr(row, "이름") != "" && |Filter(users, NameIs(GetOr(row, "이름")))| == 1 ==>
      SyncRow(row, users) == RowOutcome(FillEmptyFields(row, Filter(users, NameIs(GetOr(row, "이름")))[0]), false)
  {
    var name := GetOr(row, "이름");
    if forall u :: u in users ==> u.name != name {
      FilterNone(users, NameIs(name));
    }
  }

  lemma {:induction false} FilterNone<T(!new)>(s: seq<T>, p: T -> bool)
    requires forall x :: x in s ==> !p(x)
    ensures Filter(s, p) == []
  {
    assert forall i :: 0 <= i < |s| ==> !p(s[i]) by {
      assert forall i :: 0 <= i < |s| ==> s[i] in s;
    }
    CountNone(s, p);
  }

  /** `${sheetIndex}-${rowIndex}` */
  function ErrorKey(i: nat, j: nat): string
  {
    NatToString(i) + "-" + NatToString(j)
  }

  /** Different cells never share an error key. */
  lemma {:induction false} ErrorKeyInjective(i: nat, j: nat, i': nat, j': nat)
    requires ErrorKey(i, j) == ErrorKey(i', j')
    ensures i == i' && j == j'
  {
    var a, b, a', b' := NatToString(i), NatToString(j), NatToString(i'), NatToString(j');
    assert '-' !in a && '-' !in a';
    SplitFirst(a, b, '-');
    SplitFirst(a', b', '-');
    assert a + "-" + b == a + ['-'] + b && a' + "-" + b' == a' + ['-'] + b';
    assert a == a';
    assert b == (a + "-" + b)[|a| + 1..];
    NatToStringValue(i);
    NatToStringValue(i');
    NatToStringValue(j);
    NatToStringValue(j');
  }

  /** The matching of one row against `users`, as a value. */
  function RowSync(users: seq<UserData>): Record -> RowOutcome
  {
    row => SyncRow(row, users)
  }

  /** The error keys of the first `n` rows of sheet `i`. */
  function RowErrors(rows: seq<Record>, sync: Record -> RowOutcome, i: nat, n: nat): set<string>
    requires n <= |rows|
  {
    if n == 0 then {}
    else RowErrors(rows, sync, i, n - 1) + (if sync(rows[n - 1]).error then {ErrorKey(i, n - 1)} else {})
  }

  /** The error keys of the first `m` sheets. */
  function SheetErrors(sheets: seq<ExcelUtils.Sheet>, sync: Record -> RowOutcome, m: nat): set<string>
    requires m <= |sheets|
  {
    if m == 0 then {}
    else SheetErrors(sheets, sync, m - 1) + RowErrors(sheets[m - 1].rows, sync, m - 1, |sheets[m - 1].rows|)
  }

  /** The rows of a sheet after matching. */
  function SyncRows(rows: seq<Record>, sync: Record -> RowOutcome): seq<Record>
  {
    if rows == [] then [] else SyncRows(rows[..|rows| - 1], sync) + [sync(rows[|rows| - 1]).row]
  }

  /** Every row is matched on its own, in place. */
  lemma {:induction false} SyncRowsSpec(rows: seq<Record>, sync: Record -> RowOutcome)
    ensures |SyncRows(rows, sync)| == |rows|
    ensures forall j :: 0 <= j < |rows| ==> SyncRows(rows, sync)[j] == sync(rows[j]).row
  {
    if rows != [] {
      var p := rows[..|rows| - 1];
      SyncRowsSpec(p, sync);
      assert forall j :: 0 <= j < |p| ==> p[j] == rows[j];
    }
  }

  /** The row loop of `syncExcelDataWithUserData` for sheet `i`, `sync` matching one row. */
  method SyncSheetRows(rows: seq<Record>, sync: Record -> RowOutcome, i: nat)
    returns (newRows: seq<Record>, errors: set<string>)
    ensures newRows == SyncRows(rows, sync)
    ensures errors == RowErrors(rows, sync, i, |rows|)
  {
    newRows := [];
    errors := {};
    var j := 0;
    while j < |rows|
      invariant 0 <= j <= |rows|
      invariant newRows == SyncRows(rows[..j], sync)
      invariant errors == RowErrors(rows, sync, i, j)
    {
      var outcome := sync(rows[j]);
      if outcome.error {
        errors := errors + {ErrorKey(i, j)};
      }
      assert rows[..j + 1][..j] == rows[..j];
      newRows := newRows + [outcome.row];
      j := j + 1;
    }
    assert rows[..j] == rows;
  }

  /** The sheets after matching, sheet by sheet. */
  function SyncSheets(sheets: seq<ExcelUtils.Sheet>, sync: Record -> RowOutcome): seq<ExcelUtils.Sheet>
  {
    if sheets == [] then []
    else
      var last := sheets[|sheets| - 1];
      SyncSheets(sheets[..|sheets| - 1], sync) + [ExcelUtils.Sheet(last.sheetName, SyncRows(last.rows, sync))]
  }

  /** Every sheet keeps its name and has its rows matched. */
  lemma {:induction false} SyncSheetsSpec(sheets: seq<ExcelUtils.Sheet>, sync: Record -> RowOutcome)
    ensures |SyncSheets(sheets, sync)| == |sheets|
    ensures forall i :: 0 <= i < |sheets| ==>
      SyncSheets(sheets, sync)[i] == ExcelUtils.Sheet(sheets[i].sheetName, SyncRows(sheets[i].rows, sync))
  {
    if sheets != [] {
      var p := sheets[..|sheets| - 1];
      SyncSheetsSpec(p, sync);
      assert forall i :: 0 <= i < |p| ==> p[i] == sheets[i];
    }
  }

  /** The sheet loop of `syncExcelDataWithUserData`. */
  method SyncSheetsWith(sheets: seq<ExcelUtils.Sheet>, sync: Record -> RowOutcome)
    returns (updated: seq<ExcelUtils.Sheet>, errorRows: set<string>)
    ensures updated == SyncSheets(sheets, sync)
    ensures errorRows == SheetErrors(sheets, sync, |sheets|)
  {
    updated := [];
    errorRows := {};
    var i := 0;
    while i < |sheets|
      invariant 0 <= i <= |sheets|
      invariant updated == SyncSheets(sheets[..i], sync)
      invariant errorRows == SheetErrors(sheets, sync, i)
    {
      var newRows, errors := SyncSheetRows(sheets[i].rows, sync, i);
      errorRows := errorRows + errors;
      assert sheets[..i + 1][..i] == sheets[..i];
      updated := updated + [ExcelUtils.Sheet(sheets[i].sheetName, newRows)];
      i := i + 1;
    }
    assert sheets[..i] == sheets;
  }

  /** `syncExcelDataWithUserData`: every row matched against `users`. */
  method SyncExcelDataWithUserData(sheets: seq<ExcelUtils.Sheet>, users: seq<UserData>)
    returns (updated: seq<ExcelUtils.Sheet>, errorRows: set<string>)
    ensures updated == SyncSheets(sheets, RowSync(users))
    ensures errorRows == SheetErrors(sheets, RowSync(users), |sheets|)
  {
    updated, errorRows := SyncSheetsWith(sheets, RowSync(users));
  }

  /** Matching keeps the number of sheets and of rows in each sheet. */
  lemma {:induction false} SyncKeepsShape(sheets: seq<ExcelUtils.Sheet>, sync: Record -> RowOutcome)
    ensures ExcelUtils.GetExcelDataStats(SyncSheets(sheets, sync)) == ExcelUtils.GetExcelDataStats(sheets)
  {
    var updated := SyncSheets(sheets, sync);
    SyncSheetsSpec(sheets, sync);
    forall i | 0 <= i < |sheets|
      ensures |sheets[i].rows| == |updated[i].rows|
    {
      SyncRowsSpec(sheets[i].rows, sync);
    }
    SameRowCounts(sheets, updated);
  }

  lemma {:induction false} SameRowCounts(a: seq<ExcelUtils.Sheet>, b: seq<ExcelUtils.Sheet>)
    requires |a| == |b| && forall i :: 0 <= i < |a| ==> |a[i].rows| == |b[i].rows|
    ensures ExcelUtils.TotalRows(a) == ExcelUtils.TotalRows(b)
  {
    if a != [] {
      SameRowCounts(a[..|a| - 1], b[..|b| - 1]);
    }
  }

  /** A cell is reported exactly when its row raised the error. */
  lemma {:induction false} ErrorRowsExact(sheets: seq<ExcelUtils.Sheet>, users: seq<UserData>, i: nat, j: nat)
    requires i < |sheets| && j < |sheets[i].rows|
    ensures ErrorKey(i, j) in SheetErrors(sheets, RowSync(users), |sheets|) <==> SyncRow(sheets[i].rows[j], users).error
  {
    SheetErrorsMembers(sheets, RowSync(users), |sheets|, i, j);
  }

  lemma {:induction false} SheetErrorsMembers(sheets: seq<ExcelUtils.Sheet>, sync: Record -> RowOutcome, m: nat, i: nat, j: nat)
    requires m <= |sheets| && i < |sheets| && j < |sheets[i].rows|
    ensures ErrorKey(i, j) in SheetErrors(sheets, sync, m) <==> i < m && sync(sheets[i].rows[j]).error
  {
    if m > 0 {
      SheetErrorsMembers(sheets, sync, m - 1, i, j);
      var rows := sheets[m - 1].rows;
      RowErrorsMembers(rows, sync, m - 1, |rows|, i, j);
    }
  }

  /** Sheet `s`'s first `n` rows report the keys of their erroneous rows and no other key. */
  lemma {:induction false} RowErrorsMembers(rows: seq<Record>, sync: Record -> RowOutcome, s: nat, n: nat, i: nat, j: nat)
    requires n <= |rows|
    ensures ErrorKey(i, j) in RowErrors(rows, sync, s, n) <==> i == s && j < n && sync(rows[j]).error
  {
    if n > 0 {
      RowErrorsMembers(rows, sync, s, n - 1, i, j);
      if ErrorKey(i, j) == ErrorKey(s, n - 1) {
        ErrorKeyInjective(i, j, s, n - 1);
      }
    }
  }

  // ---------------------------------------------------------------------
  // Flattening for the season-change request
  // ---------------------------------------------------------------------

  /** Sheets ordered by name; code-point order stands for the locale collation. */
  predicate SheetNameLe(a: ExcelUtils.Sheet, b: ExcelUtils.Sheet)
  {
    StrLe(a.sheetName, b.sheetName)
  }

  /** Every row of every sheet, sheet after sheet. */
  function AllRows(sheets: seq<ExcelUtils.Sheet>): (r: seq<Record>)
  {
    if sheets == [] then [] else AllRows(sheets[..|sheets| - 1]) + sheets[|sheets| - 1].rows
  }

  lemma {:induction false} AllRowsCount(sheets: seq<ExcelUtils.Sheet>)
    ensures |AllRows(sheets)| == ExcelUtils.TotalRows(sheets)
  {
    if sheets != [] {
      AllRowsCount(sheets[..|sheets| - 1]);
    }
  }

  function MapRows(rows: seq<Record>): (r: seq<Record>)
    ensures |r| == |rows| && forall k :: 0 <= k < |rows| ==> r[k] == MapRow(rows[k])
  {
    seq(|rows|, k requires 0 <= k < |rows| => MapRow(rows[k]))
  }

  /** The row loop of `convertToSeasonUpdateData` for one sheet. */
  method MapSheetRows(rows: seq<Record>) returns (mapped: seq<Record>)
    ensures mapped == MapRows(rows)
  {
    mapped := [];
    var j := 0;
    while j < |rows|
      invariant 0 <= j <= |rows|
      invariant |mapped| == j && forall k :: 0 <= k < j ==> mapped[k] == MapRow(rows[k])
    {
      var m := MapExcelRowToApiData(rows[j]);
      mapped := mapped + [m];
      j := j + 1;
    }
  }

  lemma {:induction false} MapRowsAppend(a: seq<Record>, b: seq<Record>)
    ensures MapRows(a + b) == MapRows(a) + MapRows(b)
  {
  }

  /** `convertToSeasonUpdateData` */
  method ConvertToSeasonUpdateData(sheets: seq<ExcelUtils.Sheet>) returns (members: seq<Record>)
    ensures members == MapRows(AllRows(SortBy(sheets, SheetNameLe)))
  {
    var sorted := SortBy(sheets, SheetNameLe);
    members := [];
    var i := 0;
    while i < |sorted|
      invariant 0 <= i <= |sorted|
      invariant members == MapRows(AllRows(sorted[..i]))
    {
      var mapped := MapSheetRows(sorted[i].rows);
      assert sorted[..i + 1][..i] == sorted[..i];
      MapRowsAppend(AllRows(sorted[..i]), sorted[i].rows);
      members := members + mapped;
      i := i + 1;
    }
    assert sorted[..|sorted|] == sorted;
  }

  /**
   * One record per row of the workbook, the sheets in name order and the
   * rows of each sheet in their own order.
   */
  lemma {:induction false} SeasonUpdateDataShape(sheets: seq<ExcelUtils.Sheet>)
    ensures |MapRows(AllRows(SortBy(sheets, SheetNameLe)))| == ExcelUtils.TotalRows(sheets)
    ensures SortedBy(SortBy(sheets, SheetNameLe), SheetNameLe)
  {
    AllRowsCount(SortBy(sheets, SheetNameLe));
    ExcelUtils.TotalRowsSorted(sheets, SheetNameLe);
    SheetNameLeTotal();
    SortBySorted(sheets, SheetNameLe);
  }

  lemma {:induction false} SheetNameLeTotal()
    ensures Total(SheetNameLe)
  {
    forall a: ExcelUtils.Sheet, b: ExcelUtils.Sheet ensures SheetNameLe(a, b) || SheetNameLe(b, a) {
      StrLeTotalAt(a.sheetName, b.sheetName);
    }
  }
}
