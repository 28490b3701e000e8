/**
 * The worship attendance table (src/components/WorshipStatus.js and
 * src/components/main/WorshipStatus.tsx, whose logic is the same): the
 * organisation level chosen by the filters, the rows loaded for the first
 * eight weeks, per-organisation look-ups and totals, the option lists,
 * the title and the table width.  Dates are day numbers, which order like
 * the `Date` objects they stand for.
 */
module WorshipStatus {
  import opened Common
  import opened AttendanceData2025

  const AllValue := "all"

  /** The filters; `None` dates are unset. */
  datatype Filters = Filters(country: string, group: string, startDate: Option<int>, endDate: Option<int>)

  /** A row of the table. */
  datatype Row = Row(date: int, month: nat, week: nat, attendance: Attendance, level: OrgLevel,
                     country: Option<string>, group: Option<string>)

  /** The level the filters select: 국 for all countries, 그룹 within a country, 순 within a group. */
  function LevelOf(f: Filters): OrgLevel
  {
    if f.country == AllValue then Guk
    else if f.group == AllValue then Group
    else Sun
  }

  /** One week's row at the selected level. */
  function RowOf(w: WeekData, f: Filters): (r: Row)
  {
    match LevelOf(f)
    case Guk => Row(w.sunday, w.month + 1, w.week, w.guk, Guk, None, None)
    case Group => Row(w.sunday, w.month + 1, w.week, w.group, Group, Some(f.country), None)
    case Sun => Row(w.sunday, w.month + 1, w.week, w.sun, Sun, Some(f.country), Some(f.group))
  }

  function InRange(f: Filters): Row -> bool
    requires f.startDate.Some? && f.endDate.Some?
  {
    (r: Row) => f.startDate.value <= r.date <= f.endDate.value
  }

  /** The first eight weeks, as rows at the selected level. */
  function FirstRows(weeks: seq<WeekData>, f: Filters): (rows: seq<Row>)
    ensures |rows| == if |weeks| < 8 then |weeks| else 8
  {
    var n := if |weeks| < 8 then |weeks| else 8;
    seq(n, i requires 0 <= i < n => RowOf(weeks[i], f))
  }

  /** `loadFilteredData`'s result: the first eight weeks, narrowed to the date range when both ends are set. */
  function Rows(weeks: seq<WeekData>, f: Filters): seq<Row>
  {
    var rows := FirstRows(weeks, f);
    if f.startDate.Some? && f.endDate.Some? then Filter(rows, InRange(f)) else rows
  }

  /**
   * At most eight rows, each built from one of the first eight weeks at the
   * selected level and, with both dates set, dated within the inclusive
   * range; without both dates every one of the first eight weeks appears.
   */
  lemma {:induction false} RowsSpec(weeks: seq<WeekData>, f: Filters, r: Row)
    ensures |Rows(weeks, f)| <= 8
    ensures r in Rows(weeks, f) ==> exists i :: 0 <= i < |weeks| && i < 8 && r == RowOf(weeks[i], f)
    ensures r in Rows(weeks, f) ==> r.level == LevelOf(f)
    ensures r in Rows(weeks, f) && f.startDate.Some? && f.endDate.Some? ==> f.startDate.value <= r.date <= f.endDate.value
    ensures f.startDate.None? || f.endDate.None? ==> Rows(weeks, f) == FirstRows(weeks, f)
  {
    var rows := FirstRows(weeks, f);
    if r in Rows(weeks, f) {
      assert r in rows;
      var i :| 0 <= i < |rows| && rows[i] == r;
      assert r == RowOf(weeks[i], f);
    }
  }

  /** The same, built the way the page does it: a local list reassigned step by step. */
  method LoadFilteredData(weeks: seq<WeekData>, f: Filters) returns (data: seq<Row>)
    ensures data == Rows(weeks, f)
  {
    var n := if |weeks| < 8 then |weeks| else 8;
    data := [];
    var i := 0;
    while i < n
      invariant 0 <= i <= n
      invariant data == FirstRows(weeks, f)[..i]
    {
      data := data + [RowOf(weeks[i], f)];
      i := i + 1;
    }
    assert data == FirstRows(weeks, f);
    if f.startDate.Some? && f.endDate.Some? {
      data := Filter(data, InRange(f));
    }
  }

  /** The data tables the page reads: the 국 names, 국 to groups and group to 순. */
  datatype Directory = Directory(gukNames: seq<string>, gukGroups: map<string, seq<string>>, groupSuns: map<string, seq<string>>)

  function Lookup(m: map<string, seq<string>>, k: string): seq<string>
  {
    if k in m then m[k] else []
  }

  /** `getOrganizationNames`: the columns of the table. */
  function OrganizationNames(f: Filters, d: Directory): seq<string>
  {
    match LevelOf(f)
    case Guk => d.gukNames
    case Group => Lookup(d.gukGroups, f.country)
    case Sun => Lookup(d.groupSuns, f.group)
  }

  /** `getAttendanceData`: a missing organisation or service counts as nothing. */
  function AttendanceOf(a: Attendance, org: string, worship: string): (c: Counts)
    ensures org !in a || worship !in a[org] ==> c.present == 0 && c.total == 0
    ensures org in a && worship in a[org] ==> c == a[org][worship]
  {
    if org in a && worship in a[org] then a[org][worship] else Zero()
  }

  /** `calculateTotal`: the present counts of the listed organisations, summed left to right. */
  function CalculateTotal(a: Attendance, names: seq<string>, worship: string): int
  {
    if names == [] then 0
    else CalculateTotal(a, names[..|names| - 1], worship) + AttendanceOf(a, names[|names| - 1], worship).present
  }

  /** The total over two lists of organisations is the sum of their totals. */
  lemma {:induction false} CalculateTotalAppend(a: Attendance, xs: seq<string>, ys: seq<string>, worship: string)
    ensures CalculateTotal(a, xs + ys, worship) == CalculateTotal(a, xs, worship) + CalculateTotal(a, ys, worship)
    decreases |ys|
  {
    if ys == [] {
      assert xs + ys == xs;
    } else {
      assert (xs + ys)[..|xs + ys| - 1] == xs + ys[..|ys| - 1];
      assert (xs + ys)[|xs + ys| - 1] == ys[|ys| - 1];
      CalculateTotalAppend(a, xs, ys[..|ys| - 1], worship);
    }
  }

  /** Organisations the week has no figures for add nothing to the total. */
  lemma {:induction false} CalculateTotalMissing(a: Attendance, names: seq<string>, worship: string)
    requires forall i :: 0 <= i < |names| ==> names[i] !in a
    ensures CalculateTotal(a, names, worship) == 0
  {
    if names != [] {
      CalculateTotalMissing(a, names[..|names| - 1], worship);
    }
  }

  /** `getGroupOptions`: "all", then the country's groups. */
  function GroupOptions(f: Filters, d: Directory): seq<string>
  {
    if f.country == AllValue then [AllValue] else [AllValue] + Lookup(d.gukGroups, f.country)
  }

  /** Within a country the group choices are "all" and exactly the columns of the country's table. */
  lemma {:induction false} GroupOptionsMatchColumns(f: Filters, d: Directory)
    requires f.country != AllValue
    ensures GroupOptions(f, d) == [AllValue] + OrganizationNames(f.(group := AllValue), d)
  {
  }

  /** `getDataLevelTitle` */
  function DataLevelTitle(f: Filters): string
  {
    match LevelOf(f)
    case Guk => "국별"
    case Group => f.country + " 그룹별"
    case Sun => f.country + " " + f.group + " 순별"
  }

  /** The title names the level: it ends in 국별, 그룹별 or 순별 as the level is 국, 그룹 or 순. */
  lemma {:induction false} DataLevelTitleNamesLevel(f: Filters)
    ensures LevelOf(f) == Guk <==> DataLevelTitle(f) == "국별"
    ensures LevelOf(f) == Group ==> EndsWith(DataLevelTitle(f), "그룹별") && StartsWith(DataLevelTitle(f), f.country)
    ensures LevelOf(f) == Sun ==> EndsWith(DataLevelTitle(f), "순별") && StartsWith(DataLevelTitle(f), f.country)
  {
    var t := DataLevelTitle(f);
    if LevelOf(f) == Group {
      assert t[|t| - |"그룹별"|..] == "그룹별";
      assert t[..|f.country|] == f.country;
      assert |t| >= 4;
    } else if LevelOf(f) == Sun {
      assert t[|t| - |"순별"|..] == "순별";
      assert t[..|f.country|] == f.country;
      assert |t| >= 4;
    } else {
      assert t == "국별";
    }
  }

  /** `calculateTableWidth` for a number of organisation columns. */
  function TableWidth(columns: nat): int
  {
    var total := 120 + 150 + columns * 80 * 2 + 100;
    if total > 1500 then total else 1500
  }

  /** The table is at least 1500 wide and grows past that, by 160 a column, from eight columns on. */
  lemma {:induction false} TableWidthSpec(columns: nat)
    ensures TableWidth(columns) >= 1500
    ensures columns >= 8 <==> TableWidth(columns) == 370 + 160 * columns
    ensures columns < 8 ==> TableWidth(columns) == 1500
  {
  }

  /** The filter state of the page. */
  class WorshipStatusPage {
    var filters: Filters
    var filteredData: seq<Row>

    constructor()
      ensures filters == Filters(AllValue, AllValue, None, None) && filteredData == []
    {
      filters := Filters(AllValue, AllValue, None, None);
      filteredData := [];
    }

    /** `handleFilterChange` followed by the effect that resets the group when the country changes. */
    method ChangeCountry(value: string)
      modifies this
      ensures filters.country == value
      ensures filters.group == (if value != old(filters.country) then AllValue else old(filters.group))
      ensures filters.startDate == old(filters.startDate) && filters.endDate == old(filters.endDate)
      ensures filteredData == old(filteredData)
    {
      var changed := value != filters.country;
      filters := filters.(country := value);
      if changed {
        filters := filters.(group := AllValue);
      }
    }

    method ChangeGroup(value: string)
      modifies this
      ensures filters == old(filters).(group := value) && filteredData == old(filteredData)
    {
      filters := filters.(group := value);
    }

    /** `handleSearch`: reload the rows for the current filters. */
    method Search(weeks: seq<WeekData>)
      modifies this
      ensures filteredData == Rows(weeks, filters) && filters == old(filters)
    {
      filteredData := LoadFilteredData(weeks, filters);
    }
  }
}
