/**
 * The visit statistics page (src/components/VisitationStatistics.js): the
 * department filter, the sorted copy, the status label and the
 * expand/collapse state.  Department names are ordered by `StrLe`, which
 * stands for `localeCompare`.
 */
module VisitationStatistics {
  import opened Common

  /** One department's row: its name and its number of team ministries. */
  datatype DeptStats = DeptStats(department: string, totalTeamMissions: int)

  const All := "전체"

  /** `filteredData` */
  function FilteredData(data: seq<DeptStats>, selected: string): seq<DeptStats>
  {
    if selected == All then data else Filter(data, (d: DeptStats) => d.department == selected)
  }

  /** Every department for "전체", otherwise exactly the rows of the chosen department. */
  lemma {:induction false} FilteredDataMembers(data: seq<DeptStats>, selected: string, d: DeptStats)
    ensures d in FilteredData(data, selected) <==> d in data && (selected == All || d.department == selected)
  {
  }

  /** `le(a, b)`: `a` may stay in front of `b` under the chosen order. */
  function Order(sortBy: string): (DeptStats, DeptStats) -> bool
  {
    if sortBy == "name" then (a: DeptStats, b: DeptStats) => StrLe(a.department, b.department)
    else if sortBy == "count" || sortBy == "percentage" then
      (a: DeptStats, b: DeptStats) => a.totalTeamMissions >= b.totalTeamMissions
    else (a: DeptStats, b: DeptStats) => true
  }

  /** `sortedData`: a sorted copy of the filtered rows. */
  function SortedData(data: seq<DeptStats>, selected: string, sortBy: string): seq<DeptStats>
  {
    SortBy(FilteredData(data, selected), Order(sortBy))
  }

  lemma {:induction false} OrderTotal(sortBy: string)
    ensures Total(Order(sortBy))
  {
    if sortBy == "name" {
      forall a: DeptStats, b: DeptStats ensures Order(sortBy)(a, b) || Order(sortBy)(b, a) {
        StrLeTotalAt(a.department, b.department);
      }
    }
  }

  /**
   * The sorted copy holds the same rows; by name it is in ascending name
   * order, by count or percentage in descending ministry count, and any
   * other key leaves the filtered order as it is.
   */
  lemma {:induction false} SortedDataSpec(data: seq<DeptStats>, selected: string, sortBy: string)
    ensures multiset(SortedData(data, selected, sortBy)) == multiset(FilteredData(data, selected))
    ensures var s := SortedData(data, selected, sortBy);
      sortBy == "name" ==> forall i :: 0 <= i < |s| - 1 ==> StrLe(s[i].department, s[i + 1].department)
    ensures var s := SortedData(data, selected, sortBy);
      sortBy in {"count", "percentage"} ==> forall i :: 0 <= i < |s| - 1 ==> s[i].totalTeamMissions >= s[i + 1].totalTeamMissions
    ensures sortBy !in {"name", "count", "percentage"} ==> SortedData(data, selected, sortBy) == FilteredData(data, selected)
  {
    OrderTotal(sortBy);
    SortBySorted(FilteredData(data, selected), Order(sortBy));
    if sortBy !in {"name", "count", "percentage"} {
      SortBySortedInput(FilteredData(data, selected), Order(sortBy));
    }
  }

  /** The status column. */
  function StatusLabel(count: int): string
  {
    if count > 10 then "우수" else if count > 5 then "양호" else "개선필요"
  }

  function StatusRank(status: string): nat
  {
    if status == "우수" then 2 else if status == "양호" then 1 else 0
  }

  /** More ministries never give a worse status, and the thresholds are 6 and 11. */
  lemma {:induction false} StatusLabelMonotone(a: int, b: int)
    requires a <= b
    ensures StatusRank(StatusLabel(a)) <= StatusRank(StatusLabel(b))
    ensures StatusLabel(a) == "우수" <==> a >= 11
    ensures StatusLabel(a) == "개선필요" <==> a <= 5
  {
  }

  /** The departments named by rows. */
  function Departments(rows: seq<DeptStats>): set<string>
  {
    set d | d in rows :: d.department
  }

  class StatisticsPage {
    var expandedDepartments: set<string>
    var expandedGroups: set<string>

    constructor()
      ensures expandedDepartments == {} && expandedGroups == {}
    {
      expandedDepartments := {};
      expandedGroups := {};
    }

    /** `toggleDepartment` */
    method ToggleDepartment(name: string)
      modifies this
      ensures expandedDepartments == Toggled(old(expandedDepartments), name)
      ensures expandedGroups == old(expandedGroups)
    {
      expandedDepartments := Toggle(expandedDepartments, name);
    }

    /** `toggleGroup` */
    method ToggleGroup(name: string)
      modifies this
      ensures expandedGroups == Toggled(old(expandedGroups), name)
      ensures expandedDepartments == old(expandedDepartments)
    {
      expandedGroups := Toggle(expandedGroups, name);
    }

    /** "전체 펼치기": exactly the shown departments are expanded. */
    method ExpandAll(shown: seq<DeptStats>)
      modifies this
      ensures expandedDepartments == Departments(shown)
      ensures expandedGroups == old(expandedGroups)
    {
      expandedDepartments := set d | d in shown :: d.department;
    }

    /** "전체 접기": nothing is expanded. */
    method CollapseAll()
      modifies this
      ensures expandedDepartments == {} && expandedGroups == {}
    {
      expandedDepartments := {};
      expandedGroups := {};
    }
  }

  /** Expanding all departments of the sorted rows expands exactly the departments that pass the filter. */
  lemma {:induction false} ExpandAllFiltered(data: seq<DeptStats>, selected: string, sortBy: string, name: string)
    ensures name in Departments(SortedData(data, selected, sortBy))
      <==> exists d :: d in data && d.department == name && (selected == All || name == selected)
  {
    SortedDataSpec(data, selected, sortBy);
    var s := SortedData(data, selected, sortBy);
    var f := FilteredData(data, selected);
    forall d ensures d in s <==> d in f {
      assert d in s <==> d in multiset(s);
    }
    if name in Departments(s) {
      var d :| d in s && d.department == name;
      FilteredDataMembers(data, selected, d);
    }
    if exists d :: d in data && d.department == name && (selected == All || name == selected) {
      var d :| d in data && d.department == name && (selected == All || name == selected);
      FilteredDataMembers(data, selected, d);
    }
  }
}
