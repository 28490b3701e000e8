/**
 * The member list page of the first layout
 * (src/components/MembersManagement.js): the option lists drawn from the
 * loaded members, the cascaded lists of the change dialog, the name and
 * affiliation filter, the ten-per-page slices, the check-box selection
 * and the affiliation change that rewrites the selected members and
 * announces itself with a `memberAffiliationChanged` event. The alert's
 * timer and navigation are not modelled.
 */
module MembersLegacy {
  import opened Common
  import MembersMain

  const AllChoice := "전체"
  const ItemsPerPage: nat := 10
  const SelectFirst := "변경할 구성원을 선택해주세요."
  const ChooseAll := "모든 소속 정보를 선택해주세요."

  /** A member: id, 이름, 생일연도 (as text), 소속국, 소속그룹, 소속순 and the other fields. */
  datatype Member = Member(id: int, name: string, birthYear: string, department: string, group: string,
                           team: string, other: Record)

  // ---------------------------------------------------------------------
  // Option lists
  // ---------------------------------------------------------------------

  function Departments(members: seq<Member>): (r: seq<string>)
    ensures |r| == |members|
    ensures forall i :: 0 <= i < |members| ==> r[i] == members[i].department
  {
    seq(|members|, i requires 0 <= i < |members| => members[i].department)
  }

  function Groups(members: seq<Member>): (r: seq<string>)
    ensures |r| == |members|
    ensures forall i :: 0 <= i < |members| ==> r[i] == members[i].group
  {
    seq(|members|, i requires 0 <= i < |members| => members[i].group)
  }

  function Teams(members: seq<Member>): (r: seq<string>)
    ensures |r| == |members|
    ensures forall i :: 0 <= i < |members| ==> r[i] == members[i].team
  {
    seq(|members|, i requires 0 <= i < |members| => members[i].team)
  }

  /** `[...new Set(values)].sort()` */
  function OptionList(values: seq<string>): seq<string>
  {
    SortedStrings(Distinct(values))
  }

  /** An option list is sorted, free of duplicates and holds exactly the values it was drawn from. */
  lemma {:induction false} OptionListSpec(values: seq<string>, x: string)
    ensures SortedBy(OptionList(values), StrLe) && NoDuplicates(OptionList(values))
    ensures x in OptionList(values) <==> x in values
  {
    SortedDistinct(values);
  }

  function InDepartment(dept: string): Member -> bool
  {
    (m: Member) => m.department == dept
  }

  function InDepartmentAndGroup(dept: string, group: string): Member -> bool
  {
    (m: Member) => m.department == dept && m.group == group
  }

  /** `getFilteredGroups`: none before a department is chosen, else that department's groups. */
  function FilteredGroups(members: seq<Member>, dept: string): seq<string>
  {
    if dept == "" then [] else OptionList(Groups(Filter(members, InDepartment(dept))))
  }

  /** `getFilteredTeams`: none before both are chosen, else the teams of that department and group. */
  function FilteredTeams(members: seq<Member>, dept: string, group: string): seq<string>
  {
    if dept == "" || group == "" then [] else OptionList(Teams(Filter(members, InDepartmentAndGroup(dept, group))))
  }

  /**
   * The dialog's groups are empty until a department is chosen, then
   * exactly the groups of members in that department, sorted and distinct.
   */
  lemma {:induction false} FilteredGroupsSpec(members: seq<Member>, dept: string, x: string)
    ensures dept == "" ==> FilteredGroups(members, dept) == []
    ensures SortedBy(FilteredGroups(members, dept), StrLe) && NoDuplicates(FilteredGroups(members, dept))
    ensures dept != "" ==>
      (x in FilteredGroups(members, dept) <==> exists m :: m in members && m.department == dept && m.group == x)
  {
    var inDept := Filter(members, InDepartment(dept));
    OptionListSpec(Groups(inDept), x);
    if dept != "" && exists m :: m in members && m.department == dept && m.group == x {
      var m :| m in members && m.department == dept && m.group == x;
      assert InDepartment(dept)(m);
      var i :| 0 <= i < |inDept| && inDept[i] == m;
      assert Groups(inDept)[i] == x;
    }
  }

  /** The dialog's teams are empty until both are chosen, then the teams of members in both. */
  lemma {:induction false} FilteredTeamsSpec(members: seq<Member>, dept: string, group: string, x: string)
    ensures dept == "" || group == "" ==> FilteredTeams(members, dept, group) == []
    ensures SortedBy(FilteredTeams(members, dept, group), StrLe) && NoDuplicates(FilteredTeams(members, dept, group))
    ensures dept != "" && group != "" ==>
      (x in FilteredTeams(members, dept, group) <==>
         exists m :: m in members && m.department == dept && m.group == group && m.team == x)
  {
    var inBoth := Filter(members, InDepartmentAndGroup(dept, group));
    OptionListSpec(Teams(inBoth), x);
    if dept != "" && group != "" && exists m :: m in members && m.department == dept && m.group == group && m.team == x {
      var m :| m in members && m.department == dept && m.group == group && m.team == x;
      assert InDepartmentAndGroup(dept, group)(m);
      var i :| 0 <= i < |inBoth| && inBoth[i] == m;
      assert Teams(inBoth)[i] == x;
    }
  }

  // ---------------------------------------------------------------------
  // Filter and pages
  // ---------------------------------------------------------------------

  /** 전체 or the very value. */
  predicate Allows(choice: string, value: string)
  {
    choice == AllChoice || value == choice
  }

  /** The list filter: the name contains the search term ignoring case, and each affiliation is allowed. */
  function Matches(search: string, dept: string, group: string, team: string): Member -> bool
  {
    (m: Member) => Contains(ToLower(m.name), ToLower(search))
      && Allows(dept, m.department) && Allows(group, m.group) && Allows(team, m.team)
  }

  function FilteredMembers(members: seq<Member>, search: string, dept: string, group: string, team: string): seq<Member>
  {
    Filter(members, Matches(search, dept, group, team))
  }

  /** A member is listed iff it passes all four tests; the list keeps the loaded order. */
  lemma {:induction false} FilteredMembersSpec(members: seq<Member>, search: string, dept: string, group: string, team: string, m: Member)
    ensures m in FilteredMembers(members, search, dept, group, team) <==>
      m in members && Contains(ToLower(m.name), ToLower(search))
      && (dept == AllChoice || m.department == dept) && (group == AllChoice || m.group == group)
      && (team == AllChoice || m.team == team)
    ensures FilteredMembers(members + [m], search, dept, group, team)
      == FilteredMembers(members, search, dept, group, team)
         + (if Matches(search, dept, group, team)(m) then [m] else [])
  {
    FilterAppend(members, [m], Matches(search, dept, group, team));
  }

  /** With no search and every filter at 전체, everyone is listed. */
  lemma {:induction false} FilteredMembersAll(members: seq<Member>)
    ensures FilteredMembers(members, "", AllChoice, AllChoice, AllChoice) == members
  {
    forall m | m in members ensures Matches("", AllChoice, AllChoice, AllChoice)(m) {
      ContainsEmpty(ToLower(m.name));
    }
    FilterAll(members, Matches("", AllChoice, AllChoice, AllChoice));
  }

  lemma {:induction false} FilterAll<T(!new)>(s: seq<T>, p: T -> bool)
    requires forall x :: x in s ==> p(x)
    ensures Filter(s, p) == s
  {
    if s != [] {
      var rest := s[1..];
      forall x | x in rest ensures p(x) {
        var i :| 0 <= i < |rest| && rest[i] == x;
        assert s[i + 1] == x;
      }
      FilterAll(rest, p);
      assert p(s[0]);
      assert Filter(s, p) == [s[0]] + Filter(rest, p);
      assert s == [s[0]] + rest;
    }
  }

  /** `Math.ceil(n / itemsPerPage)` */
  function TotalPages(n: nat): nat
  {
    (n + ItemsPerPage - 1) / ItemsPerPage
  }

  /** `Array.prototype.slice(start, end)`: negative indices count from the end, both are clamped. */
  function Slice<T>(s: seq<T>, start: int, end: int): (r: seq<T>)
  {
    var a := if start < 0 then (if |s| + start < 0 then 0 else |s| + start) else (if start > |s| then |s| else start);
    var b := if end < 0 then (if |s| + end < 0 then 0 else |s| + end) else (if end > |s| then |s| else end);
    if a < b then s[a..b] else []
  }

  /** The members on page `page`: `filtered.slice((page - 1) * 10, page * 10)`. */
  function PageOf(filtered: seq<Member>, page: int): seq<Member>
  {
    Slice(filtered, (page - 1) * ItemsPerPage, (page - 1) * ItemsPerPage + ItemsPerPage)
  }

  /**
   * Every listed member is on exactly one page, at its index modulo ten of
   * page index / 10 + 1; the pages before the last are full, and there are
   * just enough pages for the list.
   */
  lemma {:induction false} PagesCover(filtered: seq<Member>, i: nat)
    requires i < |filtered|
    ensures var p := i / ItemsPerPage + 1;
      1 <= p <= TotalPages(|filtered|) && |PageOf(filtered, p)| > i % ItemsPerPage
      && PageOf(filtered, p)[i % ItemsPerPage] == filtered[i]
  {
  }

  lemma {:induction false} PageSizes(filtered: seq<Member>, page: int)
    ensures |PageOf(filtered, page)| <= ItemsPerPage
    ensures 1 <= page < TotalPages(|filtered|) ==> |PageOf(filtered, page)| == ItemsPerPage
    ensures page > TotalPages(|filtered|) ==> PageOf(filtered, page) == []
    ensures |filtered| > 0 <==> TotalPages(|filtered|) >= 1
  {
  }

  // ---------------------------------------------------------------------
  // The affiliation change
  // ---------------------------------------------------------------------

  /** What `memberAffiliationChanged` carries. */
  datatype AffiliationEvent = AffiliationEvent(memberIds: seq<int>, department: string, group: string, team: string)

  /** The member with a new 소속국, 소속그룹 and 소속순. */
  function Moved(m: Member, dept: string, group: string, team: string): Member
  {
    m.(department := dept, group := group, team := team)
  }

  /** `prevMembers.map(...)`: selected members moved, the others as they were. */
  function Reassigned(members: seq<Member>, selected: seq<int>, dept: string, group: string, team: string): (r: seq<Member>)
    ensures |r| == |members|
    ensures forall i :: 0 <= i < |members| ==>
      r[i] == if members[i].id in selected then Moved(members[i], dept, group, team) else members[i]
  {
    seq(|members|, i requires 0 <= i < |members| =>
      if members[i].id in selected then Moved(members[i], dept, group, team) else members[i])
  }

  /**
   * Only the selected members' three affiliations change: ids, names,
   * birth years and other fields stay, and every unselected member is
   * unchanged. Moving the same members again changes nothing more.
   */
  lemma {:induction false} ReassignedSpec(members: seq<Member>, selected: seq<int>, dept: string, group: string, team: string, i: nat)
    requires i < |members|
    ensures var r := Reassigned(members, selected, dept, group, team);
      && r[i].id == members[i].id && r[i].name == members[i].name
      && r[i].birthYear == members[i].birthYear && r[i].other == members[i].other
      && (members[i].id in selected ==> r[i].department == dept && r[i].group == group && r[i].team == team)
      && (members[i].id !in selected ==> r[i] == members[i])
    ensures Reassigned(Reassigned(members, selected, dept, group, team), selected, dept, group, team)
      == Reassigned(members, selected, dept, group, team)
  {
  }

  /**
   * The page: the loaded members, the filters and page, the selection, the
   * change dialog's three choices, and what it showed or sent: alerts,
   * the success notice and the dispatched events.
   */
  class MembersBoard {
    var members: seq<Member>
    var searchTerm: string
    var department: string
    var group: string
    var team: string
    var currentPage: int
    var selected: seq<int>
    var showModal: bool
    var showAlert: bool
    var newDepartment: string
    var newGroup: string
    var newTeam: string
    var alerts: seq<string>
    var events: seq<AffiliationEvent>

    constructor(loaded: seq<Member>)
      ensures members == loaded && searchTerm == "" && department == AllChoice && group == AllChoice && team == AllChoice
      ensures currentPage == 1 && selected == [] && !showModal && !showAlert
      ensures newDepartment == "" && newGroup == "" && newTeam == "" && alerts == [] && events == []
    {
      members := loaded;
      searchTerm := "";
      department := AllChoice;
      group := AllChoice;
      team := AllChoice;
      currentPage := 1;
      selected := [];
      showModal := false;
      showAlert := false;
      newDepartment := "";
      newGroup := "";
      newTeam := "";
      alerts := [];
      events := [];
    }

    /** The rows on screen. */
    function CurrentMembers(): seq<Member>
      reads this
    {
      PageOf(FilteredMembers(members, searchTerm, department, group, team), currentPage)
    }

    /** The search, the three filters and the page: what decides the rows on screen. */
    function Listing(): (string, string, string, string, int)
      reads this
    {
      (searchTerm, department, group, team, currentPage)
    }

    /** The change dialog's three choices. */
    function Choices(): (string, string, string)
      reads this
    {
      (newDepartment, newGroup, newTeam)
    }

    /** The number of pages the current filters give. */
    function PageCount(): nat
      reads this
    {
      TotalPages(|FilteredMembers(members, searchTerm, department, group, team)|)
    }

    /** Typing in the search box: the new term and back to page 1. */
    method Search(text: string)
      modifies this
      ensures Listing() == (text, old(department), old(group), old(team), 1)
      ensures members == old(members) && selected == old(selected) && showModal == old(showModal)
      ensures showAlert == old(showAlert) && Choices() == old(Choices()) && alerts == old(alerts) && events == old(events)
    {
      searchTerm := text;
      currentPage := 1;
    }

    /** The 소속국 filter select: the new filter and back to page 1. */
    method FilterDepartment(value: string)
      modifies this
      ensures Listing() == (old(searchTerm), value, old(group), old(team), 1)
      ensures members == old(members) && selected == old(selected) && showModal == old(showModal)
      ensures showAlert == old(showAlert) && Choices() == old(Choices()) && alerts == old(alerts) && events == old(events)
    {
      department := value;
      currentPage := 1;
    }

    /** The 소속그룹 filter select. */
    method FilterGroup(value: string)
      modifies this
      ensures Listing() == (old(searchTerm), old(department), value, old(team), 1)
      ensures members == old(members) && selected == old(selected) && showModal == old(showModal)
      ensures showAlert == old(showAlert) && Choices() == old(Choices()) && alerts == old(alerts) && events == old(events)
    {
      group := value;
      currentPage := 1;
    }

    /** The 소속순 filter select. */
    method FilterTeam(value: string)
      modifies this
      ensures Listing() == (old(searchTerm), old(department), old(group), value, 1)
      ensures members == old(members) && selected == old(selected) && showModal == old(showModal)
      ensures showAlert == old(showAlert) && Choices() == old(Choices()) && alerts == old(alerts) && events == old(events)
    {
      team := value;
      currentPage := 1;
    }

    /**
     * The 이전 button, disabled on page 1: one page back, so a page within
     * 1..PageCount() stays within it.
     */
    method PreviousPage()
      modifies this
      ensures old(currentPage) == 1 ==> currentPage == 1
      ensures old(currentPage) != 1 ==> currentPage == old(currentPage) - 1
      ensures 1 <= old(currentPage) <= PageCount() ==> 1 <= currentPage <= PageCount()
      ensures searchTerm == old(searchTerm) && department == old(department) && group == old(group) && team == old(team)
      ensures members == old(members) && selected == old(selected) && showModal == old(showModal)
      ensures showAlert == old(showAlert) && Choices() == old(Choices()) && alerts == old(alerts) && events == old(events)
    {
      if currentPage != 1 {
        currentPage := currentPage - 1;
      }
    }

    /**
     * The 다음 button, disabled on the last page: one page on.  Only the
     * equality with the page count disables it, so with nothing listed
     * (no page at all) it still moves from page 1 to page 2.
     */
    method NextPage()
      modifies this
      ensures old(currentPage) == PageCount() ==> currentPage == old(currentPage)
      ensures old(currentPage) != PageCount() ==> currentPage == old(currentPage) + 1
      ensures 1 <= old(currentPage) <= PageCount() ==> 1 <= currentPage <= PageCount()
      ensures searchTerm == old(searchTerm) && department == old(department) && group == old(group) && team == old(team)
      ensures members == old(members) && selected == old(selected) && showModal == old(showModal)
      ensures showAlert == old(showAlert) && Choices() == old(Choices()) && alerts == old(alerts) && events == old(events)
    {
      if currentPage != PageCount() {
        currentPage := currentPage + 1;
      }
    }

    /** A numbered page button. */
    method GoToPage(page: int)
      modifies this
      ensures currentPage == page
      ensures searchTerm == old(searchTerm) && department == old(department) && group == old(group) && team == old(team)
      ensures members == old(members) && selected == old(selected) && showModal == old(showModal)
      ensures showAlert == old(showAlert) && Choices() == old(Choices()) && alerts == old(alerts) && events == old(events)
    {
      currentPage := page;
    }

    /**
     * The `resetMembersPage` listener: the search and filters, the page, the
     * selection, the dialog, the notice and the choices go back to how the
     * page starts; the members, alerts and events stay.
     */
    method ResetPage()
      modifies this
      ensures Listing() == ("", AllChoice, AllChoice, AllChoice, 1) && Choices() == ("", "", "")
      ensures selected == [] && !showModal && !showAlert
      ensures members == old(members) && alerts == old(alerts) && events == old(events)
    {
      searchTerm := "";
      department := AllChoice;
      group := AllChoice;
      team := AllChoice;
      currentPage := 1;
      selected := [];
      showModal := false;
      showAlert := false;
      newDepartment := "";
      newGroup := "";
      newTeam := "";
    }

    /** `handleSelectMember` */
    method SelectMember(id: int)
      modifies this
      ensures selected == MembersMain.SelectToggled(old(selected), id)
      ensures members == old(members) && Listing() == old(Listing()) && Choices() == old(Choices())
      ensures showModal == old(showModal) && showAlert == old(showAlert) && alerts == old(alerts) && events == old(events)
    {
      if id in selected {
        selected := Remove(selected, id);
      } else {
        selected := selected + [id];
      }
    }

    /** `handleOpenModal`: an alert when nothing is selected, else the dialog opens. */
    method OpenModal()
      modifies this
      ensures old(selected) == [] ==> alerts == old(alerts) + [SelectFirst] && showModal == old(showModal)
      ensures old(selected) != [] ==> alerts == old(alerts) && showModal
      ensures members == old(members) && selected == old(selected) && events == old(events)
      ensures Listing() == old(Listing()) && Choices() == old(Choices()) && showAlert == old(showAlert)
    {
      if selected == [] {
        alerts := alerts + [SelectFirst];
        return;
      }
      showModal := true;
    }

    /** `handleCloseModal`: the dialog closes and forgets its choices. */
    method CloseModal()
      modifies this
      ensures !showModal && Choices() == ("", "", "")
      ensures members == old(members) && selected == old(selected) && events == old(events) && alerts == old(alerts)
      ensures showAlert == old(showAlert) && Listing() == old(Listing())
    {
      showModal := false;
      newDepartment := "";
      newGroup := "";
      newTeam := "";
    }

    /** Choosing a department clears the group and team. */
    method DepartmentChange(dept: string)
      modifies this
      ensures Choices() == (dept, "", "")
      ensures members == old(members) && selected == old(selected) && showModal == old(showModal)
      ensures Listing() == old(Listing()) && showAlert == old(showAlert) && alerts == old(alerts) && events == old(events)
    {
      newDepartment := dept;
      newGroup := "";
      newTeam := "";
    }

    /** Choosing a group clears the team. */
    method GroupChange(g: string)
      modifies this
      ensures Choices() == (old(newDepartment), g, "")
      ensures members == old(members) && selected == old(selected) && showModal == old(showModal)
      ensures Listing() == old(Listing()) && showAlert == old(showAlert) && alerts == old(alerts) && events == old(events)
    {
      newGroup := g;
      newTeam := "";
    }

    method TeamChange(t: string)
      modifies this
      ensures Choices() == (old(newDepartment), old(newGroup), t)
      ensures members == old(members) && selected == old(selected) && showModal == old(showModal)
      ensures Listing() == old(Listing()) && showAlert == old(showAlert) && alerts == old(alerts) && events == old(events)
    {
      newTeam := t;
    }

    /**
     * `handleConfirmChange`: with a choice missing, only an alert; else the
     * selected members move, the event is sent, the notice shows, the
     * dialog closes and the selection is cleared.  The filters and the
     * page stay either way.
     */
    method ConfirmChange()
      modifies this
      ensures Listing() == old(Listing())
      ensures old(newDepartment) == "" || old(newGroup) == "" || old(newTeam) == "" ==>
        alerts == old(alerts) + [ChooseAll] && members == old(members) && events == old(events)
        && selected == old(selected) && showModal == old(showModal)
        && showAlert == old(showAlert) && Choices() == old(Choices())
      ensures old(newDepartment) != "" && old(newGroup) != "" && old(newTeam) != "" ==>
        && members == Reassigned(old(members), old(selected), old(newDepartment), old(newGroup), old(newTeam))
        && events == old(events) + [AffiliationEvent(old(selected), old(newDepartment), old(newGroup), old(newTeam))]
        && alerts == old(alerts) && showAlert && !showModal && selected == []
        && Choices() == ("", "", "")
    {
      if newDepartment == "" || newGroup == "" || newTeam == "" {
        alerts := alerts + [ChooseAll];
        return;
      }
      members := Reassigned(members, selected, newDepartment, newGroup, newTeam);
      events := events + [AffiliationEvent(selected, newDepartment, newGroup, newTeam)];
      showAlert := true;
      CloseModal();
      selected := [];
    }

    /** The timer five seconds after a change hides the notice. */
    method HideNotice()
      modifies this
      ensures !showAlert
      ensures members == old(members) && Listing() == old(Listing()) && Choices() == old(Choices())
      ensures selected == old(selected) && showModal == old(showModal) && alerts == old(alerts) && events == old(events)
    {
      showAlert := false;
    }
  }
}
