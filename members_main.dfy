/**
 * The member list page of the new layout
 * (src/components/main/MembersManagement.tsx): the filter key that
 * detects a change of search or filters, the accepted search term, the
 * parsing of `국_그룹_순` organisation names and the cascaded filter
 * options, the sorted copy of the loaded members and the sort header
 * clicks, the check-box selection, the paging state the filter effect
 * resets, and the checks the add-member form runs before it submits.
 * Requests, the debounce timer, toasts and navigation are not modelled.
 */
module MembersMain {
  import opened Common
  import Sanitization
  import Validation
  import PhoneUtils
  import MemberService

  const AllChoice := "전체"
  const ItemsPerPage := 20

  // ---------------------------------------------------------------------
  // The filter key
  // ---------------------------------------------------------------------

  /** `createFilterKey`: search, department, group and team separated by `_`. */
  function FilterKey(search: string, dept: string, group: string, team: string): string
  {
    search + "_" + dept + "_" + group + "_" + team
  }

  /** The key is the four parts joined by `_`; without `_` in them, they are read back from it. */
  lemma {:induction false} FilterKeyReadsBack(search: string, dept: string, group: string, team: string)
    requires '_' !in search && '_' !in dept && '_' !in group && '_' !in team
    ensures Split(FilterKey(search, dept, group, team), '_') == [search, dept, group, team]
  {
    var parts := [search, dept, group, team];
    assert Join(parts, "_") == FilterKey(search, dept, group, team) by {
      assert parts[1..] == [dept, group, team];
      assert parts[1..][1..] == [group, team];
      assert parts[1..][1..][1..] == [team];
      assert Join([group, team], "_") == group + "_" + team;
      assert Join([dept, group, team], "_") == dept + "_" + (group + "_" + team);
      assert Join(parts, "_") == search + "_" + (dept + "_" + (group + "_" + team));
    }
    SplitJoined(parts, '_');
  }

  /** For `_`-free parts the key changes exactly when one of the four parts does. */
  lemma {:induction false} FilterKeyDetectsChange(s: string, d: string, g: string, t: string,
                               s': string, d': string, g': string, t': string)
    requires '_' !in s && '_' !in d && '_' !in g && '_' !in t
    requires '_' !in s' && '_' !in d' && '_' !in g' && '_' !in t'
    ensures FilterKey(s, d, g, t) == FilterKey(s', d', g', t') <==> s == s' && d == d' && g == g' && t == t'
  {
    FilterKeyReadsBack(s, d, g, t);
    FilterKeyReadsBack(s', d', g', t');
  }

  // ---------------------------------------------------------------------
  // The accepted search term
  // ---------------------------------------------------------------------

  /** `validSearchTerm`: the sanitised, trimmed term when it is empty or two or more characters long, else "". */
  function ValidSearchTerm(debounced: string): (r: string)
  {
    var t := Trim(Sanitization.SanitizeSearchTerm(debounced));
    if |t| >= 2 || |t| == 0 then t else ""
  }

  /**
   * The accepted term is "" or at least two characters of the sanitised
   * term; a one-character term is dropped; and accepting an accepted term
   * changes nothing.
   */
  lemma {:induction false} ValidSearchTermSpec(debounced: string)
    ensures var r := ValidSearchTerm(debounced);
      && (r == "" || |r| >= 2)
      && (r == "" || r == Sanitization.SanitizeSearchTerm(debounced))
      && (|Sanitization.SanitizeSearchTerm(debounced)| == 1 ==> r == "")
      && ValidSearchTerm(r) == r
  {
    var s := Sanitization.SanitizeSearchTerm(debounced);
    Sanitization.SearchTermShape(debounced);
    TrimFixedEnds(s);
    var r := ValidSearchTerm(debounced);
    if r != "" {
      Sanitization.SearchTermIdempotent(debounced);
    }
    TrimFixedEnds(Sanitization.SanitizeSearchTerm(r));
  }

  /** Text with no space at either end is its own trim. */
  lemma {:induction false} TrimFixedEnds(s: string)
    requires s == [] || (s[0] != ' ' && s[|s| - 1] != ' ')
    requires forall i :: 0 <= i < |s| ==> IsHangul(s[i]) || IsAsciiAlnum(s[i]) || s[i] == ' '
    ensures Trim(s) == s
  {
    if s != [] {
      assert !IsSpace(s[0]) && !IsSpace(s[|s| - 1]) by {
        assert IsHangul(s[0]) || IsAsciiAlnum(s[0]);
        assert IsHangul(s[|s| - 1]) || IsAsciiAlnum(s[|s| - 1]);
        DigitNotSpaceOrLetter(s[0]);
        DigitNotSpaceOrLetter(s[|s| - 1]);
      }
      TrimFixed(s);
    }
  }

  lemma {:induction false} DigitNotSpaceOrLetter(c: char)
    requires IsHangul(c) || IsAsciiAlnum(c)
    ensures !IsSpace(c)
  {
  }

  // ---------------------------------------------------------------------
  // Organisation names and the cascaded options
  // ---------------------------------------------------------------------

  /** `parseOrganizationName`: parts 0, 1 and 2 of the `_` split, each missing when absent or empty. */
  datatype ParsedName = ParsedName(department: Option<string>, group: Option<string>, team: Option<string>)

  function ParseOrganizationName(name: string): ParsedName
  {
    ParsedName(MemberService.PartAt(name, 0), MemberService.PartAt(name, 1), MemberService.PartAt(name, 2))
  }

  /** A full `국_그룹_순` name parses back into its three parts. */
  lemma {:induction false} ParseFullName(d: string, g: string, t: string)
    requires d != "" && g != "" && t != ""
    requires '_' !in d && '_' !in g && '_' !in t
    ensures ParseOrganizationName(MemberService.OrgName(d, g, t)) == ParsedName(Some(d), Some(g), Some(t))
  {
    MemberService.PartsOfFullName(d, g, t);
  }

  /** The empty name has no part, and a name without `_` has only a department. */
  lemma {:induction false} ParseShortNames(d: string)
    requires d != "" && '_' !in d
    ensures ParseOrganizationName("") == ParsedName(None, None, None)
    ensures ParseOrganizationName(d) == ParsedName(Some(d), None, None)
  {
    SplitNoSep(d, '_');
  }

  /** A department is chosen when it is neither "" nor 전체. */
  predicate Chosen(choice: string)
  {
    choice != "" && choice != AllChoice
  }

  function InDepartment(dept: string): MemberService.Organization -> bool
  {
    (o: MemberService.Organization) => StartsWith(o.name, dept + "_")
  }

  function InGroup(group: string): MemberService.Organization -> bool
  {
    (o: MemberService.Organization) => Contains(o.name, "_" + group + "_")
  }

  /**
   * `getHierarchicalOptions`: the departments as loaded; with a chosen
   * department and a loaded organisation list, the sorted distinct groups
   * of that department's organisations and, when a group is chosen too,
   * the sorted distinct teams of those that mention `_group_`.
   */
  function HierarchicalOptions(options: MemberService.FilterOptions, orgs: seq<MemberService.Organization>,
                               dept: string, group: string): MemberService.FilterOptions
  {
    if Chosen(dept) && |orgs| > 0 then
      var deptOrgs := Filter(orgs, InDepartment(dept));
      var groups := SortedStrings(Distinct(MemberService.Parts(deptOrgs, 1)));
      var teams :=
        if Chosen(group) then SortedStrings(Distinct(MemberService.Parts(Filter(deptOrgs, InGroup(group)), 2)))
        else options.teams;
      MemberService.FilterOptions(options.departments, groups, teams)
    else options
  }

  /** Without a chosen department, or before the organisations load, nothing is narrowed. */
  lemma {:induction false} HierarchicalUnfiltered(options: MemberService.FilterOptions, orgs: seq<MemberService.Organization>,
                               dept: string, group: string)
    ensures !Chosen(dept) || orgs == [] ==> HierarchicalOptions(options, orgs, dept, group) == options
    ensures HierarchicalOptions(options, orgs, dept, group).departments == options.departments
    ensures !Chosen(group) ==> HierarchicalOptions(options, orgs, dept, group).teams == options.teams
  {
  }

  /**
   * With a chosen department the groups are sorted, distinct, and exactly
   * the group parts of the organisations named `<dept>_…`.
   */
  lemma {:induction false} HierarchicalGroups(options: MemberService.FilterOptions, orgs: seq<MemberService.Organization>,
                           dept: string, group: string, x: string)
    requires Chosen(dept) && orgs != []
    ensures var gs := HierarchicalOptions(options, orgs, dept, group).groups;
      && SortedBy(gs, StrLe) && NoDuplicates(gs)
      && (x in gs <==> exists o :: o in orgs && StartsWith(o.name, dept + "_") && MemberService.PartAt(o.name, 1) == Some(x))
  {
    var deptOrgs := Filter(orgs, InDepartment(dept));
    SortedDistinct(MemberService.Parts(deptOrgs, 1));
    MemberService.PartsSpec(deptOrgs, 1, x);
    if exists o :: o in orgs && StartsWith(o.name, dept + "_") && MemberService.PartAt(o.name, 1) == Some(x) {
      var o :| o in orgs && StartsWith(o.name, dept + "_") && MemberService.PartAt(o.name, 1) == Some(x);
      assert InDepartment(dept)(o);
      var i :| 0 <= i < |deptOrgs| && deptOrgs[i] == o;
    }
  }

  /**
   * With a chosen department and group the teams are sorted, distinct, and
   * exactly the team parts of that department's organisations that mention
   * `_group_`.
   */
  lemma {:induction false} HierarchicalTeams(options: MemberService.FilterOptions, orgs: seq<MemberService.Organization>,
                          dept: string, group: string, x: string)
    requires Chosen(dept) && Chosen(group) && orgs != []
    ensures var ts := HierarchicalOptions(options, orgs, dept, group).teams;
      && SortedBy(ts, StrLe) && NoDuplicates(ts)
      && (x in ts <==> exists o :: o in orgs && StartsWith(o.name, dept + "_") && Contains(o.name, "_" + group + "_")
                                   && MemberService.PartAt(o.name, 2) == Some(x))
  {
    var deptOrgs := Filter(orgs, InDepartment(dept));
    var groupOrgs := Filter(deptOrgs, InGroup(group));
    SortedDistinct(MemberService.Parts(groupOrgs, 2));
    MemberService.PartsSpec(groupOrgs, 2, x);
    if exists o :: o in orgs && StartsWith(o.name, dept + "_") && Contains(o.name, "_" + group + "_")
                   && MemberService.PartAt(o.name, 2) == Some(x) {
      var o :| o in orgs && StartsWith(o.name, dept + "_") && Contains(o.name, "_" + group + "_")
               && MemberService.PartAt(o.name, 2) == Some(x);
      assert InDepartment(dept)(o) && InGroup(group)(o);
      assert o in deptOrgs;
      assert o in groupOrgs;
    }
  }

  // ---------------------------------------------------------------------
  // Sorting the loaded members
  // ---------------------------------------------------------------------

  /** A loaded member: its id and its fields by name. */
  datatype Member = Member(id: int, fields: Record)

  datatype SortOrder = Asc | Desc

  /** `m[field] || ''` */
  function SortValue(m: Member, field: string): string
  {
    GetOr(m.fields, field)
  }

  /** The comparator: a member may stay in front of another when its value is not after (asc) or not before (desc). */
  function InOrder(field: string, order: SortOrder): (Member, Member) -> bool
  {
    (a: Member, b: Member) =>
      if order == Asc then StrLe(SortValue(a, field), SortValue(b, field))
      else StrLe(SortValue(b, field), SortValue(a, field))
  }

  /** `sortedMembers`: the list itself without a sort field, else a sorted copy. */
  function SortedMembers(members: seq<Member>, field: string, order: SortOrder): seq<Member>
  {
    if field == "" then members else SortBy(members, InOrder(field, order))
  }

  lemma {:induction false} InOrderTotal(field: string, order: SortOrder)
    ensures Total(InOrder(field, order))
  {
    forall a: Member, b: Member ensures InOrder(field, order)(a, b) || InOrder(field, order)(b, a) {
      StrLeTotalAt(SortValue(a, field), SortValue(b, field));
    }
  }

  /**
   * Without a sort field the list is returned as it is; otherwise the
   * result holds the same members, ordered by the field's value
   * ascending or descending.
   */
  lemma {:induction false} SortedMembersSpec(members: seq<Member>, field: string, order: SortOrder)
    ensures field == "" ==> SortedMembers(members, field, order) == members
    ensures multiset(SortedMembers(members, field, order)) == multiset(members)
    ensures var r := SortedMembers(members, field, order);
      field != "" ==> forall i :: 0 <= i < |r| - 1 ==>
        if order == Asc then StrLe(SortValue(r[i], field), SortValue(r[i + 1], field))
        else StrLe(SortValue(r[i + 1], field), SortValue(r[i], field))
  {
    if field != "" {
      InOrderTotal(field, order);
      SortBySorted(members, InOrder(field, order));
    }
  }

  /** `handleSort`: the same field again flips the order; a new field starts ascending. */
  function NextSort(field: string, order: SortOrder, clicked: string): (r: (string, SortOrder))
  {
    if field == clicked then (field, if order == Asc then Desc else Asc) else (clicked, Asc)
  }

  /** A header click always sorts by the clicked field; two clicks on it restore the order. */
  lemma {:induction false} NextSortSpec(field: string, order: SortOrder, clicked: string)
    ensures NextSort(field, order, clicked).0 == clicked
    ensures field != clicked ==> NextSort(field, order, clicked).1 == Asc
    ensures field == clicked ==> NextSort(field, order, clicked).1 != order
    ensures var (f, o) := NextSort(field, order, clicked); NextSort(f, o, clicked) == (if field == clicked then (field, order) else (clicked, Desc))
  {
  }

  // ---------------------------------------------------------------------
  // Selection
  // ---------------------------------------------------------------------

  /** `handleSelectMember`: drop every copy of the id when selected, else append it. */
  function SelectToggled(selected: seq<int>, id: int): (r: seq<int>)
  {
    if id in selected then Remove(selected, id) else selected + [id]
  }

  /** Exactly the toggled id changes membership; toggling back restores the selected ids. */
  lemma {:induction false} SelectToggledSpec(selected: seq<int>, id: int, other: int)
    ensures id in SelectToggled(selected, id) <==> id !in selected
    ensures other != id ==> (other in SelectToggled(selected, id) <==> other in selected)
    ensures id !in selected ==> SelectToggled(SelectToggled(selected, id), id) == selected
    ensures other in SelectToggled(SelectToggled(selected, id), id) <==> other in selected
  {
    if id !in selected {
      RemoveAppendAbsent(selected, id);
    }
  }

  /** `isAllSelected`: as many selected as loaded, and at least one loaded. */
  predicate AllSelected(selected: seq<int>, members: seq<Member>)
  {
    |selected| == |members| && |members| > 0
  }

  /** The ids of the loaded members (`members.map(m => m.id)`). */
  function Ids(members: seq<Member>): (ids: seq<int>)
    ensures |ids| == |members|
    ensures forall i :: 0 <= i < |members| ==> ids[i] == members[i].id
  {
    seq(|members|, i requires 0 <= i < |members| => members[i].id)
  }

  // ---------------------------------------------------------------------
  // The page's state
  // ---------------------------------------------------------------------

  /**
   * The list page: the filters, the last filter key seen, the page
   * counter of the infinite scroll, the loaded members, the sort and the
   * selection.
   */
  class MembersPage {
    var searchTerm: string
    var department: string
    var group: string
    var team: string
    var filterKey: string
    var currentPage: int
    var hasMore: bool
    var members: seq<Member>
    var sortField: string
    var sortOrder: SortOrder
    var selected: seq<int>

    /** The page as first rendered: no search, every filter 전체, page 1 and nothing loaded. */
    constructor()
      ensures searchTerm == "" && department == AllChoice && group == AllChoice && team == AllChoice
      ensures filterKey == "" && currentPage == 1 && hasMore && members == []
      ensures sortField == "" && sortOrder == Asc && selected == []
    {
      searchTerm := "";
      department := AllChoice;
      group := AllChoice;
      team := AllChoice;
      filterKey := "";
      currentPage := 1;
      hasMore := true;
      members := [];
      sortField := "";
      sortOrder := Asc;
      selected := [];
    }

    /** The rows shown: the loaded members in the chosen order. */
    function Shown(): seq<Member>
      reads this
    {
      SortedMembers(members, sortField, sortOrder)
    }

    /**
     * The effect on the search term and the filters: when the key differs
     * from the last one, go back to page 1, expect more, drop the loaded
     * members and remember the key.
     */
    method FiltersChanged()
      modifies this
      ensures var key := FilterKey(ValidSearchTerm(searchTerm), department, group, team);
        && filterKey == key
        && (old(filterKey) != key ==> currentPage == 1 && hasMore && members == [])
        && (old(filterKey) == key ==> currentPage == old(currentPage) && hasMore == old(hasMore) && members == old(members))
      ensures searchTerm == old(searchTerm) && department == old(department) && group == old(group) && team == old(team)
      ensures sortField == old(sortField) && sortOrder == old(sortOrder) && selected == old(selected)
    {
      var key := FilterKey(ValidSearchTerm(searchTerm), department, group, team);
      if filterKey != key {
        currentPage := 1;
        hasMore := true;
        members := [];
        filterKey := key;
      }
    }

    /** `loadMore`: the next page, only when more is expected and nothing is loading. */
    method LoadMore(loading: bool)
      modifies this
      ensures currentPage == if hasMore && !loading then old(currentPage) + 1 else old(currentPage)
      ensures hasMore == old(hasMore) && members == old(members) && filterKey == old(filterKey)
      ensures searchTerm == old(searchTerm) && department == old(department) && group == old(group) && team == old(team)
      ensures sortField == old(sortField) && sortOrder == old(sortOrder) && selected == old(selected)
    {
      if hasMore && !loading {
        currentPage := currentPage + 1;
      }
    }

    /**
     * A page of members arrived: the first page (or one fetched for a new
     * filter) replaces the list, a later one is appended; more is expected
     * while the page is below the reported page count.
     */
    method Loaded(page: seq<Member>, totalPages: int, append: bool)
      modifies this
      ensures members == if append then old(members) + page else page
      ensures hasMore == (currentPage < totalPages)
      ensures currentPage == old(currentPage) && filterKey == old(filterKey)
      ensures searchTerm == old(searchTerm) && department == old(department) && group == old(group) && team == old(team)
      ensures sortField == old(sortField) && sortOrder == old(sortOrder) && selected == old(selected)
    {
      if append {
        members := members + page;
      } else {
        members := page;
      }
      hasMore := currentPage < totalPages;
    }

    /** `handleSort` */
    method HandleSort(field: string)
      modifies this
      ensures (sortField, sortOrder) == NextSort(old(sortField), old(sortOrder), field)
      ensures members == old(members) && selected == old(selected) && currentPage == old(currentPage)
      ensures filterKey == old(filterKey) && hasMore == old(hasMore)
      ensures searchTerm == old(searchTerm) && department == old(department) && group == old(group) && team == old(team)
    {
      if sortField == field {
        sortOrder := if sortOrder == Asc then Desc else Asc;
      } else {
        sortField := field;
        sortOrder := Asc;
      }
    }

    /** `handleResetFilters`: clear the search, every filter to 전체, page 1 and no sort. */
    method ResetFilters()
      modifies this
      ensures searchTerm == "" && department == AllChoice && group == AllChoice && team == AllChoice
      ensures currentPage == 1 && sortField == "" && sortOrder == Asc
      ensures members == old(members) && selected == old(selected) && filterKey == old(filterKey) && hasMore == old(hasMore)
    {
      searchTerm := "";
      department := AllChoice;
      group := AllChoice;
      team := AllChoice;
      currentPage := 1;
      sortField := "";
      sortOrder := Asc;
    }

    /** `handleSelectMember` */
    method SelectMember(id: int)
      modifies this
      ensures selected == SelectToggled(old(selected), id)
      ensures members == old(members) && currentPage == old(currentPage) && filterKey == old(filterKey)
      ensures sortField == old(sortField) && sortOrder == old(sortOrder) && hasMore == old(hasMore)
      ensures searchTerm == old(searchTerm) && department == old(department) && group == old(group) && team == old(team)
    {
      if id in selected {
        selected := Remove(selected, id);
      } else {
        selected := selected + [id];
      }
    }

    /** `handleSelectAll`: every loaded id when checked, none otherwise. */
    method SelectAll(checked: bool)
      modifies this
      ensures selected == if checked then Ids(members) else []
      ensures checked && members != [] ==> AllSelected(selected, members)
      ensures !checked ==> !AllSelected(selected, members)
      ensures members == old(members) && currentPage == old(currentPage) && filterKey == old(filterKey)
      ensures sortField == old(sortField) && sortOrder == old(sortOrder) && hasMore == old(hasMore)
      ensures searchTerm == old(searchTerm) && department == old(department) && group == old(group) && team == old(team)
    {
      if checked {
        selected := Ids(members);
      } else {
        selected := [];
      }
    }

    /** The effect on the page counter clears the selection. */
    method PageChanged()
      modifies this
      ensures selected == []
      ensures members == old(members) && currentPage == old(currentPage) && filterKey == old(filterKey)
      ensures sortField == old(sortField) && sortOrder == old(sortOrder) && hasMore == old(hasMore)
      ensures searchTerm == old(searchTerm) && department == old(department) && group == old(group) && team == old(team)
    {
      selected := [];
    }
  }

  // ---------------------------------------------------------------------
  // The add-member form
  // ---------------------------------------------------------------------

  /** The form's fields: name, name suffix, birth date text, phone, and the three affiliations. */
  datatype NewMemberInfo = NewMemberInfo(name: string, nameSuffix: string, birthDate: string, phone: string,
                                         department: string, group: string, team: string)

  const AffiliationError := "소속 정보를 모두 선택해주세요."
  const PhoneDefaultError := "휴대폰 번호를 입력해주세요."

  /** The phone message: the check's own error, or the default when it has none. */
  function PhoneError(phone: string): string
  {
    match PhoneUtils.ValidatePhoneNumber(phone)
    case Valid => ""
    case Invalid(e) => if e == "" then PhoneDefaultError else e
  }

  /** Files `message` under `key` when the message is not empty. */
  function AddError(errors: map<string, string>, key: string, message: string): map<string, string>
  {
    if message == "" then errors else errors[key := message]
  }

  /**
   * The errors of `handleAddMemberSubmit`, keyed by field: name, suffix,
   * phone, birth date (only when given) and the affiliations. `today` stands for the clock the birth-date check reads.
   */
  function AddMemberErrors(info: NewMemberInfo, today: Validation.Date): (errors: map<string, string>)
  {
    var e0 := AddError(map[], "이름", Validation.RequiredNameWithEnglish(info.name));
    var e1 := AddError(e0, "name_suffix", Validation.RequiredNameSuffix(info.nameSuffix));
    var e2 := AddError(e1, "휴대폰번호", PhoneError(info.phone));
    var e3 := if info.birthDate != "" then AddError(e2, "생일연도", Validation.BirthDate(info.birthDate, today)) else e2;
    if info.department == "" || info.group == "" || info.team == "" then e3["소속" := AffiliationError] else e3
  }

  /**
   * The form is submitted iff there are no errors, that is iff the name and
   * suffix pass, the phone is valid, a given birth date passes and all
   * three affiliations are chosen; each check that fails files its error
   * under its own field.
   */
  lemma {:induction false} AddMemberErrorsSpec(info: NewMemberInfo, today: Validation.Date)
    ensures var errors := AddMemberErrors(info, today);
      && (errors == map[] <==>
            Validation.RequiredNameWithEnglish(info.name) == ""
            && Validation.RequiredNameSuffix(info.nameSuffix) == ""
            && PhoneUtils.ValidatePhoneNumber(info.phone) == PhoneUtils.Valid
            && (info.birthDate == "" || Validation.BirthDate(info.birthDate, today) == "")
            && info.department != "" && info.group != "" && info.team != "")
      && ("소속" in errors <==> info.department == "" || info.group == "" || info.team == "")
      && ("생일연도" in errors <==> info.birthDate != "" && Validation.BirthDate(info.birthDate, today) != "")
      && ("휴대폰번호" in errors <==> PhoneUtils.ValidatePhoneNumber(info.phone) != PhoneUtils.Valid)
      && ("이름" in errors <==> Validation.RequiredNameWithEnglish(info.name) != "")
  {
    AddMemberErrorsEmpty(info, today);
    AddMemberErrorKeys(info, today);
    PhoneErrorSpec(info.phone);
  }

  /** The phone error is empty exactly for a valid number. */
  lemma {:induction false} PhoneErrorSpec(phone: string)
    ensures PhoneError(phone) == "" <==> PhoneUtils.ValidatePhoneNumber(phone) == PhoneUtils.Valid
  {
    if PhoneUtils.ValidatePhoneNumber(phone) != PhoneUtils.Valid {
      assert PhoneDefaultError != "";
    }
  }

  lemma {:induction false} AddMemberErrorsEmpty(info: NewMemberInfo, today: Validation.Date)
    ensures AddMemberErrors(info, today) == map[] <==>
            Validation.RequiredNameWithEnglish(info.name) == ""
            && Validation.RequiredNameSuffix(info.nameSuffix) == ""
            && PhoneError(info.phone) == ""
            && (info.birthDate == "" || Validation.BirthDate(info.birthDate, today) == "")
            && info.department != "" && info.group != "" && info.team != ""
  {
    var errors := AddMemberErrors(info, today);
    if errors == map[] {
      assert "이름" !in errors && "name_suffix" !in errors && "휴대폰번호" !in errors;
      assert "생일연도" !in errors && "소속" !in errors;
    }
  }

  lemma {:induction false} AddMemberErrorKeys(info: NewMemberInfo, today: Validation.Date)
    ensures var errors := AddMemberErrors(info, today);
      && ("소속" in errors <==> info.department == "" || info.group == "" || info.team == "")
      && ("생일연도" in errors <==> info.birthDate != "" && Validation.BirthDate(info.birthDate, today) != "")
      && ("휴대폰번호" in errors <==> PhoneError(info.phone) != "")
      && ("이름" in errors <==> Validation.RequiredNameWithEnglish(info.name) != "")
  {
  }
}
