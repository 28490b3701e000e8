/**
 * The visit management page of the second layout
 * (src/components/main/VisitationManagement.tsx). Its keyword extraction
 * and 기수 are the first layout's (`VisitationManagement.Keywords`,
 * `Visitation.Generation`); what is its own is the visit filter without
 * favourites, the organisation lists read from the member data, and the
 * new visit put in front of the list on submit. The record id and the
 * creation stamp come from the clock and are parameters.
 */
module VisitationMain {
  import opened Common
  import Visitation
  import VisitationManagement
  import MembersLegacy

  // ---------------------------------------------------------------------
  // The visit filter
  // ---------------------------------------------------------------------

  /** `filteredVisitations`: the name search and the three place filters. */
  function FilteredVisitations(visits: seq<Visitation.Visit>, search: string, department: string, group: string,
                               team: string): seq<Visitation.Visit>
  {
    Filter(visits, (v: Visitation.Visit) => VisitationManagement.MatchesPlace(v, search, department, group, team))
  }

  /**
   * A visit is listed iff its name contains the search text and each place
   * filter is 전체 or equal; the list keeps the loaded order, so filtering
   * two runs of visits gives the two filtered runs one after the other.
   */
  lemma {:induction false} FilteredVisitationsSpec(visits: seq<Visitation.Visit>, more: seq<Visitation.Visit>, search: string,
                                department: string, group: string, team: string, v: Visitation.Visit)
    ensures v in FilteredVisitations(visits, search, department, group, team) <==>
      v in visits && Contains(v.name, search)
      && (department == VisitationManagement.All || v.guk == department)
      && (group == VisitationManagement.All || v.group == group)
      && (team == VisitationManagement.All || v.sun == team)
    ensures FilteredVisitations(visits + more, search, department, group, team) ==
      FilteredVisitations(visits, search, department, group, team) + FilteredVisitations(more, search, department, group, team)
  {
    FilterAppend(visits, more, (x: Visitation.Visit) => VisitationManagement.MatchesPlace(x, search, department, group, team));
  }

  /** With every filter open, every visit is listed. */
  lemma {:induction false} FilteredVisitationsAll(visits: seq<Visitation.Visit>)
    ensures FilteredVisitations(visits, "", VisitationManagement.All, VisitationManagement.All, VisitationManagement.All) == visits
  {
    if visits != [] {
      ContainsEmpty(visits[0].name);
      FilteredVisitationsAll(visits[1..]);
      assert visits == [visits[0]] + visits[1..];
      FilterAppend([visits[0]], visits[1..],
        (x: Visitation.Visit) => VisitationManagement.MatchesPlace(x, "", VisitationManagement.All, VisitationManagement.All, VisitationManagement.All));
    }
  }

  // ---------------------------------------------------------------------
  // Organisation lists
  // ---------------------------------------------------------------------

  /** `Array.from(new Set(values)).sort()` */
  function OptionList(values: seq<string>): seq<string>
  {
    SortedStrings(Distinct(values))
  }

  /** One field of every member, in member order (`member.department` and the like). */
  function Column(ms: seq<MembersLegacy.Member>, field: MembersLegacy.Member -> string): (r: seq<string>)
    ensures |r| == |ms| && forall i :: 0 <= i < |ms| ==> r[i] == field(ms[i])
  {
    seq(|ms|, i requires 0 <= i < |ms| => field(ms[i]))
  }

  function Department(m: MembersLegacy.Member): string { m.department }
  function Group(m: MembersLegacy.Member): string { m.group }
  function Team(m: MembersLegacy.Member): string { m.team }

  /** The set built from the first `i + 1` members is the one from the first `i` with one more value offered. */
  lemma {:induction false} ColumnStep(ms: seq<MembersLegacy.Member>, field: MembersLegacy.Member -> string, i: nat)
    requires i < |ms|
    ensures Distinct(Column(ms, field)[..i + 1]) ==
      var d := Distinct(Column(ms, field)[..i]);
      if field(ms[i]) in d then d else d + [field(ms[i])]
  {
    var c := Column(ms, field);
    assert c[..i + 1][..i] == c[..i];
  }

  /** `loadOrganizationData`: the three sets filled member by member, then sorted. */
  method LoadOrganizationData(members: seq<MembersLegacy.Member>)
    returns (departments: seq<string>, groups: seq<string>, teams: seq<string>)
    ensures departments == OptionList(Column(members, Department))
    ensures groups == OptionList(Column(members, Group))
    ensures teams == OptionList(Column(members, Team))
  {
    var deptSet: seq<string> := [];
    var groupSet: seq<string> := [];
    var teamSet: seq<string> := [];
    var i := 0;
    while i < |members|
      invariant 0 <= i <= |members|
      invariant deptSet == Distinct(Column(members, Department)[..i])
      invariant groupSet == Distinct(Column(members, Group)[..i])
      invariant teamSet == Distinct(Column(members, Team)[..i])
    {
      var m := members[i];
      ColumnStep(members, Department, i);
      ColumnStep(members, Group, i);
      ColumnStep(members, Team, i);
      if m.department !in deptSet {
        deptSet := deptSet + [m.department];
      }
      if m.group !in groupSet {
        groupSet := groupSet + [m.group];
      }
      if m.team !in teamSet {
        teamSet := teamSet + [m.team];
      }
      i := i + 1;
    }
    assert Column(members, Department)[..i] == Column(members, Department);
    assert Column(members, Group)[..i] == Column(members, Group);
    assert Column(members, Team)[..i] == Column(members, Team);
    departments := SortedStrings(deptSet);
    groups := SortedStrings(groupSet);
    teams := SortedStrings(teamSet);
  }

  /**
   * Each list (departments, groups or teams, by `field`) is free of
   * repeats, in ascending order, and names exactly the values some member has.
   */
  lemma {:induction false} OrganizationListSpec(members: seq<MembersLegacy.Member>, field: MembersLegacy.Member -> string, name: string)
    ensures NoDuplicates(OptionList(Column(members, field)))
    ensures SortedBy(OptionList(Column(members, field)), StrLe)
    ensures name in OptionList(Column(members, field)) <==> exists m :: m in members && field(m) == name
  {
    var c := Column(members, field);
    SortedDistinct(c);
    if name in c {
      var i :| 0 <= i < |members| && c[i] == name;
      assert members[i] in members;
    }
    if m :| m in members && field(m) == name {
      var i :| 0 <= i < |members| && members[i] == m;
      assert c[i] == name;
    }
  }

  // ---------------------------------------------------------------------
  // Recording a visit
  // ---------------------------------------------------------------------

  /** The form's fields as typed; the two birth years are text until `parseInt`. */
  datatype VisitForm = VisitForm(
    targetName: string, targetDepartment: string, targetGroup: string, targetTeam: string, targetBirthYear: string,
    date: string, way: string,
    hostName: string, hostRole: string, hostDepartment: string, hostGroup: string, hostTeam: string, hostBirthYear: string,
    content: string)

  /** `parseInt`, with 0 standing for a year that does not read as a number. */
  function YearOf(s: string): int
  {
    match ParseInt(s)
    case Some(n) => n
    case None => 0
  }

  /** The new record: the form's fields, the member as their own 순장, no photo. */
  function NewVisit(form: VisitForm, id: int, createdAt: string): (v: Visitation.Visit)
    ensures v.id == id && v.leader == form.targetName && v.photo == None && v.createdAt == createdAt
    ensures v.name == form.targetName && v.guk == form.targetDepartment && v.group == form.targetGroup
      && v.sun == form.targetTeam && v.birthYear == YearOf(form.targetBirthYear)
    ensures v.date == form.date && v.way == form.way && v.content == form.content
    ensures v.hostName == form.hostName && v.hostRole == form.hostRole && v.hostGuk == form.hostDepartment
      && v.hostGroup == form.hostGroup && v.hostSun == form.hostTeam && v.hostBirthYear == YearOf(form.hostBirthYear)
  {
    Visitation.Visit(id, form.targetName, form.targetDepartment, form.targetGroup, form.targetTeam, form.targetName,
      YearOf(form.targetBirthYear), form.date, form.way,
      form.hostName, form.hostRole, form.hostDepartment, form.hostGroup, form.hostTeam, YearOf(form.hostBirthYear),
      form.content, None, createdAt)
  }

  /** The page's list of visits and its form dialog. */
  class VisitationPage {
    var visitations: seq<Visitation.Visit>
    var showModal: bool

    constructor(loaded: seq<Visitation.Visit>)
      ensures visitations == loaded && !showModal
    {
      visitations := loaded;
      showModal := false;
    }

    /** `handleCreateVisitation` */
    method OpenForm()
      modifies this
      ensures showModal && visitations == old(visitations)
    {
      showModal := true;
    }

    /** `handleSubmit`: the new visit goes in front, the others stay as they were, the dialog closes. */
    method Submit(form: VisitForm, now: int, createdAt: string)
      modifies this
      ensures visitations == [NewVisit(form, now, createdAt)] + old(visitations)
      ensures !showModal
    {
      visitations := [NewVisit(form, now, createdAt)] + visitations;
      showModal := false;
    }
  }
}
