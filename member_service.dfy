/**
 * The member service (src/services/memberService.ts): mapping user records
 * to members, the cached organisation list and the lookup of an
 * organisation by its `국_그룹_순` name, the list request's parameters and
 * response, the filter options drawn from organisation names, the bulk
 * affiliation change and member creation with its birth-date conversion.
 * Each HTTP reply is a parameter; the clock is a parameter; logging is
 * not modelled.
 */
module MemberService {
  import opened Common

  const AllChoice := "전체"
  const DefaultRole := "청년"
  const NoDate := "-"

  datatype Result<T> = Success(value: T) | Failure(message: string)

  datatype Affiliation = Affiliation(department: Option<string>, group: Option<string>, team: Option<string>)

  /** A user as the API sends it; `birthYear` 0 and a missing one are both falsy. */
  datatype UserDto = UserDto(id: int, name: string, birthYear: Option<int>, affiliation: Option<Affiliation>,
                             role: Option<string>, phoneNumber: string)

  datatype Member = Member(id: int, name: string, birthYear: Option<int>, department: string, group: string,
                           team: string, role: string, phone: string, sundayAttendance: string,
                           wednesdayAttendance: string)

  /** `x || ''` on an optional text. */
  function OrEmpty(s: Option<string>): string
  {
    if s.Some? then s.value else ""
  }

  function AffiliationPart(a: Option<Affiliation>, part: Affiliation -> Option<string>): string
  {
    if a.Some? then OrEmpty(part(a.value)) else ""
  }

  /** `mapUserToMember` */
  function MapUserToMember(user: UserDto): Member
  {
    Member(user.id, user.name,
           if user.birthYear.Some? && user.birthYear.value != 0 then user.birthYear else None,
           AffiliationPart(user.affiliation, (a: Affiliation) => a.department),
           AffiliationPart(user.affiliation, (a: Affiliation) => a.group),
           AffiliationPart(user.affiliation, (a: Affiliation) => a.team),
           if user.role.Some? && user.role.value != "" then user.role.value else DefaultRole,
           user.phoneNumber, NoDate, NoDate)
  }

  /**
   * Identity and phone are copied; a missing or empty role becomes 청년,
   * missing affiliation parts become empty, and both attendance dates are
   * the placeholder.
   */
  lemma {:induction false} MapUserToMemberSpec(user: UserDto)
    ensures var m := MapUserToMember(user);
            && m.id == user.id && m.name == user.name && m.phone == user.phoneNumber
            && (m.role == DefaultRole <==> user.role.None? || user.role.value in {"", DefaultRole})
            && (m.role != DefaultRole ==> user.role == Some(m.role))
            && (user.affiliation.None? ==> m.department == "" && m.group == "" && m.team == "")
            && (user.affiliation.Some? && user.affiliation.value.department.Some? ==>
                  m.department == user.affiliation.value.department.value)
            && (m.birthYear.Some? <==> user.birthYear.Some? && user.birthYear.value != 0)
            && (m.birthYear.Some? ==> m.birthYear == user.birthYear)
            && m.sundayAttendance == NoDate && m.wednesdayAttendance == NoDate
  {
  }

  // ---------------------------------------------------------------------
  // Organisations
  // ---------------------------------------------------------------------

  datatype Organization = Organization(id: int, name: string)

  /** The list a fetch yields: the cache when filled, else the reply, else nothing. */
  function Fetched(cache: Option<seq<Organization>>, response: Option<seq<Organization>>): seq<Organization>
  {
    if cache.Some? then cache.value else if response.Some? then response.value else []
  }

  /** `${department}_${group}_${team}` */
  function OrgName(department: string, group: string, team: string): string
  {
    department + "_" + group + "_" + team
  }

  function Named(name: string): Organization -> bool
  {
    (o: Organization) => o.name == name
  }

  /** `org ? org.id : null` for the first organisation with that exact name. */
  function OrgIdNamed(orgs: seq<Organization>, name: string): Option<int>
  {
    match Find(orgs, Named(name))
    case Some(o) => Some(o.id)
    case None => None
  }

  /** The id found belongs to the first organisation of that name; there is none exactly when no name matches. */
  lemma {:induction false} OrgIdNamedSpec(orgs: seq<Organization>, name: string, i: nat)
    ensures OrgIdNamed(orgs, name).None? <==> forall k :: 0 <= k < |orgs| ==> orgs[k].name != name
    ensures i < |orgs| && orgs[i].name == name && (forall k :: 0 <= k < i ==> orgs[k].name != name) ==>
              OrgIdNamed(orgs, name) == Some(orgs[i].id)
  {
    assert forall k :: 0 <= k < |orgs| ==> (Named(name)(orgs[k]) <==> orgs[k].name == name);
    if i < |orgs| && orgs[i].name == name && (forall k :: 0 <= k < i ==> orgs[k].name != name) {
      assert FindIndex(orgs, Named(name)) == Some(i);
    }
  }

  /** `!orgId`: a missing id and the id 0 are both rejected. */
  predicate Usable(id: Option<int>)
  {
    id.Some? && id.value != 0
  }

  // ---------------------------------------------------------------------
  // The list request
  // ---------------------------------------------------------------------

  datatype MembersRequest = MembersRequest(search: Option<string>, department: Option<string>, group: Option<string>,
                                           team: Option<string>, page: Option<int>, limit: Option<int>)

  datatype MembersParams = MembersParams(search: Option<string>, department: Option<string>, group: Option<string>,
                                         team: Option<string>, page: int, limit: int)

  /** A filter is sent unless it is missing, empty or 전체. */
  function FilterParam(v: Option<string>): Option<string>
  {
    if v.None? || v.value == "" || v.value == AllChoice then None else v
  }

  /** `n || d` on an optional number. */
  function OrDefault(n: Option<int>, d: int): int
  {
    if n.Some? && n.value != 0 then n.value else d
  }

  function SearchParam(s: Option<string>): Option<string>
  {
    if s.Some? && Trim(s.value) != "" then Some(Trim(s.value)) else None
  }

  function Params(r: MembersRequest): MembersParams
  {
    MembersParams(SearchParam(r.search), FilterParam(r.department), FilterParam(r.group), FilterParam(r.team),
                  OrDefault(r.page, 1), OrDefault(r.limit, 10))
  }

  /**
   * The search term goes out trimmed and only when something is left;
   * filters go out only when set to something other than 전체; page and
   * limit default to 1 and 10.
   */
  lemma {:induction false} ParamsSpec(r: MembersRequest)
    ensures var p := Params(r);
            && (p.search.Some? <==> r.search.Some? && Trim(r.search.value) != "")
            && (p.search.Some? ==> p.search.value == Trim(r.search.value) && p.search.value != "")
            && (p.department.Some? <==> r.department.Some? && r.department.value !in {"", AllChoice})
            && (p.department.Some? ==> p.department == r.department)
            && (p.group.Some? <==> r.group.Some? && r.group.value !in {"", AllChoice})
            && (p.team.Some? <==> r.team.Some? && r.team.value !in {"", AllChoice})
            && p.page != 0 && p.limit != 0
            && (r.page.None? ==> p.page == 1) && (r.limit.None? ==> p.limit == 10)
  {
  }

  function Pair(key: string, v: Option<string>): seq<(string, string)>
  {
    if v.Some? then [(key, v.value)] else []
  }

  /** The query string's entries: every defined parameter, in declaration order. */
  function QueryPairs(p: MembersParams): seq<(string, string)>
  {
    Pair("search", p.search) + Pair("department", p.department) + Pair("group", p.group) + Pair("team", p.team)
    + [("page", IntToString(p.page)), ("limit", IntToString(p.limit))]
  }

  /** Page and limit are always sent, last; the four optional ones only when defined. */
  lemma {:induction false} QueryPairsSpec(p: MembersParams)
    ensures 2 <= |QueryPairs(p)| <= 6
    ensures QueryPairs(p)[|QueryPairs(p)| - 2..] == [("page", IntToString(p.page)), ("limit", IntToString(p.limit))]
    ensures |QueryPairs(p)| == 2 + (if p.search.Some? then 1 else 0) + (if p.department.Some? then 1 else 0)
                               + (if p.group.Some? then 1 else 0) + (if p.team.Some? then 1 else 0)
    ensures p.search.Some? ==> QueryPairs(p)[0] == ("search", p.search.value)
  {
  }

  datatype Pagination = Pagination(currentPage: int, totalPages: int, totalCount: int, limit: int)

  /** The body's `data`: both parts may be missing. */
  datatype ListData = ListData(members: Option<seq<UserDto>>, pagination: Option<Pagination>)

  datatype MembersPage = MembersPage(members: seq<Member>, pagination: Pagination)

  const FormatError := "API 응답 형식이 올바르지 않습니다."

  function MapMembers(users: seq<UserDto>): (r: seq<Member>)
    ensures |r| == |users|
  {
    seq(|users|, i requires 0 <= i < |users| => MapUserToMember(users[i]))
  }

  /** `getMembers` once the reply is in: no `data` is a format error; missing parts fall back to defaults. */
  function MembersPageOf(data: Option<ListData>): Result<MembersPage>
  {
    if data.None? then Failure(FormatError)
    else
      var users := if data.value.members.Some? then data.value.members.value else [];
      var p := if data.value.pagination.Some? then data.value.pagination.value else Pagination(1, 0, 0, 10);
      Success(MembersPage(MapMembers(users),
                          Pagination(if p.currentPage != 0 then p.currentPage else 1, p.totalPages, p.totalCount,
                                     if p.limit != 0 then p.limit else 10)))
  }

  /**
   * Without `data` the call fails; otherwise every user is mapped in
   * order, and the page and limit are never 0.
   */
  lemma {:induction false} MembersPageSpec(data: Option<ListData>, i: nat)
    ensures MembersPageOf(data).Failure? <==> data.None?
    ensures MembersPageOf(data).Success? ==>
              var page := MembersPageOf(data).value;
              && page.pagination.currentPage != 0 && page.pagination.limit != 0
              && (data.value.members.None? ==> page.members == [])
              && (data.value.members.Some? ==> |page.members| == |data.value.members.value|)
              && (data.value.members.Some? && i < |data.value.members.value| ==>
                    page.members[i] == MapUserToMember(data.value.members.value[i]))
              && (data.value.pagination.None? ==> page.pagination == Pagination(1, 0, 0, 10))
  {
  }

  // ---------------------------------------------------------------------
  // Filter options
  // ---------------------------------------------------------------------

  /** Part `k` of a `_`-separated organisation name, when the name and that part are not empty. */
  function PartAt(name: string, k: nat): Option<string>
  {
    if name == "" then None
    else
      var parts := Split(name, '_');
      if |parts| > k && parts[k] != "" then Some(parts[k]) else None
  }

  /** Part `k` of every organisation that has one, in order. */
  function Parts(orgs: seq<Organization>, k: nat): seq<string>
  {
    if orgs == [] then []
    else
      var p := PartAt(orgs[|orgs| - 1].name, k);
      Parts(orgs[..|orgs| - 1], k) + (if p.Some? then [p.value] else [])
  }

  lemma {:induction false} PartsSpec(orgs: seq<Organization>, k: nat, x: string)
    ensures x in Parts(orgs, k) <==> exists i :: 0 <= i < |orgs| && PartAt(orgs[i].name, k) == Some(x)
  {
    if orgs != [] {
      var init := orgs[..|orgs| - 1];
      PartsSpec(init, k, x);
      if exists i :: 0 <= i < |orgs| && PartAt(orgs[i].name, k) == Some(x) {
        var i :| 0 <= i < |orgs| && PartAt(orgs[i].name, k) == Some(x);
        if i < |init| {
          assert init[i] == orgs[i];
        }
      }
      if x in Parts(init, k) {
        var i :| 0 <= i < |init| && PartAt(init[i].name, k) == Some(x);
        assert orgs[i] == init[i];
      }
    }
  }

  datatype FilterOptions = FilterOptions(departments: seq<string>, groups: seq<string>, teams: seq<string>)

  const NoOptions := FilterOptions([], [], [])

  /** The three option lists: distinct parts 0, 1 and 2, sorted; a malformed reply or an error gives none. */
  function FilterOptionsOf(response: Option<seq<Organization>>): FilterOptions
  {
    if response.None? then NoOptions
    else
      var orgs := response.value;
      FilterOptions(SortedStrings(Distinct(Parts(orgs, 0))), SortedStrings(Distinct(Parts(orgs, 1))),
                    SortedStrings(Distinct(Parts(orgs, 2))))
  }

  /** `set.add(x)` on a set kept as its insertion-ordered elements. */
  function Added(s: seq<string>, x: Option<string>): seq<string>
  {
    if x.Some? && x.value !in s then s + [x.value] else s
  }

  lemma {:induction false} DistinctStep(orgs: seq<Organization>, i: nat, k: nat)
    requires i < |orgs|
    ensures Distinct(Parts(orgs[..i + 1], k)) == Added(Distinct(Parts(orgs[..i], k)), PartAt(orgs[i].name, k))
  {
    assert orgs[..i + 1][..i] == orgs[..i];
    var p := PartAt(orgs[i].name, k);
    var before := Parts(orgs[..i], k);
    if p.Some? {
      assert Parts(orgs[..i + 1], k) == before + [p.value];
      assert (before + [p.value])[..|before|] == before;
    } else {
      assert Parts(orgs[..i + 1], k) == before;
    }
  }

  /** `getFilterOptions`: the `forEach` over the organisations adding each name's parts to three sets. */
  method GetFilterOptions(response: Option<seq<Organization>>) returns (options: FilterOptions)
    ensures options == FilterOptionsOf(response)
  {
    if response.None? {
      return NoOptions;
    }
    var orgs := response.value;
    var departments, groups, teams := [], [], [];
    var i := 0;
    while i < |orgs|
      invariant 0 <= i <= |orgs|
      invariant departments == Distinct(Parts(orgs[..i], 0))
      invariant groups == Distinct(Parts(orgs[..i], 1))
      invariant teams == Distinct(Parts(orgs[..i], 2))
    {
      DistinctStep(orgs, i, 0);
      DistinctStep(orgs, i, 1);
      DistinctStep(orgs, i, 2);
      if orgs[i].name != "" {
        var parts := Split(orgs[i].name, '_');
        if |parts| >= 1 && parts[0] != "" && parts[0] !in departments {
          departments := departments + [parts[0]];
        }
        if |parts| >= 2 && parts[1] != "" && parts[1] !in groups {
          groups := groups + [parts[1]];
        }
        if |parts| >= 3 && parts[2] != "" && parts[2] !in teams {
          teams := teams + [parts[2]];
        }
      }
      i := i + 1;
    }
    assert orgs[..|orgs|] == orgs;
    options := FilterOptions(SortedStrings(departments), SortedStrings(groups), SortedStrings(teams));
  }

  /**
   * Each list is sorted and free of duplicates, and holds exactly the
   * non-empty parts at its position among the organisation names.
   */
  lemma {:induction false} FilterOptionsSpec(orgs: seq<Organization>, x: string)
    ensures var o := FilterOptionsOf(Some(orgs));
            && SortedBy(o.departments, StrLe) && NoDuplicates(o.departments)
            && SortedBy(o.groups, StrLe) && NoDuplicates(o.groups)
            && SortedBy(o.teams, StrLe) && NoDuplicates(o.teams)
            && (x in o.departments <==> exists i :: 0 <= i < |orgs| && PartAt(orgs[i].name, 0) == Some(x))
            && (x in o.groups <==> exists i :: 0 <= i < |orgs| && PartAt(orgs[i].name, 1) == Some(x))
            && (x in o.teams <==> exists i :: 0 <= i < |orgs| && PartAt(orgs[i].name, 2) == Some(x))
  {
    SortedDistinct(Parts(orgs, 0));
    SortedDistinct(Parts(orgs, 1));
    SortedDistinct(Parts(orgs, 2));
    PartsSpec(orgs, 0, x);
    PartsSpec(orgs, 1, x);
    PartsSpec(orgs, 2, x);
  }

  /** A full `국_그룹_순` name contributes each of its three parts to its list. */
  lemma {:induction false} PartsOfFullName(d: string, g: string, t: string)
    requires d != "" && g != "" && t != ""
    requires '_' !in d && '_' !in g && '_' !in t
    ensures PartAt(OrgName(d, g, t), 0) == Some(d)
    ensures PartAt(OrgName(d, g, t), 1) == Some(g)
    ensures PartAt(OrgName(d, g, t), 2) == Some(t)
  {
    SplitNoSep(t, '_');
    SplitCons(g, t, '_');
    assert g + "_" + t == g + ['_'] + t;
    SplitCons(d, g + "_" + t, '_');
    assert OrgName(d, g, t) == d + ['_'] + (g + "_" + t);
  }

  // ---------------------------------------------------------------------
  // Birth dates
  // ---------------------------------------------------------------------

  /** `^\d{4}-\d{2}-\d{2}$` */
  predicate IsIsoDate(s: string)
  {
    |s| == 10 && s[4] == '-' && s[7] == '-'
    && IsDigit(s[0]) && IsDigit(s[1]) && IsDigit(s[2]) && IsDigit(s[3])
    && IsDigit(s[5]) && IsDigit(s[6]) && IsDigit(s[8]) && IsDigit(s[9])
  }

  /** The century rule: a two-digit year after this year's last two digits is read as 19xx, else 20xx. */
  function FullYear(year: int, currentYear: nat): int
  {
    year + (if year > currentYear % 100 then 1900 else 2000)
  }

  /**
   * The birth date sent for the entered value: none for an empty value,
   * an ISO date as it is, otherwise `${fullYear}-01-01` (with `NaN` when
   * no number can be read).
   */
  function BirthDate(value: string, currentYear: nat): Option<string>
  {
    if value == "" then None
    else if IsIsoDate(value) then Some(value)
    else
      match ParseInt(value)
      case Some(year) => Some(IntToString(FullYear(year, currentYear)) + "-01-01")
      case None => Some("NaN-01-01")
  }

  /**
   * In this century, a two-digit year is placed in the hundred years that
   * end with the current one.
   */
  lemma {:induction false} FullYearSpec(year: int, currentYear: nat)
    requires 0 <= year < 100 && 2000 <= currentYear < 2100
    ensures currentYear - 100 < FullYear(year, currentYear) <= currentYear
    ensures FullYear(year, currentYear) % 100 == year
  {
  }

  /** A value that is not an ISO date but reads as a number becomes 1 January of that year. */
  lemma {:induction false} BirthDateSpec(value: string, currentYear: nat)
    ensures BirthDate(value, currentYear).None? <==> value == ""
    ensures value != "" && IsIsoDate(value) ==> BirthDate(value, currentYear) == Some(value)
    ensures value != "" && !IsIsoDate(value) ==> EndsWith(BirthDate(value, currentYear).value, "-01-01")
    ensures value != "" && !IsIsoDate(value) && ParseInt(value).Some? ==>
              BirthDate(value, currentYear) == Some(IntToString(FullYear(ParseInt(value).value, currentYear)) + "-01-01")
  {
    if value != "" && !IsIsoDate(value) {
      var r := BirthDate(value, currentYear).value;
      var head := r[..|r| - 6];
      assert r == head + "-01-01";
    }
  }

  // ---------------------------------------------------------------------
  // The service object
  // ---------------------------------------------------------------------

  datatype AffiliationChange = AffiliationChange(id: int, organizationId: int, roleName: string)

  datatype UpdateResult = UpdateResult(updatedCount: nat, updatedMemberIds: seq<int>)

  const InvalidOrganization := "유효하지 않은 조직 정보입니다."
  const LoginRequired := "로그인이 필요합니다."
  const MemberRole := "순원"

  /** The body of the bulk change: every id moved to the organisation as 순원, in order. */
  function ChangeBody(memberIds: seq<int>, orgId: int): (body: seq<AffiliationChange>)
    ensures |body| == |memberIds|
    ensures forall i :: 0 <= i < |body| ==> body[i] == AffiliationChange(memberIds[i], orgId, MemberRole)
  {
    seq(|memberIds|, i requires 0 <= i < |memberIds| => AffiliationChange(memberIds[i], orgId, MemberRole))
  }

  datatype CreateRequest = CreateRequest(name: string, nameSuffix: string, genderType: string, birthYear: string,
                                         phone: string, department: string, group: string, team: string,
                                         isNewMember: bool)

  datatype UserData = UserData(name: string, nameSuffix: string, genderType: string, birthDate: Option<string>,
                               phoneNumber: string, registrationDate: string, isNewMember: bool)

  datatype CreatePayload = CreatePayload(userData: UserData, organizationId: int, idOfCreatingUser: int)

  function Payload(r: CreateRequest, orgId: int, creator: int, currentYear: nat, today: string): CreatePayload
  {
    CreatePayload(UserData(r.name, r.nameSuffix, if r.genderType != "" then r.genderType else "M",
                           BirthDate(r.birthYear, currentYear), r.phone, today, r.isNewMember),
                  orgId, creator)
  }

  function Mentions(d: string, g: string): Organization -> bool
  {
    (o: Organization) => Contains(o.name, d) || Contains(o.name, g)
  }

  function Names(orgs: seq<Organization>): (r: seq<string>)
    ensures |r| == |orgs|
  {
    seq(|orgs|, i requires 0 <= i < |orgs| => orgs[i].name)
  }

  /** Up to five organisations whose name mentions the chosen 국 or 그룹. */
  function SimilarNames(orgs: seq<Organization>, d: string, g: string): (r: seq<string>)
    ensures |r| <= 5
  {
    var similar := Filter(orgs, Mentions(d, g));
    Names(if |similar| <= 5 then similar else similar[..5])
  }

  function CreateError(attempted: string, similar: seq<string>): string
  {
    "유효하지 않은 조직 정보입니다. 선택한 조직: " + attempted + ". 유사한 조직: "
    + (if similar == [] then "없음" else Join(similar, ", "))
  }

  class Service {
    /** `_cachedOrgs` */
    var cachedOrgs: Option<seq<Organization>>

    constructor()
      ensures cachedOrgs == None
    {
      cachedOrgs := None;
    }

    /**
     * `fetchOrganizations`: the cached list once one has been fetched;
     * otherwise the reply, which is cached; a failed request gives an
     * empty list and caches nothing.
     */
    method FetchOrganizations(response: Option<seq<Organization>>) returns (orgs: seq<Organization>)
      modifies this
      ensures orgs == Fetched(old(cachedOrgs), response)
      ensures cachedOrgs == if old(cachedOrgs).Some? then old(cachedOrgs) else response
    {
      if cachedOrgs.Some? {
        return cachedOrgs.value;
      }
      if response.None? {
        return [];
      }
      cachedOrgs := response;
      orgs := response.value;
    }

    /** `findOrganizationId` */
    method FindOrganizationId(department: string, group: string, team: string, response: Option<seq<Organization>>)
      returns (id: Option<int>)
      modifies this
      ensures id == OrgIdNamed(Fetched(old(cachedOrgs), response), OrgName(department, group, team))
      ensures cachedOrgs == if old(cachedOrgs).Some? then old(cachedOrgs) else response
    {
      var orgs := FetchOrganizations(response);
      var orgName := OrgName(department, group, team);
      var org := Find(orgs, Named(orgName));
      id := if org.Some? then Some(org.value.id) else None;
    }

    /**
     * `updateMembersAffiliation`: fails unless the target organisation is
     * found with a non-zero id; then every member moves there and the
     * count and ids are echoed.
     */
    method UpdateMembersAffiliation(memberIds: seq<int>, department: string, group: string, team: string,
                                    response: Option<seq<Organization>>)
      returns (result: Result<UpdateResult>, body: seq<AffiliationChange>)
      modifies this
      ensures var orgId := OrgIdNamed(Fetched(old(cachedOrgs), response), OrgName(department, group, team));
              && (result.Failure? <==> !Usable(orgId))
              && (result.Failure? ==> result.message == InvalidOrganization && body == [])
              && (result.Success? ==> result.value == UpdateResult(|memberIds|, memberIds)
                                      && body == ChangeBody(memberIds, orgId.value))
      ensures cachedOrgs == if old(cachedOrgs).Some? then old(cachedOrgs) else response
    {
      var orgId := FindOrganizationId(department, group, team, response);
      if orgId.None? || orgId.value == 0 {
        return Failure(InvalidOrganization), [];
      }
      body := ChangeBody(memberIds, orgId.value);
      result := Success(UpdateResult(|memberIds|, memberIds));
    }

    /**
     * `createMember`: fails with the attempted name and similar names when
     * the organisation is not found, fails without a logged-in user, and
     * otherwise sends the payload and maps the created user.
     */
    method CreateMember(request: CreateRequest, response: Option<seq<Organization>>, currentUser: Option<int>,
                        currentYear: nat, today: string, created: UserDto)
      returns (result: Result<Member>, payload: Option<CreatePayload>)
      modifies this
      ensures var orgs := Fetched(old(cachedOrgs), response);
              var orgId := OrgIdNamed(orgs, OrgName(request.department, request.group, request.team));
              && (!Usable(orgId) ==>
                    var again := Fetched(if old(cachedOrgs).Some? then old(cachedOrgs) else response, response);
                    result == Failure(CreateError(OrgName(request.department, request.group, request.team),
                                                  SimilarNames(again, request.department, request.group)))
                    && payload.None?)
              && (Usable(orgId) && !Usable(currentUser) ==> result == Failure(LoginRequired) && payload.None?)
              && (Usable(orgId) && Usable(currentUser) ==>
                    result == Success(MapUserToMember(created))
                    && payload == Some(Payload(request, orgId.value, currentUser.value, currentYear, today)))
      ensures cachedOrgs == if old(cachedOrgs).Some? then old(cachedOrgs) else response
    {
      var orgId := FindOrganizationId(request.department, request.group, request.team, response);
      if orgId.None? || orgId.value == 0 {
        var orgs := FetchOrganizations(response);
        var attempted := OrgName(request.department, request.group, request.team);
        return Failure(CreateError(attempted, SimilarNames(orgs, request.department, request.group))), None;
      }
      if currentUser.None? || currentUser.value == 0 {
        return Failure(LoginRequired), None;
      }
      payload := Some(Payload(request, orgId.value, currentUser.value, currentYear, today));
      result := Success(MapUserToMember(created));
    }
  }

  /** Once a fetch has succeeded, later fetches return the same list whatever the server says. */
  lemma {:induction false} CacheSticks(cache: Option<seq<Organization>>, first: Option<seq<Organization>>, second: Option<seq<Organization>>)
    requires cache.Some? || first.Some?
    ensures var next := if cache.Some? then cache else first;
            Fetched(next, second) == Fetched(cache, first)
  {
  }

  datatype MemberDetail = MemberDetail(member: Member, departmentHistory: seq<string>, absenceHistory: seq<string>,
                                       positionHistory: seq<string>, newFamilyHistory: seq<string>,
                                       spiritualFlow: seq<string>)

  /** `getMemberDetail`: the mapped member with every history empty. */
  function MemberDetailOf(user: UserDto): (d: MemberDetail)
    ensures d.member == MapUserToMember(user)
    ensures d.departmentHistory == [] && d.absenceHistory == [] && d.positionHistory == []
    ensures d.newFamilyHistory == [] && d.spiritualFlow == []
  {
    MemberDetail(MapUserToMember(user), [], [], [], [], [])
  }
}
