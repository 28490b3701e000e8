/**
 * The FastAPI back end (backend/main.py): two in-memory lists act as the
 * database of members and visitation records. Create, update and delete
 * change those lists in place; the dashboard endpoints count over them.
 *
 * HTTP errors raised by the handlers are `HttpError(status, detail)`
 * results. An exception the handler does not catch (a `ValueError` from
 * `max` of an empty list, a `ZeroDivisionError`, a date that does not
 * parse) reaches the client as status 500.
 */
module Backend {
  import opened Common

  datatype ApiResult<T> = Ok(value: T) | HttpError(status: nat, detail: string)

  const MemberNotFound := "구성원을 찾을 수 없습니다."
  const VisitationNotFound := "심방 기록을 찾을 수 없습니다."
  const InternalError := "Internal Server Error"

  /** A church member (`Member` model); the Korean field names are given in the comments. */
  datatype Member = Member(
    id: int,
    department: string,       // 소속국
    group: string,            // 소속그룹
    team: int,                // 소속순
    name: string,             // 이름
    role: string,             // 직분
    status: string,           // 출석상태
    sundayYouth: string,      // 주일청년예배출석여부
    sundayYouthDate: string,  // 주일청년예배출석일자
    wednesday: string,        // 수요예배출석여부
    wednesdayDate: string,    // 수요예배출석일자
    friday: string,           // 금요예배출석여부
    fridayDate: string,       // 금요예배출석일자
    mainService: string,      // 대예배출석여부
    mainServiceDate: string)  // 대예배출석일자

  /** A pastoral visit (`Visitation` model). */
  datatype Visitation = Visitation(
    id: int,
    subjectName: string,         // 대상자_이름
    subjectDepartment: string,   // 대상자_국
    subjectGroup: string,        // 대상자_그룹
    subjectTeam: string,         // 대상자_순
    subjectBirthYear: int,       // 대상자_생일연도
    date: string,                // 심방날짜
    visitMethod: string,         // 심방방법
    conductorName: string,       // 진행자_이름
    conductorRole: string,       // 진행자_직분
    conductorDepartment: string, // 진행자_국
    conductorGroup: string,      // 진행자_그룹
    conductorTeam: string,       // 진행자_순
    conductorBirthYear: int,     // 진행자_생일연도
    content: string,             // 심방내용
    photo: Option<string>,       // 대상자_사진
    createdAt: string)           // 작성일시

  // ---------------------------------------------------------------------
  // Specification of the lists
  // ---------------------------------------------------------------------

  predicate UniqueMemberIds(ms: seq<Member>)
  {
    forall i, j :: 0 <= i < j < |ms| ==> ms[i].id != ms[j].id
  }

  predicate UniqueVisitationIds(vs: seq<Visitation>)
  {
    forall i, j :: 0 <= i < j < |vs| ==> vs[i].id != vs[j].id
  }

  function MemberHasId(id: int): Member -> bool
  {
    (m: Member) => m.id == id
  }

  function VisitationHasId(id: int): Visitation -> bool
  {
    (v: Visitation) => v.id == id
  }

  /** Position of the first member with this id, as the handlers' `for` loops find it. */
  function MemberIndex(ms: seq<Member>, id: int): (r: Option<nat>)
    ensures r.None? ==> forall k :: 0 <= k < |ms| ==> ms[k].id != id
    ensures r.Some? ==>
      r.value < |ms| && ms[r.value].id == id && (forall k :: 0 <= k < r.value ==> ms[k].id != id)
  {
    FindIndex(ms, MemberHasId(id))
  }

  function VisitationIndex(vs: seq<Visitation>, id: int): (r: Option<nat>)
    ensures r.None? ==> forall k :: 0 <= k < |vs| ==> vs[k].id != id
    ensures r.Some? ==>
      r.value < |vs| && vs[r.value].id == id && (forall k :: 0 <= k < r.value ==> vs[k].id != id)
  {
    FindIndex(vs, VisitationHasId(id))
  }

  /** `max(m["id"] for m in ms)` */
  function MaxMemberId(ms: seq<Member>): int
    requires ms != []
  {
    if |ms| == 1 then ms[0].id
    else
      var p := MaxMemberId(ms[..|ms| - 1]);
      if ms[|ms| - 1].id > p then ms[|ms| - 1].id else p
  }

  /** The maximum bounds every id and is one of them. */
  lemma {:induction false} MaxMemberIdIsMax(ms: seq<Member>)
    requires ms != []
    ensures forall k :: 0 <= k < |ms| ==> ms[k].id <= MaxMemberId(ms)
    ensures exists k :: 0 <= k < |ms| && ms[k].id == MaxMemberId(ms)
  {
    if |ms| == 1 {
      assert ms[0].id == MaxMemberId(ms);
    } else {
      var p := ms[..|ms| - 1];
      MaxMemberIdIsMax(p);
      assert forall k :: 0 <= k < |p| ==> p[k] == ms[k];
      if ms[|ms| - 1].id > MaxMemberId(p) {
        assert ms[|ms| - 1].id == MaxMemberId(ms);
      } else {
        var k :| 0 <= k < |p| && p[k].id == MaxMemberId(p);
        assert ms[k].id == MaxMemberId(ms);
      }
    }
  }

  function MaxVisitationId(vs: seq<Visitation>): int
    requires vs != []
  {
    if |vs| == 1 then vs[0].id
    else
      var p := MaxVisitationId(vs[..|vs| - 1]);
      if vs[|vs| - 1].id > p then vs[|vs| - 1].id else p
  }

  lemma {:induction false} MaxVisitationIdIsMax(vs: seq<Visitation>)
    requires vs != []
    ensures forall k :: 0 <= k < |vs| ==> vs[k].id <= MaxVisitationId(vs)
    ensures exists k :: 0 <= k < |vs| && vs[k].id == MaxVisitationId(vs)
  {
    if |vs| == 1 {
      assert vs[0].id == MaxVisitationId(vs);
    } else {
      var p := vs[..|vs| - 1];
      MaxVisitationIdIsMax(p);
      assert forall k :: 0 <= k < |p| ==> p[k] == vs[k];
      if vs[|vs| - 1].id > MaxVisitationId(p) {
        assert vs[|vs| - 1].id == MaxVisitationId(vs);
      } else {
        var k :| 0 <= k < |p| && p[k].id == MaxVisitationId(p);
        assert vs[k].id == MaxVisitationId(vs);
      }
    }
  }

  /** The id `create_visitation` hands out: max + 1, or 1 for an empty list. */
  function NextVisitationId(vs: seq<Visitation>): int
  {
    if vs == [] then 1 else MaxVisitationId(vs) + 1
  }

  lemma {:induction false} MaxMemberIdStep(ms: seq<Member>, i: nat)
    requires 1 <= i < |ms|
    ensures MaxMemberId(ms[..i + 1]) == if ms[i].id > MaxMemberId(ms[..i]) then ms[i].id else MaxMemberId(ms[..i])
  {
    assert ms[..i + 1][..i] == ms[..i];
  }

  /** `max(m.id for m in mock_members)`, scanned once. */
  method LargestMemberId(ms: seq<Member>) returns (top: int)
    requires ms != []
    ensures top == MaxMemberId(ms)
  {
    top := ms[0].id;
    var i := 1;
    while i < |ms|
      invariant 1 <= i <= |ms|
      invariant top == MaxMemberId(ms[..i])
    {
      MaxMemberIdStep(ms, i);
      if ms[i].id > top {
        top := ms[i].id;
      }
      i := i + 1;
    }
    assert ms[..|ms|] == ms;
  }

  lemma {:induction false} MaxVisitationIdStep(vs: seq<Visitation>, i: nat)
    requires 1 <= i < |vs|
    ensures MaxVisitationId(vs[..i + 1]) == if vs[i].id > MaxVisitationId(vs[..i]) then vs[i].id else MaxVisitationId(vs[..i])
  {
    assert vs[..i + 1][..i] == vs[..i];
  }

  /** `max(v.id for v in mock_visitations)`, scanned once. */
  method LargestVisitationId(vs: seq<Visitation>) returns (top: int)
    requires vs != []
    ensures top == MaxVisitationId(vs)
  {
    top := vs[0].id;
    var i := 1;
    while i < |vs|
      invariant 1 <= i <= |vs|
      invariant top == MaxVisitationId(vs[..i])
    {
      MaxVisitationIdStep(vs, i);
      if vs[i].id > top {
        top := vs[i].id;
      }
      i := i + 1;
    }
    assert vs[..|vs|] == vs;
  }

  // ---------------------------------------------------------------------
  // The store
  // ---------------------------------------------------------------------

  /** `mock_members` and `mock_visitations`, changed in place by the handlers. */
  class Store {
    var members: seq<Member>
    var visitations: seq<Visitation>

    constructor (ms: seq<Member>, vs: seq<Visitation>)
      ensures members == ms && visitations == vs
    {
      members := ms;
      visitations := vs;
    }

    /** `get_member`: the first member with this id, else 404. */
    method GetMember(id: int) returns (r: ApiResult<Member>)
      ensures MemberIndex(members, id).None? ==> r == HttpError(404, MemberNotFound)
      ensures MemberIndex(members, id).Some? ==> r == Ok(members[MemberIndex(members, id).value])
    {
      var i := 0;
      while i < |members|
        invariant 0 <= i <= |members|
        invariant forall k :: 0 <= k < i ==> members[k].id != id
      {
        if members[i].id == id {
          return Ok(members[i]);
        }
        i := i + 1;
      }
      return HttpError(404, MemberNotFound);
    }

    /**
     * `create_member`: the payload is stored last with id = max id + 1.
     * There is no guard for an empty list, where `max` raises.
     */
    method CreateMember(payload: Member) returns (r: ApiResult<Member>)
      modifies this
      ensures visitations == old(visitations)
      ensures old(members) == [] ==> r == HttpError(500, InternalError) && members == old(members)
      ensures old(members) != [] ==>
        && r == Ok(payload.(id := MaxMemberId(old(members)) + 1))
        && members == old(members) + [r.value]
    {
      if |members| == 0 {
        return HttpError(500, InternalError);
      }
      var top := LargestMemberId(members);
      var created := payload.(id := top + 1);
      members := members + [created];
      return Ok(created);
    }

    /** `update_member`: replaces the first match in place, keeping the path id. */
    method UpdateMember(id: int, payload: Member) returns (r: ApiResult<Member>)
      modifies this
      ensures visitations == old(visitations)
      ensures MemberIndex(old(members), id).None? ==>
        r == HttpError(404, MemberNotFound) && members == old(members)
      ensures MemberIndex(old(members), id).Some? ==>
        && r == Ok(payload.(id := id))
        && members == old(members)[MemberIndex(old(members), id).value := payload.(id := id)]
    {
      var i := 0;
      while i < |members|
        invariant 0 <= i <= |members|
        invariant members == old(members)
        invariant forall k :: 0 <= k < i ==> members[k].id != id
      {
        if members[i].id == id {
          var updated := payload.(id := id);
          members := members[i := updated];
          return Ok(updated);
        }
        i := i + 1;
      }
      return HttpError(404, MemberNotFound);
    }

    /** `delete_member`: pops the first match and reports its name. */
    method DeleteMember(id: int) returns (r: ApiResult<string>)
      modifies this
      ensures visitations == old(visitations)
      ensures MemberIndex(old(members), id).None? ==>
        r == HttpError(404, MemberNotFound) && members == old(members)
      ensures MemberIndex(old(members), id).Some? ==>
        var k := MemberIndex(old(members), id).value;
        && r == Ok(old(members)[k].name + " 구성원이 삭제되었습니다.")
        && members == old(members)[..k] + old(members)[k + 1..]
    {
      var i := 0;
      while i < |members|
        invariant 0 <= i <= |members|
        invariant members == old(members)
        invariant forall k :: 0 <= k < i ==> members[k].id != id
      {
        if members[i].id == id {
          var deleted := members[i];
          members := members[..i] + members[i + 1..];
          return Ok(deleted.name + " 구성원이 삭제되었습니다.");
        }
        i := i + 1;
      }
      return HttpError(404, MemberNotFound);
    }

    /** `get_visitation_detail` */
    method GetVisitation(id: int) returns (r: ApiResult<Visitation>)
      ensures VisitationIndex(visitations, id).None? ==> r == HttpError(404, VisitationNotFound)
      ensures VisitationIndex(visitations, id).Some? ==>
        r == Ok(visitations[VisitationIndex(visitations, id).value])
    {
      var i := 0;
      while i < |visitations|
        invariant 0 <= i <= |visitations|
        invariant forall k :: 0 <= k < i ==> visitations[k].id != id
      {
        if visitations[i].id == id {
          return Ok(visitations[i]);
        }
        i := i + 1;
      }
      return HttpError(404, VisitationNotFound);
    }

    /**
     * `create_visitation`: id = max + 1 (1 for an empty list) and 작성일시 is
     * stamped with `now`, the formatted current time.
     */
    method CreateVisitation(payload: Visitation, now: string) returns (created: Visitation)
      modifies this
      ensures members == old(members)
      ensures created == payload.(id := NextVisitationId(old(visitations)), createdAt := now)
      ensures visitations == old(visitations) + [created]
    {
      var next := 1;
      if |visitations| > 0 {
        var top := LargestVisitationId(visitations);
        next := top + 1;
      }
      created := payload.(id := next, createdAt := now);
      visitations := visitations + [created];
    }

    /** `update_visitation`: keeps the path id and restamps 작성일시. */
    method UpdateVisitation(id: int, payload: Visitation, now: string) returns (r: ApiResult<Visitation>)
      modifies this
      ensures members == old(members)
      ensures VisitationIndex(old(visitations), id).None? ==>
        r == HttpError(404, VisitationNotFound) && visitations == old(visitations)
      ensures VisitationIndex(old(visitations), id).Some? ==>
        && r == Ok(payload.(id := id, createdAt := now))
        && visitations == old(visitations)[VisitationIndex(old(visitations), id).value := r.value]
    {
      var i := 0;
      while i < |visitations|
        invariant 0 <= i <= |visitations|
        invariant visitations == old(visitations)
        invariant forall k :: 0 <= k < i ==> visitations[k].id != id
      {
        if visitations[i].id == id {
          var updated := payload.(id := id, createdAt := now);
          visitations := visitations[i := updated];
          return Ok(updated);
        }
        i := i + 1;
      }
      return HttpError(404, VisitationNotFound);
    }

    /** `delete_visitation`: pops the first match and reports the subject's name. */
    method DeleteVisitation(id: int) returns (r: ApiResult<string>)
      modifies this
      ensures members == old(members)
      ensures VisitationIndex(old(visitations), id).None? ==>
        r == HttpError(404, VisitationNotFound) && visitations == old(visitations)
      ensures VisitationIndex(old(visitations), id).Some? ==>
        var k := VisitationIndex(old(visitations), id).value;
        && r == Ok(old(visitations)[k].subjectName + " 심방 기록이 삭제되었습니다.")
        && visitations == old(visitations)[..k] + old(visitations)[k + 1..]
    {
      var i := 0;
      while i < |visitations|
        invariant 0 <= i <= |visitations|
        invariant visitations == old(visitations)
        invariant forall k :: 0 <= k < i ==> visitations[k].id != id
      {
        if visitations[i].id == id {
          var deleted := visitations[i];
          visitations := visitations[..i] + visitations[i + 1..];
          return Ok(deleted.subjectName + " 심방 기록이 삭제되었습니다.");
        }
        i := i + 1;
      }
      return HttpError(404, VisitationNotFound);
    }
  }

  // ---------------------------------------------------------------------
  // What the list operations preserve
  // ---------------------------------------------------------------------

  /** The id handed out by `create_member` is used by no stored member. */
  lemma {:induction false} CreatedMemberIdFresh(ms: seq<Member>, payload: Member)
    requires ms != []
    ensures forall k :: 0 <= k < |ms| ==> ms[k].id != MaxMemberId(ms) + 1
    ensures UniqueMemberIds(ms) ==> UniqueMemberIds(ms + [payload.(id := MaxMemberId(ms) + 1)])
  {
    MaxMemberIdIsMax(ms);
  }

  /** After `create_member`, `get_member` of the new id finds the new record. */
  lemma {:induction false} CreatedMemberFound(ms: seq<Member>, created: Member)
    requires ms != [] && created.id == MaxMemberId(ms) + 1
    ensures MemberIndex(ms + [created], created.id) == Some(|ms|)
  {
    MaxMemberIdIsMax(ms);
    NoMemberHasId(ms, created.id);
    FindIndexAppendFirst(ms, created, MemberHasId(created.id));
  }

  lemma {:induction false} NoMemberHasId(ms: seq<Member>, id: int)
    requires forall k :: 0 <= k < |ms| ==> ms[k].id < id
    ensures forall k :: 0 <= k < |ms| ==> !MemberHasId(id)(ms[k])
  {
  }

  /** `update_member` keeps every id in place, so distinct ids stay distinct. */
  lemma {:induction false} UpdatedMemberKeepsIds(ms: seq<Member>, id: int, payload: Member)
    requires MemberIndex(ms, id).Some?
    ensures var ms' := ms[MemberIndex(ms, id).value := payload.(id := id)];
      && |ms'| == |ms|
      && (forall k :: 0 <= k < |ms| ==> ms'[k].id == ms[k].id)
      && (UniqueMemberIds(ms) ==> UniqueMemberIds(ms'))
      && MemberIndex(ms', id) == MemberIndex(ms, id)
  {
    var ms' := ms[MemberIndex(ms, id).value := payload.(id := id)];
    assert forall k :: 0 <= k < |ms| ==> ms'[k].id == ms[k].id;
    var a := MemberIndex(ms', id);
    var b := MemberIndex(ms, id);
    assert ms'[b.value].id == id;
    assert ms[a.value].id == id;
  }

  /** `delete_member` removes one record: with unique ids the id is gone afterwards. */
  lemma {:induction false} DeletedMemberGone(ms: seq<Member>, id: int)
    requires MemberIndex(ms, id).Some? && UniqueMemberIds(ms)
    ensures var k := MemberIndex(ms, id).value;
      var ms' := ms[..k] + ms[k + 1..];
      && |ms'| == |ms| - 1
      && UniqueMemberIds(ms')
      && MemberIndex(ms', id).None?
  {
    var k := MemberIndex(ms, id).value;
    var ms' := ms[..k] + ms[k + 1..];
    assert forall i :: 0 <= i < |ms'| ==> ms'[i] == if i < k then ms[i] else ms[i + 1];
  }

  /** The visitation id handed out is fresh, so distinct ids stay distinct. */
  lemma {:induction false} CreatedVisitationIdFresh(vs: seq<Visitation>, payload: Visitation, now: string)
    ensures forall k :: 0 <= k < |vs| ==> vs[k].id != NextVisitationId(vs)
    ensures vs == [] ==> NextVisitationId(vs) == 1
    ensures UniqueVisitationIds(vs) ==>
      UniqueVisitationIds(vs + [payload.(id := NextVisitationId(vs), createdAt := now)])
  {
    if vs != [] {
      MaxVisitationIdIsMax(vs);
    }
  }

  /** `delete_visitation` removes exactly one record and keeps the others in order. */
  lemma {:induction false} DeletedVisitationGone(vs: seq<Visitation>, id: int)
    requires VisitationIndex(vs, id).Some? && UniqueVisitationIds(vs)
    ensures var k := VisitationIndex(vs, id).value;
      var vs' := vs[..k] + vs[k + 1..];
      && |vs'| == |vs| - 1
      && UniqueVisitationIds(vs')
      && VisitationIndex(vs', id).None?
  {
    var k := VisitationIndex(vs, id).value;
    var vs' := vs[..k] + vs[k + 1..];
    assert forall i :: 0 <= i < |vs'| ==> vs'[i] == if i < k then vs[i] else vs[i + 1];
  }

  // ---------------------------------------------------------------------
  // Dashboard aggregates
  // ---------------------------------------------------------------------

  /** A share `count / total`; the endpoint rounds `count / total * 100` to one decimal. */
  datatype Share = Share(count: nat, total: nat)

  datatype StatusStat = StatusStat(status: string, count: nat, percentage: Share, color: string, description: string)

  /** The five statuses reported, in the order of the response. */
  const Statuses: seq<string> := ["정기 출석자", "관심 출석자", "단기 결석자", "장기 결석자", "제적 대상자"]
  const StatusColors: seq<string> := ["#4CAF50", "#8BC34A", "#FF9800", "#F44336", "#9E9E9E"]
  const StatusDescriptions: seq<string> := [
    "매주 주일 예배 참석", "1주, 2주 정도 가끔씩 예배 불참석", "4주동안 예배 불참석",
    "12주 이상 예배 불참석", "올해 한번도 예배 불참석"]

  function StatusesOf(ms: seq<Member>): (r: seq<string>)
    ensures |r| == |ms| && forall i :: 0 <= i < |ms| ==> r[i] == ms[i].status
  {
    if ms == [] then [] else [ms[0].status] + StatusesOf(ms[1..])
  }

  /** `status_counts.get(status, 0)` */
  function CountOr0(counts: map<string, nat>, key: string): nat
  {
    if key in counts then counts[key] else 0
  }

  /**
   * `get_attendance_status_stats`: tallies every status, then reports the
   * five fixed statuses with their count and share of all members. The
   * division has no zero guard, so an empty list fails with status 500.
   */
  method AttendanceStatusStats(ms: seq<Member>) returns (r: ApiResult<seq<StatusStat>>)
    ensures ms == [] <==> r == HttpError(500, InternalError)
    ensures r.Ok? ==> |r.value| == 5 && forall j :: 0 <= j < 5 ==> r.value[j] == StatFor(ms, j)
  {
    var counts := TallyLoop(StatusesOf(ms));
    if |ms| == 0 {
      return HttpError(500, InternalError);
    }
    StatusReportCounts(ms);
    return Ok(StatusReport(counts, |ms|));
  }

  /** The response built from the dictionary of counts, in the order of `Statuses`. */
  function StatusReport(counts: map<string, nat>, total: nat): (r: seq<StatusStat>)
    ensures |r| == 5
  {
    seq(5, j requires 0 <= j < 5 =>
      StatusStat(Statuses[j], TallyOr0(counts, Statuses[j]), Share(TallyOr0(counts, Statuses[j]), total),
        StatusColors[j], StatusDescriptions[j]))
  }

  /** The entry reported for the `j`-th status: how many members have it and their share of all members. */
  function StatFor(ms: seq<Member>, j: nat): StatusStat
    requires j < 5
  {
    var c := multiset(StatusesOf(ms))[Statuses[j]];
    StatusStat(Statuses[j], c, Share(c, |ms|), StatusColors[j], StatusDescriptions[j])
  }

  lemma {:induction false} StatusReportCounts(ms: seq<Member>)
    ensures forall j :: 0 <= j < 5 ==> StatusReport(Tally(StatusesOf(ms)), |ms|)[j] == StatFor(ms, j)
  {
    forall j | 0 <= j < 5
      ensures StatusReport(Tally(StatusesOf(ms)), |ms|)[j] == StatFor(ms, j)
    {
      TallyOr0Multiplicity(StatusesOf(ms), Statuses[j]);
    }
  }

  /** Members with another status are in none of the five counts; the five add up to at most all members. */
  lemma {:induction false} StatusCountsBounded(ms: seq<Member>)
    ensures multiset(StatusesOf(ms))[Statuses[0]] + multiset(StatusesOf(ms))[Statuses[1]]
      + multiset(StatusesOf(ms))[Statuses[2]] + multiset(StatusesOf(ms))[Statuses[3]]
      + multiset(StatusesOf(ms))[Statuses[4]] <= |ms|
    ensures (forall i :: 0 <= i < |ms| ==> ms[i].status in Statuses) ==>
      multiset(StatusesOf(ms))[Statuses[0]] + multiset(StatusesOf(ms))[Statuses[1]]
      + multiset(StatusesOf(ms))[Statuses[2]] + multiset(StatusesOf(ms))[Statuses[3]]
      + multiset(StatusesOf(ms))[Statuses[4]] == |ms|
  {
    FiveCountsBounded(StatusesOf(ms));
  }

  lemma {:induction false} FiveCountsBounded(s: seq<string>)
    ensures multiset(s)[Statuses[0]] + multiset(s)[Statuses[1]] + multiset(s)[Statuses[2]]
      + multiset(s)[Statuses[3]] + multiset(s)[Statuses[4]] <= |s|
    ensures (forall i :: 0 <= i < |s| ==> s[i] in Statuses) ==>
      multiset(s)[Statuses[0]] + multiset(s)[Statuses[1]] + multiset(s)[Statuses[2]]
      + multiset(s)[Statuses[3]] + multiset(s)[Statuses[4]] == |s|
  {
    if s != [] {
      FiveCountsBounded(s[1..]);
      assert s == [s[0]] + s[1..];
      assert multiset(s) == multiset{s[0]} + multiset(s[1..]);
    }
  }

  /** `get_members_by_attendance_status`: members with exactly that status and their number. */
  function MembersByStatus(ms: seq<Member>, status: string): (r: (string, nat, seq<Member>))
    ensures r.1 == |r.2| == multiset(StatusesOf(ms))[status]
    ensures forall m :: m in r.2 <==> m in ms && m.status == status
  {
    var filtered := Filter(ms, (m: Member) => m.status == status);
    StatusCountIsMultiplicity(ms, status);
    (status, |filtered|, filtered)
  }

  lemma {:induction false} StatusCountIsMultiplicity(ms: seq<Member>, status: string)
    ensures Count(ms, (m: Member) => m.status == status) == multiset(StatusesOf(ms))[status]
  {
    if ms != [] {
      StatusCountIsMultiplicity(ms[1..], status);
      assert StatusesOf(ms) == [ms[0].status] + StatusesOf(ms[1..]);
    }
  }

  /**
   * `get_filtered_stats`: the global snapshot for department '전체'; else
   * the department snapshot for group '전체'; else the '{department}-{group}'
   * snapshot; an unknown key falls back to the global snapshot.
   */
  function FilteredStats<S>(department: string, group: string, dashboard: S,
                            departmentStats: map<string, S>, groupStats: map<string, S>): (r: S)
    ensures department == "전체" ==> r == dashboard
    ensures department != "전체" && group == "전체" ==>
      r == if department in departmentStats then departmentStats[department] else dashboard
    ensures department != "전체" && group != "전체" ==>
      r == if department + "-" + group in groupStats then groupStats[department + "-" + group] else dashboard
  {
    if department == "전체" then dashboard
    else if group == "전체" then
      if department in departmentStats then departmentStats[department] else dashboard
    else
      var key := department + "-" + group;
      if key in groupStats then groupStats[key] else dashboard
  }

  /** Every answer is the global snapshot or one stored under the requested key. */
  lemma {:induction false} FilteredStatsSource<S>(department: string, group: string, dashboard: S,
                               departmentStats: map<string, S>, groupStats: map<string, S>)
    ensures var r := FilteredStats(department, group, dashboard, departmentStats, groupStats);
      r == dashboard
      || (department in departmentStats && r == departmentStats[department])
      || (department + "-" + group in groupStats && r == groupStats[department + "-" + group])
  {
  }

  datatype VisitationStats = VisitationStats(
    total: nat,
    methodStats: map<string, nat>,
    departmentStats: map<string, nat>,
    recent: nat,
    thisMonth: nat)

  function MethodsOf(vs: seq<Visitation>): (r: seq<string>)
    ensures |r| == |vs| && forall i :: 0 <= i < |vs| ==> r[i] == vs[i].visitMethod
  {
    if vs == [] then [] else [vs[0].visitMethod] + MethodsOf(vs[1..])
  }

  function DepartmentsOf(vs: seq<Visitation>): (r: seq<string>)
    ensures |r| == |vs| && forall i :: 0 <= i < |vs| ==> r[i] == vs[i].subjectDepartment
  {
    if vs == [] then [] else [vs[0].subjectDepartment] + DepartmentsOf(vs[1..])
  }

  /** A visit at most 30 days old. */
  function IsRecent(ageInDays: string -> Option<int>): Visitation -> bool
  {
    (v: Visitation) => ageInDays(v.date).Some? && ageInDays(v.date).value <= 30
  }

  /**
   * `get_visitation_stats`. `ageInDays(date)` stands for
   * `(datetime.now() - datetime.strptime(date, "%Y-%m-%d")).days`, `None`
   * when the date does not parse, which makes the endpoint fail.
   */
  method GetVisitationStats(vs: seq<Visitation>, ageInDays: string -> Option<int>)
    returns (r: ApiResult<VisitationStats>)
    ensures r.HttpError? <==> exists i :: 0 <= i < |vs| && ageInDays(vs[i].date).None?
    ensures r.HttpError? ==> r == HttpError(500, InternalError)
    ensures r.Ok? ==>
      && r.value.total == |vs|
      && r.value.methodStats == Tally(MethodsOf(vs))
      && r.value.departmentStats == Tally(DepartmentsOf(vs))
      && r.value.recent == r.value.thisMonth == Count(vs, IsRecent(ageInDays))
  {
    // The three passes are independent; the date pass comes first so a failing date ends the request.
    var recent := 0;
    var i := 0;
    while i < |vs|
      invariant 0 <= i <= |vs|
      invariant forall k :: 0 <= k < i ==> ageInDays(vs[k].date).Some?
      invariant recent == Count(vs[..i], IsRecent(ageInDays))
    {
      var age := ageInDays(vs[i].date);
      if age.None? {
        return HttpError(500, InternalError);
      }
      CountStep(vs, i, IsRecent(ageInDays));
      if age.value <= 30 {
        recent := recent + 1;
      }
      i := i + 1;
    }
    assert vs[..|vs|] == vs;
    var methods := TallyLoop(MethodsOf(vs));
    var departments := TallyLoop(DepartmentsOf(vs));
    return Ok(VisitationStats(|vs|, methods, departments, recent, recent));
  }

  /** The per-method and per-department counts each add up to the number of visitations. */
  lemma {:induction false} VisitationCountsAddUp(vs: seq<Visitation>)
    ensures SumAt(Distinct(MethodsOf(vs)), Tally(MethodsOf(vs))) == |vs|
    ensures SumAt(Distinct(DepartmentsOf(vs)), Tally(DepartmentsOf(vs))) == |vs|
  {
    TallyTotal(MethodsOf(vs));
    TallyTotal(DepartmentsOf(vs));
  }

  /** The active attendance rate: 0 when no member is active, else a share of the active members. */
  datatype Rate = ZeroRate | RateOf(share: Share)

  datatype ActiveAttendance = ActiveAttendance(
    rate: Rate, attendees: nat, active: int, total: nat, expelled: nat)

  /** `get_active_attendance_rate` */
  function ActiveAttendanceRate(ms: seq<Member>): (r: ActiveAttendance)
    ensures r.total == |ms|
    ensures r.expelled == multiset(StatusesOf(ms))["제적 대상자"]
    ensures r.active == |ms| - r.expelled && 0 <= r.active
    ensures r.attendees == Count(ms, (m: Member) => m.sundayYouth == "출석")
    ensures r.rate == if r.active > 0 then RateOf(Share(r.attendees, r.active)) else ZeroRate
  {
    var expelled := Count(ms, (m: Member) => m.status == "제적 대상자");
    StatusCountIsMultiplicity(ms, "제적 대상자");
    var attendees := Count(ms, (m: Member) => m.sundayYouth == "출석");
    var active := |ms| - expelled;
    ActiveAttendance(if active > 0 then RateOf(Share(attendees, active)) else ZeroRate,
      attendees, active, |ms|, expelled)
  }

  /** The rate is zero exactly when every member is 제적 대상자 (or there are none). */
  lemma {:induction false} ActiveRateZeroIffAllExpelled(ms: seq<Member>)
    ensures ActiveAttendanceRate(ms).rate == ZeroRate <==>
      forall i :: 0 <= i < |ms| ==> ms[i].status == "제적 대상자"
  {
    var s := StatusesOf(ms);
    AllEqualMultiplicity(s, "제적 대상자");
  }

  /** A value occurs |s| times exactly when every element is that value. */
  lemma {:induction false} AllEqualMultiplicity(s: seq<string>, x: string)
    ensures multiset(s)[x] == |s| <==> forall i :: 0 <= i < |s| ==> s[i] == x
  {
    if s != [] {
      AllEqualMultiplicity(s[1..], x);
      assert s == [s[0]] + s[1..];
      assert multiset(s) == multiset{s[0]} + multiset(s[1..]);
      assert multiset(s[1..])[x] <= |s[1..]|;
    }
  }

  /** Expelled members who still attend count as attendees, so the rate can exceed 100%. */
  lemma {:induction false} ActiveRateCanExceedWhole()
    ensures var m := Member(1, "1국", "A 그룹", 1, "A", "순원", "제적 대상자", "출석", "", "", "", "", "", "", "");
      var n := m.(id := 2, status := "정기 출석자");
      ActiveAttendanceRate([m, n]).rate == RateOf(Share(2, 1))
  {
    var m := Member(1, "1국", "A 그룹", 1, "A", "순원", "제적 대상자", "출석", "", "", "", "", "", "", "");
    var n := m.(id := 2, status := "정기 출석자");
    assert StatusesOf([m, n]) == ["제적 대상자", "정기 출석자"];
    assert multiset(StatusesOf([m, n]))["제적 대상자"] == 1;
    assert [m, n][1..] == [n];
    assert Count([m, n], (x: Member) => x.sundayYouth == "출석") == 2;
  }
}
