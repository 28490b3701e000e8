/**
 * The dashboard's derived figures (src/components/Dashboard.js): the
 * members on a presence streak, the per-국 attendance classes, the
 * per-group organisation table, the statistics the filters select, the
 * group choices, the hover popup's position and the weekly trend.
 */
module Dashboard {
  import opened Common
  import opened AttendanceData2025
  import opened AttendanceData
  import WorshipStatus

  const All := "전체"

  /** `${selectedGroup} 그룹`, or no group for 전체. */
  function TargetGroup(selectedGroup: string): Option<string>
  {
    if selectedGroup != All then Some(selectedGroup + " 그룹") else None
  }

  // ---------------------------------------------------------------------
  // Members on a presence streak (`getConsecutiveAttendanceMembers`)
  // ---------------------------------------------------------------------

  /** The Wednesday prayer meeting for "wednesday", the Friday meeting for anything else. */
  function ServiceFor(kind: string): string
  {
    if kind == "wednesday" then WednesdayService else FridayService
  }

  datatype StreakEntry = StreakEntry(name: Option<string>, team: Option<string>, role: Option<string>, consecutiveWeeks: nat)

  function StreakEntryOf(m: Member, service: string): StreakEntry
  {
    StreakEntry(Get(m, "이름"), Get(m, "소속순"), RoleOf(m), Streak(m, service, PresentStatus))
  }

  /** The members with a streak of two weeks or more, in member order. */
  function Collected(ms: seq<Member>, service: string): seq<StreakEntry>
  {
    if ms == [] then []
    else
      var rest := Collected(ms[..|ms| - 1], service);
      var m := ms[|ms| - 1];
      if Streak(m, service, PresentStatus) >= 2 then rest + [StreakEntryOf(m, service)] else rest
  }

  /** The comparator `b.consecutiveWeeks - a.consecutiveWeeks`: longer streaks first. */
  function LongerFirst(a: StreakEntry, b: StreakEntry): bool
  {
    a.consecutiveWeeks >= b.consecutiveWeeks
  }

  function StreakMembers(members: Option<seq<Member>>, selectedGroup: string, kind: string): seq<StreakEntry>
  {
    match members
    case None => []
    case Some(ms) => SortBy(Collected(FilterGroup(ms, TargetGroup(selectedGroup)), ServiceFor(kind)), LongerFirst)
  }

  method GetConsecutiveAttendanceMembers(members: Option<seq<Member>>, selectedGroup: string, kind: string)
    returns (result: seq<StreakEntry>)
    ensures result == StreakMembers(members, selectedGroup, kind)
  {
    if members.None? {
      return [];
    }
    var ms := FilterGroup(members.value, TargetGroup(selectedGroup));
    var service := ServiceFor(kind);
    var collected := [];
    var i := 0;
    while i < |ms|
      invariant 0 <= i <= |ms|
      invariant collected == Collected(ms[..i], service)
    {
      assert ms[..i + 1][..i] == ms[..i];
      var weeks := ConsecutiveWeeks(ms[i], service, PresentStatus);
      if weeks >= 2 {
        collected := collected + [StreakEntry(Get(ms[i], "이름"), Get(ms[i], "소속순"), RoleOf(ms[i]), weeks)];
      }
      i := i + 1;
    }
    assert ms[..|ms|] == ms;
    result := SortBy(collected, LongerFirst);
  }

  lemma {:induction false} CollectedSpec(ms: seq<Member>, service: string, e: StreakEntry)
    ensures e in Collected(ms, service) <==> exists m :: m in ms && Streak(m, service, PresentStatus) >= 2 && e == StreakEntryOf(m, service)
    ensures |Collected(ms, service)| <= |ms|
  {
    if ms != [] {
      var init := ms[..|ms| - 1];
      var m := ms[|ms| - 1];
      CollectedSpec(init, service, e);
      assert ms == init + [m];
      if e in Collected(ms, service) && !(e in Collected(init, service)) {
        assert e == StreakEntryOf(m, service);
      }
      if exists x :: x in ms && Streak(x, service, PresentStatus) >= 2 && e == StreakEntryOf(x, service) {
        var x :| x in ms && Streak(x, service, PresentStatus) >= 2 && e == StreakEntryOf(x, service);
        if x != m {
          assert x in init;
        }
      }
    }
  }

  /**
   * The list holds one entry per member of the group with a streak of two
   * weeks or more on the chosen service, longest streaks first, each
   * streak between 2 and 4.
   */
  lemma {:induction false} StreakMembersSpec(ms: seq<Member>, selectedGroup: string, kind: string, e: StreakEntry)
    ensures SortedBy(StreakMembers(Some(ms), selectedGroup, kind), LongerFirst)
    ensures e in StreakMembers(Some(ms), selectedGroup, kind) <==>
              exists m :: m in FilterGroup(ms, TargetGroup(selectedGroup))
                          && Streak(m, ServiceFor(kind), PresentStatus) >= 2
                          && e == StreakEntryOf(m, ServiceFor(kind))
    ensures e in StreakMembers(Some(ms), selectedGroup, kind) ==> 2 <= e.consecutiveWeeks <= 4
  {
    var c := Collected(FilterGroup(ms, TargetGroup(selectedGroup)), ServiceFor(kind));
    assert Total(LongerFirst);
    SortBySorted(c, LongerFirst);
    SortByElements(c, LongerFirst, e);
    CollectedSpec(FilterGroup(ms, TargetGroup(selectedGroup)), ServiceFor(kind), e);
    if e in c {
      var m :| m in FilterGroup(ms, TargetGroup(selectedGroup)) && Streak(m, ServiceFor(kind), PresentStatus) >= 2
               && e == StreakEntryOf(m, ServiceFor(kind));
      StreakSpec(m, ServiceFor(kind), PresentStatus);
    }
  }

  // ---------------------------------------------------------------------
  // Attendance classes of one 국 (`getGukDetailedStats`)
  // ---------------------------------------------------------------------

  /** The number of weeks among 주1주 .. 주n주 with `status` for the service. */
  function WeeksWith(m: Member, service: string, status: string, n: nat): (c: nat)
    ensures c <= n
  {
    if n == 0 then 0
    else WeeksWith(m, service, status, n - 1) + (if StatusAt(m, n, service) == Some(status) then 1 else 0)
  }

  method CountWeeks(m: Member, service: string, status: string, n: nat) returns (c: nat)
    ensures c == WeeksWith(m, service, status, n)
  {
    c := 0;
    var week := 1;
    while week <= n
      invariant 1 <= week <= n + 1 && c == WeeksWith(m, service, status, week - 1)
    {
      if StatusAt(m, week, service) == Some(status) {
        c := c + 1;
      }
      week := week + 1;
    }
  }

  lemma {:induction false} WeeksWithAll(m: Member, service: string, status: string, n: nat, k: nat)
    requires WeeksWith(m, service, status, n) == n && 1 <= k <= n
    ensures StatusAt(m, k, service) == Some(status)
  {
    if k < n {
      WeeksWithAll(m, service, status, n - 1, k);
    }
  }

  lemma {:induction false} WeeksWithNone(m: Member, service: string, status: string, n: nat)
    requires forall k :: 1 <= k <= n ==> StatusAt(m, k, service) != Some(status)
    ensures WeeksWith(m, service, status, n) == 0
  {
    if n > 0 {
      WeeksWithNone(m, service, status, n - 1);
    }
  }

  datatype Category = Regular | Interested | ShortAbsent | LongAbsent

  /** 정기 for three or four weeks present out of the last four, 관심 for two, 단기 for one, 장기 for none. */
  function CategoryOf(m: Member): Category
  {
    var recent := WeeksWith(m, SundayService, PresentStatus, 4);
    if recent >= 3 then Regular else if recent == 2 then Interested else if recent == 1 then ShortAbsent else LongAbsent
  }

  /** 제적대상자: absent in every one of the last six weeks. */
  predicate Dismissable(m: Member)
  {
    WeeksWith(m, SundayService, AbsentStatus, 6) >= 6
  }

  datatype DetailStats = DetailStats(regular: nat, interested: nat, shortAbsent: nat, longAbsent: nat, dismissal: nat)

  function Classify(st: DetailStats, m: Member): DetailStats
  {
    var st := match CategoryOf(m)
      case Regular => st.(regular := st.regular + 1)
      case Interested => st.(interested := st.interested + 1)
      case ShortAbsent => st.(shortAbsent := st.shortAbsent + 1)
      case LongAbsent => st.(longAbsent := st.longAbsent + 1);
    if Dismissable(m) then st.(dismissal := st.dismissal + 1) else st
  }

  function DetailTally(ms: seq<Member>): DetailStats
  {
    if ms == [] then DetailStats(0, 0, 0, 0, 0) else Classify(DetailTally(ms[..|ms| - 1]), ms[|ms| - 1])
  }

  function InGuk(guk: string): Member -> bool
  {
    m => Get(m, "소속국") == Some(guk)
  }

  lemma {:induction false} DetailTallyStep(ms: seq<Member>, i: nat)
    requires i < |ms|
    ensures DetailTally(ms[..i + 1]) == Classify(DetailTally(ms[..i]), ms[i])
  {
    assert ms[..i + 1][..i] == ms[..i];
  }

  /** The counting loop of `getGukDetailedStats` over one 국's members. */
  method TallyDetails(ms: seq<Member>) returns (st: DetailStats)
    ensures st == DetailTally(ms)
  {
    st := DetailStats(0, 0, 0, 0, 0);
    var i := 0;
    while i < |ms|
      invariant 0 <= i <= |ms| && st == DetailTally(ms[..i])
    {
      DetailTallyStep(ms, i);
      ghost var before := st;
      var recent := CountWeeks(ms[i], SundayService, PresentStatus, 4);
      if recent >= 3 {
        st := st.(regular := st.regular + 1);
      } else if recent == 2 {
        st := st.(interested := st.interested + 1);
      } else if recent == 1 {
        st := st.(shortAbsent := st.shortAbsent + 1);
      } else {
        st := st.(longAbsent := st.longAbsent + 1);
      }
      var longAbsence := CountWeeks(ms[i], SundayService, AbsentStatus, 6);
      if longAbsence >= 6 {
        st := st.(dismissal := st.dismissal + 1);
      }
      assert st == Classify(before, ms[i]);
      i := i + 1;
    }
    assert ms[..|ms|] == ms;
  }

  method GetGukDetailedStats(members: Option<seq<Member>>, gukName: string) returns (stats: Option<DetailStats>)
    ensures members.None? ==> stats.None?
    ensures members.Some? ==> stats == Some(DetailTally(Filter(members.value, InGuk(gukName))))
  {
    if members.None? {
      return None;
    }
    var st := TallyDetails(Filter(members.value, InGuk(gukName)));
    return Some(st);
  }

  /** A member absent for all six weeks was present in none of the last four. */
  lemma {:induction false} DismissableIsLongAbsent(m: Member)
    requires Dismissable(m)
    ensures CategoryOf(m) == LongAbsent
  {
    forall k | 1 <= k <= 4
      ensures StatusAt(m, k, SundayService) != Some(PresentStatus)
    {
      WeeksWithAll(m, SundayService, AbsentStatus, 6, k);
    }
    WeeksWithNone(m, SundayService, PresentStatus, 4);
  }

  function IsCategory(c: Category): Member -> bool
  {
    m => CategoryOf(m) == c
  }

  /**
   * Every member lands in exactly one of the four classes, so they add up
   * to the 국's member count; each class and the 제적 count are the numbers
   * of members they describe, and every 제적 candidate is also 장기결석.
   */
  lemma {:induction false} DetailTallySpec(ms: seq<Member>)
    ensures DetailTally(ms).regular + DetailTally(ms).interested + DetailTally(ms).shortAbsent + DetailTally(ms).longAbsent == |ms|
    ensures DetailTally(ms).regular == Count(ms, IsCategory(Regular))
    ensures DetailTally(ms).interested == Count(ms, IsCategory(Interested))
    ensures DetailTally(ms).shortAbsent == Count(ms, IsCategory(ShortAbsent))
    ensures DetailTally(ms).longAbsent == Count(ms, IsCategory(LongAbsent))
    ensures DetailTally(ms).dismissal == Count(ms, m => Dismissable(m))
    ensures DetailTally(ms).dismissal <= DetailTally(ms).longAbsent
  {
    if ms != [] {
      var init := ms[..|ms| - 1];
      var m := ms[|ms| - 1];
      DetailTallySpec(init);
      assert ms == init + [m];
      CountSnoc(init, m, IsCategory(Regular));
      CountSnoc(init, m, IsCategory(Interested));
      CountSnoc(init, m, IsCategory(ShortAbsent));
      CountSnoc(init, m, IsCategory(LongAbsent));
      CountSnoc(init, m, m => Dismissable(m));
      if Dismissable(m) {
        DismissableIsLongAbsent(m);
      }
    }
  }

  // ---------------------------------------------------------------------
  // The organisation table of one 국 (`gukOrganizationData`)
  // ---------------------------------------------------------------------

  /** Running figures of one group; a missing 소속그룹 or 소속순 is `None`. */
  datatype GroupTally = GroupTally(totalMembers: nat, present: nat, absent: nat, late: nat,
                                   teams: set<Option<string>>, leader: Option<string>)

  function GroupKey(m: Member): Option<string> { Get(m, "소속그룹") }

  /** One member added to its group: counted, its 순 recorded, and its 주1주 Sunday status counted. */
  function AddToGroup(acc: map<Option<string>, GroupTally>, m: Member): map<Option<string>, GroupTally>
  {
    var g := GroupKey(m);
    acc[g := Counted(if g in acc then acc[g] else NewGroup(m), m)]
  }

  /** The figures a group starts from, its leader taken from its first member. */
  function NewGroup(m: Member): GroupTally
  {
    GroupTally(0, 0, 0, 0, {}, Get(m, "그룹장"))
  }

  function Counted(t: GroupTally, m: Member): GroupTally
  {
    var status := StatusAt(m, 1, SundayService);
    var t := t.(totalMembers := t.totalMembers + 1, teams := t.teams + {Get(m, "소속순")});
    if status == Some(PresentStatus) then t.(present := t.present + 1)
    else if status == Some(AbsentStatus) then t.(absent := t.absent + 1)
    else if status == Some(LateStatus) then t.(late := t.late + 1)
    else t
  }

  function GroupTallies(ms: seq<Member>): map<Option<string>, GroupTally>
  {
    if ms == [] then map[] else AddToGroup(GroupTallies(ms[..|ms| - 1]), ms[|ms| - 1])
  }

  /** `Math.round(present / total * 100)`, or 0 with nobody counted. */
  function AttendanceRate(present: nat, total: nat): nat
  {
    if total > 0 then (200 * present + total) / (2 * total) else 0
  }

  lemma {:induction false} DivBounds(q: nat, d: nat)
    requires d > 0
    ensures d * (q / d) <= q < d * (q / d) + d
  {
  }

  /** From `d * r < d * k` with a positive `d`, `r < k`. */
  lemma {:induction false} FactorLess(d: nat, r: nat, k: nat)
    requires d > 0 && d * r < d * k
    ensures r < k
  {
    assert d * k - d * r == d * (k - r);
  }

  /** The rate is the percentage rounded half up, between 0 and 100 when present is at most the total. */
  lemma {:induction false} AttendanceRateSpec(present: nat, total: nat)
    requires total > 0
    ensures 2 * total * AttendanceRate(present, total) <= 200 * present + total < 2 * total * AttendanceRate(present, total) + 2 * total
    ensures present <= total ==> AttendanceRate(present, total) <= 100
    ensures present == 0 ==> AttendanceRate(present, total) == 0
    ensures present == total ==> AttendanceRate(present, total) == 100
  {
    var d := 2 * total;
    var q := 200 * present + total;
    var r := AttendanceRate(present, total);
    DivBounds(q, d);
    if present <= total {
      assert d * r < d * 101;
      FactorLess(d, r, 101);
    }
    if present == 0 {
      assert d * r < d * 1;
      FactorLess(d, r, 1);
    }
    if present == total {
      assert d * 100 < d * (r + 1);
      FactorLess(d, 100, r + 1);
    }
  }

  /** One row of the table: the counts, the number of distinct 순 and the rate. */
  datatype GroupRow = GroupRow(totalMembers: nat, present: nat, absent: nat, late: nat, teams: nat,
                               leader: Option<string>, attendanceRate: nat)

  function RowOf(t: GroupTally): GroupRow
  {
    GroupRow(t.totalMembers, t.present, t.absent, t.late, |t.teams|, t.leader,
             AttendanceRate(t.present, t.present + t.absent + t.late))
  }

  function GukOrganization(members: seq<Member>, selectedGuk: string): Option<map<Option<string>, GroupRow>>
  {
    if selectedGuk == All then None
    else
      var tallies := GroupTallies(Filter(members, InGuk(selectedGuk)));
      Some(map g | g in tallies :: RowOf(tallies[g]))
  }

  method GukOrganizationData(members: seq<Member>, selectedGuk: string) returns (table: Option<map<Option<string>, GroupRow>>)
    ensures table == GukOrganization(members, selectedGuk)
  {
    if selectedGuk == All {
      return None;
    }
    var ms := Filter(members, InGuk(selectedGuk));
    var groups: map<Option<string>, GroupTally> := map[];
    var i := 0;
    while i < |ms|
      invariant 0 <= i <= |ms| && groups == GroupTallies(ms[..i])
    {
      assert ms[..i + 1][..i] == ms[..i];
      var m := ms[i];
      var g := GroupKey(m);
      var t := if g in groups then groups[g] else NewGroup(m);
      groups := groups[g := Counted(t, m)];
      i := i + 1;
    }
    assert ms[..|ms|] == ms;
    table := Some(map g | g in groups :: RowOf(groups[g]));
  }

  function InGroupKey(g: Option<string>): Member -> bool
  {
    m => GroupKey(m) == g
  }

  /** A group has a row exactly when some member belongs to it, and the row counts its members. */
  lemma {:induction false} GroupTalliesMembers(ms: seq<Member>, g: Option<string>)
    ensures g in GroupTallies(ms) <==> Count(ms, InGroupKey(g)) > 0
    ensures g in GroupTallies(ms) ==> GroupTallies(ms)[g].totalMembers == Count(ms, InGroupKey(g))
  {
    if ms != [] {
      var init := ms[..|ms| - 1];
      var m := ms[|ms| - 1];
      GroupTalliesMembers(init, g);
      assert ms == init + [m];
      CountSnoc(init, m, InGroupKey(g));
    }
  }

  /** No more of a group's members are present, absent or late than it has members. */
  lemma {:induction false} GroupTalliesBounded(ms: seq<Member>, g: Option<string>)
    requires g in GroupTallies(ms)
    ensures GroupTallies(ms)[g].present + GroupTallies(ms)[g].absent + GroupTallies(ms)[g].late <= GroupTallies(ms)[g].totalMembers
  {
    var init := ms[..|ms| - 1];
    if g in GroupTallies(init) {
      GroupTalliesBounded(init, g);
    }
  }

  /** The 순 of a group's members, as the set `teams` collects them. */
  function TeamsIn(ms: seq<Member>, g: Option<string>): set<Option<string>>
  {
    if ms == [] then {}
    else TeamsIn(ms[..|ms| - 1], g) + (if GroupKey(ms[|ms| - 1]) == g then {Get(ms[|ms| - 1], "소속순")} else {})
  }

  lemma {:induction false} TeamsInSpec(ms: seq<Member>, g: Option<string>, t: Option<string>)
    ensures t in TeamsIn(ms, g) <==> exists i :: 0 <= i < |ms| && GroupKey(ms[i]) == g && Get(ms[i], "소속순") == t
  {
    if ms != [] {
      var init := ms[..|ms| - 1];
      TeamsInSpec(init, g, t);
      if exists i :: 0 <= i < |ms| && GroupKey(ms[i]) == g && Get(ms[i], "소속순") == t {
        var i :| 0 <= i < |ms| && GroupKey(ms[i]) == g && Get(ms[i], "소속순") == t;
        if i < |init| {
          assert init[i] == ms[i];
        }
      }
      if exists i :: 0 <= i < |init| && GroupKey(init[i]) == g && Get(init[i], "소속순") == t {
        var i :| 0 <= i < |init| && GroupKey(init[i]) == g && Get(init[i], "소속순") == t;
        assert ms[i] == init[i];
      }
    }
  }

  /** The `teams` figure is the number of distinct 순 among the group's members. */
  lemma {:induction false} GroupTalliesTeams(ms: seq<Member>, g: Option<string>)
    requires g in GroupTallies(ms)
    ensures GroupTallies(ms)[g].teams == TeamsIn(ms, g)
  {
    var init := ms[..|ms| - 1];
    if g in GroupTallies(init) {
      GroupTalliesTeams(init, g);
    } else {
      assert TeamsIn(init, g) == {} by {
        GroupTalliesMembers(init, g);
        forall t | t in TeamsIn(init, g) ensures false {
          TeamsInSpec(init, g, t);
          var i :| 0 <= i < |init| && GroupKey(init[i]) == g && Get(init[i], "소속순") == t;
          CountPositive(init, InGroupKey(g), i);
        }
      }
    }
  }

  // ---------------------------------------------------------------------
  // The statistics the filters select (`currentStats`)
  // ---------------------------------------------------------------------

  /** Overall for 전체; the 국's for a 국 with group 전체; else the group's, falling back to the 국's. */
  function CurrentStats<S>(selectedGuk: string, selectedGroup: string, overall: S,
                           gukStats: map<string, S>, groupStats: map<string, S>): Option<S>
  {
    if selectedGuk == All then Some(overall)
    else if selectedGroup == All then (if selectedGuk in gukStats then Some(gukStats[selectedGuk]) else None)
    else if selectedGroup + " 그룹" in groupStats then Some(groupStats[selectedGroup + " 그룹"])
    else if selectedGuk in gukStats then Some(gukStats[selectedGuk])
    else None
  }

  /** The selection picks the narrowest statistics the filters name that exist. */
  lemma {:induction false} CurrentStatsSpec<S>(selectedGuk: string, selectedGroup: string, overall: S, gukStats: map<string, S>, groupStats: map<string, S>)
    ensures selectedGuk == All ==> CurrentStats(selectedGuk, selectedGroup, overall, gukStats, groupStats) == Some(overall)
    ensures selectedGuk != All && selectedGroup != All && selectedGroup + " 그룹" in groupStats ==>
              CurrentStats(selectedGuk, selectedGroup, overall, gukStats, groupStats) == Some(groupStats[selectedGroup + " 그룹"])
    ensures selectedGuk != All && (selectedGroup == All || selectedGroup + " 그룹" !in groupStats) ==>
              CurrentStats(selectedGuk, selectedGroup, overall, gukStats, groupStats)
              == (if selectedGuk in gukStats then Some(gukStats[selectedGuk]) else None)
  {
  }

  // ---------------------------------------------------------------------
  // Group choices (`availableGroups`)
  // ---------------------------------------------------------------------

  /** `s.replace(pat, rep)` with a string pattern: the first occurrence only. */
  function ReplaceFirst(s: string, pat: string, rep: string): string
    requires pat != ""
    decreases |s|
  {
    if |s| < |pat| then s
    else if s[..|pat|] == pat then rep + s[|pat|..]
    else [s[0]] + ReplaceFirst(s[1..], pat, rep)
  }

  /** Taking the pattern off a name it is appended to, when its first occurrence is that one. */
  lemma {:induction false} ReplaceFirstSuffix(name: string, pat: string)
    requires pat != "" && !Contains(name + pat[..|pat| - 1], pat)
    ensures ReplaceFirst(name + pat, pat, "") == name
    decreases |name|
  {
    var s := name + pat;
    if name == [] {
      assert s[..|pat|] == pat;
      assert s[|pat|..] == [];
    } else {
      var h := name + pat[..|pat| - 1];
      assert s[..|pat|] == h[..|pat|];
      assert !StartsWith(h, pat);
      assert s[1..] == name[1..] + pat;
      var h1 := name[1..] + pat[..|pat| - 1];
      assert h1 == h[1..];
      ReplaceFirstSuffix(name[1..], pat);
      assert name == [name[0]] + name[1..];
    }
  }

  function LeaderName(group: string): string
  {
    ReplaceFirst(group, " 그룹", "")
  }

  predicate HasGroup(m: Member) { Get(m, "소속그룹").Some? }

  function GroupOf(m: Member): string
    requires HasGroup(m)
  {
    Get(m, "소속그룹").value
  }

  function GroupsOf(ms: seq<Member>): seq<string>
    requires forall i :: 0 <= i < |ms| ==> HasGroup(ms[i])
  {
    seq(|ms|, i requires 0 <= i < |ms| => GroupOf(ms[i]))
  }

  function Leaders(groups: seq<string>): seq<string>
  {
    seq(|groups|, i requires 0 <= i < |groups| => LeaderName(groups[i]))
  }

  /**
   * Every member of the chosen 국 has a 소속그룹 (`groupName.replace` fails on
   * a missing one).  It holds for every member the page is given: the only
   * data source, the generator in src/data/attendanceData.js:264, sets
   * 소속그룹 on each member it builds.
   */
  predicate GroupsKnown(members: seq<Member>, guk: string)
  {
    forall i :: 0 <= i < |members| && Get(members[i], "소속국") == Some(guk) ==> HasGroup(members[i])
  }

  function AvailableGroups(members: seq<Member>, selectedGuk: string): seq<string>
    requires selectedGuk != All ==> GroupsKnown(members, selectedGuk)
  {
    if selectedGuk == All then [All]
    else
      var ms := Filter(members, InGuk(selectedGuk));
      assert forall i :: 0 <= i < |ms| ==> HasGroup(ms[i]);
      [All] + Leaders(Distinct(GroupsOf(ms)))
  }

  lemma {:induction false} LeadersMembers(gs: seq<string>, x: string)
    ensures x in Leaders(gs) <==> exists g :: g in gs && x == LeaderName(g)
  {
    if exists g :: g in gs && x == LeaderName(g) {
      var g :| g in gs && x == LeaderName(g);
      var j :| 0 <= j < |gs| && gs[j] == g;
      assert Leaders(gs)[j] == x;
    }
  }

  lemma {:induction false} GroupsOfMembers(ms: seq<Member>, g: string)
    requires forall i :: 0 <= i < |ms| ==> HasGroup(ms[i])
    ensures g in GroupsOf(ms) <==> exists m :: m in ms && HasGroup(m) && GroupOf(m) == g
  {
    if exists m :: m in ms && HasGroup(m) && GroupOf(m) == g {
      var m :| m in ms && HasGroup(m) && GroupOf(m) == g;
      var k :| 0 <= k < |ms| && ms[k] == m;
      assert GroupsOf(ms)[k] == g;
    }
  }

  /**
   * The choices start with 전체 and then list, once per distinct group of
   * the 국's members, the group's name without " 그룹".
   */
  lemma {:induction false} AvailableGroupsSpec(members: seq<Member>, selectedGuk: string, x: string)
    requires selectedGuk != All && GroupsKnown(members, selectedGuk)
    ensures AvailableGroups(members, selectedGuk)[0] == All
    ensures |AvailableGroups(members, selectedGuk)| - 1 <= Count(members, InGuk(selectedGuk))
    ensures x in AvailableGroups(members, selectedGuk)[1..] <==>
              exists m :: m in members && Get(m, "소속국") == Some(selectedGuk) && HasGroup(m) && x == LeaderName(GroupOf(m))
  {
    var ms := Filter(members, InGuk(selectedGuk));
    assert forall i :: 0 <= i < |ms| ==> HasGroup(ms[i]);
    var gs := GroupsOf(ms);
    var d := Distinct(gs);
    assert AvailableGroups(members, selectedGuk)[1..] == Leaders(d);
    LeadersMembers(d, x);
    forall g ensures g in d <==> exists m :: m in ms && HasGroup(m) && GroupOf(m) == g {
      GroupsOfMembers(ms, g);
    }
  }

  /** A group named after its leader lists the leader. */
  lemma {:induction false} LeaderNameOfGroup(leader: string)
    requires !Contains(leader, " 그룹")
    ensures LeaderName(leader + " 그룹") == leader
  {
    assert " 그룹"[..2] == " 그";
    NoGroupAfter(leader);
    ReplaceFirstSuffix(leader, " 그룹");
  }

  /** " 그" after a name without " 그룹" does not complete one. */
  lemma {:induction false} NoGroupAfter(leader: string)
    requires !Contains(leader, " 그룹")
    ensures !Contains(leader + " 그", " 그룹")
    decreases |leader|
  {
    var h := leader + " 그";
    if leader == [] {
      assert h[1..] == "그";
      assert h[1..][1..] == "";
    } else {
      assert h[1..] == leader[1..] + " 그";
      NoGroupAfter(leader[1..]);
      if |leader| >= 3 {
        assert h[..3] == leader[..3];
      } else {
        assert h[2] != '룹';
      }
    }
  }

  // ---------------------------------------------------------------------
  // The hover popup (`handleGukHover`)
  // ---------------------------------------------------------------------

  const PopupWidth: real := 300.0
  const PopupHeight: real := 200.0

  datatype Placement = Above | Below

  datatype PopupPosition = PopupPosition(x: real, y: real, placement: Placement)

  /** Centre above the card, kept 10 pixels inside the screen edges, or below the card when there is no room above. */
  function HoverPosition(left: real, width: real, top: real, bottom: real, screenWidth: real): PopupPosition
  {
    var x := left + width / 2.0;
    var x := if x - PopupWidth / 2.0 < 10.0 then PopupWidth / 2.0 + 10.0 else x;
    var x := if x + PopupWidth / 2.0 > screenWidth - 10.0 then screenWidth - PopupWidth / 2.0 - 10.0 else x;
    var y := top - 10.0;
    if y - PopupHeight < 10.0 then PopupPosition(x, bottom + 10.0, Below) else PopupPosition(x, y, Above)
  }

  /**
   * On a screen wide enough for the popup it stays 10 pixels inside both
   * edges and keeps the card's centre when that fits; the right edge wins
   * on a narrower screen. It goes below the card exactly when the card's
   * top is closer than 220 pixels to the top of the screen.
   */
  lemma {:induction false} HoverPositionSpec(left: real, width: real, top: real, bottom: real, screenWidth: real)
    ensures HoverPosition(left, width, top, bottom, screenWidth).x + 160.0 <= screenWidth
    ensures screenWidth >= 320.0 ==> HoverPosition(left, width, top, bottom, screenWidth).x >= 160.0
    ensures 160.0 <= left + width / 2.0 <= screenWidth - 160.0 ==> HoverPosition(left, width, top, bottom, screenWidth).x == left + width / 2.0
    ensures HoverPosition(left, width, top, bottom, screenWidth).placement == Below <==> top < 220.0
    ensures HoverPosition(left, width, top, bottom, screenWidth).placement == Below ==> HoverPosition(left, width, top, bottom, screenWidth).y == bottom + 10.0
    ensures HoverPosition(left, width, top, bottom, screenWidth).placement == Above ==> HoverPosition(left, width, top, bottom, screenWidth).y == top - 10.0
  {
  }

  // ---------------------------------------------------------------------
  // The weekly trend (`weeklyAttendanceTrends`)
  // ---------------------------------------------------------------------

  datatype TrendPoint = TrendPoint(week: string, month: string, weekLabel: string, attendance: int)

  /** The Sunday-service present count over the listed 국, skipping missing or zero entries. */
  method WeekAttendance(a: Attendance, gukNames: seq<string>) returns (total: int)
    ensures total == WorshipStatus.CalculateTotal(a, gukNames, SundayService)
  {
    total := 0;
    var i := 0;
    while i < |gukNames|
      invariant 0 <= i <= |gukNames| && total == WorshipStatus.CalculateTotal(a, gukNames[..i], SundayService)
    {
      assert gukNames[..i + 1][..i] == gukNames[..i];
      var g := gukNames[i];
      if g in a && SundayService in a[g] && a[g][SundayService].present != 0 {
        total := total + a[g][SundayService].present;
      }
      i := i + 1;
    }
    assert gukNames[..|gukNames|] == gukNames;
  }

  function WeekLabel(index: nat): string { "W" + NatToString(index + 1) }

  function MonthName(month: nat): string { NatToString(month + 1) + "월" }

  function TrendOf(w: WeekData, index: nat, gukNames: seq<string>): TrendPoint
  {
    TrendPoint(WeekLabel(index), MonthName(w.month), MonthName(w.month) + " " + WeekLabel(index),
               WorshipStatus.CalculateTotal(w.guk, gukNames, SundayService))
  }

  function Trends(weeks: seq<WeekData>, gukNames: seq<string>): (points: seq<TrendPoint>)
    ensures |points| == |weeks|
  {
    seq(|weeks|, i requires 0 <= i < |weeks| => TrendOf(weeks[i], i, gukNames))
  }

  /** `weeklyData.map(...)`; `gukNames` stands for `Object.keys(week.attendance.guk)`, the same for every week. */
  method WeeklyAttendanceTrends(weeks: seq<WeekData>, gukNames: seq<string>) returns (points: seq<TrendPoint>)
    ensures points == Trends(weeks, gukNames)
  {
    points := [];
    var i := 0;
    while i < |weeks|
      invariant 0 <= i <= |weeks| && points == Trends(weeks[..i], gukNames)
    {
      var total := WeekAttendance(weeks[i].guk, gukNames);
      var month := MonthName(weeks[i].month);
      points := points + [TrendPoint(WeekLabel(i), month, month + " " + WeekLabel(i), total)];
      i := i + 1;
    }
    assert weeks[..|weeks|] == weeks;
  }

  /** Every week gets its own label. */
  lemma {:induction false} WeekLabelsDistinct(i: nat, j: nat)
    requires WeekLabel(i) == WeekLabel(j)
    ensures i == j
  {
    assert WeekLabel(i)[1..] == NatToString(i + 1);
    assert WeekLabel(j)[1..] == NatToString(j + 1);
    NatToStringValue(i + 1);
    NatToStringValue(j + 1);
  }

  /**
   * The trend has one point per week, the i-th labelled W(i+1), whose value
   * is the 국별 total the worship table shows for the Sunday service.
   */
  lemma {:induction false} TrendsSpec(weeks: seq<WeekData>, gukNames: seq<string>, i: nat)
    requires i < |weeks|
    ensures Trends(weeks, gukNames)[i].week == "W" + NatToString(i + 1)
    ensures Trends(weeks, gukNames)[i].attendance
            == WorshipStatus.CalculateTotal(weeks[i].guk, WorshipStatus.OrganizationNames(
                 WorshipStatus.Filters(WorshipStatus.AllValue, WorshipStatus.AllValue, None, None),
                 WorshipStatus.Directory(gukNames, map[], map[])), SundayService)
  {
  }
}
