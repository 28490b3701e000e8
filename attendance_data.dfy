/**
 * The member attendance statistics (src/data/attendanceData.js): a member
 * is a record with one field per week and service (`주1주_수요제자기도회출석여부`
 * and so on), and the statistics count streaks of the same status
 * starting from the most recent week, 주1주.
 */
module AttendanceData {
  import opened Common
  import opened AttendanceData2025

  const PresentStatus := "출석"
  const AbsentStatus := "결석"
  const LateStatus := "지각"

  type Member = Record

  /** `${weekKey}_${service}출석여부` with `weekKey = 주${week}주`. */
  function WeekKey(week: nat, service: string): string
  {
    "주" + NatToString(week) + "주_" + service + "출석여부"
  }

  function StatusAt(m: Member, week: nat, service: string): Option<string>
  {
    Get(m, WeekKey(week, service))
  }

  /** The run of `status` from week `week` on, stopping after week 4. */
  function RunFrom(m: Member, service: string, status: string, week: nat): nat
    decreases 5 - week
  {
    if week > 4 then 0
    else if StatusAt(m, week, service) == Some(status) then 1 + RunFrom(m, service, status, week + 1)
    else 0
  }

  /** The number of weeks in a row, from 주1주, with `status` for the service. */
  function Streak(m: Member, service: string, status: string): nat
  {
    RunFrom(m, service, status, 1)
  }

  lemma {:induction false} RunFromSpec(m: Member, service: string, status: string, week: nat)
    requires 1 <= week <= 5
    ensures RunFrom(m, service, status, week) <= 5 - week
    ensures forall w :: week <= w < week + RunFrom(m, service, status, week) ==> StatusAt(m, w, service) == Some(status)
    ensures week + RunFrom(m, service, status, week) <= 4 ==> StatusAt(m, week + RunFrom(m, service, status, week), service) != Some(status)
    decreases 5 - week
  {
    if week <= 4 && StatusAt(m, week, service) == Some(status) {
      RunFromSpec(m, service, status, week + 1);
    }
  }

  /**
   * A streak is between 0 and 4; every week up to it has the status, and
   * the week right after it, if there is one, does not.
   */
  lemma {:induction false} StreakSpec(m: Member, service: string, status: string)
    ensures Streak(m, service, status) <= 4
    ensures forall w :: 1 <= w <= Streak(m, service, status) ==> StatusAt(m, w, service) == Some(status)
    ensures Streak(m, service, status) < 4 ==> StatusAt(m, Streak(m, service, status) + 1, service) != Some(status)
  {
    RunFromSpec(m, service, status, 1);
  }

  /** The counting loop with its `break`. */
  method ConsecutiveWeeks(m: Member, service: string, status: string) returns (n: nat)
    ensures n == Streak(m, service, status)
  {
    n := 0;
    var week := 1;
    while week <= 4
      invariant 1 <= week <= 5 && n == week - 1
      invariant n + RunFrom(m, service, status, week) == Streak(m, service, status)
    {
      if StatusAt(m, week, service) == Some(status) {
        n := n + 1;
      } else {
        break;
      }
      week := week + 1;
    }
  }

  function InGroup(group: string): Member -> bool
  {
    m => Get(m, "소속그룹") == Some(group)
  }

  /** A non-empty target group keeps only its members; no target keeps everyone. */
  function FilterGroup(members: seq<Member>, target: Option<string>): seq<Member>
  {
    if target.Some? && target.value != "" then Filter(members, InGroup(target.value)) else members
  }

  /** The four streak buckets of one service and the number of members looked at. */
  datatype ServiceStats = ServiceStats(weeks4: nat, weeks3: nat, weeks2: nat, weeks1: nat, totalMembers: nat)

  /** One member counted: the longest bucket the streak reaches, none for a streak of 0. */
  function Bump(st: ServiceStats, streak: nat): ServiceStats
  {
    var st := st.(totalMembers := st.totalMembers + 1);
    if streak >= 4 then st.(weeks4 := st.weeks4 + 1)
    else if streak >= 3 then st.(weeks3 := st.weeks3 + 1)
    else if streak >= 2 then st.(weeks2 := st.weeks2 + 1)
    else if streak >= 1 then st.(weeks1 := st.weeks1 + 1)
    else st
  }

  /** The presence streak statistics of one service over the members, one member at a time. */
  function Tally(ms: seq<Member>, service: string): ServiceStats
  {
    if ms == [] then ServiceStats(0, 0, 0, 0, 0)
    else Bump(Tally(ms[..|ms| - 1], service), Streak(ms[|ms| - 1], service, PresentStatus))
  }

  function HasStreak(service: string, status: string, k: nat): Member -> bool
  {
    m => Streak(m, service, status) == k
  }

  /**
   * Each bucket counts the members whose streak has exactly that length,
   * every member is counted in `totalMembers`, and the buckets together
   * hold every member with a streak of at least one.
   */
  lemma {:induction false} TallySpec(ms: seq<Member>, service: string)
    ensures Tally(ms, service).totalMembers == |ms|
    ensures Tally(ms, service).weeks4 == Count(ms, HasStreak(service, PresentStatus, 4))
    ensures Tally(ms, service).weeks3 == Count(ms, HasStreak(service, PresentStatus, 3))
    ensures Tally(ms, service).weeks2 == Count(ms, HasStreak(service, PresentStatus, 2))
    ensures Tally(ms, service).weeks1 == Count(ms, HasStreak(service, PresentStatus, 1))
    ensures Tally(ms, service).weeks4 + Tally(ms, service).weeks3 + Tally(ms, service).weeks2 + Tally(ms, service).weeks1
            + Count(ms, HasStreak(service, PresentStatus, 0)) == |ms|
  {
    TallyCounts(ms, service);
    StreakCountsSum(ms, service);
  }

  lemma {:induction false} TallyCounts(ms: seq<Member>, service: string)
    ensures Tally(ms, service).totalMembers == |ms|
    ensures Tally(ms, service).weeks4 == Count(ms, HasStreak(service, PresentStatus, 4))
    ensures Tally(ms, service).weeks3 == Count(ms, HasStreak(service, PresentStatus, 3))
    ensures Tally(ms, service).weeks2 == Count(ms, HasStreak(service, PresentStatus, 2))
    ensures Tally(ms, service).weeks1 == Count(ms, HasStreak(service, PresentStatus, 1))
  {
    if ms != [] {
      var init := ms[..|ms| - 1];
      var m := ms[|ms| - 1];
      TallyCounts(init, service);
      assert ms == init + [m];
      assert Tally(ms, service) == Bump(Tally(init, service), Streak(m, service, PresentStatus));
      StreakSpec(m, service, PresentStatus);
      BumpSpec(Tally(init, service), Streak(m, service, PresentStatus));
      CountSnoc(init, m, HasStreak(service, PresentStatus, 4));
      CountSnoc(init, m, HasStreak(service, PresentStatus, 3));
      CountSnoc(init, m, HasStreak(service, PresentStatus, 2));
      CountSnoc(init, m, HasStreak(service, PresentStatus, 1));
    }
  }

  /** A streak of at most four weeks is counted in its own bucket and in the total, and nowhere else. */
  lemma {:induction false} BumpSpec(st: ServiceStats, k: nat)
    requires k <= 4
    ensures Bump(st, k) == ServiceStats(st.weeks4 + (if k == 4 then 1 else 0), st.weeks3 + (if k == 3 then 1 else 0),
                                        st.weeks2 + (if k == 2 then 1 else 0), st.weeks1 + (if k == 1 then 1 else 0),
                                        st.totalMembers + 1)
  {
  }

  /** Every streak is between 0 and 4, so the five streak counts add up to the number of members. */
  lemma {:induction false} StreakCountsSum(ms: seq<Member>, service: string)
    ensures Count(ms, HasStreak(service, PresentStatus, 4)) + Count(ms, HasStreak(service, PresentStatus, 3))
            + Count(ms, HasStreak(service, PresentStatus, 2)) + Count(ms, HasStreak(service, PresentStatus, 1))
            + Count(ms, HasStreak(service, PresentStatus, 0)) == |ms|
  {
    if ms != [] {
      var init := ms[..|ms| - 1];
      var m := ms[|ms| - 1];
      StreakCountsSum(init, service);
      assert ms == init + [m];
      StreakSpec(m, service, PresentStatus);
      CountSnoc(init, m, HasStreak(service, PresentStatus, 4));
      CountSnoc(init, m, HasStreak(service, PresentStatus, 3));
      CountSnoc(init, m, HasStreak(service, PresentStatus, 2));
      CountSnoc(init, m, HasStreak(service, PresentStatus, 1));
      CountSnoc(init, m, HasStreak(service, PresentStatus, 0));
    }
  }

  /** The statistics of the three services. */
  datatype ConsecutiveStats = ConsecutiveStats(wednesday: ServiceStats, friday: ServiceStats, special: ServiceStats)

  function ConsecutiveStatsOf(members: seq<Member>, target: Option<string>): ConsecutiveStats
  {
    var ms := FilterGroup(members, target);
    ConsecutiveStats(Tally(ms, WednesdayService), Tally(ms, FridayService), Tally(ms, SpecialService))
  }

  lemma {:induction false} TallyStep(ms: seq<Member>, i: nat, service: string)
    requires i < |ms|
    ensures Tally(ms[..i + 1], service) == Bump(Tally(ms[..i], service), Streak(ms[i], service, PresentStatus))
  {
    assert ms[..i + 1][..i] == ms[..i];
  }

  /**
   * `calculateConsecutiveAttendance` (and `getConsecutiveAttendanceStats`,
   * which only calls it): one pass over the group's members, three streaks each.
   */
  method CalculateConsecutiveAttendance(members: seq<Member>, target: Option<string>) returns (stats: ConsecutiveStats)
    ensures stats == ConsecutiveStatsOf(members, target)
  {
    var ms := FilterGroup(members, target);
    var wednesday := ServiceStats(0, 0, 0, 0, 0);
    var friday := ServiceStats(0, 0, 0, 0, 0);
    var special := ServiceStats(0, 0, 0, 0, 0);
    var i := 0;
    while i < |ms|
      invariant 0 <= i <= |ms|
      invariant wednesday == Tally(ms[..i], WednesdayService)
      invariant friday == Tally(ms[..i], FridayService)
      invariant special == Tally(ms[..i], SpecialService)
    {
      TallyStep(ms, i, WednesdayService);
      TallyStep(ms, i, FridayService);
      TallyStep(ms, i, SpecialService);
      var w := ConsecutiveWeeks(ms[i], WednesdayService, PresentStatus);
      wednesday := Bump(wednesday, w);
      var f := ConsecutiveWeeks(ms[i], FridayService, PresentStatus);
      friday := Bump(friday, f);
      var s := ConsecutiveWeeks(ms[i], SpecialService, PresentStatus);
      special := Bump(special, s);
      i := i + 1;
    }
    assert ms[..|ms|] == ms;
    stats := ConsecutiveStats(wednesday, friday, special);
  }

  // ---------------------------------------------------------------------
  // Absence streaks (`calculateConsecutiveAbsence`)
  // ---------------------------------------------------------------------

  /** One listed absentee. */
  datatype AbsentEntry = AbsentEntry(name: Option<string>, team: Option<string>, role: Option<string>,
                                     consecutiveWeeks: nat, guk: Option<string>, group: Option<string>)

  /** `member.직분 || null` */
  function RoleOf(m: Member): Option<string>
  {
    match Get(m, "직분")
    case Some(r) => if r == "" then None else Some(r)
    case None => None
  }

  function EntryOf(m: Member, weeks: nat): AbsentEntry
  {
    AbsentEntry(Get(m, "이름"), Get(m, "소속순"), RoleOf(m), weeks, Get(m, "소속국"), Get(m, "소속그룹"))
  }

  /** The Sunday-service absence buckets and their member lists. */
  datatype AbsenceStats = AbsenceStats(weeks4: nat, weeks3: nat, weeks2: nat,
                                       list4: seq<AbsentEntry>, list3: seq<AbsentEntry>, list2: seq<AbsentEntry>)

  function AbsenceStreak(m: Member): nat
  {
    Streak(m, SundayService, AbsentStatus)
  }

  /** One member counted and listed in the bucket its absence streak reaches; below 2 nothing is recorded. */
  function AddAbsentee(st: AbsenceStats, m: Member): AbsenceStats
  {
    var k := AbsenceStreak(m);
    if k >= 4 then st.(weeks4 := st.weeks4 + 1, list4 := st.list4 + [EntryOf(m, k)])
    else if k >= 3 then st.(weeks3 := st.weeks3 + 1, list3 := st.list3 + [EntryOf(m, k)])
    else if k >= 2 then st.(weeks2 := st.weeks2 + 1, list2 := st.list2 + [EntryOf(m, k)])
    else st
  }

  function AbsenceTally(ms: seq<Member>): AbsenceStats
  {
    if ms == [] then AbsenceStats(0, 0, 0, [], [], [])
    else AddAbsentee(AbsenceTally(ms[..|ms| - 1]), ms[|ms| - 1])
  }

  /** The entries of the members, each with the given number of weeks. */
  function Entries(ms: seq<Member>, weeks: nat): (es: seq<AbsentEntry>)
    ensures |es| == |ms|
  {
    seq(|ms|, i requires 0 <= i < |ms| => EntryOf(ms[i], weeks))
  }

  lemma {:induction false} EntriesSnoc(ms: seq<Member>, m: Member, weeks: nat)
    ensures Entries(ms + [m], weeks) == Entries(ms, weeks) + [EntryOf(m, weeks)]
  {
  }

  lemma {:induction false} FilterSnoc(ms: seq<Member>, m: Member, p: Member -> bool)
    ensures Filter(ms + [m], p) == Filter(ms, p) + (if p(m) then [m] else [])
  {
    FilterAppend(ms, [m], p);
    assert [m][1..] == [];
  }

  /** The list and the count kept for an absence streak of `n` weeks (2, 3, or 4 and more). */
  function ListAt(st: AbsenceStats, n: nat): seq<AbsentEntry>
  {
    if n == 4 then st.list4 else if n == 3 then st.list3 else st.list2
  }

  function WeeksAt(st: AbsenceStats, n: nat): nat
  {
    if n == 4 then st.weeks4 else if n == 3 then st.weeks3 else st.weeks2
  }

  predicate BucketHolds(ms: seq<Member>, n: nat)
  {
    && ListAt(AbsenceTally(ms), n) == Entries(Filter(ms, HasStreak(SundayService, AbsentStatus, n)), n)
    && WeeksAt(AbsenceTally(ms), n) == |ListAt(AbsenceTally(ms), n)|
  }

  lemma {:induction false} AbsenceListSnoc(init: seq<Member>, m: Member, n: nat)
    requires 2 <= n <= 4 && BucketHolds(init, n)
    ensures BucketHolds(init + [m], n)
  {
    assert (init + [m])[..|init|] == init;
    assert AbsenceTally(init + [m]) == AddAbsentee(AbsenceTally(init), m);
    StreakSpec(m, SundayService, AbsentStatus);
    FilterSnoc(init, m, HasStreak(SundayService, AbsentStatus, n));
    if AbsenceStreak(m) == n {
      EntriesSnoc(Filter(init, HasStreak(SundayService, AbsentStatus, n)), m, n);
    }
  }

  /** One bucket at a time: its list holds the members with that streak, and its count is the list's length. */
  lemma {:induction false} AbsenceListSpec(ms: seq<Member>, n: nat)
    requires 2 <= n <= 4
    ensures BucketHolds(ms, n)
  {
    if ms == [] {
      assert Filter(ms, HasStreak(SundayService, AbsentStatus, n)) == [];
    } else {
      var init := ms[..|ms| - 1];
      AbsenceListSpec(init, n);
      AbsenceListSnoc(init, ms[|ms| - 1], n);
      assert ms == init + [ms[|ms| - 1]];
    }
  }

  /**
   * Each list holds, in order, exactly the members whose Sunday absence
   * streak has that length, each entry recording it; each count is the
   * length of its list.
   */
  lemma {:induction false} AbsenceTallySpec(ms: seq<Member>)
    ensures AbsenceTally(ms).list4 == Entries(Filter(ms, HasStreak(SundayService, AbsentStatus, 4)), 4)
    ensures AbsenceTally(ms).list3 == Entries(Filter(ms, HasStreak(SundayService, AbsentStatus, 3)), 3)
    ensures AbsenceTally(ms).list2 == Entries(Filter(ms, HasStreak(SundayService, AbsentStatus, 2)), 2)
    ensures AbsenceTally(ms).weeks4 == |AbsenceTally(ms).list4|
    ensures AbsenceTally(ms).weeks3 == |AbsenceTally(ms).list3|
    ensures AbsenceTally(ms).weeks2 == |AbsenceTally(ms).list2|
  {
    AbsenceListSpec(ms, 4);
    AbsenceListSpec(ms, 3);
    AbsenceListSpec(ms, 2);
  }

  lemma {:induction false} AbsenceTallyStep(ms: seq<Member>, i: nat)
    requires i < |ms|
    ensures AbsenceTally(ms[..i + 1]) == AddAbsentee(AbsenceTally(ms[..i]), ms[i])
  {
    assert ms[..i + 1][..i] == ms[..i];
  }

  /** `calculateConsecutiveAbsence`: one pass over the group's members. */
  method CalculateConsecutiveAbsence(members: seq<Member>, target: Option<string>) returns (stats: AbsenceStats)
    ensures stats == AbsenceTally(FilterGroup(members, target))
  {
    var ms := FilterGroup(members, target);
    stats := AbsenceStats(0, 0, 0, [], [], []);
    var i := 0;
    while i < |ms|
      invariant 0 <= i <= |ms|
      invariant stats == AbsenceTally(ms[..i])
    {
      AbsenceTallyStep(ms, i);
      stats := RecordAbsentee(stats, ms[i]);
      i := i + 1;
    }
    assert ms[..|ms|] == ms;
  }

  /** The loop body of `calculateConsecutiveAbsence`: count the member's streak and file the member under it. */
  method RecordAbsentee(st: AbsenceStats, m: Member) returns (next: AbsenceStats)
    ensures next == AddAbsentee(st, m)
  {
    var k := ConsecutiveWeeks(m, SundayService, AbsentStatus);
    var entry := EntryOf(m, k);
    next := st;
    if k >= 4 {
      next := st.(weeks4 := st.weeks4 + 1, list4 := st.list4 + [entry]);
    } else if k >= 3 {
      next := st.(weeks3 := st.weeks3 + 1, list3 := st.list3 + [entry]);
    } else if k >= 2 {
      next := st.(weeks2 := st.weeks2 + 1, list2 := st.list2 + [entry]);
    }
  }

  /** A target group keeps exactly its members, in order; without one everyone is kept. */
  lemma {:induction false} FilterGroupSpec(members: seq<Member>, target: Option<string>, m: Member)
    ensures target.None? ==> FilterGroup(members, target) == members
    ensures target.Some? && target.value != "" ==> (m in FilterGroup(members, target) <==> m in members && Get(m, "소속그룹") == target)
  {
  }
}
