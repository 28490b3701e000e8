/**
 * The year's worship attendance data (src/data/attendanceData2025.js):
 * the Sundays of January to August 2025 with their Wednesday and Friday,
 * the split of each drawn present count into present, late and absent,
 * the monthly sums and rates, and the average of the monthly rates.
 * The random draws are parameters; day numbers count from 1 January 2025.
 */
module AttendanceData2025 {
  import opened Common

  const SundayService := "주일청년예배"
  const WednesdayService := "수요제자기도회"
  const FridayService := "두란노사역자모임"
  const SpecialService := "대예배"

  // ---------------------------------------------------------------------
  // The calendar of 2025 (`getWeekDates`)
  // ---------------------------------------------------------------------

  /** The day number of the first of month `m` (0 = January); `MonthStart(8)` is 1 September. */
  function MonthStart(m: nat): nat
    requires m <= 8
  {
    [0, 31, 59, 90, 120, 151, 181, 212, 243][m]
  }

  /** 1 January 2025 was a Wednesday, so day 4 is the first Sunday. */
  predicate IsSunday(d: int)
  {
    (d + 3) % 7 == 0
  }

  /** The first Sunday on or after day `d`. */
  function FirstSundayFrom(d: int): int
  {
    d + (7 - (d + 3) % 7) % 7
  }

  lemma {:induction false} FirstSundayFromSpec(d: int)
    ensures IsSunday(FirstSundayFrom(d))
    ensures d <= FirstSundayFrom(d) < d + 7
    ensures forall e :: d <= e < FirstSundayFrom(d) ==> !IsSunday(e)
  {
    var r := (d + 3) % 7;
    forall e | d <= e < FirstSundayFrom(d)
      ensures !IsSunday(e)
    {
      var k := e - d;
      assert r + k < 7;
      assert e + 3 == (d + 3) + k;
    }
  }

  lemma {:induction false} SundayNextWeek(d: int)
    requires IsSunday(d)
    ensures IsSunday(d + 7)
  {
  }

  /** Two Sundays less than a week apart are the same day. */
  lemma {:induction false} SundaysApart(a: int, b: int)
    requires IsSunday(a) && IsSunday(b) && a <= b < a + 7
    ensures a == b
  {
  }

  /** One entry of `getWeekDates`: month (0-based), week number within the month and the three days. */
  datatype WeekDate = WeekDate(month: nat, week: nat, sunday: int, wednesday: int, friday: int)

  /** Each entry is a Sunday of its month, with the Wednesday four days and the Friday two days before. */
  predicate EntryValid(e: WeekDate)
  {
    e.month < 8 && MonthStart(e.month) <= e.sunday < MonthStart(e.month + 1) && IsSunday(e.sunday)
    && e.wednesday == e.sunday - 4 && e.friday == e.sunday - 2 && e.week >= 1
  }

  /** Consecutive entries are a week apart; the week number restarts at 1 in each new month. */
  predicate Consecutive(a: WeekDate, b: WeekDate)
  {
    b.sunday == a.sunday + 7
    && (if b.month == a.month then b.week == a.week + 1 else b.month == a.month + 1 && b.week == 1)
  }

  /** Valid entries, a week apart, starting with the first Sunday of January as week 1. */
  predicate Chain(dates: seq<WeekDate>)
  {
    (forall i :: 0 <= i < |dates| ==> EntryValid(dates[i]))
    && (forall i :: 0 <= i < |dates| - 1 ==> Consecutive(dates[i], dates[i + 1]))
    && (dates != [] ==> dates[0].sunday < 7 && dates[0].month == 0 && dates[0].week == 1)
  }

  lemma {:induction false} ChainSnoc(dates: seq<WeekDate>, e: WeekDate)
    requires Chain(dates) && EntryValid(e)
    requires dates == [] ==> e.sunday < 7 && e.month == 0 && e.week == 1
    requires dates != [] ==> Consecutive(dates[|dates| - 1], e)
    ensures Chain(dates + [e])
  {
    var d := dates + [e];
    forall i | 0 <= i < |d| - 1
      ensures Consecutive(d[i], d[i + 1])
    {
      if i < |dates| - 1 {
        assert d[i] == dates[i] && d[i + 1] == dates[i + 1];
      }
    }
  }

  /**
   * What `getWeekDates` returns: the Sundays from the first Sunday of
   * January up to the last Sunday of August, one entry each, in order.
   */
  predicate WeekDatesSpec(dates: seq<WeekDate>)
  {
    |dates| > 0 && Chain(dates) && dates[|dates| - 1].sunday + 7 >= MonthStart(8)
  }

  /** The nested loops of `getWeekDates`. */
  method GetWeekDates() returns (dates: seq<WeekDate>)
    ensures WeekDatesSpec(dates)
  {
    dates := [];
    var month := 0;
    while month < 8
      invariant 0 <= month <= 8
      invariant month == 0 <==> dates == []
      invariant Chain(dates)
      invariant dates != [] ==> dates[|dates| - 1].month == month - 1
      invariant dates != [] ==> dates[|dates| - 1].sunday + 7 >= MonthStart(month)
    {
      var day := SkipToSunday(MonthStart(month));
      FirstSundayFromSpec(MonthStart(month));
      if dates != [] {
        var last := dates[|dates| - 1];
        SundayNextWeek(last.sunday);
        SundaysApart(day, last.sunday + 7);
      }
      dates := AddMonthWeeks(dates, month, day);
      month := month + 1;
    }
  }

  /** The first inner loop: step day by day to the month's first Sunday. */
  method SkipToSunday(start: int) returns (day: int)
    ensures day == FirstSundayFrom(start)
  {
    FirstSundayFromSpec(start);
    day := start;
    while !IsSunday(day)
      invariant start <= day <= FirstSundayFrom(start)
      decreases FirstSundayFrom(start) - day
    {
      day := day + 1;
    }
  }

  /** The second inner loop: one entry per Sunday of the month, numbered from week 1. */
  method AddMonthWeeks(before: seq<WeekDate>, month: nat, first: int) returns (dates: seq<WeekDate>)
    requires month < 8 && Chain(before)
    requires IsSunday(first) && MonthStart(month) <= first < MonthStart(month) + 7
    requires before == [] ==> month == 0 && first < 7
    requires before != [] ==> before[|before| - 1].month + 1 == month && before[|before| - 1].sunday + 7 == first
    ensures Chain(dates) && dates != []
    ensures dates[|dates| - 1].month == month
    ensures dates[|dates| - 1].sunday + 7 >= MonthStart(month + 1)
  {
    dates := before;
    var day := first;
    var week := 1;
    while day < MonthStart(month + 1)
      invariant MonthStart(month) <= day && IsSunday(day)
      invariant Chain(dates) && dates != [] ==> dates[|dates| - 1].sunday + 7 == day
      invariant week == 1 ==> day == first && dates == before
      invariant week > 1 ==> dates != [] && dates[|dates| - 1].month == month && dates[|dates| - 1].week == week - 1
      invariant Chain(dates)
      decreases MonthStart(month + 1) - day
    {
      var e := WeekDate(month, week, day, day - 4, day - 2);
      ChainSnoc(dates, e);
      dates := dates + [e];
      SundayNextWeek(day);
      day := day + 7;
      week := week + 1;
    }
  }

  lemma {:induction false} ChainSundays(dates: seq<WeekDate>, i: nat)
    requires Chain(dates) && i < |dates|
    ensures dates[i].sunday == dates[0].sunday + 7 * i
  {
    if i > 0 {
      ChainSundays(dates, i - 1);
      assert Consecutive(dates[i - 1], dates[i]);
    }
  }

  /** The entries are exactly the Sundays of January to August: each such Sunday has one. */
  lemma {:induction false} WeekDatesComplete(dates: seq<WeekDate>, d: int)
    requires WeekDatesSpec(dates)
    requires IsSunday(d) && 0 <= d < MonthStart(8)
    ensures exists i :: 0 <= i < |dates| && dates[i].sunday == d
  {
    var s0 := dates[0].sunday;
    assert EntryValid(dates[0]);
    FirstSundayFromSpec(0);
    assert s0 == FirstSundayFrom(0);
    assert d >= s0;
    var i := (d - s0) / 7;
    assert d == s0 + 7 * i by {
      assert (d - s0) % 7 == 0;
    }
    ChainSundays(dates, |dates| - 1);
    assert i < |dates|;
    ChainSundays(dates, i);
  }

  // ---------------------------------------------------------------------
  // Weekly counts
  // ---------------------------------------------------------------------

  /** One service's figures for one organisation and week. */
  datatype Counts = Counts(total: int, present: int, absent: int, late: int)

  /** Service name to counts. */
  type ServiceCounts = map<string, Counts>

  /** Organisation name to its services. */
  type Attendance = map<string, ServiceCounts>

  datatype OrgLevel = Guk | Group | Sun

  /** One entry of `weeklyData`. */
  datatype WeekData = WeekData(month: nat, week: nat, sunday: int, guk: Attendance, group: Attendance, sun: Attendance)

  function AttendanceAt(w: WeekData, level: OrgLevel): Attendance
  {
    match level
    case Guk => w.guk
    case Group => w.group
    case Sun => w.sun
  }

  /** `Math.round(present * 0.1)` for a count, rounding halves up. */
  function Late(present: nat): nat
  {
    (present + 5) / 10
  }

  /**
   * The split of a service into present and absent: absent is the total less the drawn
   * present count, a tenth of the drawn count (rounded) becomes late,
   * and the late ones are taken out of present.
   */
  function SplitCounts(total: int, drawn: nat): Counts
  {
    var late := Late(drawn);
    Counts(total, drawn - late, total - drawn, late)
  }

  /** Present, late and absent make up the total; late is a tenth of the drawn count, rounded. */
  lemma {:induction false} SplitCountsSpec(total: int, drawn: nat)
    ensures SplitCounts(total, drawn).present + SplitCounts(total, drawn).late + SplitCounts(total, drawn).absent == total
    ensures SplitCounts(total, drawn).total == total
    ensures 10 * SplitCounts(total, drawn).late <= drawn + 5 < 10 * SplitCounts(total, drawn).late + 10
    ensures 0 <= SplitCounts(total, drawn).present <= drawn
    ensures drawn <= total ==> SplitCounts(total, drawn).absent >= 0
  {
  }

  // ---------------------------------------------------------------------
  // Monthly summaries
  // ---------------------------------------------------------------------

  function Zero(): Counts { Counts(0, 0, 0, 0) }

  function Add(a: Counts, b: Counts): Counts
  {
    Counts(a.total + b.total, a.present + b.present, a.absent + b.absent, a.late + b.late)
  }

  /** The counts of one organisation and service in a week (none when it is missing). */
  function CountsAt(w: WeekData, level: OrgLevel, org: string, service: string): Counts
  {
    var a := AttendanceAt(w, level);
    if org in a && service in a[org] then a[org][service] else Zero()
  }

  predicate HasCounts(w: WeekData, level: OrgLevel, org: string, service: string)
  {
    org in AttendanceAt(w, level) && service in AttendanceAt(w, level)[org]
  }

  /** The counts of the weeks whose `month` field is `month`, added up. */
  function MonthSum(weeks: seq<WeekData>, level: OrgLevel, org: string, service: string, month: int): Counts
  {
    if weeks == [] then Zero()
    else
      var rest := MonthSum(weeks[..|weeks| - 1], level, org, service, month);
      var w := weeks[|weeks| - 1];
      if w.month == month then Add(rest, CountsAt(w, level, org, service)) else rest
  }

  /** For one organisation and service: the accumulation over the month's weeks. */
  method MonthlyTotals(weeks: seq<WeekData>, level: OrgLevel, org: string, service: string, month: int) returns (c: Counts)
    requires forall i :: 0 <= i < |weeks| && weeks[i].month == month ==> HasCounts(weeks[i], level, org, service)
    ensures c == MonthSum(weeks, level, org, service, month)
  {
    c := Zero();
    var i := 0;
    while i < |weeks|
      invariant 0 <= i <= |weeks|
      invariant c == MonthSum(weeks[..i], level, org, service, month)
    {
      assert weeks[..i + 1][..i] == weeks[..i];
      if weeks[i].month == month {
        var w := AttendanceAt(weeks[i], level)[org][service];
        c := Counts(c.total + w.total, c.present + w.present, c.absent + w.absent, c.late + w.late);
      }
      i := i + 1;
    }
    assert weeks[..|weeks|] == weeks;
  }

  /** The summary as written: `monthlySummary[m]` for m = 1..8 sums the weeks whose `month` is m. */
  function SummaryAsWritten(weeks: seq<WeekData>, level: OrgLevel, org: string, service: string, m: int): Counts
  {
    MonthSum(weeks, level, org, service, m)
  }

  /** The summary as intended: `monthlySummary[m]` sums the weeks of month m, whose 0-based `month` is m - 1. */
  function Summary(weeks: seq<WeekData>, level: OrgLevel, org: string, service: string, m: int): Counts
  {
    MonthSum(weeks, level, org, service, m - 1)
  }

  /** The counts of every week, added up. */
  function AllSum(weeks: seq<WeekData>, level: OrgLevel, org: string, service: string): Counts
  {
    if weeks == [] then Zero()
    else Add(AllSum(weeks[..|weeks| - 1], level, org, service), CountsAt(weeks[|weeks| - 1], level, org, service))
  }

  /** The intended summaries of months 1..n, added up. */
  function Summaries(weeks: seq<WeekData>, level: OrgLevel, org: string, service: string, n: nat): Counts
  {
    if n == 0 then Zero() else Add(Summaries(weeks, level, org, service, n - 1), Summary(weeks, level, org, service, n))
  }

  lemma {:induction false} MonthSumOutside(weeks: seq<WeekData>, level: OrgLevel, org: string, service: string, month: int)
    requires forall i :: 0 <= i < |weeks| ==> weeks[i].month != month
    ensures MonthSum(weeks, level, org, service, month) == Zero()
  {
    if weeks != [] {
      MonthSumOutside(weeks[..|weeks| - 1], level, org, service, month);
    }
  }

  /** Adding one week to the data adds its counts to the summary of its own month only. */
  lemma {:induction false} SummariesSnoc(weeks: seq<WeekData>, w: WeekData, level: OrgLevel, org: string, service: string, n: nat)
    ensures Summaries(weeks + [w], level, org, service, n)
         == (if w.month < n
             then Add(Summaries(weeks, level, org, service, n), CountsAt(w, level, org, service))
             else Summaries(weeks, level, org, service, n))
  {
    assert (weeks + [w])[..|weeks + [w]| - 1] == weeks;
    if n > 0 {
      SummariesSnoc(weeks, w, level, org, service, n - 1);
    }
  }

  lemma {:induction false} ZeroSummaries(level: OrgLevel, org: string, service: string, n: nat)
    ensures Summaries([], level, org, service, n) == Zero()
  {
    if n > 0 {
      ZeroSummaries(level, org, service, n - 1);
    }
  }

  /**
   * With the intended summaries, every week of January to August is
   * counted exactly once: the eight summaries add up to the whole data.
   */
  lemma {:induction false} SummariesCoverAllWeeks(weeks: seq<WeekData>, level: OrgLevel, org: string, service: string)
    requires forall i :: 0 <= i < |weeks| ==> weeks[i].month < 8
    ensures Summaries(weeks, level, org, service, 8) == AllSum(weeks, level, org, service)
  {
    if weeks == [] {
      ZeroSummaries(level, org, service, 8);
    } else {
      var init := weeks[..|weeks| - 1];
      var w := weeks[|weeks| - 1];
      SummariesCoverAllWeeks(init, level, org, service);
      assert weeks == init + [w];
      SummariesSnoc(init, w, level, org, service, 8);
    }
  }

  /**
   * As written, the summaries look for `month` values 1..8 while the weeks
   * carry 0..7: the August summary is always empty and January's weeks are
   * left out of every summary.
   */
  lemma {:induction false} SummaryAsWrittenMissesJanuary(w: WeekData, level: OrgLevel, org: string, service: string, m: int)
    requires w.month == 0 && 1 <= m <= 8
    ensures SummaryAsWritten([w], level, org, service, m) == Zero()
    ensures Summary([w], level, org, service, 1) == CountsAt(w, level, org, service)
  {
    assert [w][..0] == [];
    assert MonthSum([], level, org, service, m) == Zero();
    assert MonthSum([], level, org, service, 0) == Zero();
  }

  lemma {:induction false} SummaryAsWrittenAugustEmpty(weeks: seq<WeekData>, level: OrgLevel, org: string, service: string)
    requires forall i :: 0 <= i < |weeks| ==> weeks[i].month < 8
    ensures SummaryAsWritten(weeks, level, org, service, 8) == Zero()
  {
    MonthSumOutside(weeks, level, org, service, 8);
  }

  /** A monthly rate: present over total as a percentage, or 0 for an empty month. */
  function Rate(c: Counts): real
  {
    if c.total > 0 then (c.present as real / c.total as real) * 100.0 else 0.0
  }

  lemma {:induction false} RateBounds(c: Counts)
    requires 0 <= c.present <= c.total
    ensures 0.0 <= Rate(c) <= 100.0
    ensures Rate(c) == 0.0 <==> c.present == 0
  {
    if c.total > 0 {
      var p := c.present as real;
      var t := c.total as real;
      assert p / t <= 1.0 by {
        assert p <= t;
      }
    }
  }

  // ---------------------------------------------------------------------
  // Average of the monthly rates
  // ---------------------------------------------------------------------

  /** The sum and the number of the non-zero rates. */
  function NonZeroSum(rates: seq<real>): real
  {
    if rates == [] then 0.0
    else NonZeroSum(rates[..|rates| - 1]) + (if rates[|rates| - 1] != 0.0 then rates[|rates| - 1] else 0.0)
  }

  function NonZeroCount(rates: seq<real>): nat
  {
    if rates == [] then 0
    else NonZeroCount(rates[..|rates| - 1]) + (if rates[|rates| - 1] != 0.0 then 1 else 0)
  }

  /** The mean of the non-zero rates, or 0 when there is none. */
  function AverageOf(rates: seq<real>): real
  {
    if NonZeroCount(rates) > 0 then NonZeroSum(rates) / NonZeroCount(rates) as real else 0.0
  }

  /** The loop over months 1..8 that skips empty rates. */
  method AverageAttendance(rates: seq<real>) returns (average: real)
    ensures average == AverageOf(rates)
  {
    var totalRate := 0.0;
    var count := 0;
    var i := 0;
    while i < |rates|
      invariant 0 <= i <= |rates|
      invariant totalRate == NonZeroSum(rates[..i]) && count == NonZeroCount(rates[..i])
    {
      assert rates[..i + 1][..i] == rates[..i];
      if rates[i] != 0.0 {
        totalRate := totalRate + rates[i];
        count := count + 1;
      }
      i := i + 1;
    }
    assert rates[..|rates|] == rates;
    average := if count > 0 then totalRate / count as real else 0.0;
  }

  lemma {:induction false} NonZeroSumBounds(rates: seq<real>)
    requires forall i :: 0 <= i < |rates| ==> 0.0 <= rates[i] <= 100.0
    ensures 0.0 <= NonZeroSum(rates) <= 100.0 * NonZeroCount(rates) as real
    ensures NonZeroCount(rates) == 0 ==> NonZeroSum(rates) == 0.0
    ensures NonZeroCount(rates) > 0 ==> NonZeroSum(rates) > 0.0
  {
    if rates != [] {
      NonZeroSumBounds(rates[..|rates| - 1]);
    }
  }

  /** With rates between 0 and 100 the average is too, and it is 0 only when every rate is. */
  lemma {:induction false} AverageBounds(rates: seq<real>)
    requires forall i :: 0 <= i < |rates| ==> 0.0 <= rates[i] <= 100.0
    ensures 0.0 <= AverageOf(rates) <= 100.0
    ensures AverageOf(rates) == 0.0 <==> NonZeroCount(rates) == 0
  {
    NonZeroSumBounds(rates);
    if NonZeroCount(rates) > 0 {
      var n := NonZeroCount(rates) as real;
      var s := NonZeroSum(rates);
      assert s / n <= 100.0 by {
        assert s <= 100.0 * n;
      }
      assert s / n > 0.0;
    }
  }

  /** The rates `averageAttendance` reads: the eight summaries as written, for months 1..8. */
  function MonthlyRates(weeks: seq<WeekData>, level: OrgLevel, org: string, service: string): (rates: seq<real>)
    ensures |rates| == 8
  {
    seq(8, k requires 0 <= k < 8 => Rate(SummaryAsWritten(weeks, level, org, service, k + 1)))
  }
}
