/**
 * The week-over-week cards of the dashboard (src/components/main/QuickStats.tsx).
 * Counts are whole numbers; the attendance rate is taken as a whole
 * number of percent.
 */
module QuickStats {
  import opened Common

  /** One week's figures; `None` is a field the response left out. */
  datatype Figures = Figures(
    allMemberCount: Option<int>,
    weeklyAttendanceMemberCount: Option<int>,
    weeklyNewMemberCount: Option<int>,
    attendanceRate: Option<int>)

  /** The four cards, in display order. */
  datatype Card = Members | Attendance | NewFamily | Rate

  function FieldOf(f: Figures, card: Card): Option<int>
  {
    match card
    case Members => f.allMemberCount
    case Attendance => f.weeklyAttendanceMemberCount
    case NewFamily => f.weeklyNewMemberCount
    case Rate => f.attendanceRate
  }

  datatype StatsData = StatsData(current: Figures, lastWeek: Option<Figures>)

  /** The change shown under a card: its size and whether it is an increase. */
  datatype Growth = Growth(value: nat, isPositive: bool)

  /** `calculateGrowth`: no comparison without a non-zero previous figure. */
  function CalculateGrowth(current: int, lastWeek: Option<int>): Growth
  {
    if lastWeek.None? || lastWeek.value == 0 then Growth(0, true)
    else
      var diff := current - lastWeek.value;
      Growth(if diff >= 0 then diff else -diff, diff >= 0)
  }

  /**
   * Without a non-zero previous figure the card shows no change; otherwise
   * the shown size and direction give back the exact difference.
   */
  lemma {:induction false} GrowthReconstructs(current: int, lastWeek: Option<int>)
    ensures lastWeek.None? || lastWeek.value == 0 ==> CalculateGrowth(current, lastWeek) == Growth(0, true)
    ensures lastWeek.Some? && lastWeek.value != 0 ==>
      var g := CalculateGrowth(current, lastWeek);
      && current - lastWeek.value == (if g.isPositive then g.value as int else -(g.value as int))
      && (g.isPositive <==> current >= lastWeek.value)
  {
  }

  /** A non-zero change is never reported as an increase of the wrong sign. */
  lemma {:induction false} GrowthZeroOnlyWhenEqual(current: int, last: int)
    requires last != 0
    ensures CalculateGrowth(current, Some(last)).value == 0 <==> current == last
  {
  }

  /** `x || 0` on a possibly missing number. */
  function OrZero(x: Option<int>): int
  {
    if x.Some? then x.value else 0
  }

  /** The previous week's figure, when the response has one. */
  function LastOf(stats: Option<StatsData>, card: Card): Option<int>
  {
    if stats.Some? && stats.value.lastWeek.Some? then FieldOf(stats.value.lastWeek.value, card) else None
  }

  /** The current figure, missing ones counted as 0. */
  function CurrentOf(stats: Option<StatsData>, card: Card): int
  {
    if stats.Some? then OrZero(FieldOf(stats.value.current, card)) else 0
  }

  /** One card's change. */
  function GrowthOf(stats: Option<StatsData>, card: Card): Growth
  {
    CalculateGrowth(CurrentOf(stats, card), LastOf(stats, card))
  }

  /** The four cards' changes: members, attendance, new family, attendance rate. */
  function Growths(stats: Option<StatsData>): (gs: seq<Growth>)
  {
    [GrowthOf(stats, Members), GrowthOf(stats, Attendance), GrowthOf(stats, NewFamily), GrowthOf(stats, Rate)]
  }

  /** Without a previous week every card shows no change. */
  lemma {:induction false} GrowthsWithoutLastWeek(stats: Option<StatsData>)
    requires stats.None? || stats.value.lastWeek.None?
    ensures Growths(stats) == [Growth(0, true), Growth(0, true), Growth(0, true), Growth(0, true)]
  {
  }

  /** A missing current figure is compared as 0: falling from last week's n shows a drop of n. */
  lemma {:induction false} MissingCurrentIsZero(stats: StatsData, last: int)
    requires stats.current.allMemberCount.None? && last > 0
    requires stats.lastWeek.Some? && stats.lastWeek.value.allMemberCount == Some(last)
    ensures Growths(Some(stats))[0] == Growth(last, false)
  {
  }
}
