/**
 * The attendance bar chart of the dashboard
 * (src/components/main/AttendanceChart.tsx): which x-axis entries are
 * shown for each chart type, the four data series, the fallbacks for a
 * missing response and the title.  Drawing with the chart library is not
 * modelled.
 */
module AttendanceChart {
  import opened Common

  datatype ChartType = Gook | Group | Sun | Other(name: string)

  /** Attendance for one x-axis entry, per service. */
  datatype Counts = Counts(sunday: int, sundayYoungAdult: int, wednesdayYoungAdult: int, fridayYoungAdult: int)

  const ZeroCounts := Counts(0, 0, 0, 0)

  /** The chart part of the API response; `None` fields were absent or null. */
  datatype Response = Response(
    attendanceXAxis: seq<string>,
    attendanceYAxisMax: Option<int>,
    attendanceCounts: seq<Counts>,
    attendanceAggregationSum: Option<Counts>,
    attendanceAggregationAverage: Option<Counts>)

  /** What the chart is drawn from. */
  datatype ChartData = ChartData(
    labels: seq<string>,
    sundayData: seq<int>,
    sundayYoungAdultData: seq<int>,
    wednesdayYoungAdultData: seq<int>,
    fridayYoungAdultData: seq<int>,
    summary: Counts,
    averages: Counts,
    maxValue: int)

  /** The entry test of each chart type. */
  predicate Keeps(kind: ChartType, entry: string)
  {
    match kind
    case Gook => EndsWith(entry, "국")
    case Group => Contains(entry, "그룹") && !Contains(entry, "순")
    case Sun => EndsWith(entry, "순")
    case Other(_) => false
  }

  /** The positions of the labels that pass the test, in ascending order. */
  function Positions(labels: seq<string>, kind: ChartType): seq<nat>
  {
    if labels == [] then []
    else
      var n := |labels| - 1;
      Positions(labels[..n], kind) + (if Keeps(kind, labels[n]) then [n] else [])
  }

  lemma {:induction false} PositionsSnoc(labels: seq<string>, x: string, kind: ChartType)
    ensures Positions(labels + [x], kind) == Positions(labels, kind) + (if Keeps(kind, x) then [|labels|] else [])
  {
    assert (labels + [x])[..|labels|] == labels;
  }

  /**
   * The positions are exactly the indices of the passing labels, each once
   * and in increasing order.
   */
  lemma {:induction false} PositionsSpec(labels: seq<string>, kind: ChartType)
    ensures forall k :: 0 <= k < |Positions(labels, kind)| ==>
      Positions(labels, kind)[k] < |labels| && Keeps(kind, labels[Positions(labels, kind)[k]])
    ensures forall i :: 0 <= i < |labels| && Keeps(kind, labels[i]) ==> i in Positions(labels, kind)
    ensures forall a, b :: 0 <= a < b < |Positions(labels, kind)| ==> Positions(labels, kind)[a] < Positions(labels, kind)[b]
  {
    if labels != [] {
      var n := |labels| - 1;
      var s := labels[..n];
      PositionsSpec(s, kind);
      assert labels == s + [labels[n]];
      PositionsSnoc(s, labels[n], kind);
      forall i | 0 <= i < |labels| && Keeps(kind, labels[i])
        ensures i in Positions(labels, kind)
      {
        if i < n {
          assert s[i] == labels[i];
        }
      }
    }
  }

  /** The `forEach` that pushes the index of every passing entry. */
  method MatchingIndices(labels: seq<string>, kind: ChartType) returns (indices: seq<nat>)
    ensures indices == Positions(labels, kind)
  {
    indices := [];
    var i := 0;
    while i < |labels|
      invariant 0 <= i <= |labels|
      invariant indices == Positions(labels[..i], kind)
    {
      assert labels[..i + 1] == labels[..i] + [labels[i]];
      PositionsSnoc(labels[..i], labels[i], kind);
      if Keeps(kind, labels[i]) {
        indices := indices + [i];
      }
      i := i + 1;
    }
    assert labels[..i] == labels;
  }

  /** `indices.map(i => s[i])` */
  function Pick<T>(s: seq<T>, indices: seq<nat>): (r: seq<T>)
    requires forall k :: 0 <= k < |indices| ==> indices[k] < |s|
    ensures |r| == |indices|
  {
    seq(|indices|, k requires 0 <= k < |indices| => s[indices[k]])
  }

  /** `chartData` for the response and chart type. */
  function ChartDataOf(data: Option<Response>, kind: ChartType): ChartData
    requires data.Some? ==> |data.value.attendanceXAxis| <= |data.value.attendanceCounts|
  {
    if data.None? then ChartData([], [], [], [], [], ZeroCounts, ZeroCounts, 10)
    else
      var r := data.value;
      var p := Positions(r.attendanceXAxis, kind);
      PositionsSpec(r.attendanceXAxis, kind);
      assert |r.attendanceXAxis| <= |r.attendanceCounts|;
      var counts := Pick(r.attendanceCounts, p);
      ChartData(
        Pick(r.attendanceXAxis, p),
        seq(|counts|, k requires 0 <= k < |counts| => counts[k].sunday),
        seq(|counts|, k requires 0 <= k < |counts| => counts[k].sundayYoungAdult),
        seq(|counts|, k requires 0 <= k < |counts| => counts[k].wednesdayYoungAdult),
        seq(|counts|, k requires 0 <= k < |counts| => counts[k].fridayYoungAdult),
        if r.attendanceAggregationSum.Some? then r.attendanceAggregationSum.value else ZeroCounts,
        if r.attendanceAggregationAverage.Some? then r.attendanceAggregationAverage.value else ZeroCounts,
        if r.attendanceYAxisMax.None? || r.attendanceYAxisMax.value == 0 then 10 else r.attendanceYAxisMax.value)
  }

  /** `Keeps(kind, ·)` as a function value for `Filter`. */
  function KeepsFn(kind: ChartType): string -> bool
  {
    l => Keeps(kind, l)
  }

  /** Positions inside a prefix pick the same elements after the sequence grows. */
  lemma {:induction false} PickExtend<T>(s: seq<T>, x: T, indices: seq<nat>)
    requires forall k :: 0 <= k < |indices| ==> indices[k] < |s|
    ensures Pick(s + [x], indices) == Pick(s, indices)
  {
  }

  lemma {:induction false} PickSnoc<T>(s: seq<T>, indices: seq<nat>, i: nat)
    requires i < |s| && forall k :: 0 <= k < |indices| ==> indices[k] < |s|
    ensures Pick(s, indices + [i]) == Pick(s, indices) + [s[i]]
  {
  }

  /** Picking the passing positions is filtering the labels: order is kept, nothing else enters. */
  lemma {:induction false} PickPositionsIsFilter(labels: seq<string>, kind: ChartType)
    ensures forall k :: 0 <= k < |Positions(labels, kind)| ==> Positions(labels, kind)[k] < |labels|
    ensures Pick(labels, Positions(labels, kind)) == Filter(labels, KeepsFn(kind))
  {
    PositionsSpec(labels, kind);
    if labels != [] {
      var n := |labels| - 1;
      var s := labels[..n];
      var x := labels[n];
      assert labels == s + [x];
      PickPositionsIsFilter(s, kind);
      PositionsSnoc(s, x, kind);
      FilterAppend(s, [x], KeepsFn(kind));
      PickExtend(s, x, Positions(s, kind));
      if Keeps(kind, x) {
        PickSnoc(labels, Positions(s, kind), n);
      }
    }
  }

  /** A missing response draws nothing, with zero figures and the default scale. */
  lemma {:induction false} NoResponse(kind: ChartType)
    ensures var c := ChartDataOf(None, kind);
      c.labels == [] && c.sundayData == [] && c.summary == ZeroCounts && c.averages == ZeroCounts && c.maxValue == 10
  {
  }

  /**
   * The shown labels are the x-axis entries that pass the chart type's
   * test, in their original order, and every series has one value per entry.
   */
  lemma {:induction false} ChartDataFiltered(r: Response, kind: ChartType)
    requires |r.attendanceXAxis| <= |r.attendanceCounts|
    ensures var c := ChartDataOf(Some(r), kind);
      && c.labels == Filter(r.attendanceXAxis, KeepsFn(kind))
      && |c.sundayData| == |c.labels| && |c.sundayYoungAdultData| == |c.labels|
      && |c.wednesdayYoungAdultData| == |c.labels| && |c.fridayYoungAdultData| == |c.labels|
  {
    PickPositionsIsFilter(r.attendanceXAxis, kind);
  }

  /** Each entry is drawn with the counts recorded at its own x-axis position. */
  lemma {:induction false} ChartDataAligned(r: Response, kind: ChartType, k: nat)
    requires |r.attendanceXAxis| <= |r.attendanceCounts|
    requires k < |ChartDataOf(Some(r), kind).labels|
    ensures var c := ChartDataOf(Some(r), kind);
      exists i :: 0 <= i < |r.attendanceXAxis| && c.labels[k] == r.attendanceXAxis[i]
        && c.sundayData[k] == r.attendanceCounts[i].sunday
        && c.sundayYoungAdultData[k] == r.attendanceCounts[i].sundayYoungAdult
        && c.wednesdayYoungAdultData[k] == r.attendanceCounts[i].wednesdayYoungAdult
        && c.fridayYoungAdultData[k] == r.attendanceCounts[i].fridayYoungAdult
  {
    var p := Positions(r.attendanceXAxis, kind);
    PositionsSpec(r.attendanceXAxis, kind);
    var c := ChartDataOf(Some(r), kind);
    assert c.labels == Pick(r.attendanceXAxis, p);
    var i := p[k];
    assert c.labels[k] == r.attendanceXAxis[i];
    assert c.sundayData[k] == Pick(r.attendanceCounts, p)[k].sunday == r.attendanceCounts[i].sunday;
    assert c.sundayYoungAdultData[k] == r.attendanceCounts[i].sundayYoungAdult;
    assert c.wednesdayYoungAdultData[k] == r.attendanceCounts[i].wednesdayYoungAdult;
    assert c.fridayYoungAdultData[k] == r.attendanceCounts[i].fridayYoungAdult;
  }

  /** The scale is the response's maximum, or 10 when that is missing or 0. */
  lemma {:induction false} MaxValueDefault(r: Response, kind: ChartType)
    requires |r.attendanceXAxis| <= |r.attendanceCounts|
    ensures ChartDataOf(Some(r), kind).maxValue != 0
    ensures r.attendanceYAxisMax.Some? && r.attendanceYAxisMax.value != 0
      ==> ChartDataOf(Some(r), kind).maxValue == r.attendanceYAxisMax.value
  {
  }

  /** The chart type's labels for the other kinds never overlap with the group chart. */
  lemma {:induction false} GroupAndSunDisjoint(entry: string)
    ensures !(Keeps(Group, entry) && Keeps(Sun, entry))
  {
    if EndsWith(entry, "순") {
      ContainsAt(entry, "순", |entry| - 1);
    }
  }

  /** `getChartTitle` */
  function ChartTitle(kind: ChartType): (title: string)
    ensures kind.Other? ==> title == "출석 수 현황"
    ensures kind.Gook? ==> title == "국별 출석 수 현황"
    ensures kind.Group? ==> title == "그룹별 출석 수 현황"
    ensures kind.Sun? ==> title == "순별 출석 수 현황"
  {
    match kind
    case Gook => "국별 출석 수 현황"
    case Group => "그룹별 출석 수 현황"
    case Sun => "순별 출석 수 현황"
    case Other(_) => "출석 수 현황"
  }
}
