/**
 * The attendance CSV exports (src/data/exportAttendanceData.js): the two
 * generic helpers that turn objects into a header line and a row, and the
 * four exports that build their text by appending to a string inside
 * loops. The sample data they read (members, statistics, activities and
 * monthly trends) are parameters here; the browser download and the
 * console sample at the end of the file are not modelled.
 */
module ExportAttendanceData {
  import opened Common

  // ---------------------------------------------------------------------
  // Generic header and row (createCSVHeader, createCSVRow)
  // ---------------------------------------------------------------------

  /** A value held by an exported object: text or a number. */
  datatype Value = Text(s: string) | Number(n: int)

  /** An object as its ordered entries (`Object.keys` / `Object.values` order). */
  type Object = seq<(string, Value)>

  function Keys(o: Object): (ks: seq<string>)
    ensures |ks| == |o|
    ensures forall i :: 0 <= i < |o| ==> ks[i] == o[i].0
  {
    seq(|o|, i requires 0 <= i < |o| => o[i].0)
  }

  /** `createCSVHeader`: nothing for no data, else the first object's keys and a line break. */
  function CsvHeader(data: seq<Object>): string
  {
    if |data| == 0 then "" else Join(Keys(data[0]), ",") + "\n"
  }

  /** A cell: text holding a comma is wrapped in double quotes, nothing is escaped. */
  function Cell(v: Value): string
  {
    match v
    case Text(s) => if ',' in s then "\"" + s + "\"" else s
    case Number(n) => IntToString(n)
  }

  /** What a reader should get back for a value. */
  function Shown(v: Value): string
  {
    match v
    case Text(s) => s
    case Number(n) => IntToString(n)
  }

  function Cells(o: Object): (cs: seq<string>)
    ensures |cs| == |o|
    ensures forall i :: 0 <= i < |o| ==> cs[i] == Cell(o[i].1)
  {
    seq(|o|, i requires 0 <= i < |o| => Cell(o[i].1))
  }

  function ShownValues(o: Object): (vs: seq<string>)
    ensures |vs| == |o|
    ensures forall i :: 0 <= i < |o| ==> vs[i] == Shown(o[i].1)
  {
    seq(|o|, i requires 0 <= i < |o| => Shown(o[i].1))
  }

  /** `createCSVRow` */
  function CsvRow(o: Object): string
  {
    Join(Cells(o), ",")
  }

  /**
   * A CSV reader for one line: commas outside double quotes separate
   * fields and the quotes themselves are dropped.
   */
  function Scan(s: string, quoted: bool, cur: string): (fields: seq<string>)
    ensures |fields| >= 1
    decreases |s|
  {
    if s == [] then [cur]
    else if s[0] == '"' then Scan(s[1..], !quoted, cur)
    else if s[0] == ',' && !quoted then [cur] + Scan(s[1..], false, "")
    else Scan(s[1..], quoted, cur + [s[0]])
  }

  function ReadRow(line: string): seq<string>
  {
    Scan(line, false, "")
  }

  /** Text without quotes (and, outside quotes, without commas) is read as it stands. */
  lemma {:induction false} ScanPlain(t: string, rest: string, quoted: bool, cur: string)
    requires '"' !in t
    requires !quoted ==> ',' !in t
    ensures Scan(t + rest, quoted, cur) == Scan(rest, quoted, cur + t)
    decreases |t|
  {
    if t != [] {
      assert t[0] in t;
      assert (t + rest)[0] == t[0];
      assert (t + rest)[1..] == t[1..] + rest;
      ScanPlain(t[1..], rest, quoted, cur + [t[0]]);
      assert cur + [t[0]] + t[1..] == cur + t;
    } else {
      assert t + rest == rest && cur + t == cur;
    }
  }

  lemma {:induction false} NumberTextPlain(n: int)
    ensures ',' !in IntToString(n) && '"' !in IntToString(n) && '\n' !in IntToString(n)
  {
    var d := NatToString(if n < 0 then -n else n);
    var t := IntToString(n);
    var off := if n < 0 then 1 else 0;
    assert t == (if n < 0 then "-" else "") + d;
    forall i | 0 <= i < |t|
      ensures t[i] != ',' && t[i] != '"' && t[i] != '\n'
    {
      if i >= off {
        assert t[i] == d[i - off];
        assert IsDigit(d[i - off]);
      }
    }
  }

  /** A cell followed by more text is read as its value, and reading goes on after it. */
  lemma {:induction false} CellScan(v: Value, rest: string)
    requires v.Text? ==> '"' !in v.s
    ensures Scan(Cell(v) + rest, false, "") == Scan(rest, false, Shown(v))
  {
    match v
    case Number(n) =>
      NumberTextPlain(n);
      ScanPlain(IntToString(n), rest, false, "");
      assert "" + IntToString(n) == IntToString(n);
    case Text(s) =>
      if ',' in s {
        var q := "\"" + rest;
        assert Cell(v) + rest == "\"" + (s + q);
        assert (Cell(v) + rest)[1..] == s + q;
        ScanPlain(s, q, true, "");
        assert "" + s == s;
        assert q[0] == '"' && q[1..] == rest;
        assert Scan(q, true, s) == Scan(rest, false, s);
      } else {
        ScanPlain(s, rest, false, "");
      }
  }

  predicate NoQuotes(o: Object)
  {
    forall i :: 0 <= i < |o| ==> (o[i].1.Text? ==> '"' !in o[i].1.s)
  }

  /**
   * A row reads back as the object's values, commas inside text included,
   * as long as no text holds a double quote (the helper does not escape them).
   */
  lemma {:induction false} CsvRowReadsBack(o: Object)
    requires |o| >= 1
    requires NoQuotes(o)
    ensures ReadRow(CsvRow(o)) == ShownValues(o)
  {
    if |o| == 1 {
      CellScan(o[0].1, "");
      assert Cell(o[0].1) + "" == Cell(o[0].1);
      assert ShownValues(o) == [Shown(o[0].1)];
    } else {
      assert NoQuotes(o[1..]) by {
        forall i | 0 <= i < |o[1..]| ensures o[1..][i] == o[i + 1] {}
      }
      CsvRowReadsBack(o[1..]);
      CsvRowStep(o);
    }
  }

  /** The first cell read off, the rest of the row reads as before. */
  lemma {:induction false} CsvRowStep(o: Object)
    requires |o| >= 2 && NoQuotes(o)
    requires ReadRow(CsvRow(o[1..])) == ShownValues(o[1..])
    ensures ReadRow(CsvRow(o)) == ShownValues(o)
  {
    var first, tail := o[0].1, CsvRow(o[1..]);
    CsvRowCons(o);
    assert o[0].1.Text? ==> '"' !in o[0].1.s;
    ScanAfterCell(first, tail);
    ShownValuesCons(o);
  }

  lemma {:induction false} ShownValuesCons(o: Object)
    requires |o| >= 1
    ensures ShownValues(o) == [Shown(o[0].1)] + ShownValues(o[1..])
  {
    forall i | 0 <= i < |o[1..]| ensures o[1..][i] == o[i + 1] {}
  }

  lemma {:induction false} CsvRowCons(o: Object)
    requires |o| >= 2
    ensures CsvRow(o) == Cell(o[0].1) + "," + CsvRow(o[1..])
  {
    var cs := Cells(o[1..]);
    assert Cells(o) == [Cell(o[0].1)] + cs by {
      forall i | 0 <= i < |o[1..]| ensures o[1..][i] == o[i + 1] {}
    }
    assert ([Cell(o[0].1)] + cs)[1..] == cs;
  }

  lemma {:induction false} ScanAfterCell(v: Value, tail: string)
    requires v.Text? ==> '"' !in v.s
    ensures Scan(Cell(v) + "," + tail, false, "") == [Shown(v)] + Scan(tail, false, "")
  {
    var more := "," + tail;
    assert Cell(v) + "," + tail == Cell(v) + more;
    CellScan(v, more);
    assert more[0] == ',' && more[1..] == tail;
  }

  /** A cell is quoted exactly when its text holds a comma, and the quotes enclose the text unchanged. */
  lemma {:induction false} CellQuoting(v: Value)
    ensures var c := Cell(v);
      (|c| >= 2 && c[0] == '"' && c[|c| - 1] == '"' && c[1..|c| - 1] == Shown(v)) <==> (v.Text? && ',' in v.s)
  {
    if v.Number? {
      NumberTextPlain(v.n);
      var c := Cell(v);
      if |c| >= 2 {
        assert c[0] in c;
      }
    }
  }

  /** The header line reads back as the first object's keys, whatever the other objects hold. */
  lemma {:induction false} CsvHeaderReadsBack(data: seq<Object>)
    requires |data| >= 1 && |data[0]| >= 1
    requires forall i :: 0 <= i < |data[0]| ==> Plain(data[0][i].0)
    ensures CsvHeader(data) == Join(Keys(data[0]), ",") + "\n"
    ensures Split(CsvHeader(data), '\n') == [Join(Keys(data[0]), ","), ""]
    ensures Split(Join(Keys(data[0]), ","), ',') == Keys(data[0])
  {
    var ks := Keys(data[0]);
    JoinedPlain(ks);
    SplitCons(Join(ks, ","), "", '\n');
    assert Join(ks, ",") + "\n" == Join(ks, ",") + ['\n'] + "";
  }

  /** `createCSVHeader([])` is empty. */
  lemma {:induction false} CsvHeaderEmpty()
    ensures CsvHeader([]) == ""
  {
  }

  lemma {:induction false} JoinNoChar(parts: seq<string>, sep: string, c: char)
    requires c !in sep
    requires forall i :: 0 <= i < |parts| ==> c !in parts[i]
    ensures c !in Join(parts, sep)
  {
    if |parts| >= 2 {
      JoinNoChar(parts[1..], sep, c);
    }
  }

  /** Text that is one cell of one line: no comma and no line break. */
  predicate Plain(s: string)
  {
    ',' !in s && '\n' !in s
  }

  predicate AllPlain(parts: seq<string>)
  {
    forall i :: 0 <= i < |parts| ==> Plain(parts[i])
  }

  /** A comma-joined line of plain cells holds no line break and splits back into its cells. */
  lemma {:induction false} JoinedPlain(parts: seq<string>)
    requires |parts| >= 1 && AllPlain(parts)
    ensures Split(Join(parts, ","), ',') == parts
    ensures '\n' !in Join(parts, ",")
  {
    SplitJoined(parts, ',');
    JoinNoChar(parts, ",", '\n');
  }

  lemma {:induction false} AllPlainAppend(a: seq<string>, b: seq<string>)
    requires AllPlain(a) && AllPlain(b)
    ensures AllPlain(a + b)
  {
    forall i | 0 <= i < |a + b|
      ensures Plain((a + b)[i])
    {
      if i >= |a| {
        assert (a + b)[i] == b[i - |a|];
      }
    }
  }
  // ---------------------------------------------------------------------
  // Lines of text
  // ---------------------------------------------------------------------

  /** Each line followed by a line break, the shape every export has. */
  function Lines(ls: seq<string>): string
  {
    if ls == [] then "" else Lines(ls[..|ls| - 1]) + ls[|ls| - 1] + "\n"
  }

  lemma {:induction false} LinesJoin(ls: seq<string>)
    ensures Lines(ls) == Join(ls + [""], "\n")
  {
    if ls != [] {
      var init := ls[..|ls| - 1];
      LinesJoin(init);
      assert ls == init + [ls[|ls| - 1]];
      if init == [] {
        assert ls + [""] == [ls[0], ""];
      } else {
        JoinAppend(init, [ls[|ls| - 1], ""], "\n");
        JoinAppend(init, [""], "\n");
        assert ls + [""] == init + [ls[|ls| - 1], ""];
      }
    }
  }

  lemma {:induction false} LinesOne(l: string)
    ensures Lines([l]) == l + "\n"
  {
    assert [l][..0] == [];
  }

  lemma {:induction false} LinesPush(head: seq<string>, body: seq<string>, l: string)
    ensures Lines(head + (body + [l])) == Lines(head + body) + l + "\n"
  {
    assert head + (body + [l]) == (head + body) + [l];
    assert ((head + body) + [l])[..|head + body|] == head + body;
  }

  /** Text made of line-break-free lines splits back into those lines and an empty tail. */
  lemma {:induction false} LinesSplit(ls: seq<string>)
    requires forall i :: 0 <= i < |ls| ==> '\n' !in ls[i]
    ensures Split(Lines(ls), '\n') == ls + [""]
  {
    LinesJoin(ls);
    SplitJoined(ls + [""], '\n');
  }

  /** Heading lines followed by body lines, none holding a line break, read back as written. */
  lemma {:induction false} HeadedLinesSplit(head: seq<string>, body: seq<string>)
    requires forall i :: 0 <= i < |head| ==> '\n' !in head[i]
    requires forall i :: 0 <= i < |body| ==> '\n' !in body[i]
    ensures Split(Lines(head + body), '\n') == head + body + [""]
  {
    var ls := head + body;
    forall i | 0 <= i < |ls|
      ensures '\n' !in ls[i]
    {
      if i >= |head| {
        assert ls[i] == body[i - |head|];
      }
    }
    LinesSplit(ls);
  }

  // ---------------------------------------------------------------------
  // exportStatsToCSV
  // ---------------------------------------------------------------------

  /** A rounded percentage, `None` standing for the NaN of a zero total. */
  function RateText(rate: Option<int>): string
  {
    match rate
    case None => "NaN"
    case Some(r) => IntToString(r)
  }

  datatype OverallStats = OverallStats(totalMembers: nat, totalPresent: nat, totalAbsent: nat,
                                       totalLate: nat, attendanceRate: Option<int>)

  datatype GukStats = GukStats(totalMembers: nat, totalPresent: nat, totalAbsent: nat,
                               totalLate: nat, attendanceRate: Option<int>, groups: nat, teams: nat)

  const StatsHeaders: seq<string> := ["구분", "총인원", "출석", "결석", "지각", "출석률", "그룹수", "순수"]

  function Counts(totalMembers: nat, totalPresent: nat, totalAbsent: nat, totalLate: nat, rate: Option<int>): seq<string>
  {
    [NatToString(totalMembers), NatToString(totalPresent), NatToString(totalAbsent),
     NatToString(totalLate), RateText(rate) + "%"]
  }

  /** The 전체 line as the code writes it: the rate followed by three empty cells. */
  function OverallLineAsWritten(o: OverallStats): string
  {
    Join(["전체"] + Counts(o.totalMembers, o.totalPresent, o.totalAbsent, o.totalLate, o.attendanceRate) + ["", "", ""], ",")
  }

  /** The 전체 line with one empty cell for each of 그룹수 and 순수. */
  function OverallLine(o: OverallStats): string
  {
    Join(["전체"] + Counts(o.totalMembers, o.totalPresent, o.totalAbsent, o.totalLate, o.attendanceRate) + ["", ""], ",")
  }

  function GukFields(guk: string, st: GukStats): seq<string>
  {
    [guk] + Counts(st.totalMembers, st.totalPresent, st.totalAbsent, st.totalLate, st.attendanceRate)
    + [NatToString(st.groups), NatToString(st.teams)]
  }

  function GukLine(entry: (string, GukStats)): string
  {
    Join(GukFields(entry.0, entry.1), ",")
  }

  function GukLines(guks: seq<(string, GukStats)>): (ls: seq<string>)
    ensures |ls| == |guks|
    ensures forall i :: 0 <= i < |guks| ==> ls[i] == GukLine(guks[i])
  {
    seq(|guks|, i requires 0 <= i < |guks| => GukLine(guks[i]))
  }

  lemma {:induction false} GukLinesSnoc(guks: seq<(string, GukStats)>, i: nat)
    requires i < |guks|
    ensures GukLines(guks[..i + 1]) == GukLines(guks[..i]) + [GukLine(guks[i])]
  {
  }

  /** The statistics export as written: header, 전체 and one line per 국 in key order. */
  function StatsCsvAsWritten(overall: OverallStats, guks: seq<(string, GukStats)>): string
  {
    Lines([Join(StatsHeaders, ","), OverallLineAsWritten(overall)] + GukLines(guks))
  }

  /** The statistics export with the 전체 line as wide as the header. */
  function StatsCsv(overall: OverallStats, guks: seq<(string, GukStats)>): string
  {
    Lines([Join(StatsHeaders, ","), OverallLine(overall)] + GukLines(guks))
  }

  /** `exportStatsToCSV`, building the text line by line as the code does. */
  method ExportStatsToCsv(overall: OverallStats, gukStats: seq<(string, GukStats)>) returns (csv: string)
    ensures csv == StatsCsvAsWritten(overall, gukStats)
  {
    csv := Join(StatsHeaders, ",") + "\n";
    csv := csv + OverallLineAsWritten(overall) + "\n";
    LinesOne(Join(StatsHeaders, ","));
    LinesPush([Join(StatsHeaders, ",")], [], OverallLineAsWritten(overall));
    assert [Join(StatsHeaders, ",")] + [] == [Join(StatsHeaders, ",")];
    assert [Join(StatsHeaders, ",")] + ([] + [OverallLineAsWritten(overall)]) == [Join(StatsHeaders, ","), OverallLineAsWritten(overall)];
    var i := 0;
    while i < |gukStats|
      invariant 0 <= i <= |gukStats|
      invariant csv == Lines([Join(StatsHeaders, ","), OverallLineAsWritten(overall)] + GukLines(gukStats[..i]))
    {
      var head := [Join(StatsHeaders, ","), OverallLineAsWritten(overall)];
      GukLinesSnoc(gukStats, i);
      LinesPush(head, GukLines(gukStats[..i]), GukLine(gukStats[i]));
      csv := csv + GukLine(gukStats[i]) + "\n";
      i := i + 1;
    }
    assert gukStats[..|gukStats|] == gukStats;
  }

  lemma {:induction false} CountsPlain(a: nat, b: nat, c: nat, d: nat, r: Option<int>)
    ensures AllPlain(Counts(a, b, c, d, r))
  {
    NumberTextPlain(a);
    NumberTextPlain(b);
    NumberTextPlain(c);
    NumberTextPlain(d);
    if r.Some? {
      NumberTextPlain(r.value);
    }
  }

  lemma {:induction false} StatsHeadersPlain()
    ensures AllPlain(StatsHeaders)
  {
  }
  lemma {:induction false} GukLinePlain(entry: (string, GukStats))
    requires Plain(entry.0)
    ensures Split(GukLine(entry), ',') == GukFields(entry.0, entry.1)
    ensures '\n' !in GukLine(entry)
  {
    var st := entry.1;
    CountsPlain(st.totalMembers, st.totalPresent, st.totalAbsent, st.totalLate, st.attendanceRate);
    NumberTextPlain(st.groups);
    NumberTextPlain(st.teams);
    JoinedPlain(GukFields(entry.0, st));
  }

  /**
   * The statistics export reads back as its header, the 전체 line and one
   * line per 국 in order, each 국 line with as many cells as the header.
   */
  lemma {:induction false} StatsCsvLines(overall: OverallStats, guks: seq<(string, GukStats)>)
    requires forall i :: 0 <= i < |guks| ==> Plain(guks[i].0)
    ensures Split(StatsCsv(overall, guks), '\n') == [Join(StatsHeaders, ","), OverallLine(overall)] + GukLines(guks) + [""]
    ensures forall i :: 0 <= i < |guks| ==>
      |Split(GukLines(guks)[i], ',')| == |StatsHeaders| && Split(GukLines(guks)[i], ',')[0] == guks[i].0
  {
    var body := GukLines(guks);
    StatsHeadersPlain();
    JoinedPlain(StatsHeaders);
    OverallLinePlain(overall);
    forall i | 0 <= i < |guks|
      ensures '\n' !in body[i] && |Split(body[i], ',')| == |StatsHeaders| && Split(body[i], ',')[0] == guks[i].0
    {
      GukLinePlain(guks[i]);
    }
    HeadedLinesSplit([Join(StatsHeaders, ","), OverallLine(overall)], body);
  }
  lemma {:induction false} OverallLinePlain(o: OverallStats)
    ensures Split(OverallLine(o), ',') == ["전체"] + Counts(o.totalMembers, o.totalPresent, o.totalAbsent, o.totalLate, o.attendanceRate) + ["", ""]
    ensures Split(OverallLineAsWritten(o), ',') == ["전체"] + Counts(o.totalMembers, o.totalPresent, o.totalAbsent, o.totalLate, o.attendanceRate) + ["", "", ""]
    ensures '\n' !in OverallLine(o)
  {
    var cs := Counts(o.totalMembers, o.totalPresent, o.totalAbsent, o.totalLate, o.attendanceRate);
    CountsPlain(o.totalMembers, o.totalPresent, o.totalAbsent, o.totalLate, o.attendanceRate);
    JoinedPlain(["전체"] + cs + ["", ""]);
    JoinedPlain(["전체"] + cs + ["", "", ""]);
  }

  /** As written, the 전체 line has one cell more than the header; corrected, it has as many. */
  lemma {:induction false} OverallLineWidth(o: OverallStats)
    ensures |Split(OverallLineAsWritten(o), ',')| == |StatsHeaders| + 1
    ensures |Split(OverallLine(o), ',')| == |StatsHeaders|
  {
    OverallLinePlain(o);
  }

  // ---------------------------------------------------------------------
  // exportActivitiesToCSV and exportTrendsToCSV
  // ---------------------------------------------------------------------

  datatype Activity = Activity(id: nat, kind: string, member: string, group: string,
                               team: string, date: string, time: string)

  const ActivityHeaders: seq<string> := ["ID", "활동유형", "구성원", "그룹", "순", "날짜", "시간"]

  function ActivityFields(a: Activity): seq<string>
  {
    [NatToString(a.id), a.kind, a.member, a.group, a.team, a.date, a.time]
  }

  function ActivityLine(a: Activity): string
  {
    Join(ActivityFields(a), ",")
  }

  function ActivityLines(acts: seq<Activity>): (ls: seq<string>)
    ensures |ls| == |acts|
    ensures forall i :: 0 <= i < |acts| ==> ls[i] == ActivityLine(acts[i])
  {
    seq(|acts|, i requires 0 <= i < |acts| => ActivityLine(acts[i]))
  }

  lemma {:induction false} ActivityLinesSnoc(acts: seq<Activity>, i: nat)
    requires i < |acts|
    ensures ActivityLines(acts[..i + 1]) == ActivityLines(acts[..i]) + [ActivityLine(acts[i])]
  {
  }

  function ActivitiesCsv(acts: seq<Activity>): string
  {
    Lines([Join(ActivityHeaders, ",")] + ActivityLines(acts))
  }

  /** `exportActivitiesToCSV` */
  method ExportActivitiesToCsv(activities: seq<Activity>) returns (csv: string)
    ensures csv == ActivitiesCsv(activities)
  {
    var head := [Join(ActivityHeaders, ",")];
    csv := Join(ActivityHeaders, ",") + "\n";
    assert head[..0] == [];
    var i := 0;
    while i < |activities|
      invariant 0 <= i <= |activities|
      invariant csv == Lines(head + ActivityLines(activities[..i]))
    {
      ActivityLinesSnoc(activities, i);
      LinesPush(head, ActivityLines(activities[..i]), ActivityLine(activities[i]));
      csv := csv + ActivityLine(activities[i]) + "\n";
      i := i + 1;
    }
    assert activities[..|activities|] == activities;
  }

  predicate PlainActivity(a: Activity)
  {
    Plain(a.kind) && Plain(a.member) && Plain(a.group) && Plain(a.team) && Plain(a.date) && Plain(a.time)
  }

  lemma {:induction false} ActivityHeadersPlain()
    ensures AllPlain(ActivityHeaders)
  {
  }

  lemma {:induction false} ActivityLinePlain(a: Activity)
    requires PlainActivity(a)
    ensures Split(ActivityLine(a), ',') == ActivityFields(a)
    ensures '\n' !in ActivityLine(a)
  {
    NumberTextPlain(a.id);
    JoinedPlain(ActivityFields(a));
  }

  /** The activity export reads back as the header and one seven-cell line per activity, in order. */
  lemma {:induction false} ActivitiesCsvLines(acts: seq<Activity>)
    requires forall i :: 0 <= i < |acts| ==> PlainActivity(acts[i])
    ensures Split(ActivitiesCsv(acts), '\n') == [Join(ActivityHeaders, ",")] + ActivityLines(acts) + [""]
    ensures forall i :: 0 <= i < |acts| ==> Split(ActivityLines(acts)[i], ',') == ActivityFields(acts[i])
    ensures forall i :: 0 <= i < |acts| ==> |ActivityFields(acts[i])| == |ActivityHeaders|
  {
    var body := ActivityLines(acts);
    ActivityHeadersPlain();
    JoinedPlain(ActivityHeaders);
    forall i | 0 <= i < |acts|
      ensures Split(body[i], ',') == ActivityFields(acts[i]) && '\n' !in body[i]
    {
      ActivityLinePlain(acts[i]);
    }
    HeadedLinesSplit([Join(ActivityHeaders, ",")], body);
  }

  /** A month of the trend: its label, attendance rate (`출석`) and member count. */
  datatype Trend = Trend(month: string, rate: int, members: nat)

  const TrendHeaders: seq<string> := ["월", "출석률", "구성원수"]

  function TrendFields(t: Trend): seq<string>
  {
    [t.month, IntToString(t.rate) + "%", NatToString(t.members)]
  }

  function TrendLine(t: Trend): string
  {
    Join(TrendFields(t), ",")
  }

  function TrendLines(ts: seq<Trend>): (ls: seq<string>)
    ensures |ls| == |ts|
    ensures forall i :: 0 <= i < |ts| ==> ls[i] == TrendLine(ts[i])
  {
    seq(|ts|, i requires 0 <= i < |ts| => TrendLine(ts[i]))
  }

  lemma {:induction false} TrendLinesSnoc(ts: seq<Trend>, i: nat)
    requires i < |ts|
    ensures TrendLines(ts[..i + 1]) == TrendLines(ts[..i]) + [TrendLine(ts[i])]
  {
  }

  function TrendsCsv(ts: seq<Trend>): string
  {
    Lines([Join(TrendHeaders, ",")] + TrendLines(ts))
  }

  /** `exportTrendsToCSV` */
  method ExportTrendsToCsv(trends: seq<Trend>) returns (csv: string)
    ensures csv == TrendsCsv(trends)
  {
    var head := [Join(TrendHeaders, ",")];
    csv := Join(TrendHeaders, ",") + "\n";
    assert head[..0] == [];
    var i := 0;
    while i < |trends|
      invariant 0 <= i <= |trends|
      invariant csv == Lines(head + TrendLines(trends[..i]))
    {
      TrendLinesSnoc(trends, i);
      LinesPush(head, TrendLines(trends[..i]), TrendLine(trends[i]));
      csv := csv + TrendLine(trends[i]) + "\n";
      i := i + 1;
    }
    assert trends[..|trends|] == trends;
  }

  lemma {:induction false} TrendHeadersPlain()
    ensures AllPlain(TrendHeaders)
  {
  }

  lemma {:induction false} TrendLinePlain(t: Trend)
    requires Plain(t.month)
    ensures Split(TrendLine(t), ',') == TrendFields(t)
    ensures '\n' !in TrendLine(t)
  {
    NumberTextPlain(t.rate);
    NumberTextPlain(t.members);
    JoinedPlain(TrendFields(t));
  }

  /** The trend export reads back as the header and one "month,rate%,members" line per month, in order. */
  lemma {:induction false} TrendsCsvLines(ts: seq<Trend>)
    requires forall i :: 0 <= i < |ts| ==> Plain(ts[i].month)
    ensures Split(TrendsCsv(ts), '\n') == [Join(TrendHeaders, ",")] + TrendLines(ts) + [""]
    ensures forall i :: 0 <= i < |ts| ==> Split(TrendLines(ts)[i], ',') == TrendFields(ts[i])
  {
    var body := TrendLines(ts);
    TrendHeadersPlain();
    JoinedPlain(TrendHeaders);
    forall i | 0 <= i < |ts|
      ensures Split(body[i], ',') == TrendFields(ts[i]) && '\n' !in body[i]
    {
      TrendLinePlain(ts[i]);
    }
    HeadedLinesSplit([Join(TrendHeaders, ",")], body);
  }
  // ---------------------------------------------------------------------
  // exportMembersToCSV
  // ---------------------------------------------------------------------

  /** A member of the sample data, as its fields. */
  type Member = Record

  /** The weeks of attendance the sample data holds, 주1주 to 주4주. */
  const Weeks: nat := 4

  const Sunday := "주일청년예배"
  const Wednesday := "수요제자기도회"
  const Friday := "두란노사역자모임"
  const Special := "대예배"

  /** `주${week}주_${service}출석여부`, or `...출석일자` for the date cell. */
  function FieldKey(week: nat, service: string, attended: bool): string
  {
    "주" + NatToString(week) + "주_" + service + (if attended then "출석여부" else "출석일자")
  }

  /** The two cells of one service in one week: whether attended, then the date. */
  function ServiceKeys(week: nat, service: string): seq<string>
  {
    [FieldKey(week, service, true), FieldKey(week, service, false)]
  }

  function WeekKeys(week: nat): (ks: seq<string>)
    ensures |ks| == 8
  {
    ServiceKeys(week, Sunday) + ServiceKeys(week, Wednesday) + ServiceKeys(week, Friday) + ServiceKeys(week, Special)
  }

  /** The attendance columns of weeks 1 to `n`, in order. */
  function KeysUpTo(n: nat): (ks: seq<string>)
    ensures |ks| == 8 * n
  {
    if n == 0 then [] else KeysUpTo(n - 1) + WeekKeys(n)
  }

  /** The `,${a},${b}` pieces the code appends: a comma before each part. */
  function Prefixed(parts: seq<string>): string
  {
    if parts == [] then "" else "," + Join(parts, ",")
  }

  lemma {:induction false} PrefixedAppend(a: seq<string>, b: seq<string>)
    ensures Prefixed(a + b) == Prefixed(a) + Prefixed(b)
  {
    if a == [] {
      assert a + b == b;
    } else if b == [] {
      assert a + b == a;
    } else {
      JoinAppend(a, b, ",");
      assert a + b != [];
      calc {
        Prefixed(a + b);
        "," + Join(a + b, ",");
        "," + (Join(a, ",") + "," + Join(b, ","));
        ("," + Join(a, ",")) + ("," + Join(b, ","));
      }
    }
  }

  const BaseHeaders: seq<string> := ["ID", "소속국", "소속그룹", "소속순", "이름", "직분", "연락처", "가입일"]

  /** The second run of base headers, appended straight after the first. */
  const RepeatedHeaders: seq<string> := ["이름", "소속국", "소속그룹", "소속순", "직분", "연락처", "가입일"]

  /** The fields of the `row` array, in order. */
  const BaseKeys: seq<string> := ["id", "소속국", "소속그룹", "소속순", "이름", "직분", "연락처", "가입일"]

  /** `member[key] || ''` for each key; missing fields read as empty. */
  function Values(m: Member, ks: seq<string>): (vs: seq<string>)
    ensures |vs| == |ks|
    ensures forall i :: 0 <= i < |ks| ==> vs[i] == GetOr(m, ks[i])
  {
    seq(|ks|, i requires 0 <= i < |ks| => GetOr(m, ks[i]))
  }

  lemma {:induction false} ValuesAppend(m: Member, a: seq<string>, b: seq<string>)
    ensures Values(m, a + b) == Values(m, a) + Values(m, b)
  {
  }

  /** The header line as the code writes it. */
  function MembersHeaderAsWritten(): string
  {
    Join(BaseHeaders, ",") + Join(RepeatedHeaders, ",") + Prefixed(KeysUpTo(Weeks))
  }

  /** A member's line as the code writes it: the attendance cells first, then the `row` array. */
  function MemberRowAsWritten(m: Member): string
  {
    Prefixed(Values(m, KeysUpTo(Weeks))) + Join(Values(m, BaseKeys), ",")
  }

  function RowsAsWritten(ms: seq<Member>): (rs: seq<string>)
    ensures |rs| == |ms|
    ensures forall i :: 0 <= i < |ms| ==> rs[i] == MemberRowAsWritten(ms[i])
  {
    seq(|ms|, i requires 0 <= i < |ms| => MemberRowAsWritten(ms[i]))
  }

  function MembersCsvAsWritten(ms: seq<Member>): string
  {
    Lines([MembersHeaderAsWritten()] + RowsAsWritten(ms))
  }

  lemma {:induction false} HeaderWeekStep(start: string, week: nat)
    requires week >= 1
    ensures start + Prefixed(KeysUpTo(week)) == start + Prefixed(KeysUpTo(week - 1))
      + Prefixed(ServiceKeys(week, Sunday) + ServiceKeys(week, Wednesday) + ServiceKeys(week, Friday))
      + Prefixed(ServiceKeys(week, Special))
  {
    var first := ServiceKeys(week, Sunday) + ServiceKeys(week, Wednesday) + ServiceKeys(week, Friday);
    var before := Prefixed(KeysUpTo(week - 1));
    assert KeysUpTo(week) == KeysUpTo(week - 1) + (first + ServiceKeys(week, Special));
    PrefixedAppend(KeysUpTo(week - 1), first + ServiceKeys(week, Special));
    PrefixedAppend(first, ServiceKeys(week, Special));
    assert start + (before + (Prefixed(first) + Prefixed(ServiceKeys(week, Special))))
      == start + before + Prefixed(first) + Prefixed(ServiceKeys(week, Special));
  }

  lemma {:induction false} RowWeekStep(start: string, m: Member, week: nat)
    requires week >= 1
    ensures start + Prefixed(Values(m, KeysUpTo(week))) == start + Prefixed(Values(m, KeysUpTo(week - 1)))
      + Prefixed(Values(m, ServiceKeys(week, Sunday))) + Prefixed(Values(m, ServiceKeys(week, Wednesday)))
      + Prefixed(Values(m, ServiceKeys(week, Friday))) + Prefixed(Values(m, ServiceKeys(week, Special)))
  {
    var s := Values(m, ServiceKeys(week, Sunday));
    var w := Values(m, ServiceKeys(week, Wednesday));
    var f := Values(m, ServiceKeys(week, Friday));
    var x := Values(m, ServiceKeys(week, Special));
    var before := Values(m, KeysUpTo(week - 1));
    ValuesWeek(m, week);
    PrefixedFive(before, s, w, f, x);
    AppendFive(start, Prefixed(before), Prefixed(s), Prefixed(w), Prefixed(f), Prefixed(x));
  }

  /** The values of the first `week` weeks are those of the earlier weeks followed by this week's four services. */
  lemma {:induction false} ValuesWeek(m: Member, week: nat)
    requires week >= 1
    ensures Values(m, KeysUpTo(week)) == Values(m, KeysUpTo(week - 1))
      + (Values(m, ServiceKeys(week, Sunday)) + (Values(m, ServiceKeys(week, Wednesday))
      + (Values(m, ServiceKeys(week, Friday)) + Values(m, ServiceKeys(week, Special)))))
  {
    var ks, ws, fs, xs := ServiceKeys(week, Sunday), ServiceKeys(week, Wednesday), ServiceKeys(week, Friday), ServiceKeys(week, Special);
    assert KeysUpTo(week) == KeysUpTo(week - 1) + (ks + (ws + (fs + xs)));
    ValuesAppend(m, KeysUpTo(week - 1), ks + (ws + (fs + xs)));
    ValuesAppend(m, ks, ws + (fs + xs));
    ValuesAppend(m, ws, fs + xs);
    ValuesAppend(m, fs, xs);
  }

  lemma {:induction false} PrefixedFive(a: seq<string>, b: seq<string>, c: seq<string>, d: seq<string>, e: seq<string>)
    ensures Prefixed(a + (b + (c + (d + e)))) == Prefixed(a) + (Prefixed(b) + (Prefixed(c) + (Prefixed(d) + Prefixed(e))))
  {
    PrefixedAppend(a, b + (c + (d + e)));
    PrefixedAppend(b, c + (d + e));
    PrefixedAppend(c, d + e);
    PrefixedAppend(d, e);
  }

  lemma {:induction false} AppendFive(t: string, a: string, b: string, c: string, d: string, e: string)
    ensures t + (a + (b + (c + (d + e)))) == t + a + b + c + d + e
  {
  }

  lemma {:induction false} RowsSnoc(ms: seq<Member>, i: nat)
    requires i < |ms|
    ensures RowsAsWritten(ms[..i + 1]) == RowsAsWritten(ms[..i]) + [MemberRowAsWritten(ms[i])]
  {
  }

  /**
   * The attendance half of the header: for each week, the six cells of
   * the first three services, then the two of 대예배.
   */
  method AppendWeekHeaders(start: string) returns (csv: string)
    ensures csv == start + Prefixed(KeysUpTo(Weeks))
  {
    csv := start;
    var week := 1;
    while week <= Weeks
      invariant 1 <= week <= Weeks + 1
      invariant csv == start + Prefixed(KeysUpTo(week - 1))
    {
      csv := csv + Prefixed(ServiceKeys(week, Sunday) + ServiceKeys(week, Wednesday) + ServiceKeys(week, Friday));
      csv := csv + Prefixed(ServiceKeys(week, Special));
      HeaderWeekStep(start, week);
      week := week + 1;
    }
  }

  /** One member's line: the attendance cells of each week, then the `row` array and a line break. */
  method AppendMemberRow(start: string, member: Member) returns (csv: string)
    ensures csv == start + MemberRowAsWritten(member) + "\n"
  {
    var row := Values(member, BaseKeys);
    csv := start;
    var week := 1;
    while week <= Weeks
      invariant 1 <= week <= Weeks + 1
      invariant csv == start + Prefixed(Values(member, KeysUpTo(week - 1)))
    {
      csv := csv + Prefixed(Values(member, ServiceKeys(week, Sunday)));
      csv := csv + Prefixed(Values(member, ServiceKeys(week, Wednesday)));
      csv := csv + Prefixed(Values(member, ServiceKeys(week, Friday)));
      csv := csv + Prefixed(Values(member, ServiceKeys(week, Special)));
      RowWeekStep(start, member, week);
      week := week + 1;
    }
    csv := csv + Join(row, ",") + "\n";
  }

  /** `exportMembersToCSV`, appending to the text as the code does. */
  method ExportMembersToCsv(members: seq<Member>) returns (csv: string)
    ensures csv == MembersCsvAsWritten(members)
  {
    csv := Join(BaseHeaders, ",");
    csv := csv + Join(RepeatedHeaders, ",");
    csv := AppendWeekHeaders(csv);
    csv := csv + "\n";
    var head := [MembersHeaderAsWritten()];
    LinesOne(MembersHeaderAsWritten());
    assert head + RowsAsWritten(members[..0]) == head;
    var i := 0;
    while i < |members|
      invariant 0 <= i <= |members|
      invariant csv == Lines(head + RowsAsWritten(members[..i]))
    {
      csv := AppendMemberRow(csv, members[i]);
      RowsSnoc(members, i);
      LinesPush(head, RowsAsWritten(members[..i]), MemberRowAsWritten(members[i]));
      i := i + 1;
    }
    assert members[..|members|] == members;
  }

  predicate PlainMember(m: Member)
  {
    forall i :: 0 <= i < |m| ==> Plain(m[i].1)
  }

  lemma {:induction false} GetOrPlain(m: Member, k: string)
    requires PlainMember(m)
    ensures Plain(GetOr(m, k))
  {
    if m != [] && m[0].0 != k {
      assert PlainMember(m[1..]) by {
        forall i | 0 <= i < |m| - 1
          ensures Plain(m[1..][i].1)
        {
          assert m[1..][i] == m[i + 1];
        }
      }
      GetOrPlain(m[1..], k);
    }
  }
  lemma {:induction false} ValuesPlain(m: Member, ks: seq<string>)
    requires PlainMember(m)
    ensures AllPlain(Values(m, ks))
  {
    forall i | 0 <= i < |ks|
      ensures Plain(Values(m, ks)[i])
    {
      GetOrPlain(m, ks[i]);
    }
  }
  lemma {:induction false} ServicesPlain()
    ensures Plain(Sunday) && Plain(Wednesday) && Plain(Friday) && Plain(Special)
  {
  }

  lemma {:induction false} FieldKeyPlain(week: nat, service: string, attended: bool)
    requires Plain(service)
    ensures Plain(FieldKey(week, service, attended))
  {
    NumberTextPlain(week);
    var suffix := if attended then "출석여부" else "출석일자";
    assert Plain(suffix);
    assert FieldKey(week, service, attended) == "주" + NatToString(week) + "주_" + service + suffix;
  }
  lemma {:induction false} KeysPlain(n: nat)
    ensures AllPlain(KeysUpTo(n))
  {
    if n > 0 {
      KeysPlain(n - 1);
      ServicesPlain();
      FieldKeyPlain(n, Sunday, true);
      FieldKeyPlain(n, Sunday, false);
      FieldKeyPlain(n, Wednesday, true);
      FieldKeyPlain(n, Wednesday, false);
      FieldKeyPlain(n, Friday, true);
      FieldKeyPlain(n, Friday, false);
      FieldKeyPlain(n, Special, true);
      FieldKeyPlain(n, Special, false);
      var week := WeekKeys(n);
      assert AllPlain(week);
      var ks := KeysUpTo(n);
      assert ks == KeysUpTo(n - 1) + week;
      forall i | 0 <= i < |ks|
        ensures Plain(ks[i])
      {
        if i >= |KeysUpTo(n - 1)| {
          assert ks[i] == week[i - |KeysUpTo(n - 1)|];
        }
      }
    }
  }

  /** The header texts carry no comma or quote; the eighth base header and the first repeated one fuse into 가입일이름. */
  lemma {:induction false} BaseHeadersPlain()
    ensures AllPlain(BaseHeaders) && AllPlain(RepeatedHeaders)
    ensures BaseHeaders[7] + RepeatedHeaders[0] == "가입일이름"
  {
  }

  /** Two non-empty runs written back to back: the last cell of one fuses with the first of the other. */
  function Glued(first: seq<string>, second: seq<string>): seq<string>
    requires |first| >= 1 && |second| >= 1
  {
    first[..|first| - 1] + [first[|first| - 1] + second[0]] + second[1..]
  }

  lemma {:induction false} GluedPlain(first: seq<string>, second: seq<string>)
    requires |first| >= 1 && |second| >= 1
    requires AllPlain(first) && AllPlain(second)
    ensures AllPlain(Glued(first, second))
  {
    var seam := first[|first| - 1] + second[0];
    assert Plain(first[|first| - 1]) && Plain(second[0]);
    assert AllPlain([seam]);
    var head := first[..|first| - 1];
    var tail := second[1..];
    assert AllPlain(head) && AllPlain(tail);
    AllPlainAppend(head, [seam]);
    AllPlainAppend(head + [seam], tail);
  }

  /** The seam read back: two joined runs split into the glued cells. */
  lemma {:induction false} SeamCells(first: seq<string>, second: seq<string>)
    requires |first| >= 1 && |second| >= 1
    requires AllPlain(first) && AllPlain(second)
    ensures Split(Join(first, ",") + Join(second, ","), ',') == Glued(first, second)
  {
    GluedPlain(first, second);
    JoinGlue(first, second, ",");
    SplitJoined(Glued(first, second), ',');
  }

  lemma {:induction false} GluedJoin(first: seq<string>, second: seq<string>, rest: seq<string>)
    requires |first| >= 1 && |second| >= 1 && |rest| >= 1
    ensures Join(first, ",") + Join(second, ",") + Prefixed(rest) == Join(Glued(first, second) + rest, ",")
  {
    var g := Join(Glued(first, second), ",");
    var r := Join(rest, ",");
    assert Join(first, ",") + Join(second, ",") == g by {
      JoinGlue(first, second, ",");
    }
    assert Join(Glued(first, second) + rest, ",") == g + "," + r by {
      JoinAppend(Glued(first, second), rest, ",");
    }
    assert g + "," + r == g + ("," + r);
  }

  /** Two joined runs, then comma-led cells: the runs fuse at the seam and the cells follow. */
  lemma {:induction false} GluedCells(first: seq<string>, second: seq<string>, rest: seq<string>)
    requires |first| >= 1 && |second| >= 1 && |rest| >= 1
    requires AllPlain(first) && AllPlain(second) && AllPlain(rest)
    ensures Split(Join(first, ",") + Join(second, ",") + Prefixed(rest), ',') == Glued(first, second) + rest
  {
    GluedPlain(first, second);
    AllPlainAppend(Glued(first, second), rest);
    GluedJoin(first, second, rest);
    SplitJoined(Glued(first, second) + rest, ',');
  }

  /** The header as written reads as 46 cells, the eighth fusing 가입일 and 이름. */
  lemma {:induction false} MembersHeaderAsWrittenCells()
    ensures Split(MembersHeaderAsWritten(), ',')
      == BaseHeaders[..7] + ["가입일이름"] + RepeatedHeaders[1..] + KeysUpTo(Weeks)
    ensures |Split(MembersHeaderAsWritten(), ',')| == 46
  {
    BaseHeadersPlain();
    KeysPlain(Weeks);
    GluedCells(BaseHeaders, RepeatedHeaders, KeysUpTo(Weeks));
  }

  /** Comma-led cells followed directly by a joined run: a leading empty cell, and a fused seam. */
  lemma {:induction false} LeadingCells(a: seq<string>, v: seq<string>)
    requires |a| >= 1 && |v| >= 1 && AllPlain(a) && AllPlain(v)
    ensures Split(Prefixed(a) + Join(v, ","), ',') == [""] + a[..|a| - 1] + [a[|a| - 1] + v[0]] + v[1..]
  {
    var lead := [""] + a;
    assert Prefixed(a) == Join(lead, ",") by {
      LeadingJoin(a);
    }
    assert AllPlain(lead) by {
      assert AllPlain([""]);
      AllPlainAppend([""], a);
    }
    assert Glued(lead, v) == [""] + a[..|a| - 1] + [a[|a| - 1] + v[0]] + v[1..] by {
      assert lead[..|lead| - 1] == [""] + a[..|a| - 1];
      assert lead[|lead| - 1] == a[|a| - 1];
    }
    SeamCells(lead, v);
  }

  /** Comma-led cells are the same text as the cells joined after an empty one. */
  lemma {:induction false} LeadingJoin(a: seq<string>)
    requires |a| >= 1
    ensures Prefixed(a) == Join([""] + a, ",")
  {
    JoinAppend([""], a, ",");
    assert Join([""], ",") == "";
    assert "" + "," + Join(a, ",") == "," + Join(a, ",");
  }

  /**
   * A member's line as written reads as 40 cells: an empty first cell, the
   * attendance cells, the last of them fused with the member's id, then
   * the other seven base fields.
   */
  lemma {:induction false} MemberRowAsWrittenCells(m: Member)
    requires PlainMember(m)
    ensures var cells := Split(MemberRowAsWritten(m), ',');
      |cells| == 40 && cells[0] == ""
      && cells[32] == GetOr(m, FieldKey(4, Special, false)) + GetOr(m, "id")
  {
    ValuesPlain(m, KeysUpTo(Weeks));
    ValuesPlain(m, BaseKeys);
    LeadingCells(Values(m, KeysUpTo(Weeks)), Values(m, BaseKeys));
    assert KeysUpTo(Weeks)[31] == FieldKey(4, Special, false);
  }

  /** As written, the header has six cells more than every member line. */
  lemma {:induction false} MembersCsvAsWrittenMisaligned(m: Member)
    requires PlainMember(m)
    ensures |Split(MembersHeaderAsWritten(), ',')| == |Split(MemberRowAsWritten(m), ',')| + 6
  {
    MembersHeaderAsWrittenCells();
    MemberRowAsWrittenCells(m);
  }

  /** The columns of the corrected export: the eight base fields, then the 32 attendance cells. */
  function ColumnKeys(): (ks: seq<string>)
    ensures |ks| == 40
  {
    BaseKeys + KeysUpTo(Weeks)
  }

  function MembersHeader(): string
  {
    Join(BaseHeaders + KeysUpTo(Weeks), ",")
  }

  function MemberRow(m: Member): string
  {
    Join(Values(m, ColumnKeys()), ",")
  }

  function Rows(ms: seq<Member>): (rs: seq<string>)
    ensures |rs| == |ms|
    ensures forall i :: 0 <= i < |ms| ==> rs[i] == MemberRow(ms[i])
  {
    seq(|ms|, i requires 0 <= i < |ms| => MemberRow(ms[i]))
  }

  /** The members export with one header run and the attendance cells after the base fields. */
  function MembersCsv(ms: seq<Member>): string
  {
    Lines([MembersHeader()] + Rows(ms))
  }

  /**
   * The corrected export reads back as a 40-cell header and one 40-cell
   * line per member, whose cell in each column is the member's value for
   * that column; attendance columns are headed by their own key.
   */
  lemma {:induction false} MembersCsvReadsBack(ms: seq<Member>)
    requires forall j :: 0 <= j < |ms| ==> PlainMember(ms[j])
    ensures var lines := Split(MembersCsv(ms), '\n');
      |lines| == |ms| + 2 && lines[|ms| + 1] == ""
      && Split(lines[0], ',') == BaseHeaders + KeysUpTo(Weeks)
      && forall j :: 0 <= j < |ms| ==> Split(lines[j + 1], ',') == Values(ms[j], ColumnKeys())
    ensures forall c :: 8 <= c < 40 ==> (BaseHeaders + KeysUpTo(Weeks))[c] == ColumnKeys()[c]
  {
    HeaderReadsBack();
    HeaderColumns();
    var ls := [MembersHeader()] + Rows(ms);
    forall j | 0 <= j < |ms|
      ensures Split(ls[j + 1], ',') == Values(ms[j], ColumnKeys()) && '\n' !in ls[j + 1]
    {
      MemberRowReadsBack(ms[j]);
    }
    LinesSplit(ls);
  }

  /** Past the eight base columns, the header cell is the column's own key. */
  lemma {:induction false} HeaderColumns()
    ensures forall c :: 8 <= c < 40 ==> (BaseHeaders + KeysUpTo(Weeks))[c] == ColumnKeys()[c]
  {
    SameTail(BaseHeaders, BaseKeys, KeysUpTo(Weeks));
  }

  lemma {:induction false} SameTail(a: seq<string>, b: seq<string>, ks: seq<string>)
    requires |a| == |b|
    ensures forall c :: |a| <= c < |a| + |ks| ==> (a + ks)[c] == (b + ks)[c]
  {
    forall c | |a| <= c < |a| + |ks|
      ensures (a + ks)[c] == (b + ks)[c]
    {
      assert (a + ks)[c] == ks[c - |a|];
    }
  }

  lemma {:induction false} HeaderReadsBack()
    ensures Split(MembersHeader(), ',') == BaseHeaders + KeysUpTo(Weeks)
    ensures '\n' !in MembersHeader()
  {
    BaseHeadersPlain();
    KeysPlain(Weeks);
    AllPlainAppend(BaseHeaders, KeysUpTo(Weeks));
    JoinedPlain(BaseHeaders + KeysUpTo(Weeks));
  }

  lemma {:induction false} MemberRowReadsBack(m: Member)
    requires PlainMember(m)
    ensures Split(MemberRow(m), ',') == Values(m, ColumnKeys())
    ensures '\n' !in MemberRow(m)
  {
    ValuesPlain(m, ColumnKeys());
    JoinedPlain(Values(m, ColumnKeys()));
  }
}
