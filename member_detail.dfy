/**
 * The member page of the first layout (src/components/MemberDetail.js):
 * the basic-history timeline (affiliation, position, absence and
 * new-family records), the spiritual timeline (visits, forum posts and
 * prayers), both grouped by year and ordered within a year, the year
 * lists, the visits that belong to the member, the type and year
 * toggles, and the reaction to a `memberAffiliationChanged` event. The
 * member's histories are parameters; photos, pop-ups and navigation are
 * not modelled.
 */
module MemberDetail {
  import opened Common
  import Visitation
  import MembersLegacy

  const AllYears := "전체"

  // ---------------------------------------------------------------------
  // Histories and timeline events
  // ---------------------------------------------------------------------

  datatype DeptItem = DeptItem(year: string, department: string, group: string, order: string)
  datatype PositionItem = PositionItem(year: string, position: string)
  datatype AbsenceItem = AbsenceItem(date: string, reason: string, service: string)
  datatype NewFamilyItem = NewFamilyItem(date: string, course: string, status: string)
  datatype ForumItem = ForumItem(date: string, content: string, forumId: int)
  datatype PrayerItem = PrayerItem(date: string, content: string, prayerId: int)

  /** The member's records, as the page holds them. */
  datatype History = History(departments: seq<DeptItem>, positions: seq<PositionItem>, absences: seq<AbsenceItem>,
                             newFamily: seq<NewFamilyItem>, forums: seq<ForumItem>, prayers: seq<PrayerItem>)

  datatype Kind = Department | Position | Absence | NewFamily | Visit | Forum | Prayer

  /** The key of a kind in the type filters. */
  function KindKey(k: Kind): string
  {
    match k
    case Department => "department"
    case Position => "position"
    case Absence => "absence"
    case NewFamily => "newfamily"
    case Visit => "visitation"
    case Forum => "forum"
    case Prayer => "prayer"
  }

  /** One entry of a timeline: its id, year, date, kind, description and details. */
  datatype Event = Event(id: string, year: string, date: string, kind: Kind, description: string, details: string)

  /** `date.split('-')[0]` */
  function YearOf(date: string): string
  {
    Split(date, '-')[0]
  }

  function DeptEvent(d: DeptItem): Event
  {
    Event("dept-" + d.year, d.year, d.year + "-01-01", Department, d.department + " - " + d.group + " - " + d.order, "")
  }

  function PositionEvent(p: PositionItem): Event
  {
    Event("pos-" + p.year, p.year, p.year + "-01-01", Position, p.position, "")
  }

  function AbsenceEvent(a: AbsenceItem): Event
  {
    Event("abs-" + a.date, YearOf(a.date), a.date, Absence, a.service + " - " + a.reason, a.date)
  }

  function NewFamilyEvent(n: NewFamilyItem): Event
  {
    Event("nf-" + n.date, YearOf(n.date), n.date, NewFamily, n.course + " - " + n.status, n.date)
  }

  function VisitEvent(v: Visitation.Visit): Event
  {
    Event("visitation-" + IntToString(v.id), YearOf(v.date), v.date, Visit,
          "심방방법: " + v.way + " | 진행자: " + v.hostName, v.content)
  }

  function ForumEvent(f: ForumItem): Event
  {
    Event("forum-" + f.date, YearOf(f.date), f.date, Forum, f.content, "")
  }

  function PrayerEvent(p: PrayerItem): Event
  {
    Event("prayer-" + p.date, YearOf(p.date), p.date, Prayer, p.content, "")
  }

  /** A type filter: `types[key]`, missing keys being off. */
  predicate Enabled(types: map<string, bool>, key: string)
  {
    key in types && types[key]
  }

  /** `items.forEach(item => allEvents.push(event(item)))` when the type is on. */
  function EventsIf<T>(on: bool, items: seq<T>, f: T -> Event): (r: seq<Event>)
    ensures |r| == if on then |items| else 0
    ensures on ==> forall i :: 0 <= i < |items| ==> r[i] == f(items[i])
  {
    if on then seq(|items|, i requires 0 <= i < |items| => f(items[i])) else []
  }

  /** The basic-history events in the order they are pushed: affiliation, position, absence, new family. */
  function BasicEvents(h: History, types: map<string, bool>): seq<Event>
  {
    EventsIf(Enabled(types, "department"), h.departments, DeptEvent)
    + EventsIf(Enabled(types, "position"), h.positions, PositionEvent)
    + EventsIf(Enabled(types, "absence"), h.absences, AbsenceEvent)
    + EventsIf(Enabled(types, "newfamily"), h.newFamily, NewFamilyEvent)
  }

  /** The spiritual events in the order they are pushed: the member's visits, forum posts, prayers. */
  function SpiritualEvents(visits: seq<Visitation.Visit>, h: History, types: map<string, bool>): seq<Event>
  {
    EventsIf(Enabled(types, "visitation"), visits, VisitEvent)
    + EventsIf(Enabled(types, "forum"), h.forums, ForumEvent)
    + EventsIf(Enabled(types, "prayer"), h.prayers, PrayerEvent)
  }

  lemma {:induction false} EventsIfMembers<T>(on: bool, items: seq<T>, f: T -> Event, e: Event)
    ensures e in EventsIf(on, items, f) <==> on && exists i :: 0 <= i < |items| && e == f(items[i])
  {
  }

  /** Every event of a list whose events all have kind `k` has kind `k`, and the list is empty with the type off. */
  lemma {:induction false} EventsIfKind<T>(on: bool, items: seq<T>, f: T -> Event, k: Kind, e: Event)
    requires forall x :: f(x).kind == k
    ensures e in EventsIf(on, items, f) ==> on && e.kind == k
  {
    if e in EventsIf(on, items, f) {
      var i :| 0 <= i < |items| && EventsIf(on, items, f)[i] == e;
      assert e == f(items[i]);
    }
  }

  /** With the type on, every record's event is in the list. */
  lemma {:induction false} EventsIfAll<T>(on: bool, items: seq<T>, f: T -> Event)
    ensures on ==> forall x :: x in items ==> f(x) in EventsIf(on, items, f)
  {
    if on {
      forall x | x in items ensures f(x) in EventsIf(on, items, f) {
        var i :| 0 <= i < |items| && items[i] == x;
        assert EventsIf(on, items, f)[i] == f(x);
      }
    }
  }

  /** Every basic event is of a type that is on, and every record of a type that is on is an event. */
  lemma {:induction false} BasicEventsSpec(h: History, types: map<string, bool>, e: Event)
    ensures e in BasicEvents(h, types) ==> e.kind in {Department, Position, Absence, NewFamily} && Enabled(types, KindKey(e.kind))
    ensures Enabled(types, "department") ==> forall d :: d in h.departments ==> DeptEvent(d) in BasicEvents(h, types)
    ensures Enabled(types, "position") ==> forall p :: p in h.positions ==> PositionEvent(p) in BasicEvents(h, types)
    ensures Enabled(types, "absence") ==> forall a :: a in h.absences ==> AbsenceEvent(a) in BasicEvents(h, types)
    ensures Enabled(types, "newfamily") ==> forall n :: n in h.newFamily ==> NewFamilyEvent(n) in BasicEvents(h, types)
  {
    EventsIfKind(Enabled(types, "department"), h.departments, DeptEvent, Department, e);
    EventsIfKind(Enabled(types, "position"), h.positions, PositionEvent, Position, e);
    EventsIfKind(Enabled(types, "absence"), h.absences, AbsenceEvent, Absence, e);
    EventsIfKind(Enabled(types, "newfamily"), h.newFamily, NewFamilyEvent, NewFamily, e);
    EventsIfAll(Enabled(types, "department"), h.departments, DeptEvent);
    EventsIfAll(Enabled(types, "position"), h.positions, PositionEvent);
    EventsIfAll(Enabled(types, "absence"), h.absences, AbsenceEvent);
    EventsIfAll(Enabled(types, "newfamily"), h.newFamily, NewFamilyEvent);
  }

  /** Every spiritual event is of a type that is on, and every visit, post and prayer of a type that is on is an event. */
  lemma {:induction false} SpiritualEventsSpec(visits: seq<Visitation.Visit>, h: History, types: map<string, bool>, e: Event)
    ensures e in SpiritualEvents(visits, h, types) ==> e.kind in {Visit, Forum, Prayer} && Enabled(types, KindKey(e.kind))
    ensures Enabled(types, "visitation") ==> forall v :: v in visits ==> VisitEvent(v) in SpiritualEvents(visits, h, types)
    ensures Enabled(types, "forum") ==> forall f :: f in h.forums ==> ForumEvent(f) in SpiritualEvents(visits, h, types)
    ensures Enabled(types, "prayer") ==> forall p :: p in h.prayers ==> PrayerEvent(p) in SpiritualEvents(visits, h, types)
  {
    SpiritualEventKinds(visits, h, types, e);
    var a := EventsIf(Enabled(types, "visitation"), visits, VisitEvent);
    var b := EventsIf(Enabled(types, "forum"), h.forums, ForumEvent);
    var c := EventsIf(Enabled(types, "prayer"), h.prayers, PrayerEvent);
    assert SpiritualEvents(visits, h, types) == a + b + c;
    EventsIfAll(Enabled(types, "visitation"), visits, VisitEvent);
    EventsIfAll(Enabled(types, "forum"), h.forums, ForumEvent);
    EventsIfAll(Enabled(types, "prayer"), h.prayers, PrayerEvent);
  }

  lemma {:induction false} SpiritualEventKinds(visits: seq<Visitation.Visit>, h: History, types: map<string, bool>, e: Event)
    ensures e in SpiritualEvents(visits, h, types) ==> e.kind in {Visit, Forum, Prayer} && Enabled(types, KindKey(e.kind))
  {
    var a := EventsIf(Enabled(types, "visitation"), visits, VisitEvent);
    var b := EventsIf(Enabled(types, "forum"), h.forums, ForumEvent);
    var c := EventsIf(Enabled(types, "prayer"), h.prayers, PrayerEvent);
    assert SpiritualEvents(visits, h, types) == a + b + c;
    if e in a {
      EventsIfKind(Enabled(types, "visitation"), visits, VisitEvent, Visit, e);
    } else if e in b {
      EventsIfKind(Enabled(types, "forum"), h.forums, ForumEvent, Forum, e);
    } else if e in c {
      EventsIfKind(Enabled(types, "prayer"), h.prayers, PrayerEvent, Prayer, e);
    }
  }

  // ---------------------------------------------------------------------
  // Grouping by year and ordering within a year
  // ---------------------------------------------------------------------

  predicate Selected(selectedYear: string, year: string)
  {
    selectedYear == AllYears || year == selectedYear
  }

  /** The list under a year, empty when the year has none yet. */
  function Under(byYear: map<string, seq<Event>>, y: string): seq<Event>
  {
    if y in byYear then byYear[y] else []
  }

  /** The events of the selected year (or all of them), pushed under their year in order. */
  function Grouped(events: seq<Event>, selectedYear: string): map<string, seq<Event>>
  {
    if events == [] then map[]
    else
      var g := Grouped(events[..|events| - 1], selectedYear);
      var e := events[|events| - 1];
      if Selected(selectedYear, e.year) then g[e.year := Under(g, e.year) + [e]] else g
  }

  /**
   * A year is a key iff a selected event has it, and the list under a
   * year holds exactly the selected events of that year.
   */
  lemma {:induction false} GroupedSpec(events: seq<Event>, selectedYear: string, y: string, e: Event)
    ensures y in Grouped(events, selectedYear) <==> exists x :: x in events && x.year == y && Selected(selectedYear, y)
    ensures e in Under(Grouped(events, selectedYear), y) <==> e in events && e.year == y && Selected(selectedYear, y)
  {
    if events != [] {
      var init := events[..|events| - 1];
      var last := events[|events| - 1];
      GroupedSpec(init, selectedYear, y, e);
      assert events == init + [last];
      if exists x :: x in events && x.year == y && Selected(selectedYear, y) {
        var x :| x in events && x.year == y && Selected(selectedYear, y);
        if x != last {
          assert x in init;
        }
      }
    }
  }

  /** `byYear.forEach` with `push`, as the loop the page runs. */
  method GroupByYear(events: seq<Event>, selectedYear: string) returns (byYear: map<string, seq<Event>>)
    ensures byYear == Grouped(events, selectedYear)
  {
    byYear := map[];
    var i := 0;
    while i < |events|
      invariant 0 <= i <= |events|
      invariant byYear == Grouped(events[..i], selectedYear)
    {
      var e := events[i];
      assert events[..i + 1][..i] == events[..i];
      if Selected(selectedYear, e.year) {
        if e.year !in byYear {
          byYear := byYear[e.year := []];
        }
        byYear := byYear[e.year := byYear[e.year] + [e]];
      }
      i := i + 1;
    }
    assert events[..|events|] == events;
  }

  /** Oldest first: `new Date(a.date) - new Date(b.date)`. */
  function OldestFirst(): (Event, Event) -> bool
  {
    (a: Event, b: Event) => StrLe(a.date, b.date)
  }

  /** Newest first: `new Date(b.date) - new Date(a.date)`. */
  function NewestFirst(): (Event, Event) -> bool
  {
    (a: Event, b: Event) => StrLe(b.date, a.date)
  }

  /** Each year's list sorted with `le`. */
  function SortEach(byYear: map<string, seq<Event>>, le: (Event, Event) -> bool): (r: map<string, seq<Event>>)
    ensures r.Keys == byYear.Keys
  {
    map y | y in byYear :: SortBy(byYear[y], le)
  }

  /** `Object.keys(byYear).forEach(year => byYear[year].sort(le))` */
  method SortYears(byYear: map<string, seq<Event>>, le: (Event, Event) -> bool) returns (r: map<string, seq<Event>>)
    ensures r == SortEach(byYear, le)
  {
    r := byYear;
    var todo := byYear.Keys;
    while todo != {}
      invariant todo <= byYear.Keys && r.Keys == byYear.Keys
      invariant forall y :: y in r ==> r[y] == if y in todo then byYear[y] else SortBy(byYear[y], le)
      decreases |todo|
    {
      var y :| y in todo;
      r := r[y := SortBy(r[y], le)];
      todo := todo - {y};
    }
  }

  /** `generateIntegratedTimeline`: the basic events grouped by year, oldest first within a year. */
  function IntegratedTimeline(h: History, types: map<string, bool>, selectedYear: string): map<string, seq<Event>>
  {
    SortEach(Grouped(BasicEvents(h, types), selectedYear), OldestFirst())
  }

  method GenerateIntegratedTimeline(h: History, types: map<string, bool>, selectedYear: string)
    returns (byYear: map<string, seq<Event>>)
    ensures byYear == IntegratedTimeline(h, types, selectedYear)
  {
    var allEvents := BasicEvents(h, types);
    byYear := GroupByYear(allEvents, selectedYear);
    byYear := SortYears(byYear, OldestFirst());
  }

  /** The comparators are total, so the sorted lists are ordered. */
  lemma {:induction false} OrdersTotal()
    ensures Total(OldestFirst()) && Total(NewestFirst())
  {
    forall a: Event, b: Event ensures StrLe(a.date, b.date) || StrLe(b.date, a.date) {
      StrLeTotalAt(a.date, b.date);
    }
  }

  /**
   * Only events of a type that is on and of the chosen year (or any year
   * under 전체) appear, each under its own year; every such event appears;
   * and each year's list runs oldest first.
   */
  lemma {:induction false} IntegratedTimelineSpec(h: History, types: map<string, bool>, selectedYear: string, y: string, e: Event)
    ensures var t := IntegratedTimeline(h, types, selectedYear);
      && (e in Under(t, y) <==> e in BasicEvents(h, types) && e.year == y && Selected(selectedYear, y))
      && (e in Under(t, y) ==> Enabled(types, KindKey(e.kind)))
      && (y in t ==> SortedBy(t[y], OldestFirst()))
  {
    var g := Grouped(BasicEvents(h, types), selectedYear);
    GroupedSpec(BasicEvents(h, types), selectedYear, y, e);
    BasicEventsSpec(h, types, e);
    if y in g {
      SortByElements(g[y], OldestFirst(), e);
      OrdersTotal();
      SortBySorted(g[y], OldestFirst());
    }
  }

  // ---------------------------------------------------------------------
  // The member's visits and the spiritual timeline
  // ---------------------------------------------------------------------

  /** A visit belongs to the member iff name, 국, 그룹, 순 and `parseInt(생일연도)` all agree. */
  function BelongsTo(m: MembersLegacy.Member): Visitation.Visit -> bool
  {
    (v: Visitation.Visit) => v.name == m.name && v.guk == m.department && v.group == m.group && v.sun == m.team
      && ParseInt(m.birthYear) == Some(v.birthYear)
  }

  function MemberVisitations(visits: seq<Visitation.Visit>, m: MembersLegacy.Member): seq<Visitation.Visit>
  {
    Filter(visits, BelongsTo(m))
  }

  /** The member's visits are exactly those that agree on all five fields, in their order; an unreadable birth year matches none. */
  lemma {:induction false} MemberVisitationsSpec(visits: seq<Visitation.Visit>, m: MembersLegacy.Member, v: Visitation.Visit)
    ensures v in MemberVisitations(visits, m) <==>
      v in visits && v.name == m.name && v.guk == m.department && v.group == m.group && v.sun == m.team
      && ParseInt(m.birthYear) == Some(v.birthYear)
    ensures ParseInt(m.birthYear).None? ==> MemberVisitations(visits, m) == []
  {
    var r := MemberVisitations(visits, m);
    forall i | 0 <= i < |r| ensures ParseInt(m.birthYear) == Some(r[i].birthYear) {
      assert BelongsTo(m)(r[i]);
    }
    assert |r| > 0 ==> ParseInt(m.birthYear) == Some(r[0].birthYear);
  }

  /** `generateSpiritualTimeline`: nothing without a member, else grouped by year, newest first within a year. */
  function SpiritualTimeline(member: Option<MembersLegacy.Member>, visits: seq<Visitation.Visit>, h: History,
                             types: map<string, bool>, selectedYear: string): map<string, seq<Event>>
  {
    if member.None? then map[]
    else SortEach(Grouped(SpiritualEvents(MemberVisitations(visits, member.value), h, types), selectedYear), NewestFirst())
  }

  method GenerateSpiritualTimeline(member: Option<MembersLegacy.Member>, visits: seq<Visitation.Visit>, h: History,
                                   types: map<string, bool>, selectedYear: string)
    returns (byYear: map<string, seq<Event>>)
    ensures byYear == SpiritualTimeline(member, visits, h, types, selectedYear)
  {
    if member.None? {
      return map[];
    }
    var mine := MemberVisitations(visits, member.value);
    var allActivities := SpiritualEvents(mine, h, types);
    byYear := GroupByYear(allActivities, selectedYear);
    byYear := SortYears(byYear, NewestFirst());
  }

  /**
   * Only the member's own visits, and posts and prayers, of a type that is
   * on and of the chosen year appear, each under its year, newest first.
   */
  lemma {:induction false} SpiritualTimelineSpec(m: MembersLegacy.Member, visits: seq<Visitation.Visit>, h: History,
                              types: map<string, bool>, selectedYear: string, y: string, e: Event)
    ensures var t := SpiritualTimeline(Some(m), visits, h, types, selectedYear);
      && (e in Under(t, y) <==> e in SpiritualEvents(MemberVisitations(visits, m), h, types) && e.year == y && Selected(selectedYear, y))
      && (e in Under(t, y) ==> Enabled(types, KindKey(e.kind)))
      && (y in t ==> SortedBy(t[y], NewestFirst()))
  {
    var evs := SpiritualEvents(MemberVisitations(visits, m), h, types);
    var g := Grouped(evs, selectedYear);
    GroupedSpec(evs, selectedYear, y, e);
    SpiritualEventsSpec(MemberVisitations(visits, m), h, types, e);
    if y in g {
      SortByElements(g[y], NewestFirst(), e);
      OrdersTotal();
      SortBySorted(g[y], NewestFirst());
    }
  }

  // ---------------------------------------------------------------------
  // Year lists
  // ---------------------------------------------------------------------

  /** The years the basic histories mention, in the order they are added to the set. */
  function BasicYears(h: History): seq<string>
  {
    seq(|h.departments|, i requires 0 <= i < |h.departments| => h.departments[i].year)
    + seq(|h.positions|, i requires 0 <= i < |h.positions| => h.positions[i].year)
    + seq(|h.absences|, i requires 0 <= i < |h.absences| => YearOf(h.absences[i].date))
    + seq(|h.newFamily|, i requires 0 <= i < |h.newFamily| => YearOf(h.newFamily[i].date))
  }

  /** `new Set()` filled by `add` in a loop: the first occurrences in order. */
  method CollectYears(items: seq<string>) returns (years: seq<string>)
    ensures years == Distinct(items)
  {
    years := [];
    var i := 0;
    while i < |items|
      invariant 0 <= i <= |items|
      invariant years == Distinct(items[..i])
    {
      assert items[..i + 1][..i] == items[..i];
      if items[i] !in years {
        years := years + [items[i]];
      }
      i := i + 1;
    }
    assert items[..|items|] == items;
  }

  /** Latest year first (`(a, b) => b - a`). */
  function LatestFirst(): (string, string) -> bool
  {
    (a: string, b: string) => StrLe(b, a)
  }

  /** `getAvailableYears` */
  method AvailableYears(h: History) returns (years: seq<string>)
    ensures years == SortBy(Distinct(BasicYears(h)), LatestFirst())
  {
    var set_ := CollectYears(BasicYears(h));
    years := SortBy(set_, LatestFirst());
  }

  /** The year lists are free of duplicates, latest first, and hold exactly the years that occur. */
  lemma {:induction false} YearListSpec(items: seq<string>, y: string)
    ensures var ys := SortBy(Distinct(items), LatestFirst());
      && NoDuplicates(ys) && SortedBy(ys, LatestFirst()) && (y in ys <==> y in items)
  {
    var d := Distinct(items);
    forall a: string, b: string ensures LatestFirst()(a, b) || LatestFirst()(b, a) {
      StrLeTotalAt(a, b);
    }
    SortBySorted(d, LatestFirst());
    SortByElements(d, LatestFirst(), y);
    PermutationNoDuplicates(d, SortBy(d, LatestFirst()));
  }

  /** The spiritual years: posts, prayers and the member's visits; none without a member. */
  function SpiritualYears(member: Option<MembersLegacy.Member>, visits: seq<Visitation.Visit>, h: History): seq<string>
  {
    if member.None? then []
    else
      var mine := MemberVisitations(visits, member.value);
      seq(|h.forums|, i requires 0 <= i < |h.forums| => YearOf(h.forums[i].date))
      + seq(|h.prayers|, i requires 0 <= i < |h.prayers| => YearOf(h.prayers[i].date))
      + seq(|mine|, i requires 0 <= i < |mine| => YearOf(mine[i].date))
  }

  /** `getSpiritualAvailableYears` */
  method SpiritualAvailableYears(member: Option<MembersLegacy.Member>, visits: seq<Visitation.Visit>, h: History)
    returns (years: seq<string>)
    ensures years == SortBy(Distinct(SpiritualYears(member, visits, h)), LatestFirst())
  {
    if member.None? {
      return [];
    }
    var set_ := CollectYears(SpiritualYears(member, visits, h));
    years := SortBy(set_, LatestFirst());
  }

  // ---------------------------------------------------------------------
  // Toggles and the page's state
  // ---------------------------------------------------------------------

  /** `{ ...prev, [key]: !prev[key] }`, a missing key reading as off. */
  function Flipped(m: map<string, bool>, key: string): map<string, bool>
  {
    m[key := !Enabled(m, key)]
  }

  /** A toggle flips exactly one key; a second toggle restores a key that was set. */
  lemma {:induction false} FlippedSpec(m: map<string, bool>, key: string, other: string)
    ensures Enabled(Flipped(m, key), key) <==> !Enabled(m, key)
    ensures other != key ==> (other in Flipped(m, key) <==> other in m)
    ensures other != key && other in m ==> Flipped(m, key)[other] == m[other]
    ensures key in m ==> Flipped(Flipped(m, key), key) == m
  {
  }

  /** Every type on, as the page starts. */
  function AllOn(keys: seq<string>): (m: map<string, bool>)
    ensures forall k :: k in keys ==> Enabled(m, k)
  {
    map k | k in keys :: true
  }

  /** The page: the route's id, the member found for it, the filters and the expanded years of both tabs. */
  class MemberPage {
    const routeId: string
    var member: Option<MembersLegacy.Member>
    var selectedYear: string
    var selectedTypes: map<string, bool>
    var expandedYears: map<string, bool>
    var spiritualSelectedYear: string
    var spiritualSelectedTypes: map<string, bool>
    var spiritualExpandedYears: map<string, bool>

    /** The member whose id is `parseInt(routeId)`, every type on and every year shown. */
    constructor(id: string, members: seq<MembersLegacy.Member>)
      ensures routeId == id
      ensures member == match ParseInt(id) case None => None case Some(n) => Find(members, (m: MembersLegacy.Member) => m.id == n)
      ensures selectedYear == AllYears && spiritualSelectedYear == AllYears
      ensures selectedTypes == AllOn(["department", "position", "absence", "newfamily"])
      ensures spiritualSelectedTypes == AllOn(["visitation", "forum", "prayer"])
      ensures expandedYears == map[] && spiritualExpandedYears == map[]
    {
      routeId := id;
      member := match ParseInt(id) case None => None case Some(n) => Find(members, (m: MembersLegacy.Member) => m.id == n);
      selectedYear := AllYears;
      spiritualSelectedYear := AllYears;
      selectedTypes := AllOn(["department", "position", "absence", "newfamily"]);
      spiritualSelectedTypes := AllOn(["visitation", "forum", "prayer"]);
      expandedYears := map[];
      spiritualExpandedYears := map[];
    }

    /** `handleTypeFilterChange` */
    method TypeFilterChange(key: string)
      modifies this
      ensures selectedTypes == Flipped(old(selectedTypes), key)
      ensures member == old(member) && selectedYear == old(selectedYear) && expandedYears == old(expandedYears)
      ensures spiritualSelectedYear == old(spiritualSelectedYear) && spiritualSelectedTypes == old(spiritualSelectedTypes)
      ensures spiritualExpandedYears == old(spiritualExpandedYears)
    {
      selectedTypes := Flipped(selectedTypes, key);
    }

    /** `handleSpiritualTypeFilterChange` */
    method SpiritualTypeFilterChange(key: string)
      modifies this
      ensures spiritualSelectedTypes == Flipped(old(spiritualSelectedTypes), key)
      ensures member == old(member) && selectedYear == old(selectedYear) && selectedTypes == old(selectedTypes)
      ensures expandedYears == old(expandedYears)
      ensures spiritualSelectedYear == old(spiritualSelectedYear) && spiritualExpandedYears == old(spiritualExpandedYears)
    {
      spiritualSelectedTypes := Flipped(spiritualSelectedTypes, key);
    }

    /** `toggleYearExpansion` */
    method ToggleYear(year: string)
      modifies this
      ensures expandedYears == Flipped(old(expandedYears), year)
      ensures member == old(member) && selectedTypes == old(selectedTypes) && selectedYear == old(selectedYear)
      ensures spiritualSelectedYear == old(spiritualSelectedYear) && spiritualSelectedTypes == old(spiritualSelectedTypes)
      ensures spiritualExpandedYears == old(spiritualExpandedYears)
    {
      expandedYears := Flipped(expandedYears, year);
    }

    /** The effect on the year and type filters: every year the timeline shows starts expanded. */
    method ExpandBasicYears(h: History)
      modifies this
      ensures expandedYears == map y | y in Grouped(BasicEvents(h, selectedTypes), selectedYear) :: true
      ensures forall y :: y in IntegratedTimeline(h, selectedTypes, selectedYear) ==> Enabled(expandedYears, y)
      ensures member == old(member) && selectedTypes == old(selectedTypes) && selectedYear == old(selectedYear)
      ensures spiritualSelectedYear == old(spiritualSelectedYear) && spiritualSelectedTypes == old(spiritualSelectedTypes)
      ensures spiritualExpandedYears == old(spiritualExpandedYears)
    {
      var byYear := GroupByYear(BasicEvents(h, selectedTypes), selectedYear);
      expandedYears := map y | y in byYear :: true;
    }

    /** The spiritual events of the chosen types and year, grouped. */
    function SpiritualGroups(m: MembersLegacy.Member, visits: seq<Visitation.Visit>, h: History): map<string, seq<Event>>
      reads this
    {
      Grouped(SpiritualEvents(MemberVisitations(visits, m), h, spiritualSelectedTypes), spiritualSelectedYear)
    }

    /** The same effect for the spiritual tab; nothing happens without a member. */
    method ExpandSpiritualYears(visits: seq<Visitation.Visit>, h: History)
      modifies this
      ensures member.Some? ==>
                spiritualExpandedYears == map y | y in SpiritualGroups(member.value, visits, h) :: true
      ensures member.None? ==> spiritualExpandedYears == old(spiritualExpandedYears)
      ensures forall y :: y in SpiritualTimeline(member, visits, h, spiritualSelectedTypes, spiritualSelectedYear)
                          ==> Enabled(spiritualExpandedYears, y)
      ensures member == old(member) && spiritualSelectedTypes == old(spiritualSelectedTypes)
      ensures spiritualSelectedYear == old(spiritualSelectedYear)
      ensures selectedYear == old(selectedYear) && selectedTypes == old(selectedTypes) && expandedYears == old(expandedYears)
    {
      if member.None? {
        return;
      }
      var mine := MemberVisitations(visits, member.value);
      var byYear := GroupByYear(SpiritualEvents(mine, h, spiritualSelectedTypes), spiritualSelectedYear);
      spiritualExpandedYears := map y | y in byYear :: true;
    }

    /**
     * `memberAffiliationChanged`: when a member is shown and its id is
     * among the moved ones, its three affiliations take the new values.
     */
    method AffiliationChanged(e: MembersLegacy.AffiliationEvent)
      modifies this
      ensures (member.Some? && old(member).Some? && ParseInt(routeId).Some? && ParseInt(routeId).value in e.memberIds)
        || member == old(member)
      ensures old(member).Some? && ParseInt(routeId).Some? && ParseInt(routeId).value in e.memberIds ==>
        member == Some(MembersLegacy.Moved(old(member).value, e.department, e.group, e.team))
      ensures selectedYear == old(selectedYear) && selectedTypes == old(selectedTypes) && expandedYears == old(expandedYears)
      ensures spiritualSelectedYear == old(spiritualSelectedYear) && spiritualSelectedTypes == old(spiritualSelectedTypes)
      ensures spiritualExpandedYears == old(spiritualExpandedYears)
    {
      var id := ParseInt(routeId);
      if id.Some? && id.value in e.memberIds && member.Some? {
        member := Some(MembersLegacy.Moved(member.value, e.department, e.group, e.team));
      }
    }
  }

  /** After a change event for the shown member, it carries exactly the announced affiliation. */
  lemma {:induction false} AffiliationEventMoves(m: MembersLegacy.Member, e: MembersLegacy.AffiliationEvent)
    ensures var moved := MembersLegacy.Moved(m, e.department, e.group, e.team);
      moved.id == m.id && moved.name == m.name && moved.birthYear == m.birthYear && moved.other == m.other
      && moved.department == e.department && moved.group == e.group && moved.team == e.team
  {
  }
}
