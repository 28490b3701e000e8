/**
 * The forum and one-line-prayer pages (src/components/ForumManagement.js,
 * src/components/main/ForumManagement.tsx, src/components/ForumDetail.js):
 * posts derived from the member list, their date stamps, the prayer CSV
 * export, the tab taken from the query string, the detail look-up and the
 * page buttons.  The fixed lists of ten sample texts are a parameter.
 */
module Forum {
  import opened Common

  datatype Member = Member(id: int, name: string, guk: string, group: string, sun: string)

  /** A forum post or a prayer: who wrote it, where they belong, when, and its text. */
  datatype Post = Post(id: int, name: string, avatar: string, meta: string, date: string, text: string)

  // ---------------------------------------------------------------------
  // Deriving posts from members
  // ---------------------------------------------------------------------

  /** `name.charAt(0)` */
  function Avatar(name: string): (a: string)
    ensures |a| == (if name == "" then 0 else 1)
    ensures name != "" ==> a[0] == name[0]
  {
    if name == "" then "" else [name[0]]
  }

  /** `${소속국} | ${소속그룹} | ${소속순}` */
  function Meta(m: Member): string
  {
    m.guk + " | " + m.group + " | " + m.sun
  }

  /** `String(n).padStart(2, '0')` for a number below 100. */
  function Pad2(n: nat): (s: string)
    requires n < 100
  {
    if n < 10 then "0" + NatToString(n) else NatToString(n)
  }

  lemma {:induction false} NatToStringTwoDigits(n: nat)
    requires 10 <= n < 100
    ensures |NatToString(n)| == 2
  {
    assert NatToString(n) == NatToString(n / 10) + [DigitChar(n % 10)];
  }

  /** The padded text is two digits that read back as the number. */
  lemma {:induction false} Pad2Value(n: nat)
    requires n < 100
    ensures |Pad2(n)| == 2 && AllDigits(Pad2(n)) && DigitsValue(Pad2(n)) == n
  {
    NatToStringValue(n);
    if n < 10 {
      var s := Pad2(n);
      assert s[..1] == "0";
    } else {
      NatToStringTwoDigits(n);
    }
  }

  /** The forum list's date in ForumManagement.js: day 7, 8 or 9 of August 2024. */
  function ForumDay(index: nat): string
  {
    "2024-08-" + Pad2(7 + index % 3)
  }

  /** The prayer list's date in ForumManagement.js: day 7 or 8. */
  function PrayerDay(index: nat): string
  {
    "2024-08-" + Pad2(7 + index % 2)
  }

  /** The forum time stamp of ForumDetail.js and ForumManagement.tsx. */
  function ForumStamp(index: nat): string
  {
    ForumDay(index) + " " + Pad2(19 + index % 2) + ":" + Pad2((index * 15) % 60)
  }

  /** The prayer time stamp of ForumManagement.tsx. */
  function PrayerStamp(index: nat): string
  {
    PrayerDay(index) + " 10:00"
  }

  /**
   * A forum stamp reads back as day 7 + i mod 3, hour 19 + i mod 2 and
   * minute 15·i mod 60, each in its fixed two-digit field.
   */
  lemma {:induction false} ForumStampFields(index: nat)
    ensures var s := ForumStamp(index);
      && |s| == 16 && s[..8] == "2024-08-" && s[10] == ' ' && s[13] == ':'
      && AllDigits(s[8..10]) && DigitsValue(s[8..10]) == 7 + index % 3
      && AllDigits(s[11..13]) && DigitsValue(s[11..13]) == 19 + index % 2
      && AllDigits(s[14..16]) && DigitsValue(s[14..16]) == (index * 15) % 60
  {
    var d := Pad2(7 + index % 3);
    var h := Pad2(19 + index % 2);
    var m := Pad2((index * 15) % 60);
    Pad2Value(7 + index % 3);
    Pad2Value(19 + index % 2);
    Pad2Value((index * 15) % 60);
    var s := ForumStamp(index);
    assert s == "2024-08-" + d + " " + h + ":" + m;
    StampSlices(d, h, m);
  }

  lemma {:induction false} StampSlices(d: string, h: string, m: string)
    requires |d| == 2 && |h| == 2 && |m| == 2
    ensures var s := "2024-08-" + d + " " + h + ":" + m;
      && |s| == 16 && s[..8] == "2024-08-" && s[10] == ' ' && s[13] == ':'
      && s[8..10] == d && s[11..13] == h && s[14..16] == m
  {
  }

  /** A prayer stamp reads back as day 7 + i mod 2 at 10:00. */
  lemma {:induction false} PrayerStampFields(index: nat)
    ensures var s := PrayerStamp(index);
      && |s| == 16 && s[..8] == "2024-08-" && s[10..] == " 10:00"
      && AllDigits(s[8..10]) && DigitsValue(s[8..10]) == 7 + index % 2
  {
    var d := Pad2(7 + index % 2);
    Pad2Value(7 + index % 2);
    var s := PrayerStamp(index);
    assert s == "2024-08-" + d + " 10:00";
    assert s[8..10] == d;
  }

  /** `members.map((member, index) => ...)` with a date scheme and ten sample texts. */
  function Posts(members: seq<Member>, date: nat -> string, texts: seq<string>): (ps: seq<Post>)
    requires |texts| == 10
    ensures |ps| == |members|
  {
    seq(|members|, i requires 0 <= i < |members| =>
      Post(members[i].id, members[i].name, Avatar(members[i].name), Meta(members[i]), date(i), texts[i % 10]))
  }

  /**
   * One post per member, in member order: it carries the member's id and
   * name, the name's first character, the affiliation, the i-th date and
   * the (i mod 10)-th text.
   */
  lemma {:induction false} PostsPerMember(members: seq<Member>, date: nat -> string, texts: seq<string>, i: nat)
    requires |texts| == 10 && i < |members|
    ensures var p := Posts(members, date, texts)[i];
      && p.id == members[i].id && p.name == members[i].name
      && (members[i].name != "" ==> p.avatar == [members[i].name[0]])
      && p.meta == members[i].guk + " | " + members[i].group + " | " + members[i].sun
      && p.date == date(i) && p.text == texts[i % 10]
      && (i + 10 < |members| ==> Posts(members, date, texts)[i + 10].text == p.text)
  {
    var m := members[i];
    var a := Avatar(m.name);
    assert Posts(members, date, texts)[i] == Post(m.id, m.name, a, Meta(m), date(i), texts[i % 10]);
    assert Meta(m) == m.guk + " | " + m.group + " | " + m.sun;
    if members[i].name != "" {
      assert a == [members[i].name[0]];
    }
  }

  // ---------------------------------------------------------------------
  // The prayer CSV export (ForumManagement.js)
  // ---------------------------------------------------------------------

  const Bom := "\U{FEFF}"
  const PrayerHeaders: seq<string> := ["이름", "소속", "기도문", "등록일"]

  /** `"${field.replace(/"/g, '""')}"` */
  function QuoteField(field: string): string
  {
    "\"" + ReplaceAll(field, '"', "\"\"") + "\""
  }

  /** Reading a quoted field's body: each doubled quote stands for one quote. */
  function Undouble(s: string): string
  {
    if s == [] then []
    else if |s| >= 2 && s[0] == '"' && s[1] == '"' then ['"'] + Undouble(s[2..])
    else [s[0]] + Undouble(s[1..])
  }

  /** Doubling quotes is undone by reading them back. */
  lemma {:induction false} UndoubleDoubled(s: string)
    ensures Undouble(ReplaceAll(s, '"', "\"\"")) == s
  {
    if s != [] {
      var rest := ReplaceAll(s[1..], '"', "\"\"");
      UndoubleDoubled(s[1..]);
      if s[0] == '"' {
        assert ReplaceAll(s, '"', "\"\"") == "\"\"" + rest;
        UndoubleQuote(rest);
      } else {
        assert ReplaceAll(s, '"', "\"\"") == [s[0]] + rest;
        UndoubleOther(s[0], rest);
      }
      assert s == [s[0]] + s[1..];
    }
  }

  lemma {:induction false} UndoubleQuote(rest: string)
    ensures Undouble("\"\"" + rest) == ['"'] + Undouble(rest)
  {
    assert ("\"\"" + rest)[2..] == rest;
  }

  lemma {:induction false} UndoubleOther(c: char, rest: string)
    requires c != '"'
    ensures Undouble([c] + rest) == [c] + Undouble(rest)
  {
    assert ([c] + rest)[1..] == rest;
  }

  /** A quoted field starts and ends with a quote and its body reads back as the field. */
  lemma {:induction false} QuoteFieldRoundTrip(field: string)
    ensures var q := QuoteField(field);
      |q| >= 2 && q[0] == '"' && q[|q| - 1] == '"' && Undouble(q[1..|q| - 1]) == field
  {
    var q := QuoteField(field);
    assert q[1..|q| - 1] == ReplaceAll(field, '"', "\"\"");
    UndoubleDoubled(field);
  }

  /** One CSV line: name, affiliation, prayer and date, each quoted. */
  function PrayerLine(p: Post): string
  {
    Join([QuoteField(p.name), QuoteField(p.meta), QuoteField(p.text), QuoteField(p.date)], ",")
  }

  function PrayerLines(prayers: seq<Post>): (lines: seq<string>)
    ensures |lines| == |prayers|
    ensures forall i :: 0 <= i < |prayers| ==> lines[i] == PrayerLine(prayers[i])
  {
    seq(|prayers|, i requires 0 <= i < |prayers| => PrayerLine(prayers[i]))
  }

  /** `handleExportPrayerCSV`'s text: the byte-order mark, the header line, then one line per prayer. */
  function PrayerCsv(prayers: seq<Post>): string
  {
    Bom + Join([Join(PrayerHeaders, ",")] + PrayerLines(prayers), "\n")
  }

  lemma {:induction false} QuoteFieldNoNewline(field: string)
    requires '\n' !in field
    ensures '\n' !in QuoteField(field)
  {
  }

  lemma {:induction false} JoinNoNewline(parts: seq<string>, sep: string)
    requires '\n' !in sep
    requires forall i :: 0 <= i < |parts| ==> '\n' !in parts[i]
    ensures '\n' !in Join(parts, sep)
  {
    if |parts| >= 2 {
      JoinNoNewline(parts[1..], sep);
    }
  }

  predicate SingleLine(p: Post)
  {
    '\n' !in p.name && '\n' !in p.meta && '\n' !in p.text && '\n' !in p.date
  }

  lemma {:induction false} PrayerLineSingle(p: Post)
    requires SingleLine(p)
    ensures '\n' !in PrayerLine(p)
  {
    QuoteFieldNoNewline(p.name);
    QuoteFieldNoNewline(p.meta);
    QuoteFieldNoNewline(p.text);
    QuoteFieldNoNewline(p.date);
    JoinNoNewline([QuoteField(p.name), QuoteField(p.meta), QuoteField(p.text), QuoteField(p.date)], ",");
  }

  /**
   * When no field holds a line break, the export after its byte-order mark
   * is exactly the header line followed by one line per prayer.
   */
  lemma {:induction false} PrayerCsvLines(prayers: seq<Post>)
    requires forall i :: 0 <= i < |prayers| ==> SingleLine(prayers[i])
    ensures PrayerCsv(prayers)[..1] == Bom
    ensures Split(PrayerCsv(prayers)[1..], '\n') == [Join(PrayerHeaders, ",")] + PrayerLines(prayers)
  {
    var lines := [Join(PrayerHeaders, ",")] + PrayerLines(prayers);
    forall i | 0 <= i < |lines|
      ensures '\n' !in lines[i]
    {
      if i == 0 {
        JoinNoNewline(PrayerHeaders, ",");
      } else {
        PrayerLineSingle(prayers[i - 1]);
      }
    }
    SplitJoined(lines, '\n');
    assert PrayerCsv(prayers)[1..] == Join(lines, "\n");
  }

  // ---------------------------------------------------------------------
  // Tabs, details and paging
  // ---------------------------------------------------------------------

  const TabKeys: seq<string> := ["forum", "prayer"]

  /** The `tab` query parameter effect: a known tab is selected, anything else is ignored. */
  function TabFromQuery(current: string, query: Option<string>): (tab: string)
  {
    if query.Some? && query.value != "" && query.value in TabKeys then query.value else current
  }

  /** The selected tab only ever becomes a known tab, and only the one named in the query. */
  lemma {:induction false} TabFromQueryKnown(current: string, query: Option<string>)
    ensures current in TabKeys ==> TabFromQuery(current, query) in TabKeys
    ensures TabFromQuery(current, query) != current ==> query == Some(TabFromQuery(current, query)) && query.value in TabKeys
    ensures query.Some? && query.value in TabKeys ==> TabFromQuery(current, query) == query.value
  {
  }

  /** The post whose id is `id`, the first one when several share it. */
  function PostById(posts: seq<Post>, id: int): Option<Post>
  {
    Find(posts, (p: Post) => p.id == id)
  }

  lemma {:induction false} PostByIdSpec(posts: seq<Post>, id: int)
    ensures PostById(posts, id).Some? ==> PostById(posts, id).value in posts && PostById(posts, id).value.id == id
    ensures PostById(posts, id).None? <==> forall p :: p in posts ==> p.id != id
  {
    var r := PostById(posts, id);
    if r.None? {
      forall p | p in posts ensures p.id != id {
        var i :| 0 <= i < |posts| && posts[i] == p;
      }
    }
  }

  /** What "details" does in ForumManagement.js. */
  datatype Action = OpenPrayer(prayer: Option<Post>) | NavigateTo(path: string)

  /** `handleViewDetails` of ForumManagement.js: prayers open in a dialog, forum posts on their page. */
  function ViewDetailsJs(prayers: seq<Post>, id: int, kind: string): (a: Action)
    ensures kind == "prayer" ==> a.OpenPrayer?
    ensures kind != "prayer" ==> a == NavigateTo("/forum/" + IntToString(id))
  {
    if kind == "prayer" then OpenPrayer(PostById(prayers, id)) else NavigateTo("/forum/" + IntToString(id))
  }

  /** The dialog state of ForumManagement.tsx. */
  datatype Modal = Modal(selected: Option<Post>, modalType: string, isOpen: bool)

  const Closed := Modal(None, "", false)

  /** `handleViewDetails` of ForumManagement.tsx: look the id up in the list of its kind and open. */
  function ViewDetails(forums: seq<Post>, prayers: seq<Post>, id: int, kind: string): Modal
  {
    if kind == "prayer" then Modal(PostById(prayers, id), "prayer", true)
    else Modal(PostById(forums, id), "forum", true)
  }

  /** `handleCloseModal` */
  function CloseModal(m: Modal): (r: Modal)
    ensures r == Closed
  {
    Modal(None, "", false)
  }

  /** The dialog opens on a record of the requested kind with that id, or on none when there is none. */
  lemma {:induction false} ViewDetailsSelects(forums: seq<Post>, prayers: seq<Post>, id: int, kind: string)
    ensures var m := ViewDetails(forums, prayers, id, kind);
      var list := if kind == "prayer" then prayers else forums;
      && m.isOpen && m.modalType == (if kind == "prayer" then "prayer" else "forum")
      && (m.selected.Some? ==> m.selected.value in list && m.selected.value.id == id)
      && (m.selected.None? <==> forall p :: p in list ==> p.id != id)
  {
    PostByIdSpec(prayers, id);
    PostByIdSpec(forums, id);
  }

  /** The page after "previous" and after "next" on the five-page bar. */
  function PrevPage(page: int): (p: int)
  {
    if page - 1 > 1 then page - 1 else 1
  }

  function NextPage(page: int): (p: int)
  {
    if page + 1 < 5 then page + 1 else 5
  }

  /** The buttons keep the page within 1..5 and move it by one inside that range. */
  lemma {:induction false} PageButtonsBounded(page: int)
    requires 1 <= page <= 5
    ensures 1 <= PrevPage(page) <= 5 && 1 <= NextPage(page) <= 5
    ensures page > 1 ==> PrevPage(page) == page - 1 && NextPage(PrevPage(page)) == page
    ensures page < 5 ==> NextPage(page) == page + 1 && PrevPage(NextPage(page)) == page
    ensures PrevPage(1) == 1 && NextPage(5) == 5
  {
  }

  // ---------------------------------------------------------------------
  // The detail page (ForumDetail.js)
  // ---------------------------------------------------------------------

  datatype Detail = Show(post: Post) | BackToList(path: string)

  /** The effect on the route's `id`: show the post whose id is `parseInt(id)`, else go back to the list. */
  function DetailFor(posts: seq<Post>, idParam: string): Detail
  {
    match ParseInt(idParam)
    case None => BackToList("/forum")
    case Some(n) =>
      match PostById(posts, n)
      case Some(p) => Show(p)
      case None => BackToList("/forum")
  }

  /** A shown post is the one the route names; going back means no post has that id. */
  lemma {:induction false} DetailForSpec(posts: seq<Post>, idParam: string)
    ensures DetailFor(posts, idParam).Show? ==>
      DetailFor(posts, idParam).post in posts && ParseInt(idParam) == Some(DetailFor(posts, idParam).post.id)
    ensures DetailFor(posts, idParam).BackToList? ==>
      DetailFor(posts, idParam).path == "/forum"
      && (ParseInt(idParam).None? || forall p :: p in posts ==> p.id != ParseInt(idParam).value)
  {
    if ParseInt(idParam).Some? {
      PostByIdSpec(posts, ParseInt(idParam).value);
    }
  }

  /** Following a list link `/forum/{id}` to the detail page finds that post. */
  lemma {:induction false} LinkFindsPost(posts: seq<Post>, i: nat)
    requires i < |posts| && posts[i].id >= 0
    ensures DetailFor(posts, NatToString(posts[i].id)).Show?
    ensures DetailFor(posts, NatToString(posts[i].id)).post.id == posts[i].id
  {
    ParseIntNatToString(posts[i].id);
    PostByIdSpec(posts, posts[i].id);
    assert posts[i] in posts;
  }
}
