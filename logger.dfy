/**
 * The logging utility (src/utils/logger.ts): masking of sensitive
 * metadata, the level filter, and where an entry goes (the console in
 * development, browser storage for warnings and errors in production).
 */
module Logger {
  import opened Common

  // ---------------------------------------------------------------------
  // Values
  // ---------------------------------------------------------------------

  /** A JavaScript value as the logger sees it; objects keep their key order. */
  datatype Json =
    | JUndefined
    | JNull
    | JBool(b: bool)
    | JNum(n: int)
    | JStr(s: string)
    | JArr(items: seq<Json>)
    | JObj(entries: seq<Entry>)

  datatype Entry = Entry(key: string, value: Json)

  /** `typeof v === 'object' && v !== null` */
  predicate IsObject(v: Json)
  {
    v.JArr? || v.JObj?
  }

  /** JavaScript truthiness. */
  predicate IsTruthy(v: Json)
  {
    match v
    case JUndefined => false
    case JNull => false
    case JBool(b) => b
    case JNum(n) => n != 0
    case JStr(s) => s != ""
    case _ => true
  }

  // ---------------------------------------------------------------------
  // Sensitive keys
  // ---------------------------------------------------------------------

  const Masked := "***MASKED***"

  /** The `sensitiveKeys` list as written. */
  const SensitiveKeys: seq<string> := [
    "password", "token", "secret", "key", "auth", "credential", "session", "cookie",
    "email", "phone", "address", "personalInfo", "birthDate", "ssn", "id"]

  /**
   * The test as written: the lower-cased key is searched for each listed
   * word, two of which contain capitals.
   */
  predicate IsSensitiveAsWritten(key: string)
  {
    exists i :: 0 <= i < |SensitiveKeys| && Contains(ToLower(key), SensitiveKeys[i])
  }

  /** The test with the listed words lower-cased as well, as the list evidently means. */
  predicate IsSensitive(key: string)
  {
    exists i :: 0 <= i < |SensitiveKeys| && Contains(ToLower(key), ToLower(SensitiveKeys[i]))
  }

  /** Every key the written test masks, the corrected test masks too. */
  lemma {:induction false} SensitiveCoversAsWritten(key: string)
    requires IsSensitiveAsWritten(key)
    ensures IsSensitive(key)
  {
    var lower := ToLower(key);
    var i :| 0 <= i < |SensitiveKeys| && Contains(lower, SensitiveKeys[i]);
    var w := SensitiveKeys[i];
    var j := ContainsWitness(lower, w);
    assert forall m :: 0 <= m < |w| ==> w[m] == lower[j + m];
    assert ToLower(w) == w;
  }

  /** A word with a character the text lacks does not occur in it. */
  lemma {:induction false} CharOf(t: string, w: string, c: char)
    requires c in w && c !in t
    ensures !Contains(t, w)
  {
    CharIn(t, w, c);
  }

  lemma {:induction false} CharIn(t: string, w: string, c: char)
    requires c in w
    ensures Contains(t, w) ==> c in t
  {
    if Contains(t, w) {
      var k := ContainsWitness(t, w);
      var j :| 0 <= j < |w| && w[j] == c;
      assert t[k + j] == c;
    }
  }

  /** A word whose first two characters are never adjacent in the text does not occur in it. */
  lemma {:induction false} PairOf(t: string, w: string)
    requires |w| >= 2
    requires forall k :: 0 <= k < |t| - 1 ==> !(t[k] == w[0] && t[k + 1] == w[1])
    ensures !Contains(t, w)
  {
    PairIn(t, w);
  }

  lemma {:induction false} PairIn(t: string, w: string)
    requires |w| >= 2
    ensures Contains(t, w) ==> exists k :: 0 <= k < |t| - 1 && t[k] == w[0] && t[k + 1] == w[1]
  {
    if Contains(t, w) {
      var k := ContainsWitness(t, w);
      assert t[k] == w[0] && t[k + 1] == w[1];
    }
  }

  /** No listed word occurs in "birthdate". */
  lemma {:induction false} NoWordInBirthdate(i: nat)
    requires i < |SensitiveKeys|
    ensures !Contains("birthdate", SensitiveKeys[i])
  {
    if i < 4 {
      NoWordInBirthdate0(i);
    } else if i < 8 {
      NoWordInBirthdate1(i);
    } else if i < 12 {
      NoWordInBirthdate2(i);
    } else {
      NoWordInBirthdate3(i);
    }
  }

  lemma {:induction false} NoWordInBirthdate0(i: nat)
    requires 0 <= i < 4
    ensures !Contains("birthdate", SensitiveKeys[i])
  {
    var t := "birthdate";
    if i == 0 {
      assert SensitiveKeys[i] == "password";
      CharOf(t, "password", 'p');
    } else if i == 1 {
      assert SensitiveKeys[i] == "token";
      CharOf(t, "token", 'o');
    } else if i == 2 {
      assert SensitiveKeys[i] == "secret";
      CharOf(t, "secret", 's');
    } else {
      assert SensitiveKeys[i] == "key";
      CharOf(t, "key", 'k');
    }
  }

  lemma {:induction false} NoWordInBirthdate1(i: nat)
    requires 4 <= i < 8
    ensures !Contains("birthdate", SensitiveKeys[i])
  {
    var t := "birthdate";
    if i == 4 {
      assert SensitiveKeys[i] == "auth";
      CharOf(t, "auth", 'u');
    } else if i == 5 {
      assert SensitiveKeys[i] == "credential";
      CharOf(t, "credential", 'c');
    } else if i == 6 {
      assert SensitiveKeys[i] == "session";
      CharOf(t, "session", 's');
    } else {
      assert SensitiveKeys[i] == "cookie";
      CharOf(t, "cookie", 'c');
    }
  }

  lemma {:induction false} NoWordInBirthdate2(i: nat)
    requires 8 <= i < 12
    ensures !Contains("birthdate", SensitiveKeys[i])
  {
    var t := "birthdate";
    if i == 8 {
      assert SensitiveKeys[i] == "email";
      CharOf(t, "email", 'm');
    } else if i == 9 {
      assert SensitiveKeys[i] == "phone";
      CharOf(t, "phone", 'p');
    } else if i == 10 {
      assert SensitiveKeys[i] == "address";
      CharOf(t, "address", 's');
    } else {
      assert SensitiveKeys[i] == "personalInfo";
      CharOf(t, "personalInfo", 'p');
    }
  }

  lemma {:induction false} NoWordInBirthdate3(i: nat)
    requires 12 <= i < 15
    ensures !Contains("birthdate", SensitiveKeys[i])
  {
    var t := "birthdate";
    if i == 12 {
      assert SensitiveKeys[i] == "birthDate";
      CharOf(t, "birthDate", 'D');
    } else if i == 13 {
      assert SensitiveKeys[i] == "ssn";
      CharOf(t, "ssn", 's');
    } else {
      assert SensitiveKeys[i] == "id";
      PairOf(t, "id");
    }
  }

  /** No listed word occurs in "personalinfo". */
  lemma {:induction false} NoWordInPersonalinfo(i: nat)
    requires i < |SensitiveKeys|
    ensures !Contains("personalinfo", SensitiveKeys[i])
  {
    if i < 4 {
      NoWordInPersonalinfo0(i);
    } else if i < 8 {
      NoWordInPersonalinfo1(i);
    } else if i < 12 {
      NoWordInPersonalinfo2(i);
    } else {
      NoWordInPersonalinfo3(i);
    }
  }

  lemma {:induction false} NoWordInPersonalinfo0(i: nat)
    requires 0 <= i < 4
    ensures !Contains("personalinfo", SensitiveKeys[i])
  {
    var t := "personalinfo";
    if i == 0 {
      assert SensitiveKeys[i] == "password";
      CharOf(t, "password", 'w');
    } else if i == 1 {
      assert SensitiveKeys[i] == "token";
      CharOf(t, "token", 't');
    } else if i == 2 {
      assert SensitiveKeys[i] == "secret";
      CharOf(t, "secret", 'c');
    } else {
      assert SensitiveKeys[i] == "key";
      CharOf(t, "key", 'k');
    }
  }

  lemma {:induction false} NoWordInPersonalinfo1(i: nat)
    requires 4 <= i < 8
    ensures !Contains("personalinfo", SensitiveKeys[i])
  {
    var t := "personalinfo";
    if i == 4 {
      assert SensitiveKeys[i] == "auth";
      CharOf(t, "auth", 'u');
    } else if i == 5 {
      assert SensitiveKeys[i] == "credential";
      CharOf(t, "credential", 'c');
    } else if i == 6 {
      assert SensitiveKeys[i] == "session";
      PairOf(t, "session");
    } else {
      assert SensitiveKeys[i] == "cookie";
      CharOf(t, "cookie", 'c');
    }
  }

  lemma {:induction false} NoWordInPersonalinfo2(i: nat)
    requires 8 <= i < 12
    ensures !Contains("personalinfo", SensitiveKeys[i])
  {
    var t := "personalinfo";
    if i == 8 {
      assert SensitiveKeys[i] == "email";
      CharOf(t, "email", 'm');
    } else if i == 9 {
      assert SensitiveKeys[i] == "phone";
      CharOf(t, "phone", 'h');
    } else if i == 10 {
      assert SensitiveKeys[i] == "address";
      CharOf(t, "address", 'd');
    } else {
      assert SensitiveKeys[i] == "personalInfo";
      CharOf(t, "personalInfo", 'I');
    }
  }

  lemma {:induction false} NoWordInPersonalinfo3(i: nat)
    requires 12 <= i < 15
    ensures !Contains("personalinfo", SensitiveKeys[i])
  {
    var t := "personalinfo";
    if i == 12 {
      assert SensitiveKeys[i] == "birthDate";
      CharOf(t, "birthDate", 'b');
    } else if i == 13 {
      assert SensitiveKeys[i] == "ssn";
      PairOf(t, "ssn");
    } else {
      assert SensitiveKeys[i] == "id";
      CharOf(t, "id", 'd');
    }
  }

  lemma {:induction false} BirthDateAsWritten()
    ensures !IsSensitiveAsWritten("birthDate")
  {
    LowerBirthDate();
    forall i | 0 <= i < |SensitiveKeys| ensures !Contains("birthdate", SensitiveKeys[i]) {
      NoWordInBirthdate(i);
    }
  }

  lemma {:induction false} PersonalInfoAsWritten()
    ensures !IsSensitiveAsWritten("personalInfo")
  {
    LowerPersonalInfo();
    forall i | 0 <= i < |SensitiveKeys| ensures !Contains("personalinfo", SensitiveKeys[i]) {
      NoWordInPersonalinfo(i);
    }
  }

  lemma {:induction false} BirthDateCorrected()
    ensures IsSensitive("birthDate")
  {
    ListedIsSensitive("birthDate", 12);
  }

  lemma {:induction false} PersonalInfoCorrected()
    ensures IsSensitive("personalInfo")
  {
    ListedIsSensitive("personalInfo", 11);
  }

  /** Under the corrected test, every listed word is itself sensitive. */
  lemma {:induction false} ListedIsSensitive(key: string, i: nat)
    requires i < |SensitiveKeys| && SensitiveKeys[i] == key
    ensures IsSensitive(key)
  {
    var t := ToLower(key);
    ContainsAt(t, t, 0);
    assert Contains(ToLower(key), ToLower(SensitiveKeys[i]));
  }

  lemma {:induction false} LowerPersonalInfo()
    ensures ToLower("personalInfo") == "personalinfo"
  {
    LowerCharwise("personalInfo", "personalinfo");
  }

  lemma {:induction false} LowerBirthDate()
    ensures ToLower("birthDate") == "birthdate"
  {
    LowerCharwise("birthDate", "birthdate");
  }

  /** Lower-casing works character by character. */
  lemma {:induction false} LowerCharwise(s: string, t: string)
    requires |s| == |t| && forall i :: 0 <= i < |s| ==> LowerChar(s[i]) == t[i]
    ensures ToLower(s) == t
  {
  }

  /**
   * The capitalised words can never occur in a lower-cased key: a
   * `birthDate` or `personalInfo` field passes the written test, and the
   * corrected test catches it.
   */
  lemma {:induction false} CapitalisedKeysNotSensitiveAsWritten()
    ensures !IsSensitiveAsWritten("birthDate") && IsSensitive("birthDate")
    ensures !IsSensitiveAsWritten("personalInfo") && IsSensitive("personalInfo")
  {
    BirthDateAsWritten();
    PersonalInfoAsWritten();
    BirthDateCorrected();
    PersonalInfoCorrected();
  }

  // ---------------------------------------------------------------------
  // sanitizeData
  // ---------------------------------------------------------------------

  /**
   * `sanitizeData` with the key test as a parameter: arrays are mapped,
   * objects are copied key by key with sensitive values masked and object
   * values sanitised in turn, everything else is returned as is.
   */
  function Sanitize(d: Json, sensitive: string -> bool): Json
    decreases d, 1
  {
    match d
    case JArr(items) => JArr(seq(|items|, i requires 0 <= i < |items| => Sanitize(items[i], sensitive)))
    case JObj(es) => JObj(seq(|es|, i requires 0 <= i < |es| => SanitizeEntry(es[i], sensitive)))
    case _ => d
  }

  function SanitizeEntry(e: Entry, sensitive: string -> bool): Entry
    decreases e, 0
  {
    Entry(e.key,
          if sensitive(e.key) then JStr(Masked)
          else if IsObject(e.value) then Sanitize(e.value, sensitive)
          else e.value)
  }

  /** The loop of `sanitizeData`, recursing into nested values. */
  method SanitizeData(d: Json, sensitive: string -> bool) returns (r: Json)
    ensures r == Sanitize(d, sensitive)
    decreases d
  {
    match d {
      case JArr(items) =>
        var out: seq<Json> := [];
        var i := 0;
        while i < |items|
          invariant 0 <= i <= |items| && |out| == i
          invariant forall j :: 0 <= j < i ==> out[j] == Sanitize(items[j], sensitive)
        {
          var x := SanitizeData(items[i], sensitive);
          out := out + [x];
          i := i + 1;
        }
        r := JArr(out);
      case JObj(es) =>
        var out: seq<Entry> := [];
        var i := 0;
        while i < |es|
          invariant 0 <= i <= |es| && |out| == i
          invariant forall j :: 0 <= j < i ==> out[j] == SanitizeEntry(es[j], sensitive)
        {
          var e := es[i];
          if sensitive(e.key) {
            out := out + [Entry(e.key, JStr(Masked))];
          } else if IsObject(e.value) {
            assert e in es;
            var v := SanitizeData(e.value, sensitive);
            out := out + [Entry(e.key, v)];
          } else {
            out := out + [e];
          }
          i := i + 1;
        }
        r := JObj(out);
      case _ =>
        r := d;
    }
  }

  /** No sensitive key, at any depth, holds anything but the mask. */
  predicate Clean(d: Json, sensitive: string -> bool)
    decreases d
  {
    match d
    case JArr(items) => forall i :: 0 <= i < |items| ==> Clean(items[i], sensitive)
    case JObj(es) => forall i :: 0 <= i < |es| ==> EntryClean(es[i], sensitive)
    case _ => true
  }

  predicate EntryClean(e: Entry, sensitive: string -> bool)
    decreases e
  {
    if sensitive(e.key) then e.value == JStr(Masked) else Clean(e.value, sensitive)
  }

  /** Sanitising keeps the shape: scalars as they are, array lengths, keys in order. */
  lemma {:induction false} SanitizeShape(d: Json, sensitive: string -> bool)
    ensures !IsObject(d) ==> Sanitize(d, sensitive) == d
    ensures d.JArr? ==> Sanitize(d, sensitive).JArr? && |Sanitize(d, sensitive).items| == |d.items|
    ensures d.JObj? ==> Sanitize(d, sensitive).JObj? && |Sanitize(d, sensitive).entries| == |d.entries|
    ensures d.JObj? ==> forall i :: 0 <= i < |d.entries| ==> Sanitize(d, sensitive).entries[i].key == d.entries[i].key
    ensures d.JObj? ==> forall i :: 0 <= i < |d.entries| && sensitive(d.entries[i].key) ==> Sanitize(d, sensitive).entries[i].value == JStr(Masked)
    ensures d.JObj? ==> forall i :: 0 <= i < |d.entries| && !sensitive(d.entries[i].key) && !IsObject(d.entries[i].value) ==> Sanitize(d, sensitive).entries[i].value == d.entries[i].value
  {
  }

  /** Whatever is sanitised reaches the log with every sensitive value masked. */
  lemma {:induction false} SanitizeClean(d: Json, sensitive: string -> bool)
    ensures Clean(Sanitize(d, sensitive), sensitive)
    decreases d
  {
    match d
    case JArr(items) =>
      forall i | 0 <= i < |items| ensures Clean(Sanitize(items[i], sensitive), sensitive) {
        SanitizeClean(items[i], sensitive);
      }
    case JObj(es) =>
      forall i | 0 <= i < |es| ensures EntryClean(SanitizeEntry(es[i], sensitive), sensitive) {
        assert es[i] in es;
        if !sensitive(es[i].key) && IsObject(es[i].value) {
          SanitizeClean(es[i].value, sensitive);
        }
      }
    case _ =>
  }

  /** A value that is already clean is left exactly as it is. */
  lemma {:induction false} SanitizeCleanFixed(d: Json, sensitive: string -> bool)
    requires Clean(d, sensitive)
    ensures Sanitize(d, sensitive) == d
    decreases d
  {
    match d
    case JArr(items) =>
      forall i | 0 <= i < |items| ensures Sanitize(items[i], sensitive) == items[i] {
        SanitizeCleanFixed(items[i], sensitive);
      }
      assert Sanitize(d, sensitive).items == items;
    case JObj(es) =>
      forall i | 0 <= i < |es| ensures SanitizeEntry(es[i], sensitive) == es[i] {
        assert es[i] in es;
        assert EntryClean(es[i], sensitive);
        if !sensitive(es[i].key) && IsObject(es[i].value) {
          SanitizeCleanFixed(es[i].value, sensitive);
        }
      }
      assert Sanitize(d, sensitive).entries == es;
    case _ =>
  }

  /** Sanitising twice is sanitising once. */
  lemma {:induction false} SanitizeIdempotent(d: Json, sensitive: string -> bool)
    ensures Sanitize(Sanitize(d, sensitive), sensitive) == Sanitize(d, sensitive)
  {
    SanitizeClean(d, sensitive);
    SanitizeCleanFixed(Sanitize(d, sensitive), sensitive);
  }

  /** With the written key test a birth date is logged in clear. */
  lemma {:induction false} BirthDateLoggedAsWritten()
    ensures var d := JObj([Entry("birthDate", JStr("1990-01-01"))]);
      Sanitize(d, IsSensitiveAsWritten) == d
      && Sanitize(d, IsSensitive) == JObj([Entry("birthDate", JStr(Masked))])
  {
    BirthDateAsWritten();
    BirthDateCorrected();
    SanitizeSingle("birthDate", JStr("1990-01-01"), IsSensitiveAsWritten);
    SanitizeSingle("birthDate", JStr("1990-01-01"), IsSensitive);
  }

  /** An object with one plain entry: masked when its key is sensitive, unchanged otherwise. */
  lemma {:induction false} SanitizeSingle(k: string, v: Json, sensitive: string -> bool)
    requires !IsObject(v)
    ensures Sanitize(JObj([Entry(k, v)]), sensitive)
      == JObj([Entry(k, if sensitive(k) then JStr(Masked) else v)])
  {
    var e := Entry(k, v);
    assert Sanitize(JObj([e]), sensitive).entries == [SanitizeEntry(e, sensitive)];
  }

  // ---------------------------------------------------------------------
  // Entries and their text
  // ---------------------------------------------------------------------

  datatype LogLevel = DEBUG | INFO | WARN | ERROR
  {
    function Rank(): nat
    {
      match this
      case DEBUG => 0
      case INFO => 1
      case WARN => 2
      case ERROR => 3
    }

    function Name(): string
    {
      match this
      case DEBUG => "DEBUG"
      case INFO => "INFO"
      case WARN => "WARN"
      case ERROR => "ERROR"
    }
  }

  /** A log entry; an absent context is "" and absent metadata is `None`. */
  datatype LogEntry = LogEntry(timestamp: string, level: LogLevel, message: string,
                               context: string, metadata: Option<Json>)

  /**
   * `createLogEntry`: the clock reading is a parameter, and metadata is
   * kept, sanitised with the key test `sensitive`, only when it is truthy.
   * The logger passes the written test `IsSensitiveAsWritten`.
   */
  function CreateLogEntry(level: LogLevel, message: string, context: string, metadata: Json,
                          timestamp: string, sensitive: string -> bool): (e: LogEntry)
    ensures e.level == level && e.message == message && e.context == context && e.timestamp == timestamp
    ensures e.metadata.Some? <==> IsTruthy(metadata)
    ensures e.metadata.Some? ==> Clean(e.metadata.value, sensitive)
  {
    if IsTruthy(metadata) then
      SanitizeClean(metadata, sensitive);
      LogEntry(timestamp, level, message, context, Some(Sanitize(metadata, sensitive)))
    else
      LogEntry(timestamp, level, message, context, None)
  }

  /**
   * An entry made with the written key test keeps a birth date in clear;
   * with the corrected test the same entry carries it masked.
   */
  lemma {:induction false} BirthDateEntryAsWritten(level: LogLevel, message: string, context: string, timestamp: string)
    ensures var d := JObj([Entry("birthDate", JStr("1990-01-01"))]);
      CreateLogEntry(level, message, context, d, timestamp, IsSensitiveAsWritten).metadata == Some(d)
      && CreateLogEntry(level, message, context, d, timestamp, IsSensitive).metadata
         == Some(JObj([Entry("birthDate", JStr(Masked))]))
  {
    BirthDateLoggedAsWritten();
  }

  /** `filter(Boolean)` on strings: the non-empty ones, in order. */
  function NonEmptyParts(parts: seq<string>): seq<string>
  {
    if parts == [] then [] else (if parts[0] != "" then [parts[0]] else []) + NonEmptyParts(parts[1..])
  }

  function Bracket(s: string): string { "[" + s + "]" }

  /** The console line: the bracketed parts and the message, empty parts dropped, joined by spaces. */
  function FormatMessage(e: LogEntry): string
  {
    var parts := [Bracket(e.timestamp), Bracket(e.level.Name()),
                  if e.context != "" then Bracket(e.context) else "", e.message];
    Join(NonEmptyParts(parts), " ")
  }

  /** The line always opens with the time and level; context and message follow only when present. */
  lemma {:induction false} FormatMessageCases(e: LogEntry)
    ensures e.context != "" && e.message != "" ==>
      FormatMessage(e) == Bracket(e.timestamp) + " " + Bracket(e.level.Name()) + " " + Bracket(e.context) + " " + e.message
    ensures e.context == "" && e.message != "" ==>
      FormatMessage(e) == Bracket(e.timestamp) + " " + Bracket(e.level.Name()) + " " + e.message
    ensures e.context != "" && e.message == "" ==>
      FormatMessage(e) == Bracket(e.timestamp) + " " + Bracket(e.level.Name()) + " " + Bracket(e.context)
    ensures e.context == "" && e.message == "" ==>
      FormatMessage(e) == Bracket(e.timestamp) + " " + Bracket(e.level.Name())
  {
    var a := Bracket(e.timestamp);
    var b := Bracket(e.level.Name());
    var c := if e.context != "" then Bracket(e.context) else "";
    var m := e.message;
    FilterParts(a, b, c, m);
    var kept := NonEmptyParts([a, b, c, m]);
    assert FormatMessage(e) == Join(kept, " ");
    if c != "" && m != "" {
      assert kept == [a, b, c, m];
      JoinFour(a, b, c, m);
    } else if c != "" {
      assert kept == [a, b, c];
      JoinThree(a, b, c);
    } else if m != "" {
      assert kept == [a, b, m];
      JoinThree(a, b, m);
    } else {
      assert kept == [a] + [b];
      JoinCons(a, [b]);
    }
  }

  lemma {:induction false} JoinThree(a: string, b: string, c: string)
    ensures Join([a, b, c], " ") == a + " " + b + " " + c
  {
    JoinCons(a, [b, c]);
    JoinCons(b, [c]);
    assert [a, b, c] == [a] + [b, c];
    assert [b, c] == [b] + [c];
  }

  lemma {:induction false} JoinFour(a: string, b: string, c: string, m: string)
    ensures Join([a, b, c, m], " ") == a + " " + b + " " + c + " " + m
  {
    JoinCons(a, [b, c, m]);
    JoinThree(b, c, m);
    assert [a, b, c, m] == [a] + [b, c, m];
  }

  lemma {:induction false} JoinCons(x: string, rest: seq<string>)
    requires rest != []
    ensures Join([x] + rest, " ") == x + " " + Join(rest, " ")
  {
    assert ([x] + rest)[1..] == rest;
  }

  /** `filter(Boolean)` keeps the two bracketed heads and whichever of context and message is present. */
  lemma {:induction false} FilterParts(a: string, b: string, c: string, m: string)
    requires a != "" && b != ""
    ensures NonEmptyParts([a, b, c, m]) == [a, b] + (if c != "" then [c] else []) + (if m != "" then [m] else [])
  {
    assert [a, b, c, m][1..] == [b, c, m];
    assert [b, c, m][1..] == [c, m];
    assert [c, m][1..] == [m];
    assert [m][1..] == [];
    var fm := if m != "" then [m] else [];
    var fc := if c != "" then [c] else [];
    assert NonEmptyParts([m]) == fm;
    assert NonEmptyParts([c, m]) == fc + fm;
    assert NonEmptyParts([b, c, m]) == [b] + (fc + fm);
  }

  // ---------------------------------------------------------------------
  // Where an entry goes
  // ---------------------------------------------------------------------

  /** What `console.debug/info/warn/error` receives: the level, the line and `metadata || ''`. */
  datatype ConsoleLine = ConsoleLine(level: LogLevel, text: string, metadata: Json)

  /** An entry below the configured level is dropped. */
  predicate Passes(e: LogEntry, logLevel: LogLevel)
  {
    e.level.Rank() >= logLevel.Rank()
  }

  /** The console output one entry adds: one line in development, none in production. */
  function ConsoleOutput(e: LogEntry, logLevel: LogLevel, isDevelopment: bool): seq<ConsoleLine>
  {
    if Passes(e, logLevel) && isDevelopment then
      [ConsoleLine(e.level, FormatMessage(e), if e.metadata.Some? then e.metadata.value else JStr(""))]
    else []
  }

  /** `sendToServer`: outside development, warnings and errors are stored under `log_<timestamp>`. */
  function Stored(e: LogEntry, logLevel: LogLevel, isDevelopment: bool,
                  storage: map<string, LogEntry>): map<string, LogEntry>
  {
    if Passes(e, logLevel) && !isDevelopment && e.level.Rank() >= WARN.Rank() then
      storage["log_" + e.timestamp := e]
    else storage
  }

  /** Below the level nothing happens; production never prints; development never stores. */
  lemma {:induction false} RoutingRules(e: LogEntry, logLevel: LogLevel, isDevelopment: bool, storage: map<string, LogEntry>)
    ensures !Passes(e, logLevel) ==> ConsoleOutput(e, logLevel, isDevelopment) == [] && Stored(e, logLevel, isDevelopment, storage) == storage
    ensures !isDevelopment ==> ConsoleOutput(e, logLevel, isDevelopment) == []
    ensures isDevelopment ==> Stored(e, logLevel, isDevelopment, storage) == storage
    ensures isDevelopment && Passes(e, logLevel) ==> |ConsoleOutput(e, logLevel, isDevelopment)| == 1
    ensures (e.level == DEBUG || e.level == INFO) ==> Stored(e, logLevel, isDevelopment, storage) == storage
    ensures !isDevelopment && Passes(e, logLevel) && (e.level == WARN || e.level == ERROR) ==>
      Stored(e, logLevel, isDevelopment, storage) == storage["log_" + e.timestamp := e]
  {
  }

  /** What is stored or printed for an entry made by `createLogEntry` has its sensitive values masked. */
  lemma {:induction false} EmittedMetadataClean(level: LogLevel, message: string, context: string, metadata: Json,
                             timestamp: string, sensitive: string -> bool, logLevel: LogLevel,
                             isDevelopment: bool, storage: map<string, LogEntry>)
    requires forall k | k in storage :: storage[k].metadata.Some? ==> Clean(storage[k].metadata.value, sensitive)
    ensures var st := Stored(CreateLogEntry(level, message, context, metadata, timestamp, sensitive), logLevel, isDevelopment, storage);
      forall k | k in st :: st[k].metadata.Some? ==> Clean(st[k].metadata.value, sensitive)
    ensures forall l | l in ConsoleOutput(CreateLogEntry(level, message, context, metadata, timestamp, sensitive), logLevel, isDevelopment) ::
      Clean(l.metadata, sensitive)
  {
  }

  // ---------------------------------------------------------------------
  // exception metadata
  // ---------------------------------------------------------------------

  /** The entries a spread `{...v}` contributes: an object's own, an array's or string's by index. */
  function SpreadEntries(v: Json): seq<Entry>
  {
    match v
    case JObj(es) => es
    case JArr(items) => seq(|items|, i requires 0 <= i < |items| => Entry(NatToString(i), items[i]))
    case JStr(s) => seq(|s|, i requires 0 <= i < |s| => Entry(NatToString(i), JStr([s[i]])))
    case _ => []
  }

  /** Assigning a key in an object literal: an existing key keeps its place, a new one goes last. */
  function PutEntry(es: seq<Entry>, k: string, v: Json): (r: seq<Entry>)
  {
    if es == [] then [Entry(k, v)]
    else if es[0].key == k then [Entry(k, v)] + es[1..]
    else [es[0]] + PutEntry(es[1..], k, v)
  }

  function Lookup(es: seq<Entry>, k: string): Option<Json>
  {
    if es == [] then None else if es[0].key == k then Some(es[0].value) else Lookup(es[1..], k)
  }

  lemma {:induction false} LookupPutEntry(es: seq<Entry>, k: string, v: Json, k': string)
    ensures Lookup(PutEntry(es, k, v), k') == if k' == k then Some(v) else Lookup(es, k')
  {
    if es != [] && es[0].key != k {
      LookupPutEntry(es[1..], k, v, k');
    }
  }

  /** `{...metadata, stack: error.stack, name: error.name}` */
  function ExceptionMetadata(metadata: Json, stack: Json, name: string): Json
  {
    JObj(PutEntry(PutEntry(SpreadEntries(metadata), "stack", stack), "name", JStr(name)))
  }

  /** The error's stack and name override whatever the caller's metadata held; other keys pass through. */
  lemma {:induction false} ExceptionMetadataKeys(metadata: Json, stack: Json, name: string, k: string)
    ensures IsTruthy(ExceptionMetadata(metadata, stack, name))
    ensures Lookup(ExceptionMetadata(metadata, stack, name).entries, "name") == Some(JStr(name))
    ensures Lookup(ExceptionMetadata(metadata, stack, name).entries, "stack") == Some(stack)
    ensures k != "name" && k != "stack" ==>
      Lookup(ExceptionMetadata(metadata, stack, name).entries, k) == Lookup(SpreadEntries(metadata), k)
  {
    var s := PutEntry(SpreadEntries(metadata), "stack", stack);
    LookupPutEntry(s, "name", JStr(name), k);
    LookupPutEntry(s, "name", JStr(name), "name");
    LookupPutEntry(s, "name", JStr(name), "stack");
    LookupPutEntry(SpreadEntries(metadata), "stack", stack, k);
    LookupPutEntry(SpreadEntries(metadata), "stack", stack, "stack");
  }

  // ---------------------------------------------------------------------
  // The logger
  // ---------------------------------------------------------------------

  /**
   * The logger instance. The console is the sequence of lines printed so
   * far and `storage` the log entries written to browser storage; a failed
   * storage write is ignored by the source and not modelled.
   */
  class Logger {
    var logLevel: LogLevel
    const isDevelopment: bool
    var console: seq<ConsoleLine>
    var storage: map<string, LogEntry>

    /** A fresh logger starts at INFO with nothing printed or stored. */
    constructor(isDevelopment: bool)
      ensures this.isDevelopment == isDevelopment
      ensures logLevel == INFO && console == [] && storage == map[]
    {
      this.isDevelopment := isDevelopment;
      logLevel := INFO;
      console := [];
      storage := map[];
    }

    method SetLogLevel(level: LogLevel)
      modifies this
      ensures logLevel == level
      ensures console == old(console) && storage == old(storage)
    {
      logLevel := level;
    }

    /** `log`: the level filter, the console in development, storage for warnings and errors otherwise. */
    method Log(e: LogEntry)
      modifies this
      ensures logLevel == old(logLevel)
      ensures console == old(console) + ConsoleOutput(e, logLevel, isDevelopment)
      ensures storage == Stored(e, logLevel, isDevelopment, old(storage))
    {
      if e.level.Rank() < logLevel.Rank() {
        return;
      }
      var text := FormatMessage(e);
      if isDevelopment {
        var shown := if e.metadata.Some? then e.metadata.value else JStr("");
        console := console + [ConsoleLine(e.level, text, shown)];
      }
      if !isDevelopment && e.level.Rank() >= WARN.Rank() {
        storage := storage["log_" + e.timestamp := e];
      }
    }

    /** `debug`, `info`, `warn` and `error`: an entry at that level, sanitised with the written key test, then logged. */
    method LogAt(level: LogLevel, message: string, context: string, metadata: Json, timestamp: string)
      modifies this
      ensures logLevel == old(logLevel)
      ensures console == old(console) + ConsoleOutput(CreateLogEntry(level, message, context, metadata, timestamp, IsSensitiveAsWritten), logLevel, isDevelopment)
      ensures storage == Stored(CreateLogEntry(level, message, context, metadata, timestamp, IsSensitiveAsWritten), logLevel, isDevelopment, old(storage))
    {
      Log(CreateLogEntry(level, message, context, metadata, timestamp, IsSensitiveAsWritten));
    }

    /** `userAction`: an INFO entry whose message starts "User Action: ". */
    method UserAction(action: string, context: string, metadata: Json, timestamp: string)
      modifies this
      ensures logLevel == old(logLevel)
      ensures console == old(console) + ConsoleOutput(CreateLogEntry(INFO, "User Action: " + action, context, metadata, timestamp, IsSensitiveAsWritten), logLevel, isDevelopment)
      ensures storage == old(storage)
    {
      LogAt(INFO, "User Action: " + action, context, metadata, timestamp);
    }

    /** `apiCall`: an INFO entry "API Call: <method> <url>". */
    method ApiCall(httpMethod: string, url: string, context: string, metadata: Json, timestamp: string)
      modifies this
      ensures logLevel == old(logLevel)
      ensures console == old(console) + ConsoleOutput(CreateLogEntry(INFO, "API Call: " + httpMethod + " " + url, context, metadata, timestamp, IsSensitiveAsWritten), logLevel, isDevelopment)
      ensures storage == old(storage)
    {
      LogAt(INFO, "API Call: " + httpMethod + " " + url, context, metadata, timestamp);
    }

    /** `exception`: an ERROR entry with the error's stack and name added to the metadata. */
    method Exception(errorMessage: string, stack: Json, errorName: string, context: string,
                     metadata: Json, timestamp: string)
      modifies this
      ensures logLevel == old(logLevel)
      ensures var e := CreateLogEntry(ERROR, "Exception: " + errorMessage, context,
                                      ExceptionMetadata(metadata, stack, errorName), timestamp, IsSensitiveAsWritten);
        console == old(console) + ConsoleOutput(e, logLevel, isDevelopment)
        && storage == Stored(e, logLevel, isDevelopment, old(storage))
    {
      LogAt(ERROR, "Exception: " + errorMessage, context, ExceptionMetadata(metadata, stack, errorName), timestamp);
    }
  }
}
