/**
 * The season-change page (src/components/main/season_update/SeasonUpdate.tsx):
 * turning an uploaded workbook into sheets of rows, the server sync that
 * collects name/phone identifiers and merges server records into the
 * matching rows, the row total reported on apply, and the reset. The
 * spreadsheet library, the browser's storage, alerts and the timers are
 * not modelled beyond the values they hand over.
 */
module SeasonUpdate {
  import opened Common
  import opened ExcelUtils
  import ExcelFieldMapping

  const NameColumn := ExcelFieldMapping.SyncNameColumn
  const PhoneColumn := ExcelFieldMapping.SyncPhoneColumn

  // ---------------------------------------------------------------------
  // Upload
  // ---------------------------------------------------------------------

  /** A workbook as the spreadsheet library reads it: sheet names in order and each sheet's rows. */
  datatype Workbook = Workbook(sheetNames: seq<string>, sheets: map<string, seq<Record>>)

  predicate WellFormed(wb: Workbook)
  {
    forall i :: 0 <= i < |wb.sheetNames| ==> wb.sheetNames[i] in wb.sheets
  }

  /** One `{sheetName, rows}` per sheet, in sheet order. */
  function SheetsOf(wb: Workbook): (r: seq<Sheet>)
    requires WellFormed(wb)
  {
    seq(|wb.sheetNames|, i requires 0 <= i < |wb.sheetNames| => Sheet(wb.sheetNames[i], wb.sheets[wb.sheetNames[i]]))
  }

  /** The workbook keeps every sheet, in order, under its own name and with its own rows. */
  lemma {:induction false} SheetsOfSpec(wb: Workbook, i: nat)
    requires WellFormed(wb)
    ensures |SheetsOf(wb)| == |wb.sheetNames|
    ensures i < |wb.sheetNames| ==> SheetsOf(wb)[i].sheetName == wb.sheetNames[i]
    ensures i < |wb.sheetNames| ==> SheetsOf(wb)[i].rows == wb.sheets[wb.sheetNames[i]]
    ensures TotalRows(SheetsOf(wb)) == TotalRows(SheetsOf(wb)[..|wb.sheetNames|])
  {
    assert SheetsOf(wb)[..|wb.sheetNames|] == SheetsOf(wb);
  }

  // ---------------------------------------------------------------------
  // Identifiers
  // ---------------------------------------------------------------------

  /** Every row of the workbook, sheet after sheet. */
  function AllRows(sheets: seq<Sheet>): seq<Record>
  {
    if sheets == [] then [] else AllRows(sheets[..|sheets| - 1]) + sheets[|sheets| - 1].rows
  }

  /** `if (name && phone)` */
  predicate HasIdentifiers(row: Record)
  {
    Truthy(row, NameColumn) && Truthy(row, PhoneColumn)
  }

  function IdOf(row: Record): (string, string)
  {
    (GetOr(row, NameColumn), GetOr(row, PhoneColumn))
  }

  function IdsOf(rows: seq<Record>): (r: seq<(string, string)>)
    ensures |r| == |rows|
  {
    seq(|rows|, i requires 0 <= i < |rows| => IdOf(rows[i]))
  }

  /** The identifiers of the rows that carry both a name and a phone, in order. */
  function RowIds(rows: seq<Record>): seq<(string, string)>
  {
    IdsOf(Filter(rows, HasIdentifiers))
  }

  function Identifiers(sheets: seq<Sheet>): seq<(string, string)>
  {
    RowIds(AllRows(sheets))
  }

  lemma {:induction false} IdsOfAppend(a: seq<Record>, b: seq<Record>)
    ensures IdsOf(a + b) == IdsOf(a) + IdsOf(b)
  {
    forall k | 0 <= k < |a| + |b| ensures IdsOf(a + b)[k] == (IdsOf(a) + IdsOf(b))[k] {
      if k < |a| {
        assert (a + b)[k] == a[k];
      } else {
        assert (a + b)[k] == b[k - |a|];
      }
    }
  }

  lemma {:induction false} IdsFilterAppend(a: seq<Record>, b: seq<Record>)
    ensures RowIds(a + b) == RowIds(a) + RowIds(b)
  {
    FilterAppend(a, b, HasIdentifiers);
    IdsOfAppend(Filter(a, HasIdentifiers), Filter(b, HasIdentifiers));
  }

  lemma {:induction false} IdentifiersSnoc(sheets: seq<Sheet>, i: nat)
    requires i < |sheets|
    ensures Identifiers(sheets[..i + 1]) == Identifiers(sheets[..i]) + RowIds(sheets[i].rows)
  {
    assert sheets[..i + 1][..i] == sheets[..i];
    IdsFilterAppend(AllRows(sheets[..i]), sheets[i].rows);
  }

  lemma {:induction false} IdsStep(rows: seq<Record>, j: nat)
    requires j < |rows|
    ensures RowIds(rows[..j + 1]) == RowIds(rows[..j]) + (if HasIdentifiers(rows[j]) then [IdOf(rows[j])] else [])
  {
    IdsFilterAppend(rows[..j], [rows[j]]);
    assert rows[..j + 1] == rows[..j] + [rows[j]];
    if HasIdentifiers(rows[j]) {
      assert RowIds([rows[j]]) == [IdOf(rows[j])];
    } else {
      assert RowIds([rows[j]]) == [];
    }
  }

  /** The inner `forEach`: one sheet's usable rows pushed in order. */
  method CollectRowIds(rows: seq<Record>) returns (ids: seq<(string, string)>)
    ensures ids == RowIds(rows)
  {
    ids := [];
    var j := 0;
    while j < |rows|
      invariant 0 <= j <= |rows|
      invariant ids == RowIds(rows[..j])
    {
      var id := IdOf(rows[j]);
      IdsStep(rows, j);
      if id.0 != "" && id.1 != "" {
        ids := ids + [id];
      }
      j := j + 1;
    }
    assert rows[..|rows|] == rows;
  }

  /** The nested `forEach` that pushes each usable row's identifier. */
  method CollectIdentifiers(sheets: seq<Sheet>) returns (ids: seq<(string, string)>)
    ensures ids == Identifiers(sheets)
  {
    ids := [];
    var i := 0;
    while i < |sheets|
      invariant 0 <= i <= |sheets| && ids == Identifiers(sheets[..i])
    {
      var more := CollectRowIds(sheets[i].rows);
      IdentifiersSnoc(sheets, i);
      ids := ids + more;
      i := i + 1;
    }
    assert sheets[..|sheets|] == sheets;
  }

  /** A row is in the workbook exactly when some sheet holds it. */
  lemma {:induction false} AllRowsSpec(sheets: seq<Sheet>, row: Record)
    ensures row in AllRows(sheets) <==> exists i :: 0 <= i < |sheets| && row in sheets[i].rows
    ensures |AllRows(sheets)| == TotalRows(sheets)
  {
    if sheets != [] {
      var init := sheets[..|sheets| - 1];
      AllRowsSpec(init, row);
      if row in AllRows(sheets) && row !in AllRows(init) {
        assert row in sheets[|sheets| - 1].rows;
      }
      if exists i :: 0 <= i < |sheets| && row in sheets[i].rows {
        var i :| 0 <= i < |sheets| && row in sheets[i].rows;
        if i < |init| {
          assert init[i] == sheets[i];
        }
      }
    }
  }

  /**
   * There is one identifier per row carrying both a name and a phone;
   * every identifier is such a row's, so none is empty; and there are none
   * exactly when no row carries both, which is when sync gives up.
   */
  lemma {:induction false} IdentifiersSpec(sheets: seq<Sheet>, id: (string, string))
    ensures |Identifiers(sheets)| == Count(AllRows(sheets), HasIdentifiers)
    ensures id in Identifiers(sheets) <==> exists row :: row in AllRows(sheets) && HasIdentifiers(row) && IdOf(row) == id
    ensures id in Identifiers(sheets) ==> id.0 != "" && id.1 != ""
    ensures Identifiers(sheets) == [] <==> forall row :: row in AllRows(sheets) ==> !HasIdentifiers(row)
  {
    var f := Filter(AllRows(sheets), HasIdentifiers);
    if id in Identifiers(sheets) {
      var k :| 0 <= k < |f| && IdsOf(f)[k] == id;
      assert f[k] in AllRows(sheets);
    }
    if exists row :: row in AllRows(sheets) && HasIdentifiers(row) && IdOf(row) == id {
      var row :| row in AllRows(sheets) && HasIdentifiers(row) && IdOf(row) == id;
      assert row in f;
      var k :| 0 <= k < |f| && f[k] == row;
      assert IdsOf(f)[k] == id;
    }
    if Identifiers(sheets) == [] {
      assert |f| == 0;
    } else {
      assert f[0] in f;
    }
  }

  // ---------------------------------------------------------------------
  // Merging server records into the rows
  // ---------------------------------------------------------------------

  function HasField(f: string): ((string, string)) -> bool
  {
    (e: (string, string)) => e.1 == f
  }

  /** `Object.entries(EXCEL_TO_API_FIELD_MAPPING).find(...)?.[0]`: the first column mapped to `f`. */
  function FindColumn(f: string): Option<string>
  {
    match Find(ExcelFieldMapping.ExcelToApi, HasField(f))
    case Some(e) => Some(e.0)
    case None => None
  }

  /** Every entry of the forward mapping is what the lookup gives for its column. */
  lemma {:induction false} ForwardTable()
    ensures forall i :: 0 <= i < |ExcelFieldMapping.ExcelToApi| ==>
              ExcelFieldMapping.ColumnField(ExcelFieldMapping.ExcelToApi[i].0) == Some(ExcelFieldMapping.ExcelToApi[i].1)
  {
    var t := ExcelFieldMapping.ExcelToApi;
    forall i | 0 <= i < |t| ensures ExcelFieldMapping.ColumnField(t[i].0) == Some(t[i].1) {
      if i == 0 { assert t[0] == ("국", "gook"); }
      else if i == 1 { assert t[1] == ("그룹", "group"); }
      else if i == 2 { assert t[2] == ("순", "soon"); }
      else if i == 3 { assert t[3] == ("이름", "name"); }
      else if i == 4 { assert t[4] == ("구분", "name_suffix"); }
      else if i == 5 { assert t[5] == ("번호", "phone"); }
      else if i == 6 { assert t[6] == ("직분", "role"); }
      else { assert t[7] == ("기수", "birth_date"); }
    }
  }

  lemma {:induction false} FindColumnSound(f: string, c: string)
    requires FindColumn(f) == Some(c)
    ensures ExcelFieldMapping.ColumnField(c) == Some(f)
  {
    var t := ExcelFieldMapping.ExcelToApi;
    var e := Find(t, HasField(f)).value;
    var i :| 0 <= i < |t| && t[i] == e && HasField(f)(t[i]);
    ForwardTable();
  }

  /** Distinct columns map to distinct fields. */
  lemma {:induction false} ColumnFieldInjective(a: string, b: string)
    requires ExcelFieldMapping.ColumnField(a).Some? && ExcelFieldMapping.ColumnField(a) == ExcelFieldMapping.ColumnField(b)
    ensures a == b
  {
  }

  /** The entry of the forward mapping for a mapped column. */
  lemma {:induction false} ColumnEntry(c: string) returns (i: nat)
    requires ExcelFieldMapping.ColumnField(c).Some?
    ensures i < |ExcelFieldMapping.ExcelToApi| && ExcelFieldMapping.ExcelToApi[i] == (c, ExcelFieldMapping.ColumnField(c).value)
  {
    var t := ExcelFieldMapping.ExcelToApi;
    if c == "국" { i := 0; }
    else if c == "그룹" { i := 1; }
    else if c == "순" { i := 2; }
    else if c == "이름" { i := 3; }
    else if c == "구분" { i := 4; }
    else if c == "번호" { i := 5; }
    else if c == "직분" { i := 6; }
    else { i := 7; }
  }

  lemma {:induction false} FindColumnComplete(f: string, c: string)
    requires ExcelFieldMapping.ColumnField(c) == Some(f)
    ensures FindColumn(f) == Some(c)
  {
    var t := ExcelFieldMapping.ExcelToApi;
    var i := ColumnEntry(c);
    assert HasField(f)(t[i]);
    var e := Find(t, HasField(f)).value;
    var k :| 0 <= k < |t| && t[k] == e && HasField(f)(t[k]);
    ForwardTable();
    ColumnFieldInjective(c, e.0);
  }

  /** The column mapped to API field `f`, field by field. */
  function ColumnFor(f: string): Option<string>
  {
    if f == "gook" then Some("국")
    else if f == "group" then Some("그룹")
    else if f == "soon" then Some("순")
    else if f == "name" then Some("이름")
    else if f == "name_suffix" then Some("구분")
    else if f == "phone" then Some("번호")
    else if f == "role" then Some("직분")
    else if f == "birth_date" then Some("기수")
    else None
  }

  /** The reverse lookup gives exactly the column the forward mapping sends to `f`. */
  lemma {:induction false} ColumnForSpec(f: string, c: string)
    ensures ColumnFor(f) == Some(c) <==> ExcelFieldMapping.ColumnField(c) == Some(f)
  {
  }

  /** The field-by-field lookup is the search over the mapping's entries. */
  lemma {:induction false} ColumnForIsFind(f: string)
    ensures ColumnFor(f) == FindColumn(f)
  {
    forall c ensures ColumnFor(f) == Some(c) <==> FindColumn(f) == Some(c) {
      ColumnForSpec(f, c);
      if FindColumn(f) == Some(c) {
        FindColumnSound(f, c);
      }
      if ExcelFieldMapping.ColumnField(c) == Some(f) {
        FindColumnComplete(f, c);
      }
    }
  }

  /** Each field of the server record written over its column, in the record's order. */
  function ApplyEntries(row: Record, rec: Record): Record
  {
    if rec == [] then row
    else
      var acc := ApplyEntries(row, rec[..|rec| - 1]);
      var (apiField, value) := rec[|rec| - 1];
      match ColumnFor(apiField)
      case Some(column) => Put(acc, column, value)
      case None => acc
  }

  /** The value a record ends up giving field `f`: its last entry for `f`. */
  function LastValue(rec: Record, f: string): Option<string>
  {
    if rec == [] then None
    else if rec[|rec| - 1].0 == f then Some(rec[|rec| - 1].1)
    else LastValue(rec[..|rec| - 1], f)
  }

  /**
   * A mapped column takes the record's value for its API field when the
   * record has one; every other cell is unchanged.
   */
  lemma {:induction false} ApplyEntriesSpec(row: Record, rec: Record, c: string)
    ensures Get(ApplyEntries(row, rec), c) ==
              match ExcelFieldMapping.ColumnField(c)
              case Some(f) => if LastValue(rec, f).Some? then LastValue(rec, f) else Get(row, c)
              case None => Get(row, c)
  {
    if rec != [] {
      var init := rec[..|rec| - 1];
      ApplyEntriesSpec(row, init, c);
      var acc := ApplyEntries(row, init);
      var (apiField, value) := rec[|rec| - 1];
      ColumnForSpec(apiField, c);
      match ColumnFor(apiField)
      case Some(column) =>
        GetPut(acc, column, value, c);
        ColumnForSpec(apiField, column);
      case None =>
    }
  }

  /** `serverData.find(...)`: the first record with the row's name and phone. */
  function Matches(row: Record): Record -> bool
  {
    (rec: Record) => Get(rec, "name") == Get(row, NameColumn) && Get(rec, "phoneNumber") == Get(row, PhoneColumn)
  }

  function MergeRow(row: Record, server: seq<Record>): Record
  {
    match Find(server, Matches(row))
    case Some(rec) => ApplyEntries(row, rec)
    case None => row
  }

  function MergeSheet(sheet: Sheet, server: seq<Record>): Sheet
  {
    sheet.(rows := seq(|sheet.rows|, j requires 0 <= j < |sheet.rows| => MergeRow(sheet.rows[j], server)))
  }

  /** `excelData.map(...)` */
  function Merge(sheets: seq<Sheet>, server: seq<Record>): seq<Sheet>
  {
    seq(|sheets|, i requires 0 <= i < |sheets| => MergeSheet(sheets[i], server))
  }

  /**
   * The merge keeps every sheet's name and row count; a row no server
   * record matches is unchanged, and a matched row changes only in the
   * columns whose API field the matching record carries.
   */
  lemma {:induction false} MergeSpec(sheets: seq<Sheet>, server: seq<Record>, i: nat, j: nat, c: string)
    ensures |Merge(sheets, server)| == |sheets|
    ensures i < |sheets| ==> Merge(sheets, server)[i].sheetName == sheets[i].sheetName
    ensures i < |sheets| ==> |Merge(sheets, server)[i].rows| == |sheets[i].rows|
    ensures i < |sheets| && j < |sheets[i].rows| && (forall k :: 0 <= k < |server| ==> !Matches(sheets[i].rows[j])(server[k])) ==>
              Merge(sheets, server)[i].rows[j] == sheets[i].rows[j]
    ensures i < |sheets| && j < |sheets[i].rows| && ExcelFieldMapping.ColumnField(c).None? ==>
              Get(Merge(sheets, server)[i].rows[j], c) == Get(sheets[i].rows[j], c)
  {
    if i < |sheets| && j < |sheets[i].rows| {
      var row := sheets[i].rows[j];
      assert Merge(sheets, server)[i].rows[j] == MergeRow(row, server);
      match Find(server, Matches(row))
      case Some(rec) => ApplyEntriesSpec(row, rec, c);
      case None =>
    }
  }

  lemma {:induction false} TotalRowsMerge(sheets: seq<Sheet>, server: seq<Record>)
    ensures TotalRows(Merge(sheets, server)) == TotalRows(sheets)
  {
    if sheets != [] {
      var init := sheets[..|sheets| - 1];
      assert Merge(sheets, server)[..|sheets| - 1] == Merge(init, server);
      TotalRowsMerge(init, server);
    }
  }

  /** Sync keeps the sheet count and the row count. */
  lemma {:induction false} MergeStats(sheets: seq<Sheet>, server: seq<Record>)
    ensures GetExcelDataStats(Merge(sheets, server)) == GetExcelDataStats(sheets)
  {
    TotalRowsMerge(sheets, server);
  }

  /** The stand-in server reply for one identifier (the request itself is not wired up). */
  function ServerRecord(id: (string, string)): Record
  {
    [("name", id.0), ("phoneNumber", id.1), ("email", id.0 + "@example.com"), ("genderType", "M")]
  }

  function ServerData(ids: seq<(string, string)>): (r: seq<Record>)
    ensures |r| == |ids|
  {
    seq(|ids|, i requires 0 <= i < |ids| => ServerRecord(ids[i]))
  }

  lemma {:induction false} PutSame(r: Record, k: string, v: string)
    requires Get(r, k) == Some(v)
    ensures Put(r, k, v) == r
  {
    if r[0].0 != k {
      PutSame(r[1..], k, v);
    }
  }

  /** Fields without a column leave the row alone. */
  lemma {:induction false} ApplyUnmapped(row: Record, rec: Record, extra: Record)
    requires forall k :: 0 <= k < |extra| ==> ColumnFor(extra[k].0).None?
    ensures ApplyEntries(row, rec + extra) == ApplyEntries(row, rec)
  {
    if extra == [] {
      assert rec + extra == rec;
    } else {
      var init := extra[..|extra| - 1];
      ApplyUnmapped(row, rec, init);
      assert (rec + extra)[..|rec + extra| - 1] == rec + init;
    }
  }

  /**
   * Of the stand-in reply's four fields only `name` has a column (the
   * phone comes back as `phoneNumber`, not `phone`): the reply writes the
   * name and nothing else.
   */
  lemma {:induction false} ApplyStandIn(row: Record, id: (string, string))
    ensures ApplyEntries(row, ServerRecord(id)) == Put(row, NameColumn, id.0)
  {
    var first: Record := [("name", id.0)];
    var extra: Record := [("phoneNumber", id.1), ("email", id.0 + "@example.com"), ("genderType", "M")];
    assert first[..0] == [];
    assert ApplyEntries(row, first) == Put(row, NameColumn, id.0);
    ApplyUnmapped(row, first, extra);
    assert first + extra == ServerRecord(id);
  }

  /**
   * With the stand-in reply, the name is written back over the very name
   * the row matched on: every row is left as it was.
   */
  lemma {:induction false} MergeRowStandIn(row: Record, ids: seq<(string, string)>)
    ensures MergeRow(row, ServerData(ids)) == row
  {
    var server := ServerData(ids);
    match Find(server, Matches(row))
    case Some(rec) =>
      var k :| 0 <= k < |server| && server[k] == rec && Matches(row)(server[k]);
      assert rec == ServerRecord(ids[k]);
      assert Get(rec, "name") == Some(ids[k].0);
      ApplyStandIn(row, ids[k]);
      PutSame(row, NameColumn, ids[k].0);
    case None =>
  }

  /** The sync as written leaves the workbook exactly as it was. */
  lemma {:induction false} SyncLeavesDataUnchanged(sheets: seq<Sheet>)
    ensures Merge(sheets, ServerData(Identifiers(sheets))) == sheets
  {
    var server := ServerData(Identifiers(sheets));
    forall i | 0 <= i < |sheets| ensures MergeSheet(sheets[i], server) == sheets[i] {
      forall j | 0 <= j < |sheets[i].rows| ensures MergeRow(sheets[i].rows[j], server) == sheets[i].rows[j] {
        MergeRowStandIn(sheets[i].rows[j], Identifiers(sheets));
      }
    }
  }

  // ---------------------------------------------------------------------
  // The page
  // ---------------------------------------------------------------------

  /** The stored `seasonUpdateData` entry: absent (or empty), parsable, or not parsable. */
  datatype Stored = Absent | Saved(sheets: seq<Sheet>) | Corrupt

  datatype SyncOutcome = NothingToSync | NoIdentifiers | Synced(count: nat)

  datatype ApplyOutcome = NothingToApply | Applied(sheetCount: nat, rowCount: nat)

  /** `excelData.reduce((sum, sheet) => sum + sheet.rows.length, 0)` */
  method CountRows(sheets: seq<Sheet>) returns (total: nat)
    ensures total == TotalRows(sheets)
  {
    total := 0;
    var i := 0;
    while i < |sheets|
      invariant 0 <= i <= |sheets| && total == TotalRows(sheets[..i])
    {
      assert sheets[..i + 1][..i] == sheets[..i];
      total := total + |sheets[i].rows|;
      i := i + 1;
    }
    assert sheets[..|sheets|] == sheets;
  }

  class SeasonUpdatePage {
    var uploadedFile: Option<string>
    var excelData: Option<seq<Sheet>>
    var stored: Stored
    var isSyncModalOpen: bool
    var isSyncing: bool
    var isApplyModalOpen: bool
    var isApplying: bool

    /** Mounting: a parsable stored workbook is loaded; an unparsable one is removed. */
    constructor(saved: Stored)
      ensures uploadedFile == None
      ensures excelData == (if saved.Saved? then Some(saved.sheets) else None)
      ensures stored == (if saved.Corrupt? then Absent else saved)
      ensures !isSyncModalOpen && !isSyncing && !isApplyModalOpen && !isApplying
    {
      uploadedFile := None;
      excelData := None;
      stored := saved;
      isSyncModalOpen := false;
      isSyncing := false;
      isApplyModalOpen := false;
      isApplying := false;
      if saved.Saved? {
        excelData := Some(saved.sheets);
      } else if saved.Corrupt? {
        stored := Absent;
      }
    }

    /**
     * `handleFileSelect`: the file is remembered; a readable workbook
     * becomes the data and is stored, an unreadable one changes nothing else.
     */
    method HandleFileSelect(fileName: string, wb: Option<Workbook>)
      requires wb.Some? ==> WellFormed(wb.value)
      modifies this
      ensures uploadedFile == Some(fileName)
      ensures wb.Some? ==> excelData == Some(SheetsOf(wb.value)) && stored == Saved(SheetsOf(wb.value))
      ensures wb.None? ==> excelData == old(excelData) && stored == old(stored)
      ensures isSyncModalOpen == old(isSyncModalOpen) && isSyncing == old(isSyncing)
      ensures isApplyModalOpen == old(isApplyModalOpen) && isApplying == old(isApplying)
    {
      uploadedFile := Some(fileName);
      if wb.Some? {
        var sheets := SheetsOf(wb.value);
        excelData := Some(sheets);
        stored := Saved(sheets);
      }
    }

    /**
     * `handleSyncWithServer`: gives up without data or without any row
     * carrying a name and a phone; otherwise merges the reply into the
     * rows, stores the result, closes the dialog and reports how many
     * identifiers were sent.
     */
    method HandleSyncWithServer() returns (outcome: SyncOutcome)
      modifies this
      ensures (old(excelData).None? || old(excelData) == Some([])) <==> outcome == NothingToSync
      ensures outcome == NothingToSync ==>
                excelData == old(excelData) && stored == old(stored) && isSyncModalOpen == old(isSyncModalOpen)
      ensures outcome == NoIdentifiers <==> old(excelData).Some? && old(excelData) != Some([]) && Identifiers(old(excelData).value) == []
      ensures outcome == NoIdentifiers ==>
                excelData == old(excelData) && stored == old(stored) && isSyncModalOpen == old(isSyncModalOpen)
      ensures outcome.Synced? ==>
                var sheets := old(excelData).value;
                && outcome.count == |Identifiers(sheets)| > 0
                && excelData == Some(Merge(sheets, ServerData(Identifiers(sheets))))
                && stored == Saved(excelData.value)
                && !isSyncModalOpen
      ensures isSyncing == (if outcome == NothingToSync then old(isSyncing) else false)
      ensures uploadedFile == old(uploadedFile)
      ensures isApplyModalOpen == old(isApplyModalOpen) && isApplying == old(isApplying)
    {
      if excelData.None? || |excelData.value| == 0 {
        return NothingToSync;
      }
      isSyncing := true;
      var sheets := excelData.value;
      var identifiers := CollectIdentifiers(sheets);
      if |identifiers| == 0 {
        isSyncing := false;
        return NoIdentifiers;
      }
      var serverData := ServerData(identifiers);
      var updated := Merge(sheets, serverData);
      excelData := Some(updated);
      stored := Saved(updated);
      outcome := Synced(|identifiers|);
      isSyncModalOpen := false;
      isSyncing := false;
    }

    /**
     * `handleSeasonUpdate`: gives up without data; otherwise reports the
     * sheet count and the total row count and closes the dialog.
     */
    method HandleSeasonUpdate() returns (outcome: ApplyOutcome)
      modifies this
      ensures (old(excelData).None? || old(excelData) == Some([])) <==> outcome == NothingToApply
      ensures outcome.Applied? ==>
                outcome == Applied(|old(excelData).value|, TotalRows(old(excelData).value)) && !isApplyModalOpen
      ensures outcome == NothingToApply ==> isApplyModalOpen == old(isApplyModalOpen)
      ensures excelData == old(excelData) && stored == old(stored) && uploadedFile == old(uploadedFile)
      ensures isApplying == (if outcome == NothingToApply then old(isApplying) else false)
      ensures isSyncModalOpen == old(isSyncModalOpen) && isSyncing == old(isSyncing)
    {
      if excelData.None? || |excelData.value| == 0 {
        return NothingToApply;
      }
      isApplying := true;
      var rows := CountRows(excelData.value);
      outcome := Applied(|excelData.value|, rows);
      isApplyModalOpen := false;
      isApplying := false;
    }

    /** The reset button: when confirmed, the data, the file and the stored copy are dropped. */
    method Reset(confirmed: bool)
      modifies this
      ensures confirmed ==> excelData == None && uploadedFile == None && stored == Absent
      ensures !confirmed ==> excelData == old(excelData) && uploadedFile == old(uploadedFile) && stored == old(stored)
      ensures isSyncModalOpen == old(isSyncModalOpen) && isSyncing == old(isSyncing)
      ensures isApplyModalOpen == old(isApplyModalOpen) && isApplying == old(isApplying)
    {
      if confirmed {
        excelData := None;
        uploadedFile := None;
        stored := Absent;
      }
    }
  }

  /** After a sync, applying reports the same sheet and row counts as before the sync. */
  lemma {:induction false} SyncThenApplyCounts(sheets: seq<Sheet>)
    ensures var merged := Merge(sheets, ServerData(Identifiers(sheets)));
            |merged| == |sheets| && TotalRows(merged) == TotalRows(sheets)
  {
    MergeStats(sheets, ServerData(Identifiers(sheets)));
  }
}
