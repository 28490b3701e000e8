/**
 * The spreadsheet-style editor shared by the two editable tables
 * (src/components/ui/EditableDataTable.tsx and
 * src/components/ui/excel/EditableDataTable.tsx): what is shown, the
 * copy-on-write update of one cell, and the validity of a cell.  The two
 * files differ only in the cell rule they call.
 */
module EditableDataTable {
  import opened Common
  import opened ExcelUtils
  import CellValidation
  import ExcelCellValidation

  /** What the component renders. */
  datatype View = EmptyMessage | Table(columns: seq<string>)

  /**
   * The rendered view for the sheets (`None` for an absent prop) with the
   * active tab `active`.
   */
  function Render(data: Option<seq<Sheet>>, active: nat): (v: View)
    requires data.Some? && data.value != [] ==> active < |data.value|
  {
    if data.None? || data.value == [] then EmptyMessage
    else
      var sheet := data.value[active];
      Table(if |sheet.rows| > 0 then KeysOf(sheet.rows[0]) else [])
  }

  /**
   * Only an absent or empty sheet list shows the empty message; otherwise
   * the columns are exactly the first row's keys, and none without rows.
   */
  lemma {:induction false} RenderColumns(data: Option<seq<Sheet>>, active: nat, k: string)
    requires data.Some? && data.value != [] ==> active < |data.value|
    ensures Render(data, active).EmptyMessage? <==> data.None? || data.value == []
    ensures Render(data, active).Table? && data.value[active].rows == [] ==> Render(data, active).columns == []
    ensures Render(data, active).Table? && data.value[active].rows != []
      ==> (k in Render(data, active).columns <==> Get(data.value[active].rows[0], k).Some?)
  {
    if data.Some? && data.value != [] && data.value[active].rows != [] {
      GetIndex(data.value[active].rows[0], k);
    }
  }

  /** `handleCellChange`: the new sheet list, with one cell of the active sheet set. */
  function CellChange(data: seq<Sheet>, active: nat, rowIndex: nat, column: string, newValue: string): seq<Sheet>
    requires active < |data| && rowIndex < |data[active].rows|
  {
    var rows := data[active].rows;
    var updatedRows := rows[rowIndex := Put(rows[rowIndex], column, newValue)];
    data[active := data[active].(rows := updatedRows)]
  }

  /**
   * Exactly one cell changes: the edited cell holds the new value, every
   * other cell of that row, every other row and every other sheet are as
   * before, and the shape of the workbook is kept.
   */
  lemma {:induction false} CellChangeOnly(data: seq<Sheet>, active: nat, rowIndex: nat, column: string, newValue: string, k: string)
    requires active < |data| && rowIndex < |data[active].rows|
    ensures var r := CellChange(data, active, rowIndex, column, newValue);
      && |r| == |data|
      && (forall s :: 0 <= s < |data| && s != active ==> r[s] == data[s])
      && r[active].sheetName == data[active].sheetName
      && |r[active].rows| == |data[active].rows|
      && (forall i :: 0 <= i < |data[active].rows| && i != rowIndex ==> r[active].rows[i] == data[active].rows[i])
      && Get(r[active].rows[rowIndex], k) == (if k == column then Some(newValue) else Get(data[active].rows[rowIndex], k))
  {
    GetPut(data[active].rows[rowIndex], column, newValue, k);
  }

  /** Editing a cell of an existing column keeps the columns and their order. */
  lemma {:induction false} CellChangeKeepsColumns(data: seq<Sheet>, active: nat, rowIndex: nat, column: string, newValue: string)
    requires active < |data| && rowIndex < |data[active].rows|
    requires column in KeysOf(data[active].rows[rowIndex])
    ensures KeysOf(CellChange(data, active, rowIndex, column, newValue)[active].rows[rowIndex])
      == KeysOf(data[active].rows[rowIndex])
  {
    PutKeys(data[active].rows[rowIndex], column, newValue);
  }

  /** Workbooks with the same sheets' row counts have the same total. */
  lemma {:induction false} TotalRowsSameShape(a: seq<Sheet>, b: seq<Sheet>)
    requires |a| == |b| && forall i :: 0 <= i < |a| ==> |a[i].rows| == |b[i].rows|
    ensures TotalRows(a) == TotalRows(b)
  {
    if a != [] {
      TotalRowsSameShape(a[..|a| - 1], b[..|b| - 1]);
    }
  }

  /** An edit leaves the workbook statistics unchanged. */
  lemma {:induction false} CellChangeKeepsStats(data: seq<Sheet>, active: nat, rowIndex: nat, column: string, newValue: string)
    requires active < |data| && rowIndex < |data[active].rows|
    ensures GetExcelDataStats(CellChange(data, active, rowIndex, column, newValue)) == GetExcelDataStats(data)
  {
    TotalRowsSameShape(CellChange(data, active, rowIndex, column, newValue), data);
  }

  /** Writing a key twice leaves the second value. */
  lemma {:induction false} PutPut(r: Record, k: string, v: string, w: string)
    ensures Put(Put(r, k, v), k, w) == Put(r, k, w)
  {
    if r != [] && r[0].0 != k {
      PutPut(r[1..], k, v, w);
    }
  }

  /** Typing the old value back into an existing cell restores the workbook. */
  lemma {:induction false} CellChangeUndo(data: seq<Sheet>, active: nat, rowIndex: nat, column: string, newValue: string, oldValue: string)
    requires active < |data| && rowIndex < |data[active].rows|
    requires Get(data[active].rows[rowIndex], column) == Some(oldValue)
    ensures CellChange(CellChange(data, active, rowIndex, column, newValue), active, rowIndex, column, oldValue) == data
  {
    var row := data[active].rows[rowIndex];
    var once := CellChange(data, active, rowIndex, column, newValue);
    PutPut(row, column, newValue, oldValue);
    PutSame(row, column, oldValue);
    assert once[active].rows[rowIndex] == Put(row, column, newValue);
    var twice := CellChange(once, active, rowIndex, column, oldValue);
    assert twice[active].rows == data[active].rows;
    assert twice[active] == data[active];
  }

  /** The member table's `isCellValid`: the column's rule on the value alone. */
  predicate IsCellValid(column: string, value: string)
  {
    CellValidation.ValidateCellData(column, value)
  }

  /** The season-change table's `isCellValid`: the rule sees the whole row. */
  predicate IsCellValidInRow(column: string, value: string, row: Record)
  {
    ExcelCellValidation.ValidateCell(column, value, Some(row))
  }

  /** In the member table, unruled columns and empty cells are never flagged. */
  lemma {:induction false} IsCellValidDefaults(column: string, value: string)
    ensures column !in CellValidation.RuleColumns ==> IsCellValid(column, value)
    ensures value == "" ==> IsCellValid(column, value)
  {
    CellValidation.CellDefaults(column, value);
  }

  /**
   * In the season-change table the row decides the phone rule: a blank
   * 번호 cell is valid exactly when the row's 직분 is blank.
   */
  lemma {:induction false} RowDecidesPhone(value: string, row: Record)
    requires AllChars(value, IsSpace)
    ensures IsCellValidInRow("번호", value, row) <==> ExcelCellValidation.RoleOf(Some(row)) == ""
  {
    ExcelCellValidation.ValidatePhoneIff(value, Some(row));
  }
}
