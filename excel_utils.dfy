/**
 * Workbook shape and `getExcelDataStats` (src/utils/excel/excelUtils.ts).
 */
module ExcelUtils {
  import opened Common

  /** One worksheet: its name and its rows, each a record from column to cell text. */
  datatype Sheet = Sheet(sheetName: string, rows: seq<Record>)

  /** The number of rows over all sheets, summed left to right like the `reduce`. */
  function TotalRows(sheets: seq<Sheet>): nat
  {
    if sheets == [] then 0 else TotalRows(sheets[..|sheets| - 1]) + |sheets[|sheets| - 1].rows|
  }

  datatype DataStats = DataStats(sheetCount: nat, rowCount: nat)

  /** `getExcelDataStats` */
  function GetExcelDataStats(sheets: seq<Sheet>): (r: DataStats)
    ensures r.sheetCount == |sheets|
    ensures sheets == [] ==> r == DataStats(0, 0)
  {
    DataStats(|sheets|, TotalRows(sheets))
  }

  /** The row count of two workbooks laid end to end is the sum of theirs. */
  lemma {:induction false} TotalRowsAppend(a: seq<Sheet>, b: seq<Sheet>)
    ensures TotalRows(a + b) == TotalRows(a) + TotalRows(b)
    decreases |b|
  {
    if b == [] {
      assert a + b == a;
    } else {
      var b' := b[..|b| - 1];
      assert (a + b)[..|a + b| - 1] == a + b';
      TotalRowsAppend(a, b');
    }
  }

  /** Appending a sheet adds one sheet and its rows. */
  lemma {:induction false} StatsAppendSheet(sheets: seq<Sheet>, s: Sheet)
    ensures GetExcelDataStats(sheets + [s]).sheetCount == GetExcelDataStats(sheets).sheetCount + 1
    ensures GetExcelDataStats(sheets + [s]).rowCount == GetExcelDataStats(sheets).rowCount + |s.rows|
  {
    assert (sheets + [s])[..|sheets|] == sheets;
  }

  /** The row count does not depend on the order of the sheets. */
  lemma {:induction false} TotalRowsFront(s: Sheet, sheets: seq<Sheet>)
    ensures TotalRows([s] + sheets) == |s.rows| + TotalRows(sheets)
  {
    TotalRowsAppend([s], sheets);
    assert [s][..0] == [];
  }

  lemma {:induction false} TotalRowsInsert(x: Sheet, s: seq<Sheet>, le: (Sheet, Sheet) -> bool)
    ensures TotalRows(Insert(x, s, le)) == |x.rows| + TotalRows(s)
  {
    if s == [] || le(x, s[0]) {
      TotalRowsFront(x, s);
    } else {
      TotalRowsInsert(x, s[1..], le);
      TotalRowsFront(s[0], Insert(x, s[1..], le));
      TotalRowsFront(s[0], s[1..]);
      assert s == [s[0]] + s[1..];
    }
  }

  lemma {:induction false} TotalRowsSorted(s: seq<Sheet>, le: (Sheet, Sheet) -> bool)
    ensures TotalRows(SortBy(s, le)) == TotalRows(s)
  {
    if s != [] {
      TotalRowsSorted(s[1..], le);
      TotalRowsInsert(s[0], SortBy(s[1..], le), le);
      TotalRowsFront(s[0], s[1..]);
      assert s == [s[0]] + s[1..];
    }
  }
}
