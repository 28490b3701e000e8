/**
 * Spreadsheet column names and API field names
 * (src/utils/excel/excelFieldMapping.ts).
 */
module ExcelFieldMapping {
  import opened Common

  /** `EXCEL_TO_API_FIELD_MAPPING`, in declaration order. */
  const ExcelToApi: Record := [
    ("국", "gook"), ("그룹", "group"), ("순", "soon"), ("이름", "name"),
    ("구분", "name_suffix"), ("번호", "phone"), ("직분", "role"), ("기수", "birth_date")]

  /** The table as a plain lookup, one line per column. */
  function ColumnField(c: string): Option<string>
  {
    if c == "국" then Some("gook")
    else if c == "그룹" then Some("group")
    else if c == "순" then Some("soon")
    else if c == "이름" then Some("name")
    else if c == "구분" then Some("name_suffix")
    else if c == "번호" then Some("phone")
    else if c == "직분" then Some("role")
    else if c == "기수" then Some("birth_date")
    else None
  }

  /** The entry list and the lookup agree on every column. */
  lemma {:induction false} ExcelToApiLookup(c: string)
    ensures Get(ExcelToApi, c) == ColumnField(c)
  {
    var t := ExcelToApi;
    assert Get(t[8..], c) == None;
    assert Get(t[7..], c) == if c == "기수" then Some("birth_date") else Get(t[8..], c);
    assert Get(t[6..], c) == if c == "직분" then Some("role") else Get(t[7..], c);
    assert Get(t[5..], c) == if c == "번호" then Some("phone") else Get(t[6..], c);
    assert Get(t[4..], c) == if c == "구분" then Some("name_suffix") else Get(t[5..], c);
    assert Get(t[3..], c) == if c == "이름" then Some("name") else Get(t[4..], c);
    assert Get(t[2..], c) == if c == "순" then Some("soon") else Get(t[3..], c);
    assert Get(t[1..], c) == if c == "그룹" then Some("group") else Get(t[2..], c);
  }

  /** The reverse table built by the `reduce`: each entry written in turn. */
  function Invert(r: Record): (inv: Record)
  {
    if r == [] then [] else Put(Invert(r[..|r| - 1]), r[|r| - 1].1, r[|r| - 1].0)
  }

  predicate DistinctValues(r: Record)
  {
    forall i, j :: 0 <= i < j < |r| ==> r[i].1 != r[j].1
  }

  /** `Object.values(r)` */
  function ValuesOf(r: Record): (vs: seq<string>)
    ensures |vs| == |r| && forall i :: 0 <= i < |r| ==> vs[i] == r[i].1
  {
    if r == [] then [] else ValuesOf(r[..|r| - 1]) + [r[|r| - 1].1]
  }

  /**
   * With distinct values the reverse table sends every value back to its
   * key, and its keys are exactly the values, in order.
   */
  lemma {:induction false} InvertInverts(r: Record)
    requires DistinctValues(r)
    ensures KeysOf(Invert(r)) == ValuesOf(r)
    ensures forall i :: 0 <= i < |r| ==> Get(Invert(r), r[i].1) == Some(r[i].0)
  {
    if r != [] {
      var p := r[..|r| - 1];
      var last := r[|r| - 1];
      assert forall i :: 0 <= i < |p| ==> p[i] == r[i];
      InvertInverts(p);
      var q := Invert(p);
      assert Invert(r) == Put(q, last.1, last.0);
      assert last.1 !in ValuesOf(p) by {
        forall i | 0 <= i < |p| ensures ValuesOf(p)[i] != last.1 {
          assert p[i] == r[i];
        }
      }
      PutKeysOrder(q, last.1, last.0);
      forall i | 0 <= i < |r| ensures Get(Invert(r), r[i].1) == Some(r[i].0) {
        GetPut(q, last.1, last.0, r[i].1);
      }
    }
  }

  /** `API_TO_EXCEL_FIELD_MAPPING` */
  function ApiToExcel(): Record
  {
    Invert(ExcelToApi)
  }

  /** The reverse table undoes the forward one and lists the eight fields in order. */
  lemma {:induction false} ApiToExcelInverts()
    ensures forall c, f :: Get(ExcelToApi, c) == Some(f) ==> Get(ApiToExcel(), f) == Some(c)
    ensures KeysOf(ApiToExcel()) == ["gook", "group", "soon", "name", "name_suffix", "phone", "role", "birth_date"]
  {
    ExcelToApiDistinct();
    InvertInverts(ExcelToApi);
    ExcelToApiValues();
    forall c, f | Get(ExcelToApi, c) == Some(f) ensures Get(ApiToExcel(), f) == Some(c) {
      ForwardEntry(c, f);
    }
  }

  lemma {:induction false} ExcelToApiValues()
    ensures ValuesOf(ExcelToApi) == ["gook", "group", "soon", "name", "name_suffix", "phone", "role", "birth_date"]
  {
    var vs := ValuesOf(ExcelToApi);
    assert |vs| == 8;
  }

  lemma {:induction false} ExcelToApiDistinct()
    ensures DistinctValues(ExcelToApi)
  {
  }

  /** A column the table maps is one of its entries. */
  lemma {:induction false} ForwardEntry(c: string, f: string)
    requires Get(ExcelToApi, c) == Some(f)
    ensures exists i :: 0 <= i < |ExcelToApi| && ExcelToApi[i] == (c, f)
  {
    ExcelToApiLookup(c);
    var t := ExcelToApi;
    if c == "국" { assert t[0] == (c, f); }
    else if c == "그룹" { assert t[1] == (c, f); }
    else if c == "순" { assert t[2] == (c, f); }
    else if c == "이름" { assert t[3] == (c, f); }
    else if c == "구분" { assert t[4] == (c, f); }
    else if c == "번호" { assert t[5] == (c, f); }
    else if c == "직분" { assert t[6] == (c, f); }
    else { assert t[7] == (c, f); }
  }

  /** `SYNC_IDENTIFIER_FIELDS` */
  const SyncNameColumn := "이름"
  const SyncPhoneColumn := "번호"

  /** Both identifier columns are mapped columns. */
  lemma {:induction false} SyncIdentifiersMapped()
    ensures Get(ExcelToApi, SyncNameColumn) == Some("name")
    ensures Get(ExcelToApi, SyncPhoneColumn) == Some("phone")
  {
    ExcelToApiLookup(SyncNameColumn);
    ExcelToApiLookup(SyncPhoneColumn);
  }
}
