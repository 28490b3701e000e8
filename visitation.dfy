/**
 * Pastoral-visit records shared by the visitation pages
 * (src/components/VisitationManagement.js,
 * src/components/main/VisitationManagement.tsx,
 * src/components/VisitationDetail.js,
 * src/components/main/VisitationDetail.tsx): the record, the 기수
 * (generation) shown next to a birth year, the editable part of a record
 * and the favourite list kept in browser storage.
 */
module Visitation {
  import opened Common

  /**
   * A visit: the visited member (대상자_*), when and how (심방날짜,
   * 심방방법), who visited (진행자_*), the notes (심방내용), the photo and
   * the creation stamp (작성일시).  A birth year of 0 stands for a missing one.
   */
  datatype Visit = Visit(
    id: int,
    name: string, guk: string, group: string, sun: string, leader: string, birthYear: int,
    date: string, way: string,
    hostName: string, hostRole: string, hostGuk: string, hostGroup: string, hostSun: string, hostBirthYear: int,
    content: string, photo: Option<string>, createdAt: string)

  // ---------------------------------------------------------------------
  // 기수: the last two characters of the birth year
  // ---------------------------------------------------------------------

  /** `calculateGeneration`: "" for a missing (0) year, else the last two characters of its text. */
  function Generation(birthYear: int): (g: string)
    ensures birthYear == 0 <==> g == ""
    ensures |g| <= 2
  {
    if birthYear == 0 then ""
    else
      var s := IntToString(birthYear);
      if |s| >= 2 then s[|s| - 2..] else s
  }

  lemma {:induction false} LastTwoDigits(n: nat)
    requires n >= 10
    ensures var s := NatToString(n);
      |s| >= 2 && s[|s| - 2] == DigitChar((n / 10) % 10) && s[|s| - 1] == DigitChar(n % 10)
  {
    var s := NatToString(n);
    assert s == NatToString(n / 10) + [DigitChar(n % 10)];
    var t := NatToString(n / 10);
    if n / 10 < 10 {
      assert t == [DigitChar(n / 10)];
    } else {
      assert t == NatToString(n / 100) + [DigitChar((n / 10) % 10)];
    }
  }

  /** For a year of two or more digits the generation is two digits worth the year modulo 100. */
  lemma {:induction false} GenerationIsYearMod100(birthYear: int)
    requires birthYear >= 10
    ensures |Generation(birthYear)| == 2 && AllDigits(Generation(birthYear))
    ensures DigitsValue(Generation(birthYear)) == birthYear % 100
  {
    LastTwoDigits(birthYear);
    var s := NatToString(birthYear);
    var g := Generation(birthYear);
    assert g == [s[|s| - 2], s[|s| - 1]];
    assert g[..1] == [s[|s| - 2]];
    assert g[..1][..0] == [];
    var a := DigitValue(g[0]);
    var b := DigitValue(g[1]);
    assert a == (birthYear / 10) % 10 && b == birthYear % 10;
    assert DigitsValue(g[..1]) == DigitsValue(g[..1][..0]) * 10 + a == a;
    assert DigitsValue(g) == DigitsValue(g[..1]) * 10 + b;
    Mod100(birthYear);
  }

  lemma {:induction false} Mod100(n: nat)
    ensures n % 100 == ((n / 10) % 10) * 10 + n % 10
  {
    var q := n / 10;
    assert n == 10 * q + n % 10;
    assert q == 10 * (q / 10) + q % 10;
    assert n == 100 * (q / 10) + (10 * (q % 10) + n % 10);
  }

  // ---------------------------------------------------------------------
  // The edit form
  // ---------------------------------------------------------------------

  /** The three editable fields: 심방내용, 심방날짜, 심방방법. */
  datatype EditForm = EditForm(content: string, date: string, way: string)

  const EmptyForm := EditForm("", "", "")

  /** The form seeded from a record. */
  function FormOf(v: Visit): EditForm
  {
    EditForm(v.content, v.date, v.way)
  }

  /** `{ ...visitation, ...editForm }` */
  function Save(v: Visit, f: EditForm): Visit
  {
    v.(content := f.content, date := f.date, way := f.way)
  }

  /**
   * Saving writes exactly the form's three fields: the saved record shows
   * the form, and putting the old three fields back gives the old record.
   */
  lemma {:induction false} SaveOnlyEditedFields(v: Visit, f: EditForm)
    ensures FormOf(Save(v, f)) == f
    ensures Save(Save(v, f), FormOf(v)) == v
    ensures Save(v, f).id == v.id && Save(v, f).name == v.name && Save(v, f).createdAt == v.createdAt
  {
  }

  /** Saving a form that was not edited leaves the record as it was. */
  lemma {:induction false} SaveUnedited(v: Visit)
    ensures Save(v, FormOf(v)) == v
  {
  }

  // ---------------------------------------------------------------------
  // Favourites
  // ---------------------------------------------------------------------

  /**
   * The detail page's `toggleFavorite` on the stored id list: remove every
   * copy when favourited, else append; the flag flips.
   */
  function ToggleStored(stored: seq<int>, id: int, isFavorited: bool): (r: (seq<int>, bool))
  {
    if isFavorited then (Remove(stored, id), false) else (stored + [id], true)
  }

  /**
   * When the flag agrees with the list, a toggle flips the id's membership
   * and keeps the flag in agreement; no other id's membership changes.
   */
  lemma {:induction false} ToggleStoredFlips(stored: seq<int>, id: int, isFavorited: bool, other: int)
    requires isFavorited == (id in stored)
    ensures var (s', f') := ToggleStored(stored, id, isFavorited);
      f' == !isFavorited && (id in s' <==> f') && (other != id ==> (other in s' <==> other in stored))
  {
  }

  /** Favouriting then unfavouriting restores the stored list exactly. */
  lemma {:induction false} ToggleStoredTwice(stored: seq<int>, id: int)
    requires id !in stored
    ensures var (s1, f1) := ToggleStored(stored, id, false);
      ToggleStored(s1, id, f1) == (stored, false)
  {
    RemoveAppendAbsent(stored, id);
  }
}
