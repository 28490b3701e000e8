/**
 * The Excel upload box (src/components/ui/excel/FileUpload.tsx): the
 * extension test and the error message it sets or clears.  Drag state,
 * the hidden file input and rendering are not modelled; a file is
 * represented by its name.
 */
module FileUpload {
  import opened Common

  /** The extensions accepted when none are given. */
  const DefaultExtensions: seq<string> := [".xlsx", ".xls"]

  const ErrorPrefix := "허용된 파일 형식: "

  /** `acceptedExtensions.some(ext => name.endsWith(ext))` */
  function AnyEndsWith(name: string, exts: seq<string>): (ok: bool)
    ensures ok <==> exists i :: 0 <= i < |exts| && EndsWith(name, exts[i])
  {
    if exts == [] then false
    else
      assert forall i :: 1 <= i < |exts| ==> exts[i] == exts[1..][i - 1];
      EndsWith(name, exts[0]) || AnyEndsWith(name, exts[1..])
  }

  /** The extension test of `validateFile`: the lowercased name ends with an accepted extension. */
  predicate ValidFile(name: string, exts: seq<string>)
  {
    AnyEndsWith(ToLower(name), exts)
  }

  /** The error shown for a rejected file. */
  function ErrorText(exts: seq<string>): string
  {
    ErrorPrefix + Join(exts, ", ")
  }

  /** The component's props default. */
  function AcceptedOrDefault(exts: Option<seq<string>>): (r: seq<string>)
    ensures exts.None? ==> r == DefaultExtensions
    ensures exts.Some? ==> r == exts.value
  {
    if exts.Some? then exts.value else DefaultExtensions
  }

  /** Lowercasing is idempotent, so the test does not depend on the name's case. */
  lemma {:induction false} ToLowerIdempotent(s: string)
    ensures ToLower(ToLower(s)) == ToLower(s)
  {
    var t := ToLower(ToLower(s));
    assert |t| == |s|;
    forall i | 0 <= i < |s|
      ensures t[i] == ToLower(s)[i]
    {
    }
  }

  /** A name and its lowercase form are accepted alike. */
  lemma {:induction false} ValidFileIgnoresCase(name: string, exts: seq<string>)
    ensures ValidFile(name, exts) <==> ValidFile(ToLower(name), exts)
  {
    ToLowerIdempotent(name);
  }

  /** With the default extensions a file is accepted iff its lowercased name ends in ".xlsx" or ".xls". */
  lemma {:induction false} ValidDefault(name: string)
    ensures ValidFile(name, DefaultExtensions)
      <==> EndsWith(ToLower(name), ".xlsx") || EndsWith(ToLower(name), ".xls")
  {
    var n := ToLower(name);
    assert DefaultExtensions[0] == ".xlsx" && DefaultExtensions[1] == ".xls";
    if EndsWith(n, ".xlsx") {
      assert EndsWith(n, DefaultExtensions[0]);
    }
    if EndsWith(n, ".xls") {
      assert EndsWith(n, DefaultExtensions[1]);
    }
  }

  /** An extension listed in upper case can never match, since the name is lowercased first. */
  lemma {:induction false} UpperCaseExtensionNeverMatches(name: string, ext: string, i: nat)
    requires i < |ext| && IsUpperAscii(ext[i])
    ensures !EndsWith(ToLower(name), ext)
  {
    var n := ToLower(name);
    if |ext| <= |n| {
      var k := |n| - |ext| + i;
      assert n[k] == LowerChar(name[k]);
      SuffixMismatch(n, ext, i);
    }
  }

  lemma {:induction false} SuffixMismatch(n: string, ext: string, i: nat)
    requires i < |ext| <= |n| && n[|n| - |ext| + i] != ext[i]
    ensures !EndsWith(n, ext)
  {
    assert n[|n| - |ext|..][i] == n[|n| - |ext| + i];
  }

  /** The upload box: its accepted extensions and the error it shows. */
  class Uploader {
    const accepted: seq<string>
    var error: string
    /** The file names handed to `onFileSelect`, in order. */
    var selected: seq<string>

    constructor(exts: Option<seq<string>>)
      ensures accepted == AcceptedOrDefault(exts)
      ensures error == "" && selected == []
    {
      accepted := AcceptedOrDefault(exts);
      error := "";
      selected := [];
    }

    /** `validateFile`: reject with the error listing the extensions, or clear the error. */
    method ValidateFile(name: string) returns (ok: bool)
      modifies this
      ensures ok <==> ValidFile(name, accepted)
      ensures error == (if ok then "" else ErrorText(accepted))
      ensures selected == old(selected)
    {
      var fileName := ToLower(name);
      var isValidExtension := AnyEndsWith(fileName, accepted);
      if !isValidExtension {
        error := ErrorText(accepted);
        return false;
      }
      error := "";
      return true;
    }

    /** `handleFileSelect`: a valid file is handed on exactly once, an invalid one never. */
    method HandleFileSelect(name: string) returns (passed: bool)
      modifies this
      ensures passed <==> ValidFile(name, accepted)
      ensures passed ==> error == "" && selected == old(selected) + [name]
      ensures !passed ==> error == ErrorText(accepted) && selected == old(selected)
    {
      passed := ValidateFile(name);
      if passed {
        selected := selected + [name];
      }
    }
  }
}
