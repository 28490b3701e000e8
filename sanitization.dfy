/**
 * Input sanitisers (src/utils/sanitization.ts). Each one is a chain of
 * regular-expression replacements followed, for most, by `trim`; an empty
 * input gives the empty string.
 */
module Sanitization {
  import opened Common

  // ---------------------------------------------------------------------
  // sanitizeInput: HTML escaping
  // ---------------------------------------------------------------------

  /** The five characters `sanitizeInput` replaces by entities. */
  predicate IsHtmlSpecial(c: char)
  {
    c == '<' || c == '>' || c == '"' || c == '\'' || c == '/'
  }

  /** `sanitizeInput`: the five replacements, applied in the source's order. */
  function SanitizeInput(value: string): (r: string)
    ensures forall i :: 0 <= i < |r| ==> !IsHtmlSpecial(r[i])
  {
    if value == "" then ""
    else
      var a := ReplaceAll(value, '<', "&lt;");
      var b := ReplaceAll(a, '>', "&gt;");
      var c := ReplaceAll(b, '"', "&quot;");
      var d := ReplaceAll(c, '\'', "&#x27;");
      ReplaceAll(d, '/', "&#x2F;")
  }

  /** Text without the five special characters passes through unchanged. */
  lemma {:induction false} SanitizeInputPlain(value: string)
    requires forall i :: 0 <= i < |value| ==> !IsHtmlSpecial(value[i])
    ensures SanitizeInput(value) == value
  {
    if value != "" {
      ReplaceAllAbsent(value, '<', "&lt;");
      ReplaceAllAbsent(value, '>', "&gt;");
      ReplaceAllAbsent(value, '"', "&quot;");
      ReplaceAllAbsent(value, '\'', "&#x27;");
      ReplaceAllAbsent(value, '/', "&#x2F;");
    }
  }

  /** Escaping twice is escaping once: the entities contain no special character. */
  lemma {:induction false} SanitizeInputIdempotent(value: string)
    ensures SanitizeInput(SanitizeInput(value)) == SanitizeInput(value)
  {
    SanitizeInputPlain(SanitizeInput(value));
  }

  // ---------------------------------------------------------------------
  // sanitizeSearchTerm
  // ---------------------------------------------------------------------

  /**
   * `replace(/<[^>]*>/g, '')`: a `<` followed later by a `>` starts a tag
   * that runs to the first such `>`; a `<` with no `>` after it stays.
   */
  function StripTags(s: string): (r: string)
    ensures |r| <= |s|
    ensures forall i :: 0 <= i < |r| ==> r[i] in s
    decreases |s|
  {
    if s == [] then []
    else if s[0] == '<' then
      match FindIndex(s[1..], (c: char) => c == '>')
      case Some(k) => StripTags(s[k + 2..])
      case None => [s[0]] + StripTags(s[1..])
    else [s[0]] + StripTags(s[1..])
  }

  /** Text without `<` has no tag to strip. */
  lemma {:induction false} StripTagsPlain(s: string)
    requires '<' !in s
    ensures StripTags(s) == s
  {
    if s != [] {
      StripTagsPlain(s[1..]);
      assert s == [s[0]] + s[1..];
    }
  }

  /** `[가-힣a-zA-Z0-9\s]` */
  predicate IsSearchChar(c: char)
  {
    IsHangul(c) || IsAsciiAlnum(c) || IsSpace(c)
  }

  /** No white space other than the plain space, and never two in a row. */
  predicate SingleSpaced(s: string)
  {
    && (forall i :: 0 <= i < |s| ==> IsSpace(s[i]) ==> s[i] == ' ')
    && (forall i :: 0 <= i < |s| - 1 ==> !(IsSpace(s[i]) && IsSpace(s[i + 1])))
  }

  /** `replace(/\s+/g, ' ')` */
  function CollapseSpaces(s: string): (r: string)
    ensures SingleSpaced(r)
    ensures s == [] <==> r == []
    ensures r != [] ==> (IsSpace(r[0]) <==> IsSpace(s[0]))
    ensures forall i :: 0 <= i < |r| ==> r[i] == ' ' || r[i] in s
    decreases |s|
  {
    if s == [] then []
    else if IsSpace(s[0]) then
      var rest := TrimStart(s[1..]);
      var t := CollapseSpaces(rest);
      assert forall i :: 0 <= i < |t| ==> t[i] == ' ' || t[i] in s by {
        TrimStartSpec(s[1..]);
        assert forall c :: c in rest ==> c in s[1..];
      }
      [' '] + t
    else
      var t := CollapseSpaces(s[1..]);
      assert forall i :: 0 <= i < |t| ==> t[i] == ' ' || t[i] in s;
      [s[0]] + t
  }

  /** Single-spaced text is left alone by the collapsing step. */
  lemma {:induction false} CollapseSpacesFixed(s: string)
    requires SingleSpaced(s)
    ensures CollapseSpaces(s) == s
  {
    if s != [] {
      assert SingleSpaced(s[1..]);
      if IsSpace(s[0]) {
        assert s[1..] == [] || !IsSpace(s[1]);
        assert TrimStart(s[1..]) == s[1..];
      }
      CollapseSpacesFixed(s[1..]);
      assert s == [s[0]] + s[1..];
    }
  }

  /** A piece cut out of single-spaced text is single-spaced. */
  lemma {:induction false} SingleSpacedSlice(s: string, a: nat, b: nat)
    requires a <= b <= |s| && SingleSpaced(s)
    ensures SingleSpaced(s[a..b])
  {
    assert forall i :: 0 <= i < b - a ==> s[a..b][i] == s[a + i];
  }

  /** `sanitizeSearchTerm` */
  function SanitizeSearchTerm(value: string): (r: string)
  {
    if value == "" then ""
    else Trim(CollapseSpaces(Keep(StripTags(value), IsSearchChar)))
  }

  /**
   * The result holds only Hangul syllables, ASCII letters and digits and
   * single spaces between words, with no space at either end.
   */
  lemma {:induction false} SearchTermShape(value: string)
    ensures var r := SanitizeSearchTerm(value);
      && (forall i :: 0 <= i < |r| ==> IsHangul(r[i]) || IsAsciiAlnum(r[i]) || r[i] == ' ')
      && SingleSpaced(r)
      && (r == [] || (r[0] != ' ' && r[|r| - 1] != ' '))
  {
    if value != "" {
      var k := Keep(StripTags(value), IsSearchChar);
      var c := CollapseSpaces(k);
      CollapsedSearchChars(k);
      TrimmedSingleSpaced(c);
    }
  }

  lemma {:induction false} CollapsedSearchChars(k: string)
    requires AllChars(k, IsSearchChar)
    ensures forall i :: 0 <= i < |CollapseSpaces(k)| ==> IsSearchChar(CollapseSpaces(k)[i])
  {
  }

  lemma {:induction false} TrimmedSingleSpaced(c: string)
    requires SingleSpaced(c) && forall i :: 0 <= i < |c| ==> IsSearchChar(c[i])
    ensures var r := Trim(c);
      && (forall i :: 0 <= i < |r| ==> IsHangul(r[i]) || IsAsciiAlnum(r[i]) || r[i] == ' ')
      && SingleSpaced(r)
      && (r == [] || (r[0] != ' ' && r[|r| - 1] != ' '))
  {
    var a := TrimIsSlice(c);
    var r := Trim(c);
    SingleSpacedSlice(c, a, a + |r|);
    assert forall i :: 0 <= i < |r| ==> r[i] == c[a + i];
  }

  /** Sanitising a sanitised search term changes nothing. */
  lemma {:induction false} SearchTermIdempotent(value: string)
    ensures SanitizeSearchTerm(SanitizeSearchTerm(value)) == SanitizeSearchTerm(value)
  {
    SearchTermShape(value);
    SearchTermFixed(SanitizeSearchTerm(value));
  }

  /** Text already in the output's shape is its own search term. */
  lemma {:induction false} SearchTermFixed(r: string)
    requires forall i :: 0 <= i < |r| ==> IsHangul(r[i]) || IsAsciiAlnum(r[i]) || r[i] == ' '
    requires SingleSpaced(r) && (r == [] || (r[0] != ' ' && r[|r| - 1] != ' '))
    ensures SanitizeSearchTerm(r) == r
  {
    if r != "" {
      assert '<' !in r;
      StripTagsPlain(r);
      assert AllChars(r, IsSearchChar);
      KeepAllKept(r, IsSearchChar);
      CollapseSpacesFixed(r);
      TrimFixed(r);
    }
  }

  // ---------------------------------------------------------------------
  // sanitizeName, sanitizeNameSuffix, sanitizePhoneNumber
  // ---------------------------------------------------------------------

  /** `[가-힣a-zA-Z\s]` */
  predicate IsNameChar(c: char)
  {
    IsHangul(c) || IsAsciiLetter(c) || IsSpace(c)
  }

  /** `sanitizeName`: filter, then trim; inner white space is kept as it is. */
  function SanitizeName(value: string): (r: string)
  {
    if value == "" then "" else Trim(Keep(value, IsNameChar))
  }

  lemma {:induction false} SanitizeNameShape(value: string)
    ensures var r := SanitizeName(value);
      && AllChars(r, IsNameChar)
      && (r == [] || (!IsSpace(r[0]) && !IsSpace(r[|r| - 1])))
      && SanitizeName(r) == r
  {
    if value != "" {
      var k := Keep(value, IsNameChar);
      var a := TrimIsSlice(k);
      var r := Trim(k);
      assert forall i :: 0 <= i < |r| ==> r[i] == k[a + i];
      SanitizeNameFixed(r);
    }
  }

  /**
   * A name made of allowed characters with no white space at either end is
   * kept as it is, runs of inner white space included.
   */
  lemma {:induction false} SanitizeNameFixed(value: string)
    requires AllChars(value, IsNameChar)
    requires value == [] || (!IsSpace(value[0]) && !IsSpace(value[|value| - 1]))
    ensures SanitizeName(value) == value
  {
    if value != "" {
      KeepAllKept(value, IsNameChar);
      TrimFixed(value);
    }
  }

  /** `sanitizeNameSuffix`: ASCII letters and digits only (the trim finds nothing to cut). */
  function SanitizeNameSuffix(value: string): (r: string)
  {
    if value == "" then "" else Trim(Keep(value, IsAsciiAlnum))
  }

  lemma {:induction false} SanitizeNameSuffixShape(value: string)
    ensures SanitizeNameSuffix(value) == Keep(value, IsAsciiAlnum)
    ensures AllChars(SanitizeNameSuffix(value), IsAsciiAlnum)
    ensures SanitizeNameSuffix(SanitizeNameSuffix(value)) == SanitizeNameSuffix(value)
  {
    var k := Keep(value, IsAsciiAlnum);
    AlnumUntrimmed(k);
    KeepIdempotent(value, IsAsciiAlnum);
  }

  lemma {:induction false} AlnumUntrimmed(k: string)
    requires AllChars(k, IsAsciiAlnum)
    ensures Trim(k) == k
  {
    TrimFixed(k);
  }

  predicate IsPhoneChar(c: char)
  {
    IsDigit(c) || c == '-'
  }

  /** `sanitizePhoneNumber`: digits and hyphens only. */
  function SanitizePhoneNumber(value: string): (r: string)
  {
    if value == "" then "" else Keep(value, IsPhoneChar)
  }

  lemma {:induction false} SanitizePhoneNumberShape(value: string)
    ensures AllChars(SanitizePhoneNumber(value), IsPhoneChar)
    ensures SanitizePhoneNumber(SanitizePhoneNumber(value)) == SanitizePhoneNumber(value)
    ensures AllChars(value, IsPhoneChar) ==> SanitizePhoneNumber(value) == value
  {
    KeepIdempotent(value, IsPhoneChar);
    if AllChars(value, IsPhoneChar) {
      KeepAllKept(value, IsPhoneChar);
    }
  }
}
