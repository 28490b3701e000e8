/**
 * Value types and string helpers shared by the whole model. They stand for
 * the JavaScript and Python built-ins the system calls: character classes
 * used in its regular expressions, `trim`, `split`/`join`, `includes`,
 * `parseInt`, `String(n)`, `new Set(...)` and the stable `Array.prototype.sort`.
 */
module Common {

  datatype Option<T> = None | Some(value: T)

  // ---------------------------------------------------------------------
  // Character classes
  // ---------------------------------------------------------------------

  /** `[0-9]`, `\d` */
  predicate IsDigit(c: char) { '0' <= c <= '9' }

  predicate IsUpperAscii(c: char) { 'A' <= c <= 'Z' }

  predicate IsLowerAscii(c: char) { 'a' <= c <= 'z' }

  /** `[a-zA-Z]` */
  predicate IsAsciiLetter(c: char) { IsUpperAscii(c) || IsLowerAscii(c) }

  /** `[a-zA-Z0-9]` */
  predicate IsAsciiAlnum(c: char) { IsAsciiLetter(c) || IsDigit(c) }

  /** `[가-힣]`: the Hangul syllable block U+AC00..U+D7A3. */
  predicate IsHangul(c: char) { '\U{AC00}' <= c <= '\U{D7A3}' }

  /** `[ㄱ-ㅎ]`: the Hangul compatibility consonants U+3131..U+314E. */
  predicate IsJamoConsonant(c: char) { '\U{3131}' <= c <= '\U{314E}' }

  /**
   * JavaScript `\s`: the WhiteSpace and LineTerminator code points. The same
   * set is what `String.prototype.trim` removes.
   */
  predicate IsSpace(c: char)
  {
    || c == '\t' || c == '\n' || c == '\U{000B}' || c == '\U{000C}' || c == '\r'
    || c == ' ' || c == '\U{00A0}' || c == '\U{1680}'
    || ('\U{2000}' <= c <= '\U{200A}')
    || c == '\U{2028}' || c == '\U{2029}' || c == '\U{202F}' || c == '\U{205F}'
    || c == '\U{3000}' || c == '\U{FEFF}'
  }

  /** `\w` */
  predicate IsWordChar(c: char) { IsAsciiAlnum(c) || c == '_' }

  predicate AllChars(s: string, p: char -> bool)
  {
    forall i :: 0 <= i < |s| ==> p(s[i])
  }

  predicate AllDigits(s: string) { forall i :: 0 <= i < |s| ==> IsDigit(s[i]) }

  /** ASCII case mapping of `toLowerCase`; other characters are unchanged. */
  function LowerChar(c: char): (r: char)
    ensures !IsUpperAscii(r)
    ensures IsUpperAscii(c) || r == c
  {
    if IsUpperAscii(c) then (c as int + 32) as char else c
  }

  /** ASCII case mapping of `toUpperCase`; other characters are unchanged. */
  function UpperChar(c: char): (r: char)
    ensures !IsLowerAscii(r)
    ensures IsLowerAscii(c) || r == c
  {
    if IsLowerAscii(c) then (c as int - 32) as char else c
  }

  function ToLower(s: string): (r: string)
    ensures |r| == |s|
    ensures forall i :: 0 <= i < |s| ==> r[i] == LowerChar(s[i])
  {
    if s == [] then [] else [LowerChar(s[0])] + ToLower(s[1..])
  }

  function ToUpper(s: string): (r: string)
    ensures |r| == |s|
    ensures forall i :: 0 <= i < |s| ==> r[i] == UpperChar(s[i])
  {
    if s == [] then [] else [UpperChar(s[0])] + ToUpper(s[1..])
  }

  // ---------------------------------------------------------------------
  // Filtering characters (`replace(/[^...]/g, '')`)
  // ---------------------------------------------------------------------

  /** The characters of `s` that satisfy `p`, in order. */
  function Keep(s: string, p: char -> bool): (r: string)
    ensures |r| <= |s|
    ensures AllChars(r, p)
  {
    if s == [] then []
    else (if p(s[0]) then [s[0]] else []) + Keep(s[1..], p)
  }

  /** A character survives filtering exactly when it occurs and is kept. */
  lemma {:induction false} KeepMembers(s: string, p: char -> bool)
    ensures forall c :: c in Keep(s, p) <==> c in s && p(c)
  {
    if s != [] {
      KeepMembers(s[1..], p);
      assert s == [s[0]] + s[1..];
    }
  }

  lemma {:induction false} KeepAllKept(s: string, p: char -> bool)
    requires AllChars(s, p)
    ensures Keep(s, p) == s
  {
    if s != [] {
      KeepAllKept(s[1..], p);
    }
  }

  /** Filtering twice is filtering once. */
  lemma {:induction false} KeepIdempotent(s: string, p: char -> bool)
    ensures Keep(Keep(s, p), p) == Keep(s, p)
  {
    KeepAllKept(Keep(s, p), p);
  }

  lemma {:induction false} KeepConcat(a: string, b: string, p: char -> bool)
    ensures Keep(a + b, p) == Keep(a, p) + Keep(b, p)
  {
    if a == [] {
      assert a + b == b;
    } else {
      var ab := a + b;
      assert ab[0] == a[0] && ab[1..] == a[1..] + b;
      KeepConcat(a[1..], b, p);
      assert Keep(ab, p) == (if p(a[0]) then [a[0]] else []) + Keep(a[1..] + b, p);
    }
  }

  lemma {:induction false} KeepNone(s: string, p: char -> bool)
    requires forall i :: 0 <= i < |s| ==> !p(s[i])
    ensures Keep(s, p) == []
  {
    if s != [] {
      KeepNone(s[1..], p);
    }
  }

  /** Two filters that agree on every character of `s` keep the same characters. */
  lemma {:induction false} KeepAgree(s: string, p: char -> bool, q: char -> bool)
    requires forall i :: 0 <= i < |s| ==> p(s[i]) == q(s[i])
    ensures Keep(s, p) == Keep(s, q)
  {
    if s != [] {
      KeepAgree(s[1..], p, q);
    }
  }

  /** A filter that drops white space does not care whether the text was trimmed first. */
  lemma {:induction false} KeepTrim(s: string, p: char -> bool)
    requires forall c :: IsSpace(c) ==> !p(c)
    ensures Keep(Trim(s), p) == Keep(s, p)
  {
    KeepTrimStart(s, p);
    KeepTrimEnd(TrimStart(s), p);
  }

  lemma {:induction false} KeepTrimStart(s: string, p: char -> bool)
    requires forall c :: IsSpace(c) ==> !p(c)
    ensures Keep(TrimStart(s), p) == Keep(s, p)
  {
    var t := TrimStart(s);
    TrimStartSpec(s);
    var a := |s| - |t|;
    var lead := s[..a];
    assert s == lead + t;
    KeepConcat(lead, t, p);
    assert forall i :: 0 <= i < a ==> lead[i] == s[i] && IsSpace(s[i]);
    KeepNone(lead, p);
  }

  lemma {:induction false} KeepTrimEnd(t: string, p: char -> bool)
    requires forall c :: IsSpace(c) ==> !p(c)
    ensures Keep(TrimEnd(t), p) == Keep(t, p)
  {
    var r := TrimEnd(t);
    TrimEndSpec(t);
    var trail := t[|r|..];
    assert t == r + trail;
    KeepConcat(r, trail, p);
    forall i | 0 <= i < |trail| ensures !p(trail[i]) {
      assert trail[i] == t[|r| + i];
    }
    KeepNone(trail, p);
  }

  // ---------------------------------------------------------------------
  // Prefixes, suffixes, substrings
  // ---------------------------------------------------------------------

  predicate StartsWith(s: string, prefix: string)
  {
    |prefix| <= |s| && s[..|prefix|] == prefix
  }

  predicate EndsWith(s: string, suffix: string)
  {
    |suffix| <= |s| && s[|s| - |suffix|..] == suffix
  }

  /** `s.includes(sub)` */
  predicate Contains(s: string, sub: string)
    decreases |s|
  {
    StartsWith(s, sub) || (|s| > 0 && Contains(s[1..], sub))
  }

  lemma {:induction false} ContainsAt(s: string, sub: string, i: nat)
    requires i + |sub| <= |s| && s[i..i + |sub|] == sub
    ensures Contains(s, sub)
    decreases i
  {
    if i > 0 {
      assert s[1..][i - 1..i - 1 + |sub|] == s[i..i + |sub|];
      ContainsAt(s[1..], sub, i - 1);
    }
  }

  lemma {:induction false} ContainsWitness(s: string, sub: string) returns (i: nat)
    requires Contains(s, sub)
    ensures i + |sub| <= |s| && s[i..i + |sub|] == sub
    decreases |s|
  {
    if StartsWith(s, sub) {
      i := 0;
    } else {
      var j := ContainsWitness(s[1..], sub);
      assert s[1..][j..j + |sub|] == s[j + 1..j + 1 + |sub|];
      i := j + 1;
    }
  }

  lemma {:induction false} ContainsEmpty(s: string)
    ensures Contains(s, "")
  {
    assert StartsWith(s, "");
  }

  /** A one-character pattern is found exactly when the character occurs. */
  lemma {:induction false} ContainsChar(s: string, c: char)
    ensures Contains(s, [c]) <==> c in s
  {
    if Contains(s, [c]) {
      var i := ContainsWitness(s, [c]);
      assert s[i] == c;
    }
    if c in s {
      var i :| 0 <= i < |s| && s[i] == c;
      assert s[i..i + 1] == [c];
      ContainsAt(s, [c], i);
    }
  }

  /** Whatever contains a string also contains every substring of it. */
  lemma {:induction false} ContainsTransitive(s: string, mid: string, sub: string)
    requires Contains(s, mid) && Contains(mid, sub)
    ensures Contains(s, sub)
  {
    var i := ContainsWitness(s, mid);
    var j := ContainsWitness(mid, sub);
    forall k | 0 <= k < |sub|
      ensures s[i + j + k] == sub[k]
    {
      assert sub[k] == mid[j + k] == s[i..i + |mid|][j + k];
    }
    assert s[i + j..i + j + |sub|] == sub;
    ContainsAt(s, sub, i + j);
  }

  // ---------------------------------------------------------------------
  // Trimming (`trimStart`, `trimEnd`, `trim`)
  // ---------------------------------------------------------------------

  function TrimStart(s: string): (r: string)
    ensures |r| <= |s|
    ensures r == [] || !IsSpace(r[0])
  {
    if s != [] && IsSpace(s[0]) then TrimStart(s[1..]) else s
  }

  /** `trimStart` removes a run of white space, all of it, and keeps the rest whole. */
  lemma {:induction false} TrimStartSpec(s: string)
    ensures var r := TrimStart(s);
      r == s[|s| - |r|..] && forall i :: 0 <= i < |s| - |r| ==> IsSpace(s[i])
  {
    if s != [] && IsSpace(s[0]) {
      TrimStartSpec(s[1..]);
      assert forall i :: 1 <= i < |s| ==> s[i] == s[1..][i - 1];
    }
  }

  function TrimEnd(s: string): (r: string)
    ensures |r| <= |s|
    ensures r == [] || !IsSpace(r[|r| - 1])
  {
    if s != [] && IsSpace(s[|s| - 1]) then TrimEnd(s[..|s| - 1]) else s
  }

  /** `trimEnd` removes a run of white space at the end, all of it, and keeps the rest whole. */
  lemma {:induction false} TrimEndSpec(s: string)
    ensures var r := TrimEnd(s);
      r == s[..|r|] && forall i :: |r| <= i < |s| ==> IsSpace(s[i])
  {
    if s != [] && IsSpace(s[|s| - 1]) {
      TrimEndSpec(s[..|s| - 1]);
      assert forall i :: 0 <= i < |s| - 1 ==> s[i] == s[..|s| - 1][i];
    }
  }

  function Trim(s: string): (r: string)
    ensures r == [] || (!IsSpace(r[0]) && !IsSpace(r[|r| - 1]))
    ensures |r| <= |s|
  {
    var t := TrimStart(s);
    var r := TrimEnd(t);
    TrimEndSpec(t);
    assert r == [] || r[0] == t[0];
    r
  }

  /** A string that neither starts nor ends with white space trims to itself. */
  lemma {:induction false} TrimFixed(s: string)
    requires s == [] || (!IsSpace(s[0]) && !IsSpace(s[|s| - 1]))
    ensures Trim(s) == s
  {
  }

  lemma {:induction false} TrimIdempotent(s: string)
    ensures Trim(Trim(s)) == Trim(s)
  {
    TrimFixed(Trim(s));
  }

  /** `s.trim()` is empty exactly when `s` is white space only. */
  lemma {:induction false} TrimEmptyIffSpaces(s: string)
    ensures Trim(s) == [] <==> AllChars(s, IsSpace)
  {
    var t := TrimStart(s);
    TrimStartSpec(s);
    TrimEndSpec(t);
    assert t != [] ==> t[0] == s[|s| - |t|];
  }

  /** Trimming only removes white space: the non-space characters survive. */
  lemma {:induction false} TrimKeepsNonSpace(s: string, c: char)
    requires c in s && !IsSpace(c)
    ensures c in Trim(s)
  {
    var i :| 0 <= i < |s| && s[i] == c;
    var t := TrimStart(s);
    TrimStartKeeps(s, i);
    var j := i - (|s| - |t|);
    TrimEndKeeps(t, j);
    assert Trim(s)[j] == c;
  }

  lemma {:induction false} TrimStartKeeps(s: string, i: nat)
    requires i < |s| && !IsSpace(s[i])
    ensures var k := |s| - |TrimStart(s)|; k <= i && TrimStart(s)[i - k] == s[i]
  {
    var k := |s| - |TrimStart(s)|;
    TrimStartSpec(s);
    assert k <= i;
  }

  lemma {:induction false} TrimEndKeeps(t: string, j: nat)
    requires j < |t| && !IsSpace(t[j])
    ensures j < |TrimEnd(t)| && TrimEnd(t)[j] == t[j]
  {
    TrimEndSpec(t);
    assert j < |TrimEnd(t)|;
  }

  /** `trim` cuts a contiguous piece out of the string. */
  lemma {:induction false} TrimIsSlice(s: string) returns (a: nat)
    ensures a + |Trim(s)| <= |s| && Trim(s) == s[a..a + |Trim(s)|]
  {
    var t := TrimStart(s);
    a := |s| - |t|;
    var r := TrimEnd(t);
    TrimStartSpec(s);
    TrimEndSpec(t);
    assert r == t[..|r|];
    assert t[..|r|] == s[a..a + |r|];
  }

  // ---------------------------------------------------------------------
  // Replacing one character
  // ---------------------------------------------------------------------

  /** `s.replace(/c/g, rep)` for a single character `c`. */
  function ReplaceAll(s: string, c: char, rep: string): (r: string)
    ensures c !in rep ==> c !in r
    ensures forall d :: d in r ==> d in s || d in rep
  {
    if s == [] then []
    else (if s[0] == c then rep else [s[0]]) + ReplaceAll(s[1..], c, rep)
  }

  /** With nothing to replace the string is unchanged. */
  lemma {:induction false} ReplaceAllAbsent(s: string, c: char, rep: string)
    requires c !in s
    ensures ReplaceAll(s, c, rep) == s
  {
    if s != [] {
      ReplaceAllAbsent(s[1..], c, rep);
      assert s == [s[0]] + s[1..];
    }
  }

  // ---------------------------------------------------------------------
  // The e-mail pattern /^[^\s@]+@[^\s@]+\.[^\s@]+$/
  // ---------------------------------------------------------------------

  /** `[^\s@]+` */
  predicate IsEmailPart(t: string)
  {
    t != [] && forall k :: 0 <= k < |t| ==> !IsSpace(t[k]) && t[k] != '@'
  }

  /** The pattern read literally: three parts joined by `@` and `.`. */
  predicate EmailPattern(s: string)
  {
    exists i, j :: 0 < i < j < |s| - 1 && s[i] == '@' && s[j] == '.'
      && IsEmailPart(s[..i]) && IsEmailPart(s[i + 1..j]) && IsEmailPart(s[j + 1..])
  }

  /**
   * The same language described by its characters: no white space, exactly
   * one `@`, not first, and a `.` after it with a character on each side.
   */
  predicate EmailLike(s: string)
  {
    && (forall k :: 0 <= k < |s| ==> !IsSpace(s[k]))
    && (exists i :: 0 < i < |s| && s[i] == '@' && OnlyAt(s, '@', i) && DotAfter(s, i))
  }

  /** `c` occurs in `s` at index `i` and nowhere else. */
  predicate OnlyAt(s: string, c: char, i: nat)
  {
    forall k :: 0 <= k < |s| && s[k] == c ==> k == i
  }

  /** A `.` after index `i + 1` and before the last character. */
  predicate DotAfter(s: string, i: nat)
  {
    exists j :: i + 1 < j < |s| - 1 && s[j] == '.'
  }

  lemma {:induction false} EmailPatternIff(s: string)
    ensures EmailPattern(s) <==> EmailLike(s)
  {
    if EmailPattern(s) {
      EmailPatternLike(s);
    }
    if EmailLike(s) {
      EmailLikePattern(s);
    }
  }

  lemma {:induction false} EmailPatternLike(s: string)
    requires EmailPattern(s)
    ensures EmailLike(s)
  {
    var i, j :| 0 < i < j < |s| - 1 && s[i] == '@' && s[j] == '.'
      && IsEmailPart(s[..i]) && IsEmailPart(s[i + 1..j]) && IsEmailPart(s[j + 1..]);
    EmailPatternChars(s, i, j);
  }

  lemma {:induction false} EmailLikePattern(s: string)
    requires EmailLike(s)
    ensures EmailPattern(s)
  {
    var i :| 0 < i < |s| && s[i] == '@' && OnlyAt(s, '@', i) && DotAfter(s, i);
    var j :| i + 1 < j < |s| - 1 && s[j] == '.';
    EmailPartSlice(s, 0, i);
    EmailPartSlice(s, i + 1, j);
    EmailPartSlice(s, j + 1, |s|);
    assert s[0..i] == s[..i] && s[j + 1..|s|] == s[j + 1..];
  }

  lemma {:induction false} EmailPatternChars(s: string, i: nat, j: nat)
    requires 0 < i < j < |s| - 1 && s[i] == '@' && s[j] == '.'
    requires IsEmailPart(s[..i]) && IsEmailPart(s[i + 1..j]) && IsEmailPart(s[j + 1..])
    ensures forall k :: 0 <= k < |s| ==> !IsSpace(s[k])
    ensures OnlyAt(s, '@', i) && DotAfter(s, i)
  {
    var a, b, c := s[..i], s[i + 1..j], s[j + 1..];
    assert forall k :: 0 <= k < i ==> s[k] == a[k];
    assert forall k :: i < k < j ==> s[k] == b[k - i - 1];
    assert forall k :: j < k < |s| ==> s[k] == c[k - j - 1];
  }

  /** A piece of `s` without white space or `@` is an e-mail part when not empty. */
  lemma {:induction false} EmailPartSlice(s: string, a: nat, b: nat)
    requires a < b <= |s|
    requires forall k :: a <= k < b ==> !IsSpace(s[k]) && s[k] != '@'
    ensures IsEmailPart(s[a..b])
  {
    var t := s[a..b];
    assert forall k :: 0 <= k < |t| ==> t[k] == s[a + k];
  }

  // ---------------------------------------------------------------------
  // Split and join
  // ---------------------------------------------------------------------

  /** `parts.join(sep)` */
  function Join(parts: seq<string>, sep: string): string
  {
    if |parts| == 0 then ""
    else if |parts| == 1 then parts[0]
    else parts[0] + sep + Join(parts[1..], sep)
  }

  /** `s.split(sep)` for a one-character separator. */
  function Split(s: string, sep: char): (r: seq<string>)
    ensures |r| >= 1
    ensures forall i :: 0 <= i < |r| ==> sep !in r[i]
  {
    if s == [] then [""]
    else
      var rest := Split(s[1..], sep);
      if s[0] == sep then [""] + rest
      else [[s[0]] + rest[0]] + rest[1..]
  }

  /** Splitting and joining with the same separator gives the string back. */
  lemma {:induction false} SplitJoin(s: string, sep: char)
    ensures Join(Split(s, sep), [sep]) == s
  {
    if s != [] {
      var rest := Split(s[1..], sep);
      SplitJoin(s[1..], sep);
      if s[0] == sep {
        assert Split(s, sep) == [""] + rest;
        assert ([""] + rest)[1..] == rest;
        assert s == [sep] + s[1..];
      } else {
        var r := Split(s, sep);
        assert r == [[s[0]] + rest[0]] + rest[1..];
        if |rest| == 1 {
          assert r == [[s[0]] + rest[0]];
        } else {
          assert r[1..] == rest[1..];
          assert Join(rest, [sep]) == rest[0] + [sep] + Join(rest[1..], [sep]);
        }
      }
    }
  }

  /** A string without the separator is one part. */
  lemma {:induction false} SplitNoSep(s: string, sep: char)
    requires sep !in s
    ensures Split(s, sep) == [s]
  {
    if s != [] {
      SplitNoSep(s[1..], sep);
      assert s == [s[0]] + s[1..];
    }
  }

  /** The first part of `a + [sep] + b` is `a` when `a` has no separator. */
  lemma {:induction false} SplitFirst(a: string, b: string, sep: char)
    requires sep !in a
    ensures Split(a + [sep] + b, sep)[0] == a
  {
    if a == [] {
      assert a + [sep] + b == [sep] + b;
    } else {
      assert (a + [sep] + b)[1..] == a[1..] + [sep] + b;
      SplitFirst(a[1..], b, sep);
    }
  }

  /** A separator after a part without one splits off exactly that part. */
  lemma {:induction false} SplitCons(a: string, b: string, sep: char)
    requires sep !in a
    ensures Split(a + [sep] + b, sep) == [a] + Split(b, sep)
  {
    if a == [] {
      assert a + [sep] + b == [sep] + b;
    } else {
      assert (a + [sep] + b)[1..] == a[1..] + [sep] + b;
      SplitCons(a[1..], b, sep);
      assert a == [a[0]] + a[1..];
    }
  }

  /** Splitting a joined list of separator-free parts gives the parts back. */
  lemma {:induction false} SplitJoined(parts: seq<string>, sep: char)
    requires |parts| >= 1
    requires forall i :: 0 <= i < |parts| ==> sep !in parts[i]
    ensures Split(Join(parts, [sep]), sep) == parts
  {
    if |parts| == 1 {
      SplitNoSep(parts[0], sep);
    } else {
      SplitJoined(parts[1..], sep);
      SplitCons(parts[0], Join(parts[1..], [sep]), sep);
      assert parts == [parts[0]] + parts[1..];
    }
  }

  /** Joining two non-empty lists is joining each and putting the separator between. */
  lemma {:induction false} JoinAppend(a: seq<string>, b: seq<string>, sep: string)
    requires |a| >= 1 && |b| >= 1
    ensures Join(a + b, sep) == Join(a, sep) + sep + Join(b, sep)
  {
    if |a| > 1 {
      JoinAppend(a[1..], b, sep);
      assert (a + b)[1..] == a[1..] + b;
    }
  }

  /** Two joined lists written back to back fuse the last part of one with the first of the other. */
  lemma {:induction false} JoinGlue(a: seq<string>, b: seq<string>, sep: string)
    requires |a| >= 1 && |b| >= 1
    ensures Join(a, sep) + Join(b, sep) == Join(a[..|a| - 1] + [a[|a| - 1] + b[0]] + b[1..], sep)
  {
    if |a| == 1 {
      assert a[..0] + [a[0] + b[0]] + b[1..] == [a[0] + b[0]] + b[1..];
    } else {
      JoinGlue(a[1..], b, sep);
      var glued := a[..|a| - 1] + [a[|a| - 1] + b[0]] + b[1..];
      assert glued[0] == a[0];
      assert glued[1..] == a[1..][..|a| - 2] + [a[|a| - 1] + b[0]] + b[1..];
    }
  }

  // ---------------------------------------------------------------------
  // Numbers and their decimal text
  // ---------------------------------------------------------------------

  function DigitValue(c: char): (d: nat)
    requires IsDigit(c)
    ensures d < 10
  {
    c as int - '0' as int
  }

  function DigitChar(d: nat): (c: char)
    requires d < 10
    ensures IsDigit(c) && DigitValue(c) == d
  {
    ('0' as int + d) as char
  }

  /** The value of a digit string read left to right. */
  function DigitsValue(ds: string): nat
    requires AllDigits(ds)
  {
    if ds == [] then 0 else DigitsValue(ds[..|ds| - 1]) * 10 + DigitValue(ds[|ds| - 1])
  }

  /** `String(n)` for a natural number. */
  function NatToString(n: nat): (s: string)
    ensures |s| >= 1 && AllDigits(s)
    ensures s[0] == '0' ==> n == 0 && |s| == 1
  {
    if n < 10 then [DigitChar(n)] else NatToString(n / 10) + [DigitChar(n % 10)]
  }

  /** Reading the decimal text of `n` gives `n` back. */
  lemma {:induction false} NatToStringValue(n: nat)
    ensures DigitsValue(NatToString(n)) == n
  {
    if n >= 10 {
      var s := NatToString(n);
      assert s[..|s| - 1] == NatToString(n / 10);
      NatToStringValue(n / 10);
    }
  }

  /** `String(i)` for an integer. */
  function IntToString(i: int): string
  {
    if i < 0 then "-" + NatToString(-i) else NatToString(i)
  }

  /** The longest prefix of `s` made of decimal digits. */
  function LeadingDigits(s: string): (r: string)
    ensures AllDigits(r) && StartsWith(s, r)
    ensures |r| < |s| ==> !IsDigit(s[|r|])
  {
    if s != [] && IsDigit(s[0]) then [s[0]] + LeadingDigits(s[1..]) else ""
  }

  lemma {:induction false} LeadingDigitsAll(s: string)
    requires AllDigits(s)
    ensures LeadingDigits(s) == s
  {
    if s != [] {
      LeadingDigitsAll(s[1..]);
    }
  }

  predicate IsHexDigit(c: char)
  {
    IsDigit(c) || ('a' <= c <= 'f') || ('A' <= c <= 'F')
  }

  function HexValue(c: char): (d: nat)
    requires IsHexDigit(c)
    ensures d < 16
  {
    if IsDigit(c) then DigitValue(c)
    else if 'a' <= c <= 'f' then c as int - 'a' as int + 10
    else c as int - 'A' as int + 10
  }

  function LeadingHexDigits(s: string): (r: string)
    ensures |r| <= |s| && forall i :: 0 <= i < |r| ==> IsHexDigit(r[i])
  {
    if s != [] && IsHexDigit(s[0]) then [s[0]] + LeadingHexDigits(s[1..]) else ""
  }

  function HexDigitsValue(ds: string): nat
    requires forall i :: 0 <= i < |ds| ==> IsHexDigit(ds[i])
  {
    if ds == [] then 0 else HexDigitsValue(ds[..|ds| - 1]) * 16 + HexValue(ds[|ds| - 1])
  }

  /** The unsigned part of `parseInt`: a `0x`/`0X` prefix selects base 16. */
  function ParseMagnitude(body: string): Option<nat>
  {
    if StartsWith(body, "0x") || StartsWith(body, "0X") then
      var hs := LeadingHexDigits(body[2..]);
      if hs == [] then None else Some(HexDigitsValue(hs))
    else
      var ds := LeadingDigits(body);
      if ds == [] then None else Some(DigitsValue(ds))
  }

  /**
   * `parseInt(s)` without a radix: leading white space is skipped, an
   * optional sign is read, and the magnitude is converted. No digits gives
   * `NaN`, written `None`.
   */
  function ParseInt(s: string): Option<int>
  {
    var t := TrimStart(s);
    var signed := |t| > 0 && (t[0] == '-' || t[0] == '+');
    var body := if signed then t[1..] else t;
    match ParseMagnitude(body)
    case None => None
    case Some(m) => Some(if signed && t[0] == '-' then 0 - m as int else m as int)
  }

  /** `parseInt(String(n)) === n` */
  lemma {:induction false} ParseIntNatToString(n: nat)
    ensures ParseInt(NatToString(n)) == Some(n)
  {
    var s := NatToString(n);
    TrimStartDigits(s);
    ParseMagnitudeDigits(s);
    NatToStringValue(n);
  }

  lemma {:induction false} TrimStartDigits(s: string)
    requires |s| >= 1 && AllDigits(s)
    ensures TrimStart(s) == s && s[0] != '-' && s[0] != '+'
  {
    DigitNotSpace(s[0]);
  }

  lemma {:induction false} DigitNotSpace(c: char)
    requires IsDigit(c)
    ensures !IsSpace(c)
  {
  }

  /** A decimal numeral is read in base 10, whole. */
  lemma {:induction false} ParseMagnitudeDigits(s: string)
    requires |s| >= 1 && AllDigits(s)
    ensures ParseMagnitude(s) == Some(DigitsValue(s))
  {
    assert IsDigit(s[0]);
    if |s| >= 2 {
      assert IsDigit(s[1]);
    }
    assert !StartsWith(s, "0x") && !StartsWith(s, "0X");
    LeadingDigitsAll(s);
  }

  // ---------------------------------------------------------------------
  // Counting and summing
  // ---------------------------------------------------------------------

  function Count<T>(s: seq<T>, p: T -> bool): (n: nat)
    ensures n <= |s|
  {
    if s == [] then 0 else (if p(s[0]) then 1 else 0) + Count(s[1..], p)
  }

  lemma {:induction false} CountAppend<T>(a: seq<T>, b: seq<T>, p: T -> bool)
    ensures Count(a + b, p) == Count(a, p) + Count(b, p)
  {
    if a == [] {
      assert a + b == b;
    } else {
      assert (a + b)[1..] == a[1..] + b;
      CountAppend(a[1..], b, p);
    }
  }

  /** Appending one element adds one exactly when it satisfies `p`. */
  lemma {:induction false} CountSnoc<T>(s: seq<T>, x: T, p: T -> bool)
    ensures Count(s + [x], p) == Count(s, p) + (if p(x) then 1 else 0)
  {
    CountAppend(s, [x], p);
  }

  /** The step of a counting loop over a prefix. */
  lemma {:induction false} CountStep<T>(s: seq<T>, i: nat, p: T -> bool)
    requires i < |s|
    ensures Count(s[..i + 1], p) == Count(s[..i], p) + (if p(s[i]) then 1 else 0)
  {
    assert s[..i + 1] == s[..i] + [s[i]];
    CountSnoc(s[..i], s[i], p);
  }

  lemma {:induction false} CountNone<T>(s: seq<T>, p: T -> bool)
    requires forall i :: 0 <= i < |s| ==> !p(s[i])
    ensures Count(s, p) == 0
  {
    if s != [] {
      CountNone(s[1..], p);
    }
  }

  lemma {:induction false} CountPositive<T>(s: seq<T>, p: T -> bool, i: nat)
    requires i < |s| && p(s[i])
    ensures Count(s, p) >= 1
  {
    if i > 0 {
      CountPositive(s[1..], p, i - 1);
    }
  }

  /** Counts of two predicates that never both hold add up to the count of either. */
  lemma {:induction false} CountDisjoint<T>(s: seq<T>, p: T -> bool, q: T -> bool)
    requires forall i :: 0 <= i < |s| ==> !(p(s[i]) && q(s[i]))
    ensures Count(s, p) + Count(s, q) == Count(s, x => p(x) || q(x))
  {
    if s != [] {
      CountDisjoint(s[1..], p, q);
    }
  }

  function Sum(s: seq<int>): int
  {
    if s == [] then 0 else s[0] + Sum(s[1..])
  }

  lemma {:induction false} SumAppend(a: seq<int>, b: seq<int>)
    ensures Sum(a + b) == Sum(a) + Sum(b)
  {
    if a == [] {
      assert a + b == b;
    } else {
      assert (a + b)[1..] == a[1..] + b;
      SumAppend(a[1..], b);
    }
  }

  lemma {:induction false} SumSnoc(s: seq<int>, x: int)
    ensures Sum(s + [x]) == Sum(s) + x
  {
    SumAppend(s, [x]);
  }

  lemma {:induction false} SumNonNegative(s: seq<int>)
    requires forall i :: 0 <= i < |s| ==> s[i] >= 0
    ensures Sum(s) >= 0
  {
    if s != [] {
      SumNonNegative(s[1..]);
    }
  }

  /** The elements of `s` that satisfy `p`, in order (`Array.prototype.filter`). */
  function Filter<T(!new)>(s: seq<T>, p: T -> bool): (r: seq<T>)
    ensures |r| == Count(s, p)
    ensures forall i :: 0 <= i < |r| ==> p(r[i])
    ensures forall x :: x in r <==> x in s && p(x)
  {
    if s == [] then [] else (if p(s[0]) then [s[0]] else []) + Filter(s[1..], p)
  }

  lemma {:induction false} FilterAppend<T(!new)>(a: seq<T>, b: seq<T>, p: T -> bool)
    ensures Filter(a + b, p) == Filter(a, p) + Filter(b, p)
  {
    if a == [] {
      assert a + b == b;
    } else {
      assert (a + b)[1..] == a[1..] + b;
      FilterAppend(a[1..], b, p);
    }
  }

  /** The index of the first element satisfying `p` (`Array.prototype.findIndex`). */
  function FindIndex<T>(s: seq<T>, p: T -> bool): (r: Option<nat>)
    ensures r.None? ==> forall i :: 0 <= i < |s| ==> !p(s[i])
    ensures r.Some? ==> r.value < |s| && p(s[r.value]) && forall i :: 0 <= i < r.value ==> !p(s[i])
  {
    if s == [] then None
    else if p(s[0]) then Some(0)
    else match FindIndex(s[1..], p)
      case None => None
      case Some(k) => Some(k + 1)
  }

  /** Appending the first element that satisfies `p` makes it the one found. */
  lemma {:induction false} FindIndexAppendFirst<T>(s: seq<T>, x: T, p: T -> bool)
    requires forall i :: 0 <= i < |s| ==> !p(s[i])
    requires p(x)
    ensures FindIndex(s + [x], p) == Some(|s|)
  {
    var t := s + [x];
    assert t[|s|] == x;
    assert forall i :: 0 <= i < |s| ==> !p(t[i]) by {
      assert forall i :: 0 <= i < |s| ==> t[i] == s[i];
    }
  }

  /** `Array.prototype.find` */
  function Find<T>(s: seq<T>, p: T -> bool): (r: Option<T>)
    ensures r.None? <==> forall i :: 0 <= i < |s| ==> !p(s[i])
    ensures r.Some? ==> exists i :: 0 <= i < |s| && s[i] == r.value && p(s[i])
  {
    match FindIndex(s, p)
    case None => None
    case Some(k) => Some(s[k])
  }

  // ---------------------------------------------------------------------
  // Distinct elements (`[...new Set(xs)]`) and removal
  // ---------------------------------------------------------------------

  predicate NoDuplicates<T(==)>(s: seq<T>)
  {
    forall i, j :: 0 <= i < j < |s| ==> s[i] != s[j]
  }

  /** First occurrences of the elements of `s`, in insertion order. */
  function Distinct<T(==,!new)>(s: seq<T>): (r: seq<T>)
    ensures NoDuplicates(r)
    ensures forall x :: x in r <==> x in s
    ensures |r| <= |s|
  {
    if s == [] then []
    else
      var d := Distinct(s[..|s| - 1]);
      assert forall x :: x in s <==> x in s[..|s| - 1] || x == s[|s| - 1];
      if s[|s| - 1] in d then d else d + [s[|s| - 1]]
  }

  /** Every occurrence of `x` removed (`xs.filter(v => v !== x)`). */
  function Remove<T(==,!new)>(s: seq<T>, x: T): (r: seq<T>)
    ensures x !in r
    ensures forall y :: y != x ==> (y in r <==> y in s)
    ensures |r| <= |s|
  {
    if s == [] then []
    else (if s[0] == x then [] else [s[0]]) + Remove(s[1..], x)
  }

  /** Removing every copy of a value that was just appended to a list without it gives the list back. */
  lemma {:induction false} RemoveAppendAbsent<T(!new)>(s: seq<T>, x: T)
    requires x !in s
    ensures Remove(s + [x], x) == s
  {
    if s == [] {
      assert [x][1..] == [];
    } else {
      assert (s + [x])[1..] == s[1..] + [x];
      RemoveAppendAbsent(s[1..], x);
      assert s == [s[0]] + s[1..];
    }
  }

  /** Removing a value that is absent changes nothing. */
  lemma {:induction false} RemoveAbsent<T(!new)>(s: seq<T>, x: T)
    requires x !in s
    ensures Remove(s, x) == s
  {
    if s != [] {
      RemoveAbsent(s[1..], x);
      assert s == [s[0]] + s[1..];
    }
  }

  /** Removing a value from a list without repeats leaves a list without repeats. */
  lemma {:induction false} RemoveNoDuplicates<T(!new)>(s: seq<T>, x: T)
    requires NoDuplicates(s)
    ensures NoDuplicates(Remove(s, x))
  {
    if s != [] {
      assert NoDuplicates(s[1..]) by {
        forall i, j | 0 <= i < j < |s[1..]| ensures s[1..][i] != s[1..][j] {
          assert s[1..][i] == s[i + 1] && s[1..][j] == s[j + 1];
        }
      }
      RemoveNoDuplicates(s[1..], x);
      var rest := Remove(s[1..], x);
      if s[0] != x {
        assert s[0] !in s[1..];
        assert s[0] !in rest;
        var r := [s[0]] + rest;
        forall i, j | 0 <= i < j < |r| ensures r[i] != r[j] {
          if i == 0 {
            assert r[j] == rest[j - 1];
          } else {
            assert r[i] == rest[i - 1] && r[j] == rest[j - 1];
          }
        }
      } else {
        assert ([] + rest) == rest;
      }
    }
  }

  // ---------------------------------------------------------------------
  // Toggling membership (`new Set(prev)` then `delete` or `add`)
  // ---------------------------------------------------------------------

  /** `s` with `x` taken out when present and put in otherwise. */
  function Toggled<T>(s: set<T>, x: T): set<T>
  {
    if x in s then s - {x} else s + {x}
  }

  /** A toggle flips exactly one membership, and a second toggle undoes it. */
  lemma {:induction false} ToggledSpec<T>(s: set<T>, x: T)
    ensures x in Toggled(s, x) <==> x !in s
    ensures forall y :: y != x ==> (y in Toggled(s, x) <==> y in s)
    ensures Toggled(Toggled(s, x), x) == s
  {
  }

  /** The handlers' copy-then-delete-or-add. */
  method Toggle<T>(s: set<T>, x: T) returns (r: set<T>)
    ensures r == Toggled(s, x)
  {
    r := s;
    if x in r {
      r := r - {x};
    } else {
      r := r + {x};
    }
  }

  // ---------------------------------------------------------------------
  // Occurrence counts (`counts[k] = (counts[k] || 0) + 1` in a loop)
  // ---------------------------------------------------------------------

  /** How often each value occurs in `s`; the keys are exactly the values of `s`. */
  function Tally<T(==,!new)>(s: seq<T>): (m: map<T, nat>)
    ensures forall k :: k in m <==> k in s
    ensures forall k :: k in m ==> m[k] == multiset(s)[k]
  {
    if s == [] then map[]
    else
      var p := s[..|s| - 1];
      var x := s[|s| - 1];
      var m := Tally(p);
      assert s == p + [x];
      m[x := (if x in m then m[x] else 0) + 1]
  }

  /** Counting one more element bumps its entry (inserting it with 1 when new). */
  lemma {:induction false} TallySnoc<T(!new)>(s: seq<T>, x: T)
    ensures Tally(s + [x]) == Tally(s)[x := TallyOr0(Tally(s), x) + 1]
  {
    assert (s + [x])[..|s|] == s;
  }

  lemma {:induction false} TallyStep<T(!new)>(s: seq<T>, i: nat)
    requires i < |s|
    ensures Tally(s[..i + 1]) == Tally(s[..i])[s[i] := TallyOr0(Tally(s[..i]), s[i]) + 1]
  {
    assert s[..i + 1] == s[..i] + [s[i]];
    TallySnoc(s[..i], s[i]);
  }

  /** A tally entry, 0 for a value never seen (Python's `counts.get(k, 0)`). */
  function TallyOr0<T>(m: map<T, nat>, k: T): nat
  {
    if k in m then m[k] else 0
  }

  lemma {:induction false} TallyOr0Multiplicity<T(!new)>(s: seq<T>, k: T)
    ensures TallyOr0(Tally(s), k) == multiset(s)[k]
  {
  }

  /** The loop that fills a dictionary of counts, one element at a time. */
  method TallyLoop<T(==,!new)>(s: seq<T>) returns (counts: map<T, nat>)
    ensures counts == Tally(s)
  {
    counts := map[];
    var i := 0;
    while i < |s|
      invariant 0 <= i <= |s|
      invariant counts == Tally(s[..i])
    {
      TallyStep(s, i);
      counts := counts[s[i] := TallyOr0(counts, s[i]) + 1];
      i := i + 1;
    }
    assert s[..|s|] == s;
  }

  /** The sum of `m[k]` over the keys listed in `keys`. */
  function SumAt<T(==)>(keys: seq<T>, m: map<T, nat>): nat
    requires forall i :: 0 <= i < |keys| ==> keys[i] in m
  {
    if keys == [] then 0 else SumAt(keys[..|keys| - 1], m) + m[keys[|keys| - 1]]
  }

  lemma {:induction false} SumAtUnlisted<T>(keys: seq<T>, m: map<T, nat>, x: T, v: nat)
    requires forall i :: 0 <= i < |keys| ==> keys[i] in m
    requires x !in keys
    ensures SumAt(keys, m[x := v]) == SumAt(keys, m)
  {
    if keys != [] {
      SumAtUnlisted(keys[..|keys| - 1], m, x, v);
    }
  }

  lemma {:induction false} SumAtUpdate<T>(keys: seq<T>, m: map<T, nat>, x: T, v: nat)
    requires forall i :: 0 <= i < |keys| ==> keys[i] in m
    requires NoDuplicates(keys) && x in keys
    ensures SumAt(keys, m[x := v]) == SumAt(keys, m) - m[x] + v
  {
    var p := keys[..|keys| - 1];
    if keys[|keys| - 1] == x {
      assert x !in p;
      SumAtUnlisted(p, m, x, v);
    } else {
      assert x in p;
      SumAtUpdate(p, m, x, v);
    }
  }

  /** Every element is counted once: the counts of the distinct values add up to `|s|`. */
  lemma {:induction false} TallyTotal<T(!new)>(s: seq<T>)
    ensures SumAt(Distinct(s), Tally(s)) == |s|
  {
    if s != [] {
      var p := s[..|s| - 1];
      var x := s[|s| - 1];
      TallyTotal(p);
      var d := Distinct(p);
      if x in d {
        assert Distinct(s) == d;
        SumAtUpdate(d, Tally(p), x, Tally(p)[x] + 1);
      } else {
        assert Distinct(s) == d + [x];
        assert (d + [x])[..|d|] == d;
        SumAtUnlisted(d, Tally(p), x, 1);
      }
    }
  }

  // ---------------------------------------------------------------------
  // Stable sorting (`Array.prototype.sort` with a comparator)
  // ---------------------------------------------------------------------

  /** `le(a, b)` means `a` may stay in front of `b`. */
  ghost predicate Total<T(!new)>(le: (T, T) -> bool)
  {
    forall a, b :: le(a, b) || le(b, a)
  }

  predicate SortedBy<T>(s: seq<T>, le: (T, T) -> bool)
  {
    forall i :: 0 <= i < |s| - 1 ==> le(s[i], s[i + 1])
  }

  /** Inserts `x` in front of the first element it may precede. */
  function Insert<T>(x: T, s: seq<T>, le: (T, T) -> bool): (r: seq<T>)
    ensures multiset(r) == multiset(s) + multiset{x}
    ensures |r| == |s| + 1
  {
    if s == [] then [x]
    else if le(x, s[0]) then [x] + s
    else
      assert s == [s[0]] + s[1..];
      [s[0]] + Insert(x, s[1..], le)
  }

  /** Insertion sort; an element stays in front of the later ones it may precede. */
  function SortBy<T>(s: seq<T>, le: (T, T) -> bool): (r: seq<T>)
    ensures multiset(r) == multiset(s)
    ensures |r| == |s|
  {
    if s == [] then []
    else
      assert s == [s[0]] + s[1..];
      Insert(s[0], SortBy(s[1..], le), le)
  }

  lemma {:induction false} InsertSorted<T(!new)>(x: T, s: seq<T>, le: (T, T) -> bool)
    requires Total(le) && SortedBy(s, le)
    ensures SortedBy(Insert(x, s, le), le)
    ensures s != [] ==> Insert(x, s, le)[0] == x || Insert(x, s, le)[0] == s[0]
  {
    if s != [] && !le(x, s[0]) {
      InsertSorted(x, s[1..], le);
      assert le(s[0], x);
    }
  }

  /** The sorted copy is ordered by the comparator. */
  lemma {:induction false} SortBySorted<T(!new)>(s: seq<T>, le: (T, T) -> bool)
    requires Total(le)
    ensures SortedBy(SortBy(s, le), le)
  {
    if s != [] {
      SortBySorted(s[1..], le);
      InsertSorted(s[0], SortBy(s[1..], le), le);
    }
  }

  lemma {:induction false} SortByElements<T>(s: seq<T>, le: (T, T) -> bool, x: T)
    ensures x in SortBy(s, le) <==> x in s
  {
    assert x in multiset(SortBy(s, le)) <==> x in multiset(s);
  }

  /** An already ordered sequence is left as it is. */
  lemma {:induction false} SortBySortedInput<T>(s: seq<T>, le: (T, T) -> bool)
    requires forall i, j :: 0 <= i < j < |s| ==> le(s[i], s[j])
    ensures SortBy(s, le) == s
  {
    if s != [] {
      SortBySortedInput(s[1..], le);
    }
  }

  // ---------------------------------------------------------------------
  // String order
  // ---------------------------------------------------------------------

  /**
   * Code-point lexicographic order. It stands for the default string sort
   * and for `localeCompare`, whose collation tables are not modelled.
   */
  predicate StrLe(a: string, b: string)
  {
    a == [] || (b != [] && (a[0] < b[0] || (a[0] == b[0] && StrLe(a[1..], b[1..]))))
  }

  lemma {:induction false} StrLeTotalAt(a: string, b: string)
    ensures StrLe(a, b) || StrLe(b, a)
  {
    if a != [] && b != [] && a[0] == b[0] {
      StrLeTotalAt(a[1..], b[1..]);
    }
  }

  lemma {:induction false} StrLeTotal()
    ensures Total(StrLe)
  {
    forall a: string, b: string ensures StrLe(a, b) || StrLe(b, a) {
      StrLeTotalAt(a, b);
    }
  }

  lemma {:induction false} StrLeAntisymmetric(a: string, b: string)
    requires StrLe(a, b) && StrLe(b, a)
    ensures a == b
  {
    if a != [] && b != [] {
      StrLeAntisymmetric(a[1..], b[1..]);
      assert a == [a[0]] + a[1..] && b == [b[0]] + b[1..];
    }
  }

  /** Distinct strings in ascending order. */
  function SortedStrings(s: seq<string>): (r: seq<string>)
    ensures multiset(r) == multiset(s)
  {
    SortBy(s, StrLe)
  }

  /** `Array.from(new Set(xs)).sort()` is duplicate-free, ordered and keeps every value. */
  lemma {:induction false} SortedDistinct(s: seq<string>)
    ensures NoDuplicates(SortedStrings(Distinct(s)))
    ensures SortedBy(SortedStrings(Distinct(s)), StrLe)
    ensures forall x :: x in SortedStrings(Distinct(s)) <==> x in s
  {
    var d := Distinct(s);
    StrLeTotal();
    SortBySorted(d, StrLe);
    forall x ensures x in SortedStrings(d) <==> x in s {
      SortByElements(d, StrLe, x);
    }
    PermutationNoDuplicates(d, SortedStrings(d));
  }

  lemma {:induction false} RepeatedMultiplicity<T>(s: seq<T>, i: nat, j: nat)
    requires i < j < |s| && s[i] == s[j]
    ensures multiset(s)[s[i]] >= 2
  {
    assert s == s[..j] + [s[j]] + s[j + 1..];
    assert s[..j][i] == s[i];
    assert multiset(s[..j])[s[i]] >= 1;
  }

  lemma {:induction false} MultiplicityOfNoDuplicates<T>(s: seq<T>, x: T)
    requires NoDuplicates(s)
    ensures multiset(s)[x] <= 1
  {
    if s != [] {
      MultiplicityOfNoDuplicates(s[1..], x);
      assert s == [s[0]] + s[1..];
      if s[0] == x {
        assert x !in s[1..];
      }
    }
  }

  /** A rearrangement of a duplicate-free sequence is duplicate-free. */
  lemma {:induction false} PermutationNoDuplicates<T>(a: seq<T>, b: seq<T>)
    requires NoDuplicates(a) && multiset(a) == multiset(b)
    ensures NoDuplicates(b)
  {
    forall i, j | 0 <= i < j < |b| ensures b[i] != b[j] {
      if b[i] == b[j] {
        RepeatedMultiplicity(b, i, j);
        MultiplicityOfNoDuplicates(a, b[i]);
      }
    }
  }

  // ---------------------------------------------------------------------
  // Plain objects with string values, keys in insertion order
  // ---------------------------------------------------------------------

  /** A JavaScript object `Record<string, string>`: its entries in key order. */
  type Record = seq<(string, string)>

  predicate DistinctKeys(r: Record)
  {
    forall i, j :: 0 <= i < j < |r| ==> r[i].0 != r[j].0
  }

  /** `Object.keys(r)` */
  function KeysOf(r: Record): (ks: seq<string>)
    ensures |ks| == |r| && forall i :: 0 <= i < |r| ==> ks[i] == r[i].0
  {
    if r == [] then [] else [r[0].0] + KeysOf(r[1..])
  }

  /** `r[k]`, `None` standing for `undefined`. */
  function Get(r: Record, k: string): (v: Option<string>)
  {
    if r == [] then None else if r[0].0 == k then Some(r[0].1) else Get(r[1..], k)
  }

  /** `r[k] || ''` */
  function GetOr(r: Record, k: string): string
  {
    match Get(r, k)
    case Some(v) => v
    case None => ""
  }

  /** `!!r[k]` for a string-valued field. */
  predicate Truthy(r: Record, k: string)
  {
    GetOr(r, k) != ""
  }

  /** `r[k] = v`: an existing key keeps its place, a new key goes last. */
  function Put(r: Record, k: string, v: string): (r': Record)
  {
    if r == [] then [(k, v)]
    else if r[0].0 == k then [(k, v)] + r[1..]
    else [r[0]] + Put(r[1..], k, v)
  }

  lemma {:induction false} GetIndex(r: Record, k: string)
    ensures Get(r, k).Some? <==> k in KeysOf(r)
    ensures DistinctKeys(r) ==> forall i :: 0 <= i < |r| && r[i].0 == k ==> Get(r, k) == Some(r[i].1)
  {
    if r != [] {
      GetIndex(r[1..], k);
      assert KeysOf(r) == [r[0].0] + KeysOf(r[1..]);
      if DistinctKeys(r) {
        assert DistinctKeys(r[1..]) by {
          assert forall i :: 0 <= i < |r| - 1 ==> r[1..][i] == r[i + 1];
        }
        forall i | 0 <= i < |r| && r[i].0 == k ensures Get(r, k) == Some(r[i].1) {
          if i > 0 {
            assert r[1..][i - 1] == r[i];
          }
        }
      }
    }
  }

  /** Reading after writing: the written key gives the new value, every other key its old one. */
  lemma {:induction false} GetPut(r: Record, k: string, v: string, k': string)
    ensures Get(Put(r, k, v), k') == if k' == k then Some(v) else Get(r, k')
  {
    if r != [] && r[0].0 != k {
      GetPut(r[1..], k, v, k');
    }
  }

  /** Writing the value a key already has changes nothing. */
  lemma {:induction false} PutSame(r: Record, k: string, v: string)
    requires Get(r, k) == Some(v)
    ensures Put(r, k, v) == r
  {
    if r != [] && r[0].0 != k {
      PutSame(r[1..], k, v);
    }
  }

  /** Writing keeps the keys and their order, adding `k` at the end when it is new. */
  lemma {:induction false} PutKeys(r: Record, k: string, v: string)
    ensures KeysOf(Put(r, k, v)) == if k in KeysOf(r) then KeysOf(r) else KeysOf(r) + [k]
    ensures DistinctKeys(r) ==> DistinctKeys(Put(r, k, v))
  {
    PutKeysOrder(r, k, v);
    if DistinctKeys(r) {
      var p := Put(r, k, v);
      assert forall i :: 0 <= i < |p| ==> p[i].0 == KeysOf(p)[i];
      assert forall i :: 0 <= i < |r| ==> r[i].0 == KeysOf(r)[i];
    }
  }

  lemma {:induction false} PutKeysOrder(r: Record, k: string, v: string)
    ensures KeysOf(Put(r, k, v)) == if k in KeysOf(r) then KeysOf(r) else KeysOf(r) + [k]
  {
    if r != [] {
      PutKeysOrder(r[1..], k, v);
      assert KeysOf(r) == [r[0].0] + KeysOf(r[1..]);
      if r[0].0 != k {
        assert KeysOf(Put(r, k, v)) == [r[0].0] + KeysOf(Put(r[1..], k, v));
        assert k in KeysOf(r) <==> k in KeysOf(r[1..]);
      }
    }
  }
}
