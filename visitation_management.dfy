/**
 * The visit management page of the first layout
 * (src/components/VisitationManagement.js): keyword extraction from the
 * visit notes, the favourite list, the filtered and sorted visit list,
 * the role-ordered statistics table and its CSV export, the export of
 * the favourite visits, and the mock text clean-up behind the "improve"
 * button. Browser storage, the download and the clock are parameters or
 * left out.
 */
module VisitationManagement {
  import opened Common
  import Visitation
  import MembersMain
  import Forum

  const All := "전체"
  const FavoritedMode := "favorited"
  const AllMode := "all"

  // ---------------------------------------------------------------------
  // Keyword extraction
  // ---------------------------------------------------------------------

  /** The stop words, repetitions included. */
  const StopWords: seq<string> := [
    "그리고", "또는", "하지만", "그런데", "그러나", "그래서", "그런", "이런", "저런",
    "있다", "없다", "하다", "되다", "있다", "없다", "그것", "이것", "저것", "무엇",
    "어떤", "어떻게", "언제", "어디서", "왜", "누가", "무엇을", "어떤", "이런",
    "저런", "그런", "아무", "몇", "얼마", "얼마나", "어느", "어떤", "어떻게",
    "가", "이", "은", "는", "을", "를", "에", "에서", "로", "으로", "와", "과",
    "의", "에게", "한테", "께", "더", "많이", "적게", "잘", "못", "안", "못",
    "말", "것", "수", "때", "곳", "일", "사람", "시간", "문제", "생각", "마음"
  ]

  /** `[\s,.!?]` */
  predicate IsSeparator(c: char)
  {
    IsSpace(c) || c == ',' || c == '.' || c == '!' || c == '?'
  }

  /**
   * `text.split(/[\s,.!?]+/)`, cutting at every separator. A run of
   * separators yields extra empty pieces, which the length filter drops.
   */
  function Pieces(s: string): (r: seq<string>)
    ensures |r| >= 1
    ensures forall i, j :: 0 <= i < |r| && 0 <= j < |r[i]| ==> !IsSeparator(r[i][j])
  {
    if s == [] then [""]
    else
      var rest := Pieces(s[1..]);
      if IsSeparator(s[0]) then [""] + rest
      else [[s[0]] + rest[0]] + rest[1..]
  }

  function Concat(parts: seq<string>): string
  {
    if parts == [] then "" else parts[0] + Concat(parts[1..])
  }

  /** Cutting loses only the separators: the pieces hold the other characters, in order. */
  lemma {:induction false} PiecesKeepText(s: string)
    ensures Concat(Pieces(s)) == Keep(s, (c: char) => !IsSeparator(c))
  {
    if s != [] {
      PiecesKeepText(s[1..]);
      var rest := Pieces(s[1..]);
      if !IsSeparator(s[0]) {
        assert Concat(Pieces(s)) == [s[0]] + rest[0] + Concat(rest[1..]);
      }
    }
  }

  /** `[\w가-힣]`: what survives `replace(/[^\w가-힣]/g, '')`. */
  predicate IsKeptChar(c: char)
  {
    IsWordChar(c) || IsHangul(c)
  }

  /** The clean-up of one piece; only ASCII letters are left to lower-case. */
  function Normalize(w: string): string
  {
    ToLower(Keep(w, IsKeptChar))
  }

  /** `/[가-힣]/.test(word)` */
  predicate HasHangul(w: string)
  {
    exists i :: 0 <= i < |w| && IsHangul(w[i])
  }

  /** A word is counted when it is longer than one character, not a stop word, and holds Hangul. */
  predicate IsKeyword(w: string)
  {
    |w| > 1 && w !in StopWords && HasHangul(w)
  }

  /** `texts.flatMap(text => text.split(...))` */
  function AllPieces(texts: seq<string>): seq<string>
  {
    if texts == [] then [] else AllPieces(texts[..|texts| - 1]) + Pieces(texts[|texts| - 1])
  }

  function Normalized(pieces: seq<string>): (r: seq<string>)
    ensures |r| == |pieces|
    ensures forall i :: 0 <= i < |pieces| ==> r[i] == Normalize(pieces[i])
  {
    seq(|pieces|, i requires 0 <= i < |pieces| => Normalize(pieces[i]))
  }

  /** The counted words, in text order. */
  function Words(texts: seq<string>): seq<string>
  {
    Filter(Normalized(AllPieces(texts)), IsKeyword)
  }

  datatype Keyword = Keyword(word: string, count: nat)

  /** `Object.entries(wordCount)`: each word once, in order of first occurrence, with its count. */
  function Entries(words: seq<string>): (r: seq<Keyword>)
    ensures |r| == |Distinct(words)|
    ensures forall i :: 0 <= i < |r| ==> r[i].word == Distinct(words)[i] && r[i].count == multiset(words)[r[i].word]
  {
    var keys := Distinct(words);
    var counts := Tally(words);
    seq(|keys|, i requires 0 <= i < |keys| => Keyword(keys[i], counts[keys[i]]))
  }

  /** `([, a], [, b]) => b - a`: higher counts first. */
  function ByCount(): (Keyword, Keyword) -> bool
  {
    (a: Keyword, b: Keyword) => a.count >= b.count
  }

  /** `slice(0, n)` */
  function Take<T>(s: seq<T>, n: nat): (r: seq<T>)
    ensures |r| == if n < |s| then n else |s|
    ensures r == s[..|r|]
  {
    if n < |s| then s[..n] else s
  }

  /** `extractKeywords(texts, topN)` */
  function Keywords(texts: seq<string>, topN: nat): seq<Keyword>
  {
    if texts == [] then [] else Take(SortBy(Entries(Words(texts)), ByCount()), topN)
  }

  /** The `forEach` that fills `wordCount`, keeping the order in which words first appear. */
  method CountWords(words: seq<string>) returns (order: seq<string>, counts: map<string, nat>)
    ensures order == Distinct(words) && counts == Tally(words)
  {
    order := [];
    counts := map[];
    var i := 0;
    while i < |words|
      invariant 0 <= i <= |words|
      invariant order == Distinct(words[..i]) && counts == Tally(words[..i])
    {
      TallyStep(words, i);
      assert words[..i + 1][..i] == words[..i];
      if words[i] !in counts {
        order := order + [words[i]];
      }
      counts := counts[words[i] := TallyOr0(counts, words[i]) + 1];
      i := i + 1;
    }
    assert words[..|words|] == words;
  }

  method ExtractKeywords(texts: seq<string>, topN: nat) returns (r: seq<Keyword>)
    ensures r == Keywords(texts, topN)
  {
    if texts == [] {
      return [];
    }
    var words := Words(texts);
    var order, counts := CountWords(words);
    var entries := seq(|order|, i requires 0 <= i < |order| => Keyword(order[i], counts[order[i]]));
    assert entries == Entries(words);
    r := Take(SortBy(entries, ByCount()), topN);
  }

  lemma {:induction false} EntriesMembers(words: seq<string>, e: Keyword)
    ensures e in Entries(words) <==> e.word in words && e.count == multiset(words)[e.word]
  {
    var es := Entries(words);
    if e.word in words && e.count == multiset(words)[e.word] {
      var i :| 0 <= i < |Distinct(words)| && Distinct(words)[i] == e.word;
      assert es[i] == e;
    }
  }

  /** Entries are told apart by their words. */
  lemma {:induction false} EntriesNoDuplicates(words: seq<string>)
    ensures NoDuplicates(Entries(words))
  {
  }

  lemma {:induction false} SortedCounts(s: seq<Keyword>, i: nat, j: nat)
    requires SortedBy(s, ByCount()) && i <= j < |s|
    ensures s[i].count >= s[j].count
    decreases j - i
  {
    if i < j {
      assert ByCount()(s[i], s[i + 1]);
      SortedCounts(s, i + 1, j);
    }
  }

  /** The ranked entries: ordered by count, each word once, the entries rearranged. */
  lemma {:induction false} Ranked(words: seq<string>)
    ensures var s := SortBy(Entries(words), ByCount());
      SortedBy(s, ByCount()) && NoDuplicates(s) && multiset(s) == multiset(Entries(words))
  {
    var es := Entries(words);
    assert Total(ByCount());
    SortBySorted(es, ByCount());
    EntriesNoDuplicates(words);
    PermutationNoDuplicates(es, SortBy(es, ByCount()));
  }

  /** Without texts there are no words, so the early return agrees with the general case. */
  lemma {:induction false} KeywordsTake(texts: seq<string>, topN: nat)
    ensures Keywords(texts, topN) == Take(SortBy(Entries(Words(texts)), ByCount()), topN)
  {
    if texts == [] {
      assert Normalized(AllPieces(texts)) == [];
    }
  }

  /** A prefix of a list ordered by count is ordered by count. */
  lemma {:induction false} TakeOrdered(s: seq<Keyword>, topN: nat)
    requires SortedBy(s, ByCount())
    ensures var r := Take(s, topN); forall i :: 0 <= i < |r| - 1 ==> r[i].count >= r[i + 1].count
  {
    var r := Take(s, topN);
    forall i | 0 <= i < |r| - 1 ensures r[i].count >= r[i + 1].count {
      assert r[i] == s[i] && r[i + 1] == s[i + 1];
      assert ByCount()(s[i], s[i + 1]);
    }
  }

  /** At most `topN` keywords, by non-increasing count. */
  lemma {:induction false} KeywordsOrdered(texts: seq<string>, topN: nat)
    ensures var r := Keywords(texts, topN);
      |r| <= topN && forall i :: 0 <= i < |r| - 1 ==> r[i].count >= r[i + 1].count
  {
    var s := SortBy(Entries(Words(texts)), ByCount());
    assert Keywords(texts, topN) == Take(s, topN) by {
      KeywordsTake(texts, topN);
    }
    assert SortedBy(s, ByCount()) by {
      Ranked(Words(texts));
    }
    TakeOrdered(s, topN);
  }

  /** The first `topN` ranked entries: real words with their counts, no word twice. */
  lemma {:induction false} TopCounted(words: seq<string>, topN: nat)
    ensures var r := Take(SortBy(Entries(words), ByCount()), topN);
      && (forall i :: 0 <= i < |r| ==> r[i].word in words && r[i].count == multiset(words)[r[i].word])
      && (forall i, j :: 0 <= i < j < |r| ==> r[i].word != r[j].word)
  {
    var s := SortBy(Entries(words), ByCount());
    var r := Take(s, topN);
    Ranked(words);
    forall i | 0 <= i < |r| ensures r[i].word in words && r[i].count == multiset(words)[r[i].word] {
      assert r[i] == s[i] && s[i] in multiset(s);
      EntriesMembers(words, s[i]);
    }
    forall i, j | 0 <= i < j < |r| ensures r[i].word != r[j].word {
      assert r[i] == s[i] && r[j] == s[j];
      assert s[i] in multiset(s) && s[j] in multiset(s);
      EntriesMembers(words, s[i]);
      EntriesMembers(words, s[j]);
    }
  }

  /** Each keyword is a counted word, given with its number of occurrences, and no word comes twice. */
  lemma {:induction false} KeywordsCounted(texts: seq<string>, topN: nat)
    ensures var r := Keywords(texts, topN);
      && (forall i :: 0 <= i < |r| ==>
            IsKeyword(r[i].word) && r[i].word in Words(texts) && r[i].count == multiset(Words(texts))[r[i].word])
      && (forall i, j :: 0 <= i < j < |r| ==> r[i].word != r[j].word)
  {
    var words := Words(texts);
    KeywordsTake(texts, topN);
    TopCounted(words, topN);
    assert forall x :: x in words ==> IsKeyword(x);
  }

  /** A word missing from the first `topN` ranked entries occurs no more often than any of them, and they are `topN`. */
  lemma {:induction false} TopLeftOut(words: seq<string>, topN: nat, w: string)
    requires w in words
    ensures var r := Take(SortBy(Entries(words), ByCount()), topN);
      (forall i :: 0 <= i < |r| ==> r[i].word != w) ==>
        |r| == topN && forall i :: 0 <= i < |r| ==> multiset(words)[w] <= r[i].count
  {
    var s := SortBy(Entries(words), ByCount());
    var r := Take(s, topN);
    Ranked(words);
    var e := Keyword(w, multiset(words)[w]);
    EntriesMembers(words, e);
    assert e in multiset(s);
    var k :| 0 <= k < |s| && s[k] == e;
    if forall i :: 0 <= i < |r| ==> r[i].word != w {
      TakeTop(s, topN, k);
    }
  }

  /** A counted word left out occurs no more often than any keyword returned, and the list is full. */
  lemma {:induction false} KeywordsTop(texts: seq<string>, topN: nat, w: string)
    requires w in Words(texts)
    ensures var r := Keywords(texts, topN);
      (forall i :: 0 <= i < |r| ==> r[i].word != w) ==>
        |r| == topN && forall i :: 0 <= i < |r| ==> multiset(Words(texts))[w] <= r[i].count
  {
    KeywordsTake(texts, topN);
    TopLeftOut(Words(texts), topN, w);
  }

  lemma {:induction false} TakeAt<T>(s: seq<T>, n: nat, k: nat)
    requires k < |Take(s, n)|
    ensures Take(s, n)[k] == s[k]
  {
  }

  /** An entry missing from a prefix of a list ordered by count sits after it and counts no more than any entry in it. */
  lemma {:induction false} TakeTop(s: seq<Keyword>, topN: nat, k: nat)
    requires SortedBy(s, ByCount()) && k < |s|
    requires forall i :: 0 <= i < |Take(s, topN)| ==> Take(s, topN)[i].word != s[k].word
    ensures var r := Take(s, topN); |r| == topN && forall i :: 0 <= i < |r| ==> s[k].count <= r[i].count
  {
    var r := Take(s, topN);
    if k < |r| {
      TakeAt(s, topN, k);
      assert false;
    }
    forall i | 0 <= i < |r| ensures s[k].count <= r[i].count {
      assert r[i] == s[i];
      SortedCounts(s, i, k);
    }
  }

  // ---------------------------------------------------------------------
  // The mock text improvement
  // ---------------------------------------------------------------------

  /** `s.replace(/pat/g, rep)` for a literal pattern: matches taken left to right, without overlap. */
  function ReplaceText(s: string, pat: string, rep: string): string
    requires |pat| > 0
    decreases |s|
  {
    if |s| < |pat| then s
    else if s[..|pat|] == pat then rep + ReplaceText(s[|pat|..], pat, rep)
    else [s[0]] + ReplaceText(s[1..], pat, rep)
  }

  /** `s.replace(/c$/g, '')`: one trailing `c` dropped. */
  function DropLast(s: string, c: char): string
  {
    if |s| > 0 && s[|s| - 1] == c then s[..|s| - 1] else s
  }

  /** The spelling and style replacements, before the ending is fixed. */
  function Restyled(text: string): string
  {
    var a := ReplaceText(text, "되요", "돼요");
    var b := ReplaceText(a, "안되요", "안돼요");
    var c := ReplaceText(b, "해요", "해요");
    var d := ReplaceText(c, "이에요", "이에요");
    var e := ReplaceText(d, "~라고 하셨습니다", "~라고 하셨습니다");
    var f := ReplaceText(e, "~것 같아", "~것 같습니다");
    var g := ReplaceText(f, "~했어요", "~했습니다");
    ReplaceText(g, "~해요", "~합니다")
  }

  /** A trailing '.', then '!', then '?' dropped, one period added. */
  function Ended(s: string): string
  {
    DropLast(DropLast(DropLast(s, '.'), '!'), '?') + "."
  }

  /** The intensifiers 정말, 너무 and 아주, and what they become. */
  const Really := "정말"
  const Too := "너무"
  const Quite := "아주"
  const Very := "매우"

  /** `improveTextWithLLM` */
  function ImproveText(text: string): string
  {
    Intensified(Ended(Restyled(text)))
  }

  /** A pattern whose last character `s` does not use cannot consume `s`'s last character. */
  lemma {:induction false} ReplaceKeepsLast(s: string, pat: string, rep: string)
    requires |pat| > 0 && |s| > 0 && s[|s| - 1] !in pat
    ensures var r := ReplaceText(s, pat, rep); |r| > 0 && r[|r| - 1] == s[|s| - 1]
    decreases |s|
  {
    if |s| >= |pat| {
      if s[..|pat|] == pat {
        if |s| == |pat| {
          assert false;
        } else {
          ReplaceKeepsLast(s[|pat|..], pat, rep);
        }
      } else if |s| > 1 {
        ReplaceKeepsLast(s[1..], pat, rep);
      }
    }
  }

  /** A pattern whose first character does not occur is never found. */
  lemma {:induction false} ReplaceAbsent(s: string, pat: string, rep: string)
    requires |pat| > 0 && pat[0] !in s
    ensures ReplaceText(s, pat, rep) == s
    decreases |s|
  {
    if |s| >= |pat| {
      assert s[..|pat|][0] == s[0];
      ReplaceAbsent(s[1..], pat, rep);
      assert s == [s[0]] + s[1..];
    }
  }

  /** `a` immediately followed by `b` somewhere in `s`. */
  predicate HasPair(s: string, a: char, b: char)
  {
    exists i :: 0 <= i < |s| - 1 && s[i] == a && s[i + 1] == b
  }

  lemma {:induction false} HasPairConcat(x: string, y: string, a: char, b: char)
    requires !HasPair(x, a, b) && !HasPair(y, a, b)
    requires |x| == 0 || |y| == 0 || x[|x| - 1] != a || y[0] != b
    ensures !HasPair(x + y, a, b)
  {
    var s := x + y;
    forall i | 0 <= i < |s| - 1 ensures !(s[i] == a && s[i + 1] == b) {
      if i + 1 < |x| {
        assert s[i] == x[i] && s[i + 1] == x[i + 1];
      } else if i >= |x| {
        assert s[i] == y[i - |x|] && s[i + 1] == y[i + 1 - |x|];
      }
    }
  }

  lemma {:induction false} HasPairSuffix(s: string, k: nat, a: char, b: char)
    requires k <= |s| && !HasPair(s, a, b)
    ensures !HasPair(s[k..], a, b)
  {
    forall i | 0 <= i < |s[k..]| - 1 ensures !(s[k..][i] == a && s[k..][i + 1] == b) {
      assert s[k..][i] == s[k + i] && s[k..][i + 1] == s[k + i + 1];
    }
  }

  /** The first character of a replacement result: the replacement's, or the text's own. */
  lemma {:induction false} ReplaceHead(s: string, pat: string, rep: string)
    requires |pat| > 0 && |rep| > 0 && |s| > 0
    ensures var r := ReplaceText(s, pat, rep);
      |r| > 0 && r[0] == if |s| >= |pat| && s[..|pat|] == pat then rep[0] else s[0]
  {
  }

  /**
   * Replacing a two-character pattern leaves no occurrence of it, and
   * creates no occurrence of another pair `ab` the text was free of, as
   * long as the replacement neither holds `ab` nor begins with `b` nor
   * ends with `a`.
   */
  lemma {:induction false} ReplacePairFree(s: string, pat: string, rep: string, a: char, b: char)
    requires |pat| == 2 && |rep| > 0
    requires !HasPair(rep, a, b) && rep[0] != b && rep[|rep| - 1] != a
    requires pat == [a, b] || !HasPair(s, a, b)
    ensures !HasPair(ReplaceText(s, pat, rep), a, b)
    decreases |s|
  {
    if |s| < 2 {
      return;
    }
    if s[..2] == pat {
      if pat != [a, b] {
        HasPairSuffix(s, 2, a, b);
      }
      ReplacePairFree(s[2..], pat, rep, a, b);
      HasPairConcat(rep, ReplaceText(s[2..], pat, rep), a, b);
    } else {
      var t := s[1..];
      if pat != [a, b] {
        HasPairSuffix(s, 1, a, b);
        assert !(s[0] == a && s[1] == b);
      } else {
        assert s[..2] == [s[0], s[1]];
      }
      ReplacePairFree(t, pat, rep, a, b);
      ReplaceHead(t, pat, rep);
      assert t[0] == s[1];
      HasPairConcat([s[0]], ReplaceText(t, pat, rep), a, b);
    }
  }

  /** 매우 holds none of the three pairs and can neither finish nor start one of them. */
  lemma {:induction false} IntensifierFree()
    ensures !HasPair(Very, '정', '말') && !HasPair(Very, '너', '무') && !HasPair(Very, '아', '주')
    ensures Really == ['정', '말'] && Too == ['너', '무'] && Quite == ['아', '주'] && Very == ['매', '우']
  {
  }

  /** The three intensifier replacements in turn. */
  function Intensified(s: string): string
  {
    ReplaceText(ReplaceText(ReplaceText(s, Really, Very), Too, Very), Quite, Very)
  }

  lemma {:induction false} IntensifiedKeepsPeriod(s: string)
    requires |s| > 0 && s[|s| - 1] == '.'
    ensures var r := Intensified(s); |r| > 0 && r[|r| - 1] == '.'
  {
    var r1 := ReplaceText(s, Really, Very);
    var r2 := ReplaceText(r1, Too, Very);
    IntensifierFree();
    ReplaceKeepsLast(s, Really, Very);
    ReplaceKeepsLast(r1, Too, Very);
    ReplaceKeepsLast(r2, Quite, Very);
  }

  lemma {:induction false} IntensifiedNoReally(s: string)
    ensures !HasPair(Intensified(s), '정', '말')
  {
    var r1 := ReplaceText(s, Really, Very);
    var r2 := ReplaceText(r1, Too, Very);
    IntensifierFree();
    ReplacePairFree(s, Really, Very, '정', '말');
    ReplacePairFree(r1, Too, Very, '정', '말');
    ReplacePairFree(r2, Quite, Very, '정', '말');
  }

  lemma {:induction false} IntensifiedNoToo(s: string)
    ensures !HasPair(Intensified(s), '너', '무')
  {
    var r1 := ReplaceText(s, Really, Very);
    var r2 := ReplaceText(r1, Too, Very);
    IntensifierFree();
    ReplacePairFree(r1, Too, Very, '너', '무');
    ReplacePairFree(r2, Quite, Very, '너', '무');
  }

  lemma {:induction false} IntensifiedNoQuite(s: string)
    ensures !HasPair(Intensified(s), '아', '주')
  {
    var r2 := ReplaceText(ReplaceText(s, Really, Very), Too, Very);
    IntensifierFree();
    ReplacePairFree(r2, Quite, Very, '아', '주');
  }

  /** The improved text ends with a period and no longer says 정말, 너무 or 아주. */
  lemma {:induction false} ImproveTextSpec(text: string)
    ensures var r := ImproveText(text);
      |r| > 0 && r[|r| - 1] == '.'
      && !HasPair(r, '정', '말') && !HasPair(r, '너', '무') && !HasPair(r, '아', '주')
  {
    var ended := Ended(Restyled(text));
    IntensifiedKeepsPeriod(ended);
    IntensifiedNoReally(ended);
    IntensifiedNoToo(ended);
    IntensifiedNoQuite(ended);
  }

  /** Without Hangul and '~' none of the style patterns is found. */
  lemma {:induction false} RestyledPlain(text: string)
    requires forall i :: 0 <= i < |text| ==> !IsHangul(text[i]) && text[i] != '~'
    ensures Restyled(text) == text
  {
    ReplaceAbsent(text, "되요", "돼요");
    ReplaceAbsent(text, "안되요", "안돼요");
    ReplaceAbsent(text, "해요", "해요");
    ReplaceAbsent(text, "이에요", "이에요");
    ReplaceAbsent(text, "~라고 하셨습니다", "~라고 하셨습니다");
    ReplaceAbsent(text, "~것 같아", "~것 같습니다");
    ReplaceAbsent(text, "~했어요", "~했습니다");
    ReplaceAbsent(text, "~해요", "~합니다");
  }

  lemma {:induction false} IntensifiedPlain(s: string)
    requires forall i :: 0 <= i < |s| ==> !IsHangul(s[i])
    ensures Intensified(s) == s
  {
    IntensifierFree();
    ReplaceAbsent(s, Really, Very);
    ReplaceAbsent(s, Too, Very);
    ReplaceAbsent(s, Quite, Very);
  }

  /** A text without Hangul and without '~' only has its ending fixed. */
  lemma {:induction false} ImprovePlainText(text: string)
    requires forall i :: 0 <= i < |text| ==> !IsHangul(text[i]) && text[i] != '~'
    ensures ImproveText(text) == DropLast(DropLast(DropLast(text, '.'), '!'), '?') + "."
  {
    RestyledPlain(text);
    var ended := Ended(text);
    assert forall i :: 0 <= i < |ended| ==> !IsHangul(ended[i]);
    IntensifiedPlain(ended);
  }

  // ---------------------------------------------------------------------
  // The visit list: filters, favourites and order
  // ---------------------------------------------------------------------

  /** The search box, the three place filters and the favourite mode ('all' or 'favorited'). */
  datatype Filters = Filters(search: string, department: string, group: string, team: string, favoriteMode: string)

  /** Name contains the search text, and each place filter is 전체 or equal. */
  predicate MatchesPlace(v: Visitation.Visit, search: string, department: string, group: string, team: string)
  {
    Contains(v.name, search)
    && (department == All || v.guk == department)
    && (group == All || v.group == group)
    && (team == All || v.sun == team)
  }

  /** `getFilteredAndSortedVisitations`' filter: the place filters and, outside 'all', favourites only. */
  predicate Matches(v: Visitation.Visit, f: Filters, favorites: seq<int>)
  {
    MatchesPlace(v, f.search, f.department, f.group, f.team) && (f.favoriteMode == AllMode || v.id in favorites)
  }

  /** By 국, then 그룹, then 순. */
  function ByPlace(): (Visitation.Visit, Visitation.Visit) -> bool
  {
    (a: Visitation.Visit, b: Visitation.Visit) =>
      if a.guk != b.guk then StrLe(a.guk, b.guk)
      else if a.group != b.group then StrLe(a.group, b.group)
      else StrLe(a.sun, b.sun)
  }

  /** Latest 심방날짜 first. */
  function LatestFirst(): (Visitation.Visit, Visitation.Visit) -> bool
  {
    (a: Visitation.Visit, b: Visitation.Visit) => StrLe(b.date, a.date)
  }

  /** The order the list is shown in: by place in favourite mode, else latest first. */
  function ListOrder(f: Filters): (Visitation.Visit, Visitation.Visit) -> bool
  {
    if f.favoriteMode == FavoritedMode then ByPlace() else LatestFirst()
  }

  /** `getFilteredAndSortedVisitations` */
  function Shown(visits: seq<Visitation.Visit>, f: Filters, favorites: seq<int>): seq<Visitation.Visit>
  {
    SortBy(Filter(visits, (v: Visitation.Visit) => Matches(v, f, favorites)), ListOrder(f))
  }

  lemma {:induction false} ListOrderTotal(f: Filters)
    ensures Total(ListOrder(f))
  {
    forall a: Visitation.Visit, b: Visitation.Visit ensures ListOrder(f)(a, b) || ListOrder(f)(b, a) {
      StrLeTotalAt(a.guk, b.guk);
      StrLeTotalAt(a.group, b.group);
      StrLeTotalAt(a.sun, b.sun);
      StrLeTotalAt(a.date, b.date);
    }
  }

  /**
   * The list holds exactly the matching visits, each as often as it was
   * loaded, ordered by place in favourite mode and latest first otherwise.
   */
  lemma {:induction false} ShownSpec(visits: seq<Visitation.Visit>, f: Filters, favorites: seq<int>, v: Visitation.Visit)
    ensures var r := Shown(visits, f, favorites);
      && (v in r <==> v in visits && Matches(v, f, favorites))
      && multiset(r) == multiset(Filter(visits, (x: Visitation.Visit) => Matches(x, f, favorites)))
      && SortedBy(r, ListOrder(f))
  {
    var m := Filter(visits, (x: Visitation.Visit) => Matches(x, f, favorites));
    SortByElements(m, ListOrder(f), v);
    ListOrderTotal(f);
    SortBySorted(m, ListOrder(f));
  }

  /** The page's favourite state: the ids in the order they were added, and what was last announced. */
  class FavoriteList {
    var favorites: seq<int>
    var stored: seq<int>
    var announced: Option<(int, bool)>

    /** `loadFavoriteVisitations`: the stored list read into a set. */
    constructor(storedList: seq<int>)
      ensures favorites == Distinct(storedList) && stored == storedList && announced == None
    {
      favorites := Distinct(storedList);
      stored := storedList;
      announced := None;
    }

    /** `toggleFavorite`: flip one id, store the new list and announce the id with its new state. */
    method Toggle(id: int)
      modifies this
      ensures favorites == MembersMain.SelectToggled(old(favorites), id)
      ensures stored == favorites
      ensures announced == Some((id, id in favorites))
    {
      favorites := MembersMain.SelectToggled(favorites, id);
      stored := favorites;
      announced := Some((id, id in favorites));
    }

    /**
     * The `favoriteChanged` listener: the id is added to or deleted from
     * the set as the event says; storage and announcements are untouched.
     */
    method FavoriteChanged(id: int, isFavorited: bool)
      modifies this
      ensures id in favorites <==> isFavorited
      ensures forall other :: other != id ==> (other in favorites <==> other in old(favorites))
      ensures NoDuplicates(old(favorites)) ==> NoDuplicates(favorites)
      ensures stored == old(stored) && announced == old(announced)
    {
      if isFavorited {
        if id !in favorites {
          favorites := favorites + [id];
        }
      } else {
        if NoDuplicates(favorites) {
          RemoveNoDuplicates(favorites, id);
        }
        favorites := Remove(favorites, id);
      }
    }
  }

  /** Toggling flips exactly the given id, and toggling twice leaves the same ids favourited. */
  lemma {:induction false} ToggleFavoriteSpec(favorites: seq<int>, id: int, other: int)
    ensures id in MembersMain.SelectToggled(favorites, id) <==> id !in favorites
    ensures other != id ==> (other in MembersMain.SelectToggled(favorites, id) <==> other in favorites)
    ensures other in MembersMain.SelectToggled(MembersMain.SelectToggled(favorites, id), id) <==> other in favorites
  {
    MembersMain.SelectToggledSpec(favorites, id, other);
  }

  // ---------------------------------------------------------------------
  // The statistics table, ordered by 국, 그룹, role and name
  // ---------------------------------------------------------------------

  /** A leader or member with a role ("" when none is given) and a number of team ministries. */
  datatype Person = Person(name: string, role: string, teamMissionCount: int)
  datatype GroupStats = GroupStats(groupName: string, leader: Person, deputies: seq<Person>, teamLeaders: seq<Person>,
                                   members: seq<Person>)
  datatype DeptData = DeptData(department: string, head: Person, deputy: Person, groups: seq<GroupStats>)

  /** One line of the detailed table. */
  datatype StatsRow = StatsRow(guk: string, group: string, name: string, role: string, missions: int, priority: int)

  const KnownRoles: seq<string> := ["국장", "부국장", "그룹장", "부그룹장", "순장", "EBS"]

  /** `rolePriority[role] || 999`: the rank of a listed role, 999 for any other. */
  function RolePriority(role: string): (p: int)
    ensures role in KnownRoles <==> 1 <= p <= |KnownRoles|
    ensures role in KnownRoles ==> KnownRoles[p - 1] == role
    ensures role !in KnownRoles <==> p == 999
  {
    if role == "국장" then 1
    else if role == "부국장" then 2
    else if role == "그룹장" then 3
    else if role == "부그룹장" then 4
    else if role == "순장" then 5
    else if role == "EBS" then 6
    else 999
  }

  function PersonRow(guk: string, group: string, p: Person): StatsRow
  {
    StatsRow(guk, group, p.name, p.role, p.teamMissionCount, RolePriority(p.role))
  }

  /** A plain member's role shows as 구성원 when none is given. */
  function MemberRow(guk: string, group: string, p: Person): StatsRow
  {
    StatsRow(guk, group, p.name, if p.role == "" then "구성원" else p.role, p.teamMissionCount, RolePriority(p.role))
  }

  function PersonRows(guk: string, group: string, ps: seq<Person>, member: bool): (r: seq<StatsRow>)
    ensures |r| == |ps|
    ensures forall i :: 0 <= i < |ps| ==> r[i] == if member then MemberRow(guk, group, ps[i]) else PersonRow(guk, group, ps[i])
  {
    seq(|ps|, i requires 0 <= i < |ps| => if member then MemberRow(guk, group, ps[i]) else PersonRow(guk, group, ps[i]))
  }

  /** A group's rows: its leader, deputies, team leaders, then members. */
  function GroupRows(guk: string, g: GroupStats): seq<StatsRow>
  {
    [PersonRow(guk, g.groupName, g.leader)] + PersonRows(guk, g.groupName, g.deputies, false)
    + PersonRows(guk, g.groupName, g.teamLeaders, false) + PersonRows(guk, g.groupName, g.members, true)
  }

  function GroupsRows(guk: string, gs: seq<GroupStats>): seq<StatsRow>
  {
    if gs == [] then [] else GroupRows(guk, gs[0]) + GroupsRows(guk, gs[1..])
  }

  /** A department's rows: its head and deputy (no group), then its groups. */
  function DeptRows(d: DeptData): seq<StatsRow>
  {
    [PersonRow(d.department, "", d.head), PersonRow(d.department, "", d.deputy)] + GroupsRows(d.department, d.groups)
  }

  /** `flattenedData` */
  function Flattened(ds: seq<DeptData>): seq<StatsRow>
  {
    if ds == [] then [] else DeptRows(ds[0]) + Flattened(ds[1..])
  }

  /** `filteredStatsData` */
  function SelectedDepts(ds: seq<DeptData>, selected: string): seq<DeptData>
  {
    if selected == All then ds else Filter(ds, (d: DeptData) => d.department == selected)
  }

  /** By 국, then 그룹, then role rank, then name. */
  function StatsOrder(): (StatsRow, StatsRow) -> bool
  {
    (a: StatsRow, b: StatsRow) =>
      if a.guk != b.guk then StrLe(a.guk, b.guk)
      else if a.group != b.group then StrLe(a.group, b.group)
      else if a.priority != b.priority then a.priority <= b.priority
      else StrLe(a.name, b.name)
  }

  /** `sortedStatsData` */
  function SortedStats(ds: seq<DeptData>, selected: string): seq<StatsRow>
  {
    SortBy(Flattened(SelectedDepts(ds, selected)), StatsOrder())
  }

  lemma {:induction false} GroupsRowsGuk(guk: string, gs: seq<GroupStats>, r: StatsRow)
    requires r in GroupsRows(guk, gs)
    ensures r.guk == guk
  {
    if gs != [] {
      if r !in GroupRows(guk, gs[0]) {
        GroupsRowsGuk(guk, gs[1..], r);
      }
    }
  }

  /** Every row names one of the departments it was built from. */
  lemma {:induction false} FlattenedGuk(ds: seq<DeptData>, r: StatsRow)
    requires r in Flattened(ds)
    ensures exists d :: d in ds && r.guk == d.department
  {
    if r in DeptRows(ds[0]) {
      if r in GroupsRows(ds[0].department, ds[0].groups) {
        GroupsRowsGuk(ds[0].department, ds[0].groups, r);
      }
      assert ds[0] in ds;
    } else {
      FlattenedGuk(ds[1..], r);
      var d :| d in ds[1..] && r.guk == d.department;
      assert d in ds;
    }
  }

  lemma {:induction false} StatsOrderTotal()
    ensures Total(StatsOrder())
  {
    forall a: StatsRow, b: StatsRow ensures StatsOrder()(a, b) || StatsOrder()(b, a) {
      StrLeTotalAt(a.guk, b.guk);
      StrLeTotalAt(a.group, b.group);
      StrLeTotalAt(a.name, b.name);
    }
  }

  /**
   * The table holds every row of the chosen departments (only rows of the
   * chosen 국 unless 전체), sorted by 국, 그룹, role rank and name; within
   * one 국 and 그룹 a listed role never follows an unlisted one.
   */
  lemma {:induction false} SortedStatsSpec(ds: seq<DeptData>, selected: string)
    ensures var r := SortedStats(ds, selected);
      && multiset(r) == multiset(Flattened(SelectedDepts(ds, selected)))
      && SortedBy(r, StatsOrder())
      && (selected != All ==> forall i :: 0 <= i < |r| ==> r[i].guk == selected)
      && (forall i :: 0 <= i < |r| - 1 && r[i].guk == r[i + 1].guk && r[i].group == r[i + 1].group ==>
            r[i].priority <= r[i + 1].priority)
  {
    var rows := Flattened(SelectedDepts(ds, selected));
    var r := SortedStats(ds, selected);
    StatsOrderTotal();
    SortBySorted(rows, StatsOrder());
    if selected != All {
      forall i | 0 <= i < |r| ensures r[i].guk == selected {
        assert r[i] in multiset(rows);
        FlattenedGuk(SelectedDepts(ds, selected), r[i]);
      }
    }
    forall i | 0 <= i < |r| - 1 && r[i].guk == r[i + 1].guk && r[i].group == r[i + 1].group
      ensures r[i].priority <= r[i + 1].priority
    {
      assert StatsOrder()(r[i], r[i + 1]);
    }
  }

  // ---------------------------------------------------------------------
  // The statistics CSV
  // ---------------------------------------------------------------------

  /** `"${cell}"`: quoted, with no escaping. */
  function Cell(c: string): string
  {
    "\"" + c + "\""
  }

  function CsvLine(cells: seq<string>): string
  {
    Join(seq(|cells|, i requires 0 <= i < |cells| => Cell(cells[i])), ",")
  }

  /** The reported period: both dates, or 전체 기간. */
  function DateRange(startDate: string, endDate: string): string
  {
    if startDate != "" && endDate != "" then startDate + " ~ " + endDate else "전체 기간"
  }

  function DeptLabel(selected: string): string
  {
    if selected == All then "전체 국" else selected
  }

  /** One department of the summary table: its name and team-ministry count. */
  datatype Summary = Summary(department: string, teamMissionCount: int)

  function DetailCells(r: StatsRow): seq<string>
  {
    [r.guk, r.group, r.name, r.role, IntToString(r.missions)]
  }

  function Missions(rows: seq<StatsRow>): (m: seq<int>)
    ensures |m| == |rows| && forall i :: 0 <= i < |rows| ==> m[i] == rows[i].missions
  {
    seq(|rows|, i requires 0 <= i < |rows| => rows[i].missions)
  }

  /** The title block, the summary table and the detail header. */
  function ReportHead(period: string, department: string, generatedAt: string, summary: seq<Summary>): seq<seq<string>>
  {
    [["=== 심방 통계 리포트 ==="], ["조회 기간", period], ["조회 국", department], ["생성일시", generatedAt], [],
     ["=== 국별 요약 표 ==="],
     ["국"] + seq(|summary|, i requires 0 <= i < |summary| => summary[i].department),
     ["팀사역 갯수"] + seq(|summary|, i requires 0 <= i < |summary| => IntToString(summary[i].teamMissionCount)),
     [],
     ["=== 상세 표 ==="], ["국", "그룹", "이름", "직분", "팀사역 갯수"]]
  }

  /** The total line: 합계 and the sum of the ministries. */
  function TotalCells(rows: seq<StatsRow>): seq<string>
  {
    ["합계", "", "", "", IntToString(Sum(Missions(rows)))]
  }

  /** `csvData` of `exportToCSV` */
  function StatsTable(startDate: string, endDate: string, selected: string, generatedAt: string,
                      summary: seq<Summary>, rows: seq<StatsRow>): seq<seq<string>>
  {
    ReportHead(DateRange(startDate, endDate), DeptLabel(selected), generatedAt, summary)
    + seq(|rows|, i requires 0 <= i < |rows| => DetailCells(rows[i]))
    + [TotalCells(rows)]
  }

  /** The file: the byte-order mark, then each row quoted cell by cell. */
  function StatsCsv(table: seq<seq<string>>): string
  {
    Forum.Bom + Join(seq(|table|, i requires 0 <= i < |table| => CsvLine(table[i])), "\n")
  }

  /** `exportToCSV`'s row pushes and the `reduce` for the total. */
  method BuildStatsTable(startDate: string, endDate: string, selected: string, generatedAt: string,
                         summary: seq<Summary>, rows: seq<StatsRow>) returns (table: seq<seq<string>>, total: int)
    ensures table == StatsTable(startDate, endDate, selected, generatedAt, summary, rows)
    ensures total == Sum(Missions(rows))
  {
    var head := ReportHead(DateRange(startDate, endDate), DeptLabel(selected), generatedAt, summary);
    table := head;
    var i := 0;
    while i < |rows|
      invariant 0 <= i <= |rows|
      invariant table == head + seq(i, k requires 0 <= k < i => DetailCells(rows[k]))
    {
      table := table + [DetailCells(rows[i])];
      i := i + 1;
    }
    total := 0;
    var j := |rows|;
    while j > 0
      invariant 0 <= j <= |rows|
      invariant total == Sum(Missions(rows)[j..])
    {
      j := j - 1;
      assert Missions(rows)[j..] == [rows[j].missions] + Missions(rows)[j + 1..];
      total := total + rows[j].missions;
    }
    table := table + [["합계", "", "", "", IntToString(total)]];
  }

  /** A quoted cell without quotes or line breaks. */
  predicate PlainCell(c: string)
  {
    '"' !in c && '\n' !in c && ',' !in c
  }

  lemma {:induction false} CsvLineCells(cells: seq<string>)
    requires |cells| >= 1 && forall i :: 0 <= i < |cells| ==> PlainCell(cells[i])
    ensures Split(CsvLine(cells), ',') == seq(|cells|, i requires 0 <= i < |cells| => Cell(cells[i]))
    ensures '\n' !in CsvLine(cells)
  {
    var quoted := seq(|cells|, i requires 0 <= i < |cells| => Cell(cells[i]));
    assert forall i :: 0 <= i < |quoted| ==> ',' !in quoted[i] && '\n' !in quoted[i];
    SplitJoined(quoted, ',');
    Forum.JoinNoNewline(quoted, ",");
  }

  /**
   * With plain cells, every line of the statistics file but the blank ones
   * splits into its cells, each wrapped in quotes, and the last line is the
   * 합계 line carrying the sum of all ministries.
   */
  lemma {:induction false} StatsCsvLines(startDate: string, endDate: string, selected: string, generatedAt: string,
                      summary: seq<Summary>, rows: seq<StatsRow>)
    requires var t := StatsTable(startDate, endDate, selected, generatedAt, summary, rows);
      forall i, j :: 0 <= i < |t| && 0 <= j < |t[i]| ==> PlainCell(t[i][j])
    ensures var t := StatsTable(startDate, endDate, selected, generatedAt, summary, rows);
      var lines := Split(StatsCsv(t)[|Forum.Bom|..], '\n');
      && |lines| == |rows| + 12
      && (forall i :: 0 <= i < |t| && |t[i]| >= 1 ==>
            Split(lines[i], ',') == seq(|t[i]|, k requires 0 <= k < |t[i]| => Cell(t[i][k])))
      && lines[|lines| - 1] == CsvLine(["합계", "", "", "", IntToString(Sum(Missions(rows)))])
  {
    var t := StatsTable(startDate, endDate, selected, generatedAt, summary, rows);
    var ls := seq(|t|, i requires 0 <= i < |t| => CsvLine(t[i]));
    forall i | 0 <= i < |t| ensures '\n' !in ls[i] {
      if |t[i]| >= 1 {
        CsvLineCells(t[i]);
      } else {
        assert ls[i] == "";
      }
    }
    SplitJoined(ls, '\n');
    assert StatsCsv(t)[|Forum.Bom|..] == Join(ls, "\n");
    forall i | 0 <= i < |t| && |t[i]| >= 1
      ensures Split(ls[i], ',') == seq(|t[i]|, k requires 0 <= k < |t[i]| => Cell(t[i][k]))
    {
      CsvLineCells(t[i]);
    }
  }

  // ---------------------------------------------------------------------
  // The favourite-visit CSV
  // ---------------------------------------------------------------------

  const FavoriteHeaders: seq<string> :=
    ["심방일자", "대상자이름", "기수", "소속국", "소속그룹", "소속순", "진행자이름", "진행자직분", "심방방법", "심방내용", "작성일시"]

  /** What the export does: warn, or hand over the file's text. */
  datatype Export = Alert(message: string) | Download(text: string)

  /** One visit's cells; only the notes are quoted (with quotes doubled), and the 소속순 column carries 대상자_순장. */
  function FavoriteCells(v: Visitation.Visit): seq<string>
  {
    [v.date, v.name, Visitation.Generation(v.birthYear), v.guk, v.group, v.leader, v.hostName, v.hostRole, v.way,
     Forum.QuoteField(v.content), v.createdAt]
  }

  function FavoriteLines(vs: seq<Visitation.Visit>): (r: seq<string>)
    ensures |r| == |vs| && forall i :: 0 <= i < |vs| ==> r[i] == Join(FavoriteCells(vs[i]), ",")
  {
    seq(|vs|, i requires 0 <= i < |vs| => Join(FavoriteCells(vs[i]), ","))
  }

  /** `exportFavoritedVisitationsToCSV` over the list as shown. */
  function ExportFavorites(visits: seq<Visitation.Visit>, f: Filters, favorites: seq<int>): Export
  {
    if f.favoriteMode != FavoritedMode then Alert("찜한 심방만 필터링된 상태에서만 내보내기가 가능합니다.")
    else
      var shown := Shown(visits, f, favorites);
      if shown == [] then Alert("내보낼 찜한 심방이 없습니다.")
      else Download(Forum.Bom + Join([Join(FavoriteHeaders, ",")] + FavoriteLines(shown), "\n"))
  }

  /** No line break in any field of the visit. */
  predicate SingleLine(v: Visitation.Visit)
  {
    forall i :: 0 <= i < |FavoriteCells(v)| ==> '\n' !in FavoriteCells(v)[i]
  }

  /** The export refuses outside favourite mode and when no favourite is shown, and only then. */
  lemma {:induction false} ExportFavoritesRefuses(visits: seq<Visitation.Visit>, f: Filters, favorites: seq<int>)
    ensures ExportFavorites(visits, f, favorites).Download? <==>
      f.favoriteMode == FavoritedMode && exists v :: v in visits && Matches(v, f, favorites)
  {
    var shown := Shown(visits, f, favorites);
    if exists v :: v in visits && Matches(v, f, favorites) {
      var v :| v in visits && Matches(v, f, favorites);
      ShownSpec(visits, f, favorites, v);
    }
  }

  lemma {:induction false} HeaderSingle()
    ensures '\n' !in Join(FavoriteHeaders, ",")
  {
    Forum.JoinNoNewline(FavoriteHeaders, ",");
  }

  lemma {:induction false} FavoriteLineSingle(v: Visitation.Visit)
    requires SingleLine(v)
    ensures '\n' !in Join(FavoriteCells(v), ",")
  {
    Forum.JoinNoNewline(FavoriteCells(v), ",");
  }

  lemma {:induction false} FavoriteLinesSingle(shown: seq<Visitation.Visit>)
    requires forall i :: 0 <= i < |shown| ==> SingleLine(shown[i])
    ensures forall i :: 0 <= i < |FavoriteLines(shown)| ==> '\n' !in FavoriteLines(shown)[i]
  {
    forall i | 0 <= i < |shown| ensures '\n' !in FavoriteLines(shown)[i] {
      FavoriteLineSingle(shown[i]);
    }
  }

  /** The header and the visits' lines, joined by line breaks, split back into the same lines. */
  lemma {:induction false} FavoriteFileLines(shown: seq<Visitation.Visit>)
    requires forall i :: 0 <= i < |shown| ==> SingleLine(shown[i])
    ensures var lines := [Join(FavoriteHeaders, ",")] + FavoriteLines(shown);
      Split(Join(lines, "\n"), '\n') == lines
  {
    HeaderSingle();
    FavoriteLinesSingle(shown);
    HeaderBodyLines(Join(FavoriteHeaders, ","), FavoriteLines(shown));
  }

  /** A header line and body lines free of line breaks, joined by line breaks, split back into themselves. */
  lemma {:induction false} HeaderBodyLines(header: string, body: seq<string>)
    requires '\n' !in header
    requires forall i :: 0 <= i < |body| ==> '\n' !in body[i]
    ensures Split(Join([header] + body, "\n"), '\n') == [header] + body
  {
    var lines := [header] + body;
    forall i | 0 <= i < |lines| ensures '\n' !in lines[i] {
      if i > 0 {
        assert lines[i] == body[i - 1];
      }
    }
    SplitJoined(lines, '\n');
  }

  /**
   * A file that is handed over is the header and one line per shown
   * visit, in the shown order.
   */
  lemma {:induction false} ExportFavoritesLines(visits: seq<Visitation.Visit>, f: Filters, favorites: seq<int>)
    requires forall v :: v in visits ==> SingleLine(v)
    ensures var e := ExportFavorites(visits, f, favorites);
      e.Download? ==>
        Split(e.text[|Forum.Bom|..], '\n') == [Join(FavoriteHeaders, ",")] + FavoriteLines(Shown(visits, f, favorites))
  {
    var shown := Shown(visits, f, favorites);
    assert forall i :: 0 <= i < |shown| ==> SingleLine(shown[i]) by {
      forall i | 0 <= i < |shown| ensures SingleLine(shown[i]) {
        ShownSpec(visits, f, favorites, shown[i]);
      }
    }
    FavoriteFileLines(shown);
  }

  /** The notes cell of a visit's line is quoted and reads back as the notes. */
  lemma {:induction false} FavoriteNotesRoundTrip(v: Visitation.Visit)
    ensures var c := FavoriteCells(v)[9];
      |c| >= 2 && c[0] == '"' && c[|c| - 1] == '"' && Forum.Undouble(c[1..|c| - 1]) == v.content
  {
    Forum.QuoteFieldRoundTrip(v.content);
  }
}
