/** The answer extractor: `findall` of the non-greedy, newline-spanning pattern
    `<answer>(.*?)</answer>`, written as an explicit left-to-right scanner. */
module AnswerTags {
  import opened Options

  const Open: string := "<answer>"
  const Close: string := "</answer>"

  /** `w` occurs at the very start of `s`. */
  predicate StartsWith(s: string, w: string) {
    |w| <= |s| && s[..|w|] == w
  }

  /** `w` occurs somewhere in `s`. */
  predicate Contains(s: string, w: string)
    decreases |s|
  {
    |w| <= |s| && (StartsWith(s, w) || (|s| > 0 && Contains(s[1..], w)))
  }

  /** The position of the first occurrence of `w` in `s`, if any. */
  function IndexOf(s: string, w: string): (r: Option<nat>)
    requires |w| > 0
    decreases |s|
    ensures r.Some? <==> Contains(s, w)
    ensures r.Some? ==> r.value + |w| <= |s| && StartsWith(s[r.value..], w)
    ensures r.Some? ==> !Contains(s[..r.value + |w| - 1], w)
  {
    if |s| < |w| then None
    else if StartsWith(s, w) then Some(0)
    else
      match IndexOf(s[1..], w)
      case None => None
      case Some(j) =>
        assert s[1..][j..] == s[j + 1..];
        assert s[..j + 1 + |w| - 1][1..] == s[1..][..j + |w| - 1];
        assert s[..j + 1 + |w| - 1][..|w|] == s[..|w|];
        Some(j + 1)
  }

  /** The list `re.findall("<answer>(.*?)</answer>", text, re.DOTALL)` returns:
      at each position, an opening tag followed by a closing tag yields the text
      between the tag and the NEAREST closing tag and the scan resumes after that
      closing tag; otherwise the scan moves on by one character. */
  function FindAnswers(text: string): seq<string>
    decreases |text|
  {
    if |text| < |Open| then []
    else if !StartsWith(text, Open) then FindAnswers(text[1..])
    else
      match IndexOf(text[|Open|..], Close)
      case Some(j) => [text[|Open|..|Open| + j]] + FindAnswers(text[|Open| + j + |Close|..])
      case None => FindAnswers(text[1..])
  }

  /** `s` holds an opening tag with a closing tag somewhere after it. */
  predicate HasPair(s: string)
    decreases |s|
  {
    |Open| <= |s| && ((StartsWith(s, Open) && Contains(s[|Open|..], Close)) || HasPair(s[1..]))
  }

  /** The text rebuilt from the stretches between matches and the matches themselves,
      each match wrapped in its tags. */
  function Interleave(gaps: seq<string>, matches: seq<string>): string
    requires |gaps| == |matches| + 1
    decreases |matches|
  {
    if matches == [] then gaps[0]
    else gaps[0] + Open + matches[0] + Close + Interleave(gaps[1..], matches[1..])
  }

  /** `text` splits into `gaps` and tagged `matches` the way findall reads it: no match
      holds a closing tag (each ends at the nearest one), no gap before a match holds an
      opening tag (each match starts at the leftmost one), and the final gap holds no
      complete pair. */
  ghost predicate IsSplit(text: string, gaps: seq<string>, matches: seq<string>) {
    |gaps| == |matches| + 1 &&
    text == Interleave(gaps, matches) &&
    (forall i :: 0 <= i < |matches| ==> !Contains(matches[i], Close)) &&
    (forall i :: 0 <= i < |matches| ==> !Contains(gaps[i], Open)) &&
    !HasPair(gaps[|matches|])
  }

  // ---------------------------------------------------------------- helpers

  lemma TagsStartOnce()
    ensures forall i :: 1 <= i < |Open| ==> Open[i] != Open[0]
    ensures forall i :: 1 <= i < |Close| ==> Close[i] != Close[0]
  {
  }

  /** An occurrence at `k` that ends by `n` is an occurrence in `s[..n]`. */
  lemma {:induction false} OccursIn(s: string, k: nat, n: nat, w: string)
    requires k + |w| <= n <= |s| && StartsWith(s[k..], w)
    ensures Contains(s[..n], w)
    decreases k
  {
    if k == 0 {
      assert s[..n][..|w|] == s[k..][..|w|];
    } else {
      assert s[1..][k - 1..] == s[k..];
      OccursIn(s[1..], k - 1, n - 1, w);
      assert s[..n][1..] == s[1..][..n - 1];
    }
  }

  /** A string without `w` followed by all of `w` but its last character still
      lacks `w`, provided `w` starts with a character it never repeats. */
  lemma {:induction false} NoStraddle(m: string, w: string)
    requires |w| > 0 && forall i :: 1 <= i < |w| ==> w[i] != w[0]
    requires !Contains(m, w)
    ensures !Contains(m + w[..|w| - 1], w)
    decreases |m|
  {
    var t := m + w[..|w| - 1];
    if m != [] {
      if |w| <= |m| {
        assert m[..|w|] == t[..|w|];
        assert !Contains(m[1..], w);
      } else {
        assert t[..|w|][|m|] == t[|m|] == w[0];
      }
      NoStraddle(m[1..], w);
      assert t[1..] == m[1..] + w[..|w| - 1];
    }
  }

  /** An occurrence with no earlier one is the one IndexOf finds. */
  lemma FirstOccurrence(s: string, w: string, j: nat)
    requires |w| > 0 && j + |w| <= |s| && StartsWith(s[j..], w)
    requires !Contains(s[..j + |w| - 1], w)
    ensures IndexOf(s, w) == Some(j)
  {
    OccursAnywhere(s, j, w);
    var k := IndexFacts(s, w);
    SameFirst(s, w, j, k);
  }

  lemma IndexFacts(s: string, w: string) returns (k: nat)
    requires |w| > 0 && Contains(s, w)
    ensures IndexOf(s, w) == Some(k)
    ensures k + |w| <= |s| && StartsWith(s[k..], w) && !Contains(s[..k + |w| - 1], w)
  {
    k := IndexOf(s, w).value;
  }

  lemma OccursAnywhere(s: string, k: nat, w: string)
    requires k + |w| <= |s| && StartsWith(s[k..], w)
    ensures Contains(s, w)
  {
    OccursIn(s, k, |s|, w);
    assert s[..|s|] == s;
  }

  /** Two occurrences with no earlier one are at the same position. */
  lemma SameFirst(s: string, w: string, j: nat, k: nat)
    requires |w| > 0 && j + |w| <= |s| && StartsWith(s[j..], w) && !Contains(s[..j + |w| - 1], w)
    requires k + |w| <= |s| && StartsWith(s[k..], w) && !Contains(s[..k + |w| - 1], w)
    ensures j == k
  {
    if k < j {
      NotBefore(s, w, j, k);
    } else if k > j {
      NotBefore(s, w, k, j);
    }
  }

  /** No occurrence starts before the first one. */
  lemma NotBefore(s: string, w: string, j: nat, k: nat)
    requires |w| > 0 && j + |w| <= |s| && !Contains(s[..j + |w| - 1], w)
    requires k + |w| <= |s| && StartsWith(s[k..], w)
    ensures j <= k
  {
    if k < j {
      OccursIn(s, k, j + |w| - 1, w);
      assert false;
    }
  }

  lemma {:induction false} PairHasClose(s: string)
    requires HasPair(s)
    ensures Contains(s[|Open|..], Close)
    decreases |s|
  {
    if !(StartsWith(s, Open) && Contains(s[|Open|..], Close)) {
      PairHasClose(s[1..]);
      assert s[1..][|Open|..] == s[|Open|..][1..];
    }
  }

  // ------------------------------------------------------------- properties

  /** Text with no complete tag pair is exactly the text that yields no match. */
  lemma {:induction false} NoAnswersIffNoPair(text: string)
    ensures FindAnswers(text) == [] <==> !HasPair(text)
    decreases |text|
  {
    if |text| >= |Open| {
      if !StartsWith(text, Open) {
        NoAnswersIffNoPair(text[1..]);
      } else if IndexOf(text[|Open|..], Close).None? {
        NoAnswersIffNoPair(text[1..]);
      }
    }
  }

  /** Every result of the scanner is read off an IsSplit decomposition of the text:
      matches are the texts between an opening tag and the nearest closing tag,
      non-overlapping and in left-to-right order. */
  lemma {:induction false} Split(text: string) returns (gaps: seq<string>)
    ensures IsSplit(text, gaps, FindAnswers(text))
    decreases |text|
  {
    if |text| < |Open| {
      gaps := [text];
    } else if StartsWith(text, Open) && IndexOf(text[|Open|..], Close).Some? {
      var j := IndexOf(text[|Open|..], Close).value;
      var m, rest := MatchAt(text, Open, Close, j);
      MatchUnfolds(text, j);
      var g := Split(rest);
      gaps := SplitMatch(text, m, rest, g);
    } else {
      var g := Split(text[1..]);
      gaps := SplitSkip(text, g);
    }
  }

  lemma MatchUnfolds(text: string, j: nat)
    requires |Open| <= |text| && StartsWith(text, Open) && IndexOf(text[|Open|..], Close) == Some(j)
    ensures FindAnswers(text) == [text[|Open|..|Open| + j]] + FindAnswers(text[|Open| + j + |Close|..])
  {
  }

  /** Split, for text that starts with a match. */
  lemma SplitMatch(text: string, m: string, rest: string, g: seq<string>) returns (gaps: seq<string>)
    requires text == Open + m + Close + rest && !Contains(m, Close)
    requires FindAnswers(text) == [m] + FindAnswers(rest)
    requires IsSplit(rest, g, FindAnswers(rest))
    ensures IsSplit(text, gaps, FindAnswers(text))
  {
    gaps := [""] + g;
    SplitCons(m, rest, g, FindAnswers(rest));
  }

  /** Split, for text at whose first character the scanner finds no match. */
  lemma SplitSkip(text: string, g: seq<string>) returns (gaps: seq<string>)
    requires |Open| <= |text|
    requires !StartsWith(text, Open) || IndexOf(text[|Open|..], Close).None?
    requires IsSplit(text[1..], g, FindAnswers(text[1..]))
    ensures IsSplit(text, gaps, FindAnswers(text))
  {
    SkipUnfolds(text);
    gaps := SkipSplit(text, g, FindAnswers(text[1..]));
  }

  lemma SkipSplit(text: string, g: seq<string>, fs: seq<string>) returns (gaps: seq<string>)
    requires |Open| <= |text|
    requires !StartsWith(text, Open) || IndexOf(text[|Open|..], Close).None?
    requires fs == FindAnswers(text[1..]) && IsSplit(text[1..], g, fs)
    ensures IsSplit(text, gaps, fs)
  {
    if fs == [] {
      SkipNoMatch(text);
    } else {
      SplitHead(text[1..], g, fs);
      SkipGap(text, g[0], fs[0] + Close + Interleave(g[1..], fs[1..]));
    }
    gaps := [[text[0]] + g[0]] + g[1..];
    SplitConsChar(text, g, fs);
  }

  lemma SkipUnfolds(text: string)
    requires |Open| <= |text|
    requires !StartsWith(text, Open) || IndexOf(text[|Open|..], Close).None?
    ensures FindAnswers(text) == FindAnswers(text[1..])
  {
  }

  lemma SplitHead(text: string, g: seq<string>, fs: seq<string>)
    requires fs != [] && IsSplit(text, g, fs)
    ensures text == g[0] + Open + (fs[0] + Close + Interleave(g[1..], fs[1..]))
    ensures !Contains(g[0], Open)
  {
  }

  lemma SkipNoMatch(text: string)
    requires |Open| <= |text|
    requires !StartsWith(text, Open) || IndexOf(text[|Open|..], Close).None?
    requires FindAnswers(text[1..]) == []
    ensures !HasPair([text[0]] + text[1..])
  {
    assert FindAnswers(text) == [];
    NoAnswersIffNoPair(text);
    assert text == [text[0]] + text[1..];
  }

  lemma SkipGap(text: string, g0: string, rest: string)
    requires |Open| <= |text|
    requires !StartsWith(text, Open) || IndexOf(text[|Open|..], Close).None?
    requires FindAnswers(text[1..]) != []
    requires text[1..] == g0 + Open + rest && !Contains(g0, Open)
    ensures !Contains([text[0]] + g0, Open)
  {
    if StartsWith(text, Open) {
      UnclosedHasNoLaterMatch(text);
      assert false;
    }
    assert text == [text[0]] + g0 + Open + rest;
    FirstCharNoOpen(text, g0, rest);
  }

  /** No closing tag after an opening tag: nothing further along matches either. */
  lemma UnclosedHasNoLaterMatch(text: string)
    requires |Open| <= |text| && StartsWith(text, Open) && IndexOf(text[|Open|..], Close).None?
    ensures FindAnswers(text[1..]) == []
  {
    if FindAnswers(text[1..]) != [] {
      NoAnswersIffNoPair(text[1..]);
      PairHasClose(text[1..]);
      assert false;
    }
  }

  /** The pieces of text that starts with tag `o` and has its first tag `c` after that
      at `j`. */
  lemma MatchAt(text: string, o: string, c: string, j: nat) returns (m: string, rest: string)
    requires |o| <= |text| && StartsWith(text, o) && |c| > 0
    requires j + |c| <= |text[|o|..]| && StartsWith(text[|o|..][j..], c)
    requires !Contains(text[|o|..][..j + |c| - 1], c)
    ensures m == text[|o|..|o| + j] && rest == text[|o| + j + |c|..]
    ensures text == o + m + c + rest && !Contains(m, c)
  {
    m := text[|o|..|o| + j];
    rest := text[|o| + j + |c|..];
    var s := text[|o|..];
    var head, tag := text[..|o|], text[|o| + j..|o| + j + |c|];
    assert head == o;
    assert tag == s[j..][..|c|] == c;
    Cuts(text, |o|, |o| + j, |o| + j + |c|);
    assert s[..j] == m;
    BeforeFirst(s, c, j);
  }

  /** Nothing before the first occurrence holds one. */
  lemma BeforeFirst(s: string, w: string, j: nat)
    requires |w| > 0 && j + |w| <= |s| && !Contains(s[..j + |w| - 1], w)
    ensures !Contains(s[..j], w)
  {
    assert s[..j + |w| - 1][..j] == s[..j];
    if Contains(s[..j], w) {
      PrefixContains(s[..j + |w| - 1], j, w);
    }
  }

  lemma Cuts(s: string, a: nat, b: nat, c: nat)
    requires a <= b <= c <= |s|
    ensures s == s[..a] + s[a..b] + s[b..c] + s[c..]
  {
    assert s[..a] + s[a..b] == s[..b];
    assert s[..b] + s[b..c] == s[..c];
  }

  lemma FirstCharNoOpen(text: string, g0: string, rest: string)
    requires !StartsWith(text, Open)
    requires |text| > 0 && text == [text[0]] + g0 + Open + rest
    requires !Contains(g0, Open)
    ensures !Contains([text[0]] + g0, Open)
  {
    var h := [text[0]] + g0;
    if |Open| <= |h| {
      assert h[..|Open|] == text[..|Open|];
      assert h[1..] == g0;
    }
  }

  lemma SplitCons(m: string, rest: string, g: seq<string>, fs: seq<string>)
    requires IsSplit(rest, g, fs) && !Contains(m, Close)
    ensures IsSplit(Open + m + Close + rest, [""] + g, [m] + fs)
  {
    var gaps, ms := [""] + g, [m] + fs;
    assert gaps[1..] == g && ms[1..] == fs;
    assert Interleave(gaps, ms) == "" + Open + m + Close + Interleave(g, fs);
    assert Open + m + Close + rest == "" + Open + m + Close + rest;
    forall i | 0 <= i < |ms|
      ensures !Contains(ms[i], Close) && !Contains(gaps[i], Open)
    {
      if i > 0 {
        assert ms[i] == fs[i - 1] && gaps[i] == g[i - 1];
      }
    }
    assert gaps[|ms|] == g[|fs|];
  }

  lemma SplitConsChar(text: string, g: seq<string>, fs: seq<string>)
    requires |text| > 0 && IsSplit(text[1..], g, fs)
    requires fs != [] ==> !Contains([text[0]] + g[0], Open)
    requires fs == [] ==> !HasPair([text[0]] + text[1..])
    ensures IsSplit(text, [[text[0]] + g[0]] + g[1..], fs)
  {
    var gaps := [[text[0]] + g[0]] + g[1..];
    assert text == [text[0]] + text[1..];
    assert gaps[1..] == g[1..];
    if fs != [] {
      assert Interleave(gaps, fs) == [text[0]] + Interleave(g, fs);
      forall i | 0 <= i < |fs|
        ensures !Contains(gaps[i], Open)
      {
        if i > 0 {
          assert gaps[i] == g[i];
        }
      }
    }
  }

  lemma SplitTail(text: string, gaps: seq<string>, matches: seq<string>)
    requires IsSplit(text, gaps, matches) && matches != []
    ensures IsSplit(Interleave(gaps[1..], matches[1..]), gaps[1..], matches[1..])
  {
    forall i | 0 <= i < |matches| - 1
      ensures !Contains(matches[1..][i], Close) && !Contains(gaps[1..][i], Open)
    {
      assert matches[1..][i] == matches[i + 1] && gaps[1..][i] == gaps[i + 1];
    }
  }

  lemma SplitDropChar(text: string, gaps: seq<string>, matches: seq<string>)
    requires IsSplit(text, gaps, matches) && gaps[0] != ""
    ensures IsSplit(text[1..], [gaps[0][1..]] + gaps[1..], matches)
  {
    var g0 := gaps[0];
    var gaps' := [g0[1..]] + gaps[1..];
    assert gaps'[1..] == gaps[1..];
    if matches == [] {
      assert text == g0;
    } else {
      var rest := Interleave(gaps[1..], matches[1..]);
      assert text == g0 + Open + matches[0] + Close + rest;
      assert text[1..] == g0[1..] + Open + matches[0] + Close + rest;
      assert !Contains(g0[1..], Open);
      forall i | 0 <= i < |matches|
        ensures !Contains(gaps'[i], Open)
      {
        if i > 0 {
          assert gaps'[i] == gaps[i];
        }
      }
    }
  }

  /** The nearest closing tag after a stretch without one is the one that ends it. */
  lemma NearestClose(m: string, rest: string)
    requires !Contains(m, Close)
    ensures IndexOf(m + Close + rest, Close) == Some(|m|)
  {
    var s := m + Close + rest;
    assert s[|m|..][..|Close|] == Close;
    TagsStartOnce();
    NoStraddle(m, Close);
    assert s[..|m| + |Close| - 1] == m + Close[..|Close| - 1];
    FirstOccurrence(s, Close, |m|);
  }

  /** The scanner reads a match off text that starts with a tagged stretch without a
      closing tag inside it. */
  lemma MatchFirst(m: string, rest: string)
    requires !Contains(m, Close)
    ensures FindAnswers(Open + m + Close + rest) == [m] + FindAnswers(rest)
  {
    Pieces(Open, m, Close, rest);
    NearestClose(m, rest);
  }

  lemma Pieces(o: string, m: string, c: string, rest: string)
    ensures var t := o + m + c + rest;
      t[..|o|] == o && t[|o|..] == m + c + rest &&
      t[|o|..|o| + |m|] == m && t[|o| + |m| + |c|..] == rest
  {
    var t := o + m + c + rest;
    assert t[|o|..] == m + c + rest;
  }

  /** Text that starts with a non-empty stretch free of opening tags does not start
      with an opening tag. */
  lemma GapFirst(text: string, g0: string, rest: string)
    requires g0 != "" && !Contains(g0, Open) && text == g0 + Open + rest
    ensures !StartsWith(text, Open)
  {
    if StartsWith(text, Open) {
      if |g0| < |Open| {
        var k := |g0|;
        assert text[k] == Open[0];
        assert text[k] == text[..|Open|][k] == Open[k];
        TagsStartOnce();
      }
      assert false;
    }
  }

  lemma {:induction false} PrefixContains(s: string, n: nat, w: string)
    requires n <= |s| && Contains(s[..n], w)
    ensures Contains(s, w)
    decreases n
  {
    if StartsWith(s[..n], w) {
      assert s[..n][..|w|] == s[..|w|];
    } else {
      assert s[..n][1..] == s[1..][..n - 1];
      PrefixContains(s[1..], n - 1, w);
    }
  }

  /** Conversely, an IsSplit decomposition determines the scanner's result: the
      scanner returns exactly the matches of any such decomposition. */
  lemma {:induction false} SplitDeterminesMatches(text: string, gaps: seq<string>, matches: seq<string>)
    requires IsSplit(text, gaps, matches)
    ensures FindAnswers(text) == matches
    decreases |text|
  {
    if matches == [] {
      NoAnswersIffNoPair(text);
    } else {
      var rest := Interleave(gaps[1..], matches[1..]);
      SplitTail(text, gaps, matches);
      if gaps[0] == "" {
        assert text == Open + matches[0] + Close + rest;
        MatchFirst(matches[0], rest);
        SplitDeterminesMatches(rest, gaps[1..], matches[1..]);
      } else {
        GapFirst(text, gaps[0], matches[0] + Close + rest);
        SplitDropChar(text, gaps, matches);
        SplitDeterminesMatches(text[1..], [gaps[0][1..]] + gaps[1..], matches);
      }
    }
  }
}
