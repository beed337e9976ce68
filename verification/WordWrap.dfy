/** The greedy word wrapper applied before the line diff (Blogs/revisions.py, `_word_wrap`). */
module WordWrap {
  import opened TextLines

  /* ---------- The algorithm ---------- */

  /** Three or more of the rule characters and nothing else. */
  predicate IsRule(s: string) {
    |s| >= 3 && forall c :: c in s ==> c in {'-', '*', '_'}
  }

  /** Lines kept as they are: blank ones, and those whose first characters mean something to Markdown. */
  predicate Structural(line: string, width: int) {
    var s := Strip(line);
    || s == ""
    || StartsWith(s, "#") || StartsWith(s, "```") || StartsWith(s, "|") || StartsWith(s, ">") || StartsWith(s, "!!!")
    || ((StartsWith(s, "- ") || StartsWith(s, "* ") || StartsWith(s, "+ ")) && |s| < width)
    || IsRule(s)
    || (Numbered(s, 2, IsSpace) && |s| < width)
  }

  /**
   Which lines are kept as they are, white space at both ends aside: blank ones, headings, tables,
   quotes, fences and admonitions, rules, and short list items of either kind.
   */
  lemma StructuralMeaning(front: string, s: string, back: string, width: int)
    requires AllSpace(front) && AllSpace(back) && (s != "" ==> !IsSpace(s[0]) && !IsSpace(s[|s| - 1]))
    ensures Structural(front + s + back, width) <==>
            || s == ""
            || s[0] in {'#', '|', '>'}
            || (|s| >= 3 && s[..3] in {"```", "!!!"})
            || (|s| >= 3 && forall i :: 0 <= i < |s| ==> s[i] in {'-', '*', '_'})
            || (2 <= |s| < width && s[..2] in {"- ", "* ", "+ "})
            || (|s| < width && exists n :: 1 <= n <= 2 && HasNumber(s, n, IsSpace))
  {
    hide Strip, Numbered, StartsWith;
    StripMeaning(front, s, back);
    NumberedMeaning(s, 2, IsSpace);
    RuleMeaning(s);
    PrefixMeaning(s, "#");
    PrefixMeaning(s, "```");
    PrefixMeaning(s, "|");
    PrefixMeaning(s, ">");
    PrefixMeaning(s, "!!!");
    PrefixMeaning(s, "- ");
    PrefixMeaning(s, "* ");
    PrefixMeaning(s, "+ ");
    if s != "" { assert s[..1] == [s[0]]; }
  }

  lemma RuleMeaning(s: string)
    ensures IsRule(s) <==> |s| >= 3 && forall i :: 0 <= i < |s| ==> s[i] in {'-', '*', '_'}
  {
    if IsRule(s) { assert forall i :: 0 <= i < |s| ==> s[i] in s; }
  }

  /** What the loop over words makes of the line begun and the words still to come. */
  function Fill(begun: string, words: seq<string>, width: int): seq<string>
    decreases |words|
  {
    if words == [] then (if begun == "" then [] else [begun])
    else if begun != "" && |begun| + 1 + |words[0]| > width then [begun] + Fill(words[0], words[1..], width)
    else Fill(if begun == "" then words[0] else begun + " " + words[0], words[1..], width)
  }

  function WrapLine(line: string, width: int): seq<string> {
    if Structural(line, width) then [line] else Fill("", Words(line), width)
  }

  function WrapLines(lines: seq<string>, width: int): seq<string> {
    if lines == [] then [] else WrapLines(lines[..|lines| - 1], width) + WrapLine(lines[|lines| - 1], width)
  }

  /** `_word_wrap` from `splitlines` to before the final join. */
  method Wrap(lines: seq<string>, width: int) returns (result: seq<string>)
    ensures result == WrapLines(lines, width)
  {
    hide Structural;
    result := [];
    for n := 0 to |lines|
      invariant result == WrapLines(lines[..n], width)
    {
      var line := lines[n];
      assert lines[..n + 1][..n] == lines[..n];
      if Structural(line, width) {
        result := result + [line];
      } else {
        var words := Words(line);
        var wrapped := "";
        ghost var before := result;
        for i := 0 to |words|
          invariant result + Fill(wrapped, words[i..], width) == before + Fill("", words, width)
        {
          var word := words[i];
          assert words[i..][1..] == words[i + 1..];
          if wrapped != "" && |wrapped| + 1 + |word| > width {
            ghost var rest := Fill(word, words[i + 1..], width);
            assert result + ([wrapped] + rest) == (result + [wrapped]) + rest;
            result := result + [wrapped];
            wrapped := word;
          } else {
            wrapped := if wrapped != "" then wrapped + " " + word else word;
          }
        }
        assert words[|words|..] == [];
        if wrapped != "" {
          result := result + [wrapped];
        }
      }
    }
    assert lines[..|lines|] == lines;
  }

  /* ---------- Layouts of a sequence of words ---------- */

  function Concat<T>(parts: seq<seq<T>>): seq<T> {
    if parts == [] then [] else parts[0] + Concat(parts[1..])
  }

  /** The words of one line fit it, or there is only one. */
  predicate Fits(group: seq<string>, width: int) {
    |group| == 1 || (group != [] && |Join(group, " ")| <= width)
  }

  /** A way to break `words`, in order, into lines. */
  predicate IsLayout(groups: seq<seq<string>>, words: seq<string>, width: int) {
    Concat(groups) == words && forall g :: g in groups ==> Fits(g, width)
  }

  /** Length of the words joined by single blanks. */
  function Length(words: seq<string>): nat {
    if words == [] then 0
    else if |words| == 1 then |words[0]|
    else |words[0]| + 1 + Length(words[1..])
  }

  lemma {:induction false} JoinLength(words: seq<string>)
    ensures |Join(words, " ")| == Length(words)
  {
    if |words| > 1 { JoinLength(words[1..]); }
  }

  lemma {:induction false} LengthGrows(words: seq<string>, word: string)
    ensures Length(words + [word]) == if words == [] then |word| else Length(words) + 1 + |word|
    ensures Join(words + [word], " ") == if words == [] then word else Join(words, " ") + " " + word
  {
    if words != [] {
      assert (words + [word])[1..] == words[1..] + [word];
      LengthGrows(words[1..], word);
    }
  }

  /** The number of words greedy filling puts on the first line, given that the first `k` are on it. */
  function FirstLine(words: seq<string>, k: nat, width: int): (m: nat)
    requires 1 <= k <= |words|
    ensures k <= m <= |words|
    decreases |words| - k
  {
    if k == |words| || Length(words[..k]) + 1 + |words[k]| > width then k else FirstLine(words, k + 1, width)
  }

  function Greedy(words: seq<string>, width: int): seq<seq<string>>
    decreases |words|
  {
    if words == [] then []
    else
      var m := FirstLine(words, 1, width);
      [words[..m]] + Greedy(words[m..], width)
  }

  function Lines(groups: seq<seq<string>>): seq<string> {
    seq(|groups|, i requires 0 <= i < |groups| => Join(groups[i], " "))
  }

  lemma LinesCons(g: seq<string>, rest: seq<seq<string>>)
    ensures Lines([g] + rest) == [Join(g, " ")] + Lines(rest)
  {
  }

  lemma {:induction false} FillIsGreedy(words: seq<string>, k: nat, width: int)
    requires 1 <= k <= |words| && forall w :: w in words ==> w != ""
    ensures var m := FirstLine(words, k, width);
            Fill(Join(words[..k], " "), words[k..], width) == [Join(words[..m], " ")] + Lines(Greedy(words[m..], width))
    decreases |words|, |words| - k
  {
    var begun, rest := Join(words[..k], " "), words[k..];
    JoinLength(words[..k]);
    assert words[..k][0] in words;
    LengthPositive(words[..k]);
    assert forall w :: w in rest ==> w in words;
    if k < |words| {
      assert rest[0] == words[k] && rest[1..] == words[k + 1..];
      if Length(words[..k]) + 1 + |words[k]| > width {
        FillFromStart(rest, width);
        assert Fill("", rest, width) == Fill(words[k], rest[1..], width);
      } else {
        LengthGrows(words[..k], words[k]);
        assert words[..k] + [words[k]] == words[..k + 1];
        FillIsGreedy(words, k + 1, width);
      }
    } else {
      assert words[|words|..] == [];
    }
  }

  lemma LengthPositive(words: seq<string>)
    requires words != [] && words[0] != ""
    ensures Length(words) > 0
  {
  }

  lemma {:induction false} FillFromStart(words: seq<string>, width: int)
    requires forall w :: w in words ==> w != ""
    ensures Fill("", words, width) == Lines(Greedy(words, width))
    decreases |words|, |words| + 1
  {
    if words != [] {
      assert words[..1] == [words[0]];
      FillIsGreedy(words, 1, width);
      var m := FirstLine(words, 1, width);
      LinesCons(words[..m], Greedy(words[m..], width));
    }
  }

  /* ---------- Greedy is a layout, and no layout has fewer lines ---------- */

  lemma {:induction false} FirstLineFits(words: seq<string>, k: nat, width: int)
    requires 1 <= k <= |words| && Fits(words[..k], width)
    ensures Fits(words[..FirstLine(words, k, width)], width)
    decreases |words| - k
  {
    if k < |words| && Length(words[..k]) + 1 + |words[k]| <= width {
      LengthGrows(words[..k], words[k]);
      assert words[..k] + [words[k]] == words[..k + 1];
      JoinLength(words[..k + 1]);
      FirstLineFits(words, k + 1, width);
    }
  }

  lemma {:induction false} GreedyIsLayout(words: seq<string>, width: int)
    ensures IsLayout(Greedy(words, width), words, width)
    decreases |words|
  {
    if words != [] {
      var m := FirstLine(words, 1, width);
      FirstLineFits(words, 1, width);
      GreedyIsLayout(words[m..], width);
      var groups := Greedy(words, width);
      assert groups[1..] == Greedy(words[m..], width);
      assert words == words[..m] + words[m..];
    }
  }

  lemma {:induction false} LengthOfPrefix(words: seq<string>, i: nat, j: nat)
    requires 1 <= i <= j <= |words|
    ensures Length(words[..i]) <= Length(words[..j])
    ensures i < j ==> Length(words[..i]) + 1 + |words[i]| <= Length(words[..j])
    decreases j - i
  {
    if i < j {
      LengthGrows(words[..i], words[i]);
      assert words[..i] + [words[i]] == words[..i + 1];
      LengthOfPrefix(words, i + 1, j);
    }
  }

  /** The first line holds every prefix that fits. */
  lemma {:induction false} FirstLineIsLongest(words: seq<string>, k: nat, width: int, n: nat)
    requires 1 <= k <= |words| && n <= |words| && Length(words[..n]) <= width
    ensures n <= FirstLine(words, k, width)
    decreases |words| - k
  {
    if k < n {
      LengthOfPrefix(words, k, n);
      FirstLineIsLongest(words, k + 1, width, n);
    }
  }

  lemma {:induction false} LengthOfSuffix(words: seq<string>, i: nat)
    requires i < |words|
    ensures Length(words[i..]) <= Length(words)
  {
    if i > 0 {
      assert words[1..][i - 1..] == words[i..];
      LengthOfSuffix(words[1..], i - 1);
    }
  }

  lemma GreedyTakesALine(words: seq<string>, width: int)
    requires words != []
    ensures |Greedy(words, width)| == 1 + |Greedy(words[FirstLine(words, 1, width)..], width)|
  {
  }

  /** Without some words at its start a first line reaches at least as far. */
  lemma FirstLineReachesFurther(words: seq<string>, j: nat, width: int)
    requires 0 < j < |words| && j < FirstLine(words, 1, width)
    ensures FirstLine(words, 1, width) - j <= FirstLine(words[j..], 1, width)
  {
    hide FirstLine, Length;
    var m := FirstLine(words, 1, width);
    LongLineFits(words, width);
    LengthOfSuffix(words[..m], j);
    assert words[..m][j..] == words[j..][..m - j];
    FirstLineIsLongest(words[j..], 1, width, m - j);
  }

  lemma LongLineFits(words: seq<string>, width: int)
    requires words != [] && 1 < FirstLine(words, 1, width)
    ensures Length(words[..FirstLine(words, 1, width)]) <= width
  {
    hide FirstLine;
    FirstLineFits(words, 1, width);
    JoinLength(words[..FirstLine(words, 1, width)]);
  }

  /** Dropping leading words never costs a line. */
  lemma {:induction false} FewerWordsFewerLines(words: seq<string>, j: nat, width: int)
    requires j <= |words|
    ensures |Greedy(words[j..], width)| <= |Greedy(words, width)|
    decreases |words|
  {
    hide FirstLine, Greedy;
    if j == 0 {
      assert words[0..] == words;
    } else if j == |words| {
      assert words[j..] == [];
      NoWordsNoLines(width);
    } else {
      var m := FirstLine(words, 1, width);
      GreedyTakesALine(words, width);
      if m <= j {
        assert words[m..][j - m..] == words[j..];
        FewerWordsFewerLines(words[m..], j - m, width);
      } else {
        var rest := words[j..];
        var n := FirstLine(rest, 1, width);
        FirstLineReachesFurther(words, j, width);
        GreedyTakesALine(rest, width);
        assert words[m..][n - (m - j)..] == rest[n..];
        FewerWordsFewerLines(words[m..], n - (m - j), width);
      }
    }
  }

  lemma NoWordsNoLines(width: int)
    ensures Greedy([], width) == []
  {
  }

  /** Among all layouts of the words, greedy filling uses the fewest lines. */
  lemma {:induction false} GreedyIsShortest(words: seq<string>, groups: seq<seq<string>>, width: int)
    requires IsLayout(groups, words, width)
    ensures |Greedy(words, width)| <= |groups|
    decreases |groups|
  {
    if groups != [] {
      var k := |groups[0]|;
      assert groups[0] in groups;
      assert words[..k] == groups[0] && words[k..] == Concat(groups[1..]);
      assert forall g :: g in groups[1..] ==> g in groups;
      GreedyIsShortest(words[k..], groups[1..], width);
      var m := FirstLine(words, 1, width);
      assert k <= m by {
        if k > 1 {
          JoinLength(words[..k]);
          FirstLineIsLongest(words, 1, width, k);
        }
      }
      assert words[k..][m - k..] == words[m..];
      FewerWordsFewerLines(words[k..], m - k, width);
    }
  }

  /* ---------- What wrapping a line promises ---------- */

  /**
   A text line comes out as a layout of its words that no other layout beats; a structural line
   comes out as it is.
   */
  lemma WrapLineIsShortest(line: string, width: int, groups: seq<seq<string>>)
    ensures Structural(line, width) ==> WrapLine(line, width) == [line]
    ensures !Structural(line, width) ==>
              && WrapLine(line, width) == Lines(Greedy(Words(line), width))
              && IsLayout(Greedy(Words(line), width), Words(line), width)
              && (IsLayout(groups, Words(line), width) ==> |WrapLine(line, width)| <= |groups|)
  {
    hide Structural;
    if !Structural(line, width) {
      FillFromStart(Words(line), width);
      GreedyIsLayout(Words(line), width);
      if IsLayout(groups, Words(line), width) { GreedyIsShortest(Words(line), groups, width); }
    }
  }

  function AllWords(lines: seq<string>): seq<string> {
    if lines == [] then [] else AllWords(lines[..|lines| - 1]) + Words(lines[|lines| - 1])
  }

  lemma {:induction false} AllWordsAppend(a: seq<string>, b: seq<string>)
    ensures AllWords(a + b) == AllWords(a) + AllWords(b)
  {
    if b == [] {
      assert a + b == a;
    } else {
      var n := |b| - 1;
      assert (a + b)[..|a + b| - 1] == a + b[..n];
      AllWordsAppend(a, b[..n]);
    }
  }

  lemma {:induction false} ConcatMembers(groups: seq<seq<string>>, g: seq<string>, w: string)
    requires g in groups && w in g
    ensures w in Concat(groups)
  {
    if g != groups[0] {
      assert g in groups[1..];
      ConcatMembers(groups[1..], g, w);
    }
  }

  lemma {:induction false} WordsOfLines(groups: seq<seq<string>>)
    requires forall g :: g in groups ==> forall w :: w in g ==> IsWord(w)
    ensures AllWords(Lines(groups)) == Concat(groups)
  {
    if groups != [] {
      var g, rest := groups[0], groups[1..];
      assert groups == [g] + rest && g in groups;
      forall h | h in rest ensures forall w :: w in h ==> IsWord(w) { assert h in groups; }
      LinesCons(g, rest);
      WordsOfLines(rest);
      AllWordsAppend([Join(g, " ")], Lines(rest));
      WordsOfJoined(g);
      OneLine(Join(g, " "));
    }
  }

  lemma OneLine(line: string)
    ensures AllWords([line]) == Words(line)
  {
    assert [line][..0] == [];
  }

  lemma GroupsHoldWords(line: string, width: int)
    requires !Structural(line, width)
    ensures forall g :: g in Greedy(Words(line), width) ==> forall w :: w in g ==> IsWord(w)
  {
    var groups := Greedy(Words(line), width);
    GreedyIsLayout(Words(line), width);
    forall g, w | g in groups && w in g ensures IsWord(w) {
      ConcatMembers(groups, g, w);
    }
  }

  /** No word is lost, added, changed or moved. */
  lemma {:induction false} WrapKeepsWords(lines: seq<string>, width: int)
    ensures AllWords(WrapLines(lines, width)) == AllWords(lines)
  {
    hide Structural;
    if lines != [] {
      var init, line := lines[..|lines| - 1], lines[|lines| - 1];
      WrapKeepsWords(init, width);
      AllWordsAppend(WrapLines(init, width), WrapLine(line, width));
      if Structural(line, width) {
        OneLine(line);
      } else {
        WrapLineIsShortest(line, width, []);
        GroupsHoldWords(line, width);
        WordsOfLines(Greedy(Words(line), width));
      }
    }
  }

  /** Every wrapped line wraps to itself. */
  lemma WrappedLineIsStable(line: string, width: int, i: nat)
    requires i < |WrapLine(line, width)|
    ensures var wrapped := WrapLine(line, width)[i]; WrapLine(wrapped, width) == [wrapped]
  {
    hide Structural;
    var wrapped := WrapLine(line, width)[i];
    if !Structural(line, width) && !Structural(wrapped, width) {
      WrapLineIsShortest(line, width, []);
      WrapLineIsShortest(wrapped, width, []);
      GroupsHoldWords(line, width);
      var g := Greedy(Words(line), width)[i];
      assert g in Greedy(Words(line), width);
      WordsOfJoined(g);
      assert wrapped == Join(g, " ") && Words(wrapped) == g;
      OneGroup(g, width);
    }
  }

  /** Words that fit one line stay on one line. */
  lemma OneGroup(g: seq<string>, width: int)
    requires Fits(g, width)
    ensures Greedy(g, width) == [g]
  {
    if |g| > 1 {
      JoinLength(g);
      assert g[..|g|] == g;
      FirstLineIsLongest(g, 1, width, |g|);
    }
    assert g[..|g|] == g && g[|g|..] == [];
  }

  lemma {:induction false} WrapsToItself(lines: seq<string>, width: int)
    requires forall i :: 0 <= i < |lines| ==> WrapLine(lines[i], width) == [lines[i]]
    ensures WrapLines(lines, width) == lines
  {
    hide WrapLine;
    if lines != [] {
      var init := lines[..|lines| - 1];
      WrapsToItself(init, width);
      assert lines == init + [lines[|lines| - 1]];
    }
  }

  lemma {:induction false} AllStable(lines: seq<string>, width: int, i: nat)
    requires i < |WrapLines(lines, width)|
    ensures var wrapped := WrapLines(lines, width)[i]; WrapLine(wrapped, width) == [wrapped]
  {
    hide WrapLine;
    var init := lines[..|lines| - 1];
    if i < |WrapLines(init, width)| {
      AllStable(init, width, i);
    } else {
      WrappedLineIsStable(lines[|lines| - 1], width, i - |WrapLines(init, width)|);
    }
  }

  /** Wrapping wrapped lines changes nothing. */
  lemma WrapIsIdempotent(lines: seq<string>, width: int)
    ensures WrapLines(WrapLines(lines, width), width) == WrapLines(lines, width)
  {
    hide WrapLine, WrapLines;
    var once := WrapLines(lines, width);
    forall i | 0 <= i < |once| ensures WrapLine(once[i], width) == [once[i]] {
      AllStable(lines, width, i);
    }
    WrapsToItself(once, width);
  }
}
