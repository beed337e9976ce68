/** Splitting Markdown into blocks (Blogs/revisions.py, `_markdown_blocks`), on the lines `splitlines` gives. */
module MarkdownBlocks {
  import opened Prelude
  import opened TextLines

  datatype BlockKind = Heading | Code | Table | Quote | List | Separator | Paragraph

  /** A block by its lines; its text is the lines joined by line feeds. */
  datatype Block = Block(kind: BlockKind, lines: seq<string>)

  datatype Fence = Backticks | Tildes

  /* ---------- Looking at one line ---------- */

  function FenceMarker(line: string): Option<Fence> {
    var s := LStrip(line);
    if StartsWith(s, "```") then Some(Backticks)
    else if StartsWith(s, "~~~") then Some(Tildes)
    else None
  }

  predicate Blank(line: string) {
    LStrip(line) == ""
  }

  /** Three or more rule characters, then only white space. */
  predicate IsSeparator(s: string) {
    var rule := RStrip(s);
    |rule| >= 3 && forall c :: c in rule ==> c in {'-', '*', '_'}
  }

  /** `_block_kind` */
  function KindOf(line: string): BlockKind {
    var s := LStrip(line);
    if StartsWith(s, "#") then Heading
    else if StartsWith(s, "```") || StartsWith(s, "~~~") then Code
    else if StartsWith(s, "|") then Table
    else if StartsWith(s, ">") then Quote
    else if StartsWith(s, "- ") || StartsWith(s, "* ") || StartsWith(s, "+ ") || Numbered(s, 3, c => c == ' ') then List
    else if IsSeparator(s) then Separator
    else Paragraph
  }

  const SPACE: char -> bool := c => c == ' '

  /** What each kind of line looks like, white space in front aside. */
  lemma KindMeaning(front: string, s: string)
    requires AllSpace(front) && Flush(s)
    ensures var kind := KindOf(front + s);
            && (kind == Heading <==> s != "" && s[0] == '#')
            && (kind == Code <==> |s| >= 3 && s[..3] in {"```", "~~~"})
            && (kind == Table <==> s != "" && s[0] == '|')
            && (kind == Quote <==> s != "" && s[0] == '>')
            && (kind == List <==> (|s| >= 2 && s[..2] in {"- ", "* ", "+ "}) ||
                                  exists n :: 1 <= n <= 3 && HasNumber(s, n, SPACE))
            && (kind == Separator <==> exists n :: 3 <= n <= |s| && RulesThenSpace(s, n))
    ensures var fence := FenceMarker(front + s);
            && (fence == Some(Backticks) <==> |s| >= 3 && s[..3] == "```")
            && (fence == Some(Tildes) <==> |s| >= 3 && s[..3] == "~~~")
    ensures Blank(front + s) <==> s == ""
  {
    hide LStrip, Numbered, IsSeparator, StartsWith, RulesThenSpace, HasNumber;
    LStripMeaning(front, s);
    NumberedMeaning(s, 3, SPACE);
    SeparatorMeaning(s);
    NumbersAndRules(s);
    PrefixMeaning(s, "#");
    PrefixMeaning(s, "```");
    PrefixMeaning(s, "~~~");
    PrefixMeaning(s, "|");
    PrefixMeaning(s, ">");
    PrefixMeaning(s, "- ");
    PrefixMeaning(s, "* ");
    PrefixMeaning(s, "+ ");
    if s != "" { assert s[..1] == [s[0]]; }
    if |s| >= 2 { assert s[..2] == [s[0], s[1]]; }
    if |s| >= 3 { assert s[..3] == [s[0], s[1], s[2]]; }
  }

  /** A numbered item starts with a digit, a rule with two rule characters. */
  lemma NumbersAndRules(s: string)
    ensures (exists n :: 1 <= n <= 3 && HasNumber(s, n, SPACE)) ==> s != "" && '0' <= s[0] <= '9'
    ensures (exists n :: 3 <= n <= |s| && RulesThenSpace(s, n)) ==>
              |s| >= 2 && s[0] in {'-', '*', '_'} && s[1] in {'-', '*', '_'}
  {
  }

  /** `n` rule characters and then nothing but white space. */
  ghost predicate RulesThenSpace(s: string, n: nat) {
    && n <= |s| && (forall i :: 0 <= i < n ==> s[i] in {'-', '*', '_'})
    && forall i :: n <= i < |s| ==> IsSpace(s[i])
  }

  lemma SeparatorMeaning(s: string)
    ensures IsSeparator(s) <==> exists n :: 3 <= n <= |s| && RulesThenSpace(s, n)
  {
    if IsSeparator(s) {
      StripsSpace(s);
      assert forall i :: 0 <= i < |RStrip(s)| ==> RStrip(s)[i] in RStrip(s) && s[i] == RStrip(s)[i];
      assert RulesThenSpace(s, |RStrip(s)|);
    }
    if n :| 3 <= n <= |s| && RulesThenSpace(s, n) {
      assert s == s[..n] + s[n..];
      RStripMeaning(s[..n], s[n..]);
    }
  }

  lemma {:induction false} StripsSpace(s: string)
    ensures RStrip(s) <= s && forall i :: |RStrip(s)| <= i < |s| ==> IsSpace(s[i])
  {
    if s != "" && IsSpace(s[|s| - 1]) { StripsSpace(s[..|s| - 1]); }
  }

  /** A line of running text, outside fences. */
  predicate IsText(line: string) {
    FenceMarker(line) == None && !Blank(line) && KindOf(line) == Paragraph
  }

  /* ---------- The blocks, by their longest runs ---------- */

  /** The number of text lines at the start. */
  function TextRun(lines: seq<string>): (n: nat)
    ensures n <= |lines|
    ensures forall i :: 0 <= i < n ==> IsText(lines[i])
    ensures n < |lines| ==> !IsText(lines[n])
  {
    if lines == [] || !IsText(lines[0]) then 0 else 1 + TextRun(lines[1..])
  }

  /** The lines up to and including the one that closes the fence, or all of them. */
  function FencedRun(lines: seq<string>, fence: Fence): (n: nat)
    ensures n <= |lines| && (lines != [] ==> n > 0)
  {
    if lines == [] then 0
    else if FenceMarker(lines[0]) == Some(fence) then 1
    else 1 + FencedRun(lines[1..], fence)
  }

  function Blocks(lines: seq<string>): seq<Block>
    decreases |lines|
  {
    if lines == [] then []
    else
      match FenceMarker(lines[0])
      case Some(fence) =>
        var n := 1 + FencedRun(lines[1..], fence);
        [Block(Code, lines[..n])] + Blocks(lines[n..])
      case None =>
        if Blank(lines[0]) then Blocks(lines[1..])
        else if KindOf(lines[0]) != Paragraph then [Block(KindOf(lines[0]), [lines[0]])] + Blocks(lines[1..])
        else
          var n := TextRun(lines);
          [Block(Paragraph, lines[..n])] + Blocks(lines[n..])
  }

  /* ---------- The loop ---------- */

  /** The blocks still to come, given the paragraph or the fenced code begun. */
  function Rest(paragraph: seq<string>, code: seq<string>, fence: Option<Fence>, lines: seq<string>): seq<Block> {
    match fence
    case Some(f) =>
      var n := FencedRun(lines, f);
      [Block(Code, code + lines[..n])] + Blocks(lines[n..])
    case None =>
      if paragraph == [] then Blocks(lines)
      else
        var n := TextRun(lines);
        [Block(Paragraph, paragraph + lines[..n])] + Blocks(lines[n..])
  }

  /** `flush_paragraph` */
  function Flushed(blocks: seq<Block>, paragraph: seq<string>): seq<Block> {
    if paragraph == [] then blocks else blocks + [Block(Paragraph, paragraph)]
  }

  /** `_markdown_blocks` */
  method SplitBlocks(lines: seq<string>) returns (blocks: seq<Block>)
    ensures blocks == Blocks(lines)
  {
    hide FenceMarker, Blank, KindOf, Blocks, Rest, Flushed;
    blocks := [];
    var paragraph: seq<string> := [];
    var code: seq<string> := [];
    var fence: Option<Fence> := None;
    AtStart(lines);
    for i := 0 to |lines|
      invariant fence.Some? ==> paragraph == [] && code != []
      invariant fence == None ==> code == []
      invariant blocks + Rest(paragraph, code, fence, lines[i..]) == Blocks(lines)
    {
      var line := lines[i];
      ghost var todo := lines[i..];
      assert todo[0] == line && todo[1..] == lines[i + 1..];
      var marker := FenceMarker(line);
      if fence.Some? {
        FencedStep(blocks, code, fence.value, todo);
        code := code + [line];
        if marker == fence {
          blocks := blocks + [Block(Code, code)];
          code := [];
          fence := None;
        }
      } else if marker.Some? {
        OpenStep(blocks, paragraph, todo, marker.value);
        blocks := Flushed(blocks, paragraph);
        paragraph := [];
        fence := marker;
        code := [line];
      } else if Blank(line) {
        BlankStep(blocks, paragraph, todo);
        blocks := Flushed(blocks, paragraph);
        paragraph := [];
      } else if KindOf(line) == Paragraph {
        TextStep(paragraph, todo);
        paragraph := paragraph + [line];
      } else {
        MarkedStep(blocks, paragraph, todo);
        blocks := Flushed(blocks, paragraph) + [Block(KindOf(line), [line])];
        paragraph := [];
      }
    }
    assert lines[|lines|..] == [];
    AtEnd(blocks, paragraph, code, fence);
    blocks := Flushed(blocks, paragraph);
    if code != [] {
      blocks := blocks + [Block(Code, code)];
    }
  }

  lemma AtStart(lines: seq<string>)
    ensures [] + Rest([], [], None, lines[0..]) == Blocks(lines)
  {
    assert lines[0..] == lines;
  }

  lemma FencedStep(blocks: seq<Block>, code: seq<string>, fence: Fence, lines: seq<string>)
    requires lines != []
    ensures blocks + Rest([], code, Some(fence), lines) ==
            if FenceMarker(lines[0]) == Some(fence)
            then (blocks + [Block(Code, code + [lines[0]])]) + Rest([], [], None, lines[1..])
            else blocks + Rest([], code + [lines[0]], Some(fence), lines[1..])
  {
    hide FenceMarker, Blocks;
    var n := FencedRun(lines, fence);
    if FenceMarker(lines[0]) == Some(fence) {
      assert lines[..1] == [lines[0]];
    } else {
      assert code + lines[..n] == (code + [lines[0]]) + lines[1..][..n - 1];
      assert lines[n..] == lines[1..][n - 1..];
    }
  }

  /** A line that is no text ends the paragraph begun. */
  lemma FlushStep(blocks: seq<Block>, paragraph: seq<string>, lines: seq<string>)
    requires lines == [] || !IsText(lines[0])
    ensures blocks + Rest(paragraph, [], None, lines) == Flushed(blocks, paragraph) + Blocks(lines)
  {
    hide IsText, Blocks;
    if paragraph != [] {
      assert TextRun(lines) == 0;
      assert paragraph + lines[..0] == paragraph && lines[0..] == lines;
    }
  }

  lemma OpenStep(blocks: seq<Block>, paragraph: seq<string>, lines: seq<string>, fence: Fence)
    requires lines != [] && FenceMarker(lines[0]) == Some(fence)
    ensures blocks + Rest(paragraph, [], None, lines) ==
            Flushed(blocks, paragraph) + Rest([], [lines[0]], Some(fence), lines[1..])
  {
    hide Rest, Blocks, Flushed, KindOf, Blank;
    FlushStep(blocks, paragraph, lines);
    FenceOpens(lines, fence);
  }

  /** The blocks from an opening fence on. */
  lemma FenceOpens(lines: seq<string>, fence: Fence)
    requires lines != [] && FenceMarker(lines[0]) == Some(fence)
    ensures Blocks(lines) == Rest([], [lines[0]], Some(fence), lines[1..])
  {
    hide FenceMarker, KindOf, Blank, FencedRun;
    CutLater(lines, FencedRun(lines[1..], fence));
  }

  lemma CutLater(lines: seq<string>, n: nat)
    requires n < |lines|
    ensures [lines[0]] + lines[1..][..n] == lines[..n + 1]
    ensures lines[1..][n..] == lines[n + 1..]
  {
  }

  lemma BlankStep(blocks: seq<Block>, paragraph: seq<string>, lines: seq<string>)
    requires lines != [] && FenceMarker(lines[0]) == None && Blank(lines[0])
    ensures blocks + Rest(paragraph, [], None, lines) == Flushed(blocks, paragraph) + Rest([], [], None, lines[1..])
  {
    hide FenceMarker, KindOf, Blank, Flushed;
    FlushStep(blocks, paragraph, lines);
  }

  lemma MarkedStep(blocks: seq<Block>, paragraph: seq<string>, lines: seq<string>)
    requires lines != [] && FenceMarker(lines[0]) == None && !Blank(lines[0]) && KindOf(lines[0]) != Paragraph
    ensures blocks + Rest(paragraph, [], None, lines) ==
            (Flushed(blocks, paragraph) + [Block(KindOf(lines[0]), [lines[0]])]) + Rest([], [], None, lines[1..])
  {
    hide FenceMarker, KindOf, Blank, Flushed;
    FlushStep(blocks, paragraph, lines);
  }

  lemma TextStep(paragraph: seq<string>, lines: seq<string>)
    requires lines != [] && IsText(lines[0])
    ensures Rest(paragraph, [], None, lines) == Rest(paragraph + [lines[0]], [], None, lines[1..])
  {
    hide FenceMarker, KindOf, Blank;
    var n := TextRun(lines);
    assert [lines[0]] + lines[1..][..n - 1] == lines[..n];
    assert paragraph + lines[..n] == (paragraph + [lines[0]]) + lines[1..][..n - 1];
    assert lines[n..] == lines[1..][n - 1..];
    if paragraph == [] {
      assert paragraph + lines[..n] == lines[..n];
    }
  }

  lemma AtEnd(blocks: seq<Block>, paragraph: seq<string>, code: seq<string>, fence: Option<Fence>)
    requires fence.Some? ==> paragraph == [] && code != []
    requires fence == None ==> code == []
    ensures blocks + Rest(paragraph, code, fence, []) ==
            Flushed(blocks, paragraph) + (if code != [] then [Block(Code, code)] else [])
  {
    assert code + [][..0] == code && paragraph + [][..0] == paragraph;
  }

  /* ---------- Coverage ---------- */

  /** Where a fence stands after a line. */
  function FenceAfter(fence: Option<Fence>, line: string): Option<Fence> {
    match fence
    case None => FenceMarker(line)
    case Some(f) => if FenceMarker(line) == fence then None else fence
  }

  /** All lines but the blank ones outside fences. */
  function Significant(lines: seq<string>, fence: Option<Fence>): seq<string> {
    if lines == [] then []
    else if fence == None && FenceMarker(lines[0]) == None && Blank(lines[0]) then Significant(lines[1..], None)
    else [lines[0]] + Significant(lines[1..], FenceAfter(fence, lines[0]))
  }

  function Flatten(blocks: seq<Block>): seq<string> {
    if blocks == [] then [] else blocks[0].lines + Flatten(blocks[1..])
  }

  lemma {:induction false} FencedSignificant(lines: seq<string>, fence: Fence)
    ensures var n := FencedRun(lines, fence);
            Significant(lines, Some(fence)) == lines[..n] + Significant(lines[n..], None)
  {
    hide FenceMarker, Blank;
    if lines != [] {
      var n := FencedRun(lines, fence);
      if FenceMarker(lines[0]) == Some(fence) {
        assert lines[..1] == [lines[0]];
      } else {
        FencedSignificant(lines[1..], fence);
        assert FenceAfter(Some(fence), lines[0]) == Some(fence);
        var inside, after := lines[1..][..n - 1], lines[1..][n - 1..];
        assert lines[..n] == [lines[0]] + inside && lines[n..] == after;
        assert [lines[0]] + (inside + Significant(after, None)) == ([lines[0]] + inside) + Significant(after, None);
      }
    }
  }

  lemma {:induction false} TextSignificant(lines: seq<string>)
    ensures var n := TextRun(lines);
            Significant(lines, None) == lines[..n] + Significant(lines[n..], None)
  {
    hide FenceMarker, Blank, KindOf;
    var n := TextRun(lines);
    if n == 0 {
      assert lines[0..] == lines;
    } else {
      TextSignificant(lines[1..]);
      assert lines[..n] == [lines[0]] + lines[1..][..n - 1];
      assert lines[n..] == lines[1..][n - 1..];
    }
  }

  /** Every line but blank ones outside fences is in exactly one block, in order, even with a fence left open. */
  lemma {:induction false} BlocksCoverLines(lines: seq<string>)
    ensures Flatten(Blocks(lines)) == Significant(lines, None)
    decreases |lines|
  {
    hide FenceMarker, Blank, KindOf;
    if lines != [] {
      match FenceMarker(lines[0])
      case Some(fence) =>
        var k := FencedRun(lines[1..], fence);
        FencedSignificant(lines[1..], fence);
        FlattenCons(Block(Code, lines[..k + 1]), Blocks(lines[k + 1..]));
        assert lines[..k + 1] == [lines[0]] + lines[1..][..k];
        assert lines[1..][k..] == lines[k + 1..];
        BlocksCoverLines(lines[k + 1..]);
      case None =>
        if Blank(lines[0]) {
          BlocksCoverLines(lines[1..]);
        } else if KindOf(lines[0]) != Paragraph {
          FlattenCons(Block(KindOf(lines[0]), [lines[0]]), Blocks(lines[1..]));
          BlocksCoverLines(lines[1..]);
        } else {
          var n := TextRun(lines);
          TextSignificant(lines);
          FlattenCons(Block(Paragraph, lines[..n]), Blocks(lines[n..]));
          BlocksCoverLines(lines[n..]);
        }
    }
  }

  lemma FlattenCons(b: Block, rest: seq<Block>)
    ensures Flatten([b] + rest) == b.lines + Flatten(rest)
  {
  }

  /* ---------- Printing and splitting again ---------- */

  /** The blocks with one empty line between them. */
  function Printed(blocks: seq<Block>): seq<string> {
    if blocks == [] then []
    else if |blocks| == 1 then blocks[0].lines
    else blocks[0].lines + [""] + Printed(blocks[1..])
  }

  /** Fenced lines that end at their closing fence and not before. */
  predicate Closed(lines: seq<string>, fence: Fence) {
    lines != [] && FencedRun(lines, fence) == |lines| && FenceMarker(lines[|lines| - 1]) == Some(fence)
  }

  /**
   The lines of a block are such that splitting them alone gives that block; only a last block may
   leave its fence open.
   */
  predicate WellFormed(b: Block, last: bool) {
    && b.lines != []
    && match b.kind
       case Code =>
         FenceMarker(b.lines[0]).Some? &&
         var fence, inside := FenceMarker(b.lines[0]).value, b.lines[1..];
         FencedRun(inside, fence) == |inside| && (last || Closed(inside, fence))
       case Paragraph => forall line :: line in b.lines ==> IsText(line)
       case kind =>
           |b.lines| == 1 && FenceMarker(b.lines[0]) == None && !Blank(b.lines[0]) && KindOf(b.lines[0]) == kind
  }

  predicate AllWellFormed(blocks: seq<Block>) {
    forall i :: 0 <= i < |blocks| ==> WellFormed(blocks[i], i == |blocks| - 1)
  }

  lemma {:induction false} FencedRunIsClosed(lines: seq<string>, fence: Fence)
    ensures var n := FencedRun(lines, fence);
            FencedRun(lines[..n], fence) == n && (n < |lines| ==> Closed(lines[..n], fence))
  {
    hide FenceMarker;
    if lines != [] {
      var n := FencedRun(lines, fence);
      if FenceMarker(lines[0]) == Some(fence) {
        assert lines[..1] == [lines[0]];
      } else {
        FencedRunIsClosed(lines[1..], fence);
        assert lines[..n][1..] == lines[1..][..n - 1];
        if n < |lines| { assert lines[..n][n - 1] == lines[1..][..n - 1][n - 2]; }
      }
    }
  }

  lemma {:induction false} BlocksAreWellFormed(lines: seq<string>)
    ensures AllWellFormed(Blocks(lines))
    decreases |lines|
  {
    hide FenceMarker, Blank, KindOf, Closed;
    if lines != [] {
      match FenceMarker(lines[0])
      case Some(fence) =>
        var n := 1 + FencedRun(lines[1..], fence);
        FencedRunIsClosed(lines[1..], fence);
        assert lines[..n][1..] == lines[1..][..n - 1];
        BlocksAreWellFormed(lines[n..]);
        NothingAfterEnd(lines, n);
      case None =>
        if Blank(lines[0]) {
          BlocksAreWellFormed(lines[1..]);
        } else if KindOf(lines[0]) != Paragraph {
          CodeHasMarker(lines[0]);
          BlocksAreWellFormed(lines[1..]);
        } else {
          var n := TextRun(lines);
          BlocksAreWellFormed(lines[n..]);
        }
    }
  }

  lemma CodeHasMarker(line: string)
    ensures KindOf(line) == Code ==> FenceMarker(line).Some?
  {
    hide LStrip;
  }

  lemma NothingAfterEnd(lines: seq<string>, n: nat)
    requires n <= |lines|
    ensures n == |lines| ==> Blocks(lines[n..]) == []
  {
  }

  lemma BlankLine()
    ensures Blank("") && FenceMarker("") == None && !IsText("")
  {
  }

  lemma {:induction false} FencedRunAppend(inside: seq<string>, more: seq<string>, fence: Fence)
    requires Closed(inside, fence)
    ensures FencedRun(inside + more, fence) == |inside|
  {
    hide FenceMarker;
    assert (inside + more)[1..] == inside[1..] + more;
    if FenceMarker(inside[0]) != Some(fence) {
      assert inside[1..][|inside| - 2] == inside[|inside| - 1];
      FencedRunAppend(inside[1..], more, fence);
    }
  }

  lemma {:induction false} TextRunAppend(text: seq<string>, more: seq<string>)
    requires forall line :: line in text ==> IsText(line)
    requires more == [] || !IsText(more[0])
    ensures TextRun(text + more) == |text|
  {
    hide IsText;
    if text == [] {
      assert text + more == more;
    } else {
      assert (text + more)[1..] == text[1..] + more;
      assert text[0] in text && forall line :: line in text[1..] ==> line in text;
      TextRunAppend(text[1..], more);
    }
  }

  /** A printed block splits off the front again. */
  lemma SplitOne(b: Block, more: seq<string>, last: bool)
    requires WellFormed(b, last)
    requires last ==> more == []
    requires !last ==> more != [] && more[0] == ""
    ensures Blocks(b.lines + more) == [b] + Blocks(more)
  {
    hide FenceMarker, Blank, KindOf, Closed;
    var all := b.lines + more;
    BlankLine();
    match b.kind
    case Code =>
      var fence, inside := FenceMarker(b.lines[0]).value, b.lines[1..];
      assert all[1..] == inside + more;
      if last {
        assert inside + more == inside;
      } else {
        FencedRunAppend(inside, more, fence);
      }
      assert all[..|b.lines|] == b.lines && all[|b.lines|..] == more;
    case Paragraph =>
      assert b.lines[0] in b.lines;
      TextRunAppend(b.lines, more);
      assert all[..|b.lines|] == b.lines && all[|b.lines|..] == more;
    case _ =>
      assert all[1..] == more && b.lines == [all[0]];
  }

  lemma {:induction false} PrintedSplits(blocks: seq<Block>)
    requires AllWellFormed(blocks)
    ensures Blocks(Printed(blocks)) == blocks
  {
    hide WellFormed, FenceMarker, Blank, KindOf;
    if blocks != [] {
      assert WellFormed(blocks[0], |blocks| == 1);
      if |blocks| == 1 {
        SplitOne(blocks[0], [], true);
        assert blocks[0].lines + [] == blocks[0].lines;
      } else {
        var rest := Printed(blocks[1..]);
        forall i | 0 <= i < |blocks[1..]| ensures WellFormed(blocks[1..][i], i == |blocks[1..]| - 1) {
          assert WellFormed(blocks[i + 1], i + 1 == |blocks| - 1);
        }
        PrintedSplits(blocks[1..]);
        assert Printed(blocks) == blocks[0].lines + ([""] + rest);
        SplitOne(blocks[0], [""] + rest, false);
        SkipBlank(rest);
      }
    }
  }

  lemma SkipBlank(lines: seq<string>)
    ensures Blocks([""] + lines) == Blocks(lines)
  {
    BlankLine();
    assert ([""] + lines)[1..] == lines;
  }

  /** Printing the blocks of a text with one empty line between them and splitting again gives the same blocks. */
  lemma SplitPrintSplit(lines: seq<string>)
    ensures Blocks(Printed(Blocks(lines))) == Blocks(lines)
  {
    BlocksAreWellFormed(lines);
    PrintedSplits(Blocks(lines));
  }
}
