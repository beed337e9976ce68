/**
 The structured diff of two Markdown texts (Blogs/revisions.py): blocks first, sentences inside
 changed blocks, characters inside changed sentences.
 */
module StructuredDiff {
  import opened Prelude
  import opened TextLines
  import opened MarkdownBlocks

  /* ---------- What a sequence matcher promises ---------- */

  datatype Tag = Equal | Replace | Insert | Delete

  datatype Opcode = Opcode(tag: Tag, i1: nat, i2: nat, j1: nat, j2: nat)

  /** `get_opcodes`: from (i, j) on, the opcodes cut both sides into matching consecutive slices. */
  predicate Covers<T(==)>(ops: seq<Opcode>, a: seq<T>, b: seq<T>, i: nat, j: nat) {
    if ops == [] then i == |a| && j == |b|
    else
      var op := ops[0];
      && i == op.i1 <= op.i2 <= |a| && j == op.j1 <= op.j2 <= |b|
      && (op.tag == Equal ==> a[op.i1..op.i2] == b[op.j1..op.j2])
      && (op.tag == Insert ==> op.i1 == op.i2)
      && (op.tag == Delete ==> op.j1 == op.j2)
      && Covers(ops[1..], a, b, op.i2, op.j2)
  }

  /** `difflib.SequenceMatcher` at the three levels. */
  datatype Matcher = Matcher(
    blocks: (seq<Block>, seq<Block>) -> seq<Opcode>,
    sentences: (seq<string>, seq<string>) -> seq<Opcode>,
    chars: (string, string) -> seq<Opcode>)

  ghost predicate Sound(m: Matcher) {
    && (forall a, b :: Covers(m.blocks(a, b), a, b, 0, 0))
    && (forall a, b :: Covers(m.sentences(a, b), a, b, 0, 0))
    && (forall a, b :: Covers(m.chars(a, b), a, b, 0, 0))
  }

  /* ---------- Sentences ---------- */

  const SENTENCE_ENDS := "\U{3002}\U{FF01}\U{FF1F}!?\U{FF1B};."

  /** The first place, after the start, where the text is cut; its end if there is none. */
  function UnitLength(text: string, from: nat): (n: nat)
    requires 0 < from <= |text|
    ensures from <= n <= |text|
    decreases |text| - from
  {
    if from == |text| || text[from - 1] in SENTENCE_ENDS || text[from - 1] == LF then from
        else UnitLength(text, from + 1)
  }

  /** `_sentence_units` */
  function SentenceUnits(text: string): seq<string> {
    if text == "" then []
    else
      var n := UnitLength(text, 1);
      [text[..n]] + SentenceUnits(text[n..])
  }

  /** `''.join(parts)` */
  function Glue(parts: seq<string>): string {
    if parts == [] then "" else parts[0] + Glue(parts[1..])
  }

  /* ---------- Segments ---------- */

  datatype Segment = Segment(op: Tag, oldText: string, newText: string)

  const CHAR_DIFF_MAX_INPUT := 20000

  function Slice<T>(s: seq<T>, i: nat, j: nat): seq<T> {
    if i <= j <= |s| then s[i..j] else []
  }

  function CharSegmentsOf(ops: seq<Opcode>, a: string, b: string): seq<Segment> {
    if ops == [] then []
    else [Segment(ops[0].tag, Slice(a, ops[0].i1, ops[0].i2),
        Slice(b, ops[0].j1, ops[0].j2))] + CharSegmentsOf(ops[1..], a, b)
  }

  /** `_char_segments`; very long texts are replaced as a whole. */
  function CharSegments(a: string, b: string, m: Matcher): seq<Segment> {
    if |a| + |b| > CHAR_DIFF_MAX_INPUT then [Segment(Replace, a, b)] else CharSegmentsOf(m.chars(a, b), a, b)
  }

  function SegmentsOfOpcode(op: Opcode, a: seq<string>, b: seq<string>, m: Matcher): seq<Segment> {
    var oldPart, newPart := Glue(Slice(a, op.i1, op.i2)), Glue(Slice(b, op.j1, op.j2));
    if op.tag == Replace then CharSegments(oldPart, newPart, m) else [Segment(op.tag, oldPart, newPart)]
  }

  function InlineSegmentsOf(ops: seq<Opcode>, a: seq<string>, b: seq<string>, m: Matcher): seq<Segment> {
    if ops == [] then [] else SegmentsOfOpcode(ops[0], a, b, m) + InlineSegmentsOf(ops[1..], a, b, m)
  }

  function InlineSegments(oldText: string, newText: string, m: Matcher): seq<Segment> {
    InlineSegmentsOf(m.sentences(SentenceUnits(oldText), SentenceUnits(newText)), SentenceUnits(oldText),
        SentenceUnits(newText), m)
  }

  /* ---------- The diff ---------- */

  datatype Stats = Stats(addedBlocks: nat, deletedBlocks: nat, changedBlocks: nat, insertedChars: nat,
      deletedChars: nat)

  datatype DiffBlock = DiffBlock(op: Tag, oldKind: Option<BlockKind>, newKind: Option<BlockKind>,
      segments: seq<Segment>)

  datatype Diff = Diff(fromVersion: string, toVersion: string, blocks: seq<DiffBlock>, stats: Stats)

  const NO_STATS := Stats(0, 0, 0, 0, 0)

  function Text(b: Block): string {
    Join(b.lines, [LF])
  }

  function Value(blocks: seq<Block>): string {
    Join(seq(|blocks|, i requires 0 <= i < |blocks| => Text(blocks[i])), [LF, LF])
  }

  function Inserted(segments: seq<Segment>): nat {
    if segments == [] then 0
    else (if segments[0].op in {Insert, Replace} then |segments[0].newText| else 0) + Inserted(segments[1..])
  }

  function Deleted(segments: seq<Segment>): nat {
    if segments == [] then 0
    else (if segments[0].op in {Delete, Replace} then |segments[0].oldText| else 0) + Deleted(segments[1..])
  }

  function BlockOf(op: Opcode, a: seq<Block>, b: seq<Block>, m: Matcher): DiffBlock {
    var oldSlice, newSlice := Slice(a, op.i1, op.i2), Slice(b, op.j1, op.j2);
    DiffBlock(op.tag,
              if oldSlice == [] then None else Some(oldSlice[0].kind),
              if newSlice == [] then None else Some(newSlice[0].kind),
              InlineSegments(Value(oldSlice), Value(newSlice), m))
  }

  function Counted(stats: Stats, op: Opcode, a: seq<Block>, b: seq<Block>, segments: seq<Segment>): Stats {
    var oldSlice, newSlice := Slice(a, op.i1, op.i2), Slice(b, op.j1, op.j2);
    Stats(stats.addedBlocks + if op.tag == Insert then |newSlice| else 0,
          stats.deletedBlocks + if op.tag == Delete then |oldSlice| else 0,
          stats.changedBlocks + if op.tag == Replace then Max(|oldSlice|, |newSlice|) else 0,
          stats.insertedChars + Inserted(segments),
          stats.deletedChars + Deleted(segments))
  }

  function DiffBlocks(ops: seq<Opcode>, a: seq<Block>, b: seq<Block>, m: Matcher): seq<DiffBlock> {
    if ops == [] then []
    else if ops[0].tag == Equal then DiffBlocks(ops[1..], a, b, m)
    else [BlockOf(ops[0], a, b, m)] + DiffBlocks(ops[1..], a, b, m)
  }

  function DiffStats(stats: Stats, ops: seq<Opcode>, a: seq<Block>, b: seq<Block>, m: Matcher): Stats
    decreases |ops|
  {
    if ops == [] then stats
    else if ops[0].tag == Equal then DiffStats(stats, ops[1..], a, b, m)
    else DiffStats(Counted(stats, ops[0], a, b, BlockOf(ops[0], a, b, m).segments), ops[1..], a, b, m)
  }

  /** `build_structured_diff`, on the lines of the two texts. */
  function StructuredDiffOf(oldLines: seq<string>, newLines: seq<string>, fromVersion: string, toVersion: string,
      m: Matcher): Diff {
    var a, b := Blocks(oldLines), Blocks(newLines);
    var ops := m.blocks(a, b);
    Diff(fromVersion, toVersion, DiffBlocks(ops, a, b, m), DiffStats(NO_STATS, ops, a, b, m))
  }

  /* ---------- The loops ---------- */

  method BuildInlineSegments(oldText: string, newText: string, m: Matcher) returns (segments: seq<Segment>)
    ensures segments == InlineSegments(oldText, newText, m)
  {
    hide SentenceUnits, CharSegments, Glue, Slice, InlineSegmentsOf;
    var oldSentences, newSentences := SentenceUnits(oldText), SentenceUnits(newText);
    var ops := m.sentences(oldSentences, newSentences);
    segments := [];
    assert ops[0..] == ops;
    for k := 0 to |ops|
      invariant segments + InlineSegmentsOf(ops[k..], oldSentences, newSentences, m) ==
                [] + InlineSegmentsOf(ops, oldSentences, newSentences, m)
    {
      var op := ops[k];
      assert ops[k..][0] == op && ops[k..][1..] == ops[k + 1..];
      InlineStep(segments, ops[k..], oldSentences, newSentences, m);
      var oldPart, newPart := Glue(Slice(oldSentences, op.i1, op.i2)), Glue(Slice(newSentences, op.j1, op.j2));
      if op.tag == Replace {
        segments := segments + CharSegments(oldPart, newPart, m);
      } else {
        segments := segments + [Segment(op.tag, oldPart, newPart)];
      }
    }
    assert ops[|ops|..] == [];
    InlineDone(segments, oldSentences, newSentences, m);
  }

  lemma InlineDone(segments: seq<Segment>, a: seq<string>, b: seq<string>, m: Matcher)
    ensures segments + InlineSegmentsOf([], a, b, m) == segments
  {
  }

  lemma InlineStep(segments: seq<Segment>, ops: seq<Opcode>, a: seq<string>, b: seq<string>, m: Matcher)
    requires ops != []
    ensures segments + InlineSegmentsOf(ops, a, b, m) ==
            (segments + SegmentsOfOpcode(ops[0], a, b, m)) + InlineSegmentsOf(ops[1..], a, b, m)
  {
    hide SegmentsOfOpcode;
  }

  /** The counting of one block's segments. */
  method CountChars(segments: seq<Segment>) returns (inserted: nat, deleted: nat)
    ensures inserted == Inserted(segments) && deleted == Deleted(segments)
  {
    inserted, deleted := 0, 0;
    for k := 0 to |segments|
      invariant inserted + Inserted(segments[k..]) == Inserted(segments)
      invariant deleted + Deleted(segments[k..]) == Deleted(segments)
    {
      var segment := segments[k];
      assert segments[k..][0] == segment && segments[k..][1..] == segments[k + 1..];
      if segment.op in {Insert, Replace} {
        inserted := inserted + |segment.newText|;
      }
      if segment.op in {Delete, Replace} {
        deleted := deleted + |segment.oldText|;
      }
    }
  }

  lemma DiffStep(blocks: seq<DiffBlock>, stats: Stats, ops: seq<Opcode>, a: seq<Block>, b: seq<Block>, m: Matcher)
    requires ops != []
    ensures if ops[0].tag == Equal then
              blocks + DiffBlocks(ops, a, b, m) == blocks + DiffBlocks(ops[1..], a, b, m)
              && DiffStats(stats, ops, a, b, m) == DiffStats(stats, ops[1..], a, b, m)
            else
              var block := BlockOf(ops[0], a, b, m);
              && blocks + DiffBlocks(ops, a, b, m) == (blocks + [block]) + DiffBlocks(ops[1..], a, b, m)
              && DiffStats(stats, ops, a, b, m) ==
                   DiffStats(Counted(stats, ops[0], a, b, block.segments), ops[1..], a, b, m)
  {
    hide BlockOf, Counted;
  }

  lemma DiffDone(blocks: seq<DiffBlock>, stats: Stats, a: seq<Block>, b: seq<Block>, m: Matcher)
    ensures blocks + DiffBlocks([], a, b, m) == blocks && DiffStats(stats, [], a, b, m) == stats
  {
  }

  method BuildStructuredDiff(oldLines: seq<string>, newLines: seq<string>, fromVersion: string, toVersion: string,
      m: Matcher)
    returns (diff: Diff)
    ensures diff == StructuredDiffOf(oldLines, newLines, fromVersion, toVersion, m)
  {
    hide Blocks, Value, Slice, InlineSegments, Inserted, Deleted, DiffBlocks, DiffStats;
    var oldBlocks := SplitBlocks(oldLines);
    var newBlocks := SplitBlocks(newLines);
    var ops := m.blocks(oldBlocks, newBlocks);
    var blocks: seq<DiffBlock> := [];
    var stats := NO_STATS;
    assert ops[0..] == ops;
    for k := 0 to |ops|
      invariant blocks + DiffBlocks(ops[k..], oldBlocks, newBlocks, m) == [] + DiffBlocks(ops, oldBlocks, newBlocks, m)
      invariant DiffStats(stats, ops[k..], oldBlocks, newBlocks, m) == DiffStats(NO_STATS, ops, oldBlocks, newBlocks, m)
    {
      var op := ops[k];
      assert ops[k..][0] == op && ops[k..][1..] == ops[k + 1..];
      DiffStep(blocks, stats, ops[k..], oldBlocks, newBlocks, m);
      if op.tag == Equal { continue; }
      var oldSlice, newSlice := Slice(oldBlocks, op.i1, op.i2), Slice(newBlocks, op.j1, op.j2);
      var segments := BuildInlineSegments(Value(oldSlice), Value(newSlice), m);
      blocks := blocks + [DiffBlock(op.tag, if oldSlice == [] then None else Some(oldSlice[0].kind),
                                    if newSlice == [] then None else Some(newSlice[0].kind), segments)];
      var inserted, deleted := CountChars(segments);
      stats := Stats(stats.addedBlocks + if op.tag == Insert then |newSlice| else 0,
                     stats.deletedBlocks + if op.tag == Delete then |oldSlice| else 0,
                     stats.changedBlocks + if op.tag == Replace then Max(|oldSlice|, |newSlice|) else 0,
                     stats.insertedChars + inserted, stats.deletedChars + deleted);
    }
    assert ops[|ops|..] == [];
    DiffDone(blocks, stats, oldBlocks, newBlocks, m);
    diff := Diff(fromVersion, toVersion, blocks, stats);
  }

  lemma TextsAppend(x: seq<Block>, y: seq<Block>)
    ensures seq(|x + y|, i requires 0 <= i < |x + y| => Text((x + y)[i])) ==
            seq(|x|, i requires 0 <= i < |x| => Text(x[i])) + seq(|y|, i requires 0 <= i < |y| => Text(y[i]))
  {
    hide Text;
  }

  /** The text of a block is its lines, with a line feed between any two. */
  lemma TextMeaning(kind: BlockKind, above: seq<string>, below: seq<string>, line: string)
    ensures Text(Block(kind, [line])) == line
    ensures above != [] && below != [] ==>
              Text(Block(kind, above + below)) == Text(Block(kind, above)) + "\n" + Text(Block(kind, below))
  {
    if above != [] && below != [] { JoinAppend(above, below, [LF]); }
  }

  /** The text of blocks is theirs, with an empty line between any two. */
  lemma ValueMeaning(x: seq<Block>, y: seq<Block>, b: Block)
    ensures Value([]) == "" && Value([b]) == Text(b)
    ensures x != [] && y != [] ==> Value(x + y) == Value(x) + "\n\n" + Value(y)
  {
    hide Text, Join;
    OneText(b);
    if x != [] && y != [] {
      TextsAppend(x, y);
      JoinAppend(seq(|x|, i requires 0 <= i < |x| => Text(x[i])), seq(|y|, i requires 0 <= i < |y| => Text(y[i])),
          [LF, LF]);
    }
  }

  lemma OneText(b: Block)
    ensures Value([]) == "" && Value([b]) == Text(b)
  {
    hide Text;
  }

  /* ---------- The segments of a block are its two sides ---------- */

  function OldSide(segments: seq<Segment>): string {
    if segments == [] then "" else segments[0].oldText + OldSide(segments[1..])
  }

  function NewSide(segments: seq<Segment>): string {
    if segments == [] then "" else segments[0].newText + NewSide(segments[1..])
  }

  /** What a segment's tag says about its texts. */
  predicate Tagged(s: Segment) {
    && (s.op == Equal ==> s.oldText == s.newText)
    && (s.op == Insert ==> s.oldText == "")
    && (s.op == Delete ==> s.newText == "")
  }

  predicate AllTagged(segments: seq<Segment>) {
    forall s :: s in segments ==> Tagged(s)
  }

  lemma {:induction false} SidesAppend(x: seq<Segment>, y: seq<Segment>)
    ensures OldSide(x + y) == OldSide(x) + OldSide(y) && NewSide(x + y) == NewSide(x) + NewSide(y)
  {
    if x == [] {
      assert x + y == y;
    } else {
      assert (x + y)[1..] == x[1..] + y;
      SidesAppend(x[1..], y);
    }
  }

  lemma {:induction false} GlueUnits(text: string)
    ensures Glue(SentenceUnits(text)) == text
  {
    if text != "" {
      var n := UnitLength(text, 1);
      GlueUnits(text[n..]);
      assert SentenceUnits(text)[1..] == SentenceUnits(text[n..]);
      assert text == text[..n] + text[n..];
    }
  }

  lemma {:induction false} GlueAppend(x: seq<string>, y: seq<string>)
    ensures Glue(x + y) == Glue(x) + Glue(y)
  {
    if x == [] {
      assert x + y == y;
    } else {
      assert (x + y)[1..] == x[1..] + y;
      GlueAppend(x[1..], y);
    }
  }

  lemma {:induction false} CharSegmentsRebuild(ops: seq<Opcode>, a: string, b: string, i: nat, j: nat)
    requires i <= |a| && j <= |b| && Covers(ops, a, b, i, j)
    ensures var segments := CharSegmentsOf(ops, a, b);
            OldSide(segments) == a[i..] && NewSide(segments) == b[j..] && AllTagged(segments)
  {
    if ops == [] {
      assert a[i..] == "" && b[j..] == "";
    } else {
      var op := ops[0];
      CharSegmentsRebuild(ops[1..], a, b, op.i2, op.j2);
      assert a[i..] == a[op.i1..op.i2] + a[op.i2..];
      assert b[j..] == b[op.j1..op.j2] + b[op.j2..];
      var segments := CharSegmentsOf(ops, a, b);
      assert segments[1..] == CharSegmentsOf(ops[1..], a, b);
    }
  }

  lemma OpcodeRebuilds(op: Opcode, a: seq<string>, b: seq<string>, m: Matcher)
    requires Sound(m) && op.i1 <= op.i2 <= |a| && op.j1 <= op.j2 <= |b|
    requires op.tag == Equal ==> a[op.i1..op.i2] == b[op.j1..op.j2]
    requires op.tag == Insert ==> op.i1 == op.i2
    requires op.tag == Delete ==> op.j1 == op.j2
    ensures var segments := SegmentsOfOpcode(op, a, b, m);
            && OldSide(segments) == Glue(a[op.i1..op.i2]) && NewSide(segments) == Glue(b[op.j1..op.j2])
            && AllTagged(segments)
  {
    hide Covers, SentenceUnits, CharSegmentsOf;
    var oldPart, newPart := Glue(a[op.i1..op.i2]), Glue(b[op.j1..op.j2]);
    if op.tag == Replace && |oldPart| + |newPart| <= CHAR_DIFF_MAX_INPUT {
      CharSegmentsRebuild(m.chars(oldPart, newPart), oldPart, newPart, 0, 0);
    } else {
      var segment := Segment(op.tag, oldPart, newPart);
      assert [segment][1..] == [];
      assert SegmentsOfOpcode(op, a, b, m) == [segment];
    }
  }

  lemma {:induction false} InlineSegmentsRebuild(ops: seq<Opcode>, a: seq<string>, b: seq<string>, m: Matcher,
      i: nat, j: nat)
    requires Sound(m) && i <= |a| && j <= |b| && Covers(ops, a, b, i, j)
    ensures var segments := InlineSegmentsOf(ops, a, b, m);
            OldSide(segments) == Glue(a[i..]) && NewSide(segments) == Glue(b[j..]) && AllTagged(segments)
  {
    hide Sound, SegmentsOfOpcode;
    if ops == [] {
      assert a[i..] == [] && b[j..] == [];
    } else {
      var op := ops[0];
      OpcodeRebuilds(op, a, b, m);
      InlineSegmentsRebuild(ops[1..], a, b, m, op.i2, op.j2);
      SidesAppend(SegmentsOfOpcode(op, a, b, m), InlineSegmentsOf(ops[1..], a, b, m));
      assert a[i..] == a[op.i1..op.i2] + a[op.i2..];
      assert b[j..] == b[op.j1..op.j2] + b[op.j2..];
      GlueAppend(a[op.i1..op.i2], a[op.i2..]);
      GlueAppend(b[op.j1..op.j2], b[op.j2..]);
    }
  }

  /**
   For every pair of texts, of any length, the segments read one after the other give the old text
   on one side and the new text on the other, and their tags are true.
   */
  lemma SegmentsRebuildBothSides(oldText: string, newText: string, m: Matcher)
    requires Sound(m)
    ensures var segments := InlineSegments(oldText, newText, m);
            OldSide(segments) == oldText && NewSide(segments) == newText && AllTagged(segments)
  {
    hide SentenceUnits, Covers, InlineSegmentsOf;
    var a, b := SentenceUnits(oldText), SentenceUnits(newText);
    InlineSegmentsRebuild(m.sentences(a, b), a, b, m, 0, 0);
    assert a[0..] == a && b[0..] == b;
    GlueUnits(oldText);
    GlueUnits(newText);
  }

  /**
   The segments of one sentence opcode: a replaced run of up to 20000 characters on both sides
   together is compared character by character, anything else is one segment.
   */
  ghost predicate IsPart(part: seq<Segment>, op: Opcode, a: seq<string>, b: seq<string>, m: Matcher)
    requires op.i1 <= op.i2 <= |a| && op.j1 <= op.j2 <= |b|
  {
    var x, y := Glue(a[op.i1..op.i2]), Glue(b[op.j1..op.j2]);
    if op.tag == Replace && |x| + |y| <= 20000 then
      var chars := m.chars(x, y);
      && |part| == |chars|
      && forall q :: 0 <= q < |chars| ==>
           && chars[q].i1 <= chars[q].i2 <= |x| && chars[q].j1 <= chars[q].j2 <= |y|
           && part[q] == Segment(chars[q].tag, x[chars[q].i1..chars[q].i2], y[chars[q].j1..chars[q].j2])
    else part == [Segment(op.tag, x, y)]
  }

  ghost predicate AreParts(parts: seq<seq<Segment>>, ops: seq<Opcode>, a: seq<string>, b: seq<string>, m: Matcher) {
    && |parts| == |ops|
    && forall k :: 0 <= k < |ops| ==>
         ops[k].i1 <= ops[k].i2 <= |a| && ops[k].j1 <= ops[k].j2 <= |b| && IsPart(parts[k], ops[k], a, b, m)
  }

  ghost function Flat(parts: seq<seq<Segment>>): seq<Segment> {
    if parts == [] then [] else parts[0] + Flat(parts[1..])
  }

  lemma {:induction false} OpcodesInside<T>(ops: seq<Opcode>, a: seq<T>, b: seq<T>, i: nat, j: nat)
    requires i <= |a| && j <= |b| && Covers(ops, a, b, i, j)
    ensures forall k :: 0 <= k < |ops| ==> ops[k].i1 <= ops[k].i2 <= |a| && ops[k].j1 <= ops[k].j2 <= |b|
  {
    if ops != [] {
      OpcodesInside(ops[1..], a, b, ops[0].i2, ops[0].j2);
      assert forall k :: 0 < k < |ops| ==> ops[k] == ops[1..][k - 1];
    }
  }

  lemma {:induction false} CharSegmentsAre(ops: seq<Opcode>, a: string, b: string)
    requires forall k :: 0 <= k < |ops| ==> ops[k].i1 <= ops[k].i2 <= |a| && ops[k].j1 <= ops[k].j2 <= |b|
    ensures var part := CharSegmentsOf(ops, a, b);
            && |part| == |ops|
            && forall q :: 0 <= q < |ops| ==>
                 part[q] == Segment(ops[q].tag, a[ops[q].i1..ops[q].i2], b[ops[q].j1..ops[q].j2])
  {
    if ops != [] {
      assert forall k :: 0 < k < |ops| ==> ops[k] == ops[1..][k - 1];
      CharSegmentsAre(ops[1..], a, b);
    }
  }

  lemma OpcodeIsPart(op: Opcode, a: seq<string>, b: seq<string>, m: Matcher)
    requires Sound(m) && op.i1 <= op.i2 <= |a| && op.j1 <= op.j2 <= |b|
    ensures IsPart(SegmentsOfOpcode(op, a, b, m), op, a, b, m)
  {
    hide Covers, CharSegmentsOf, Glue;
    var x, y := Glue(a[op.i1..op.i2]), Glue(b[op.j1..op.j2]);
    OpcodesInside(m.chars(x, y), x, y, 0, 0);
    CharSegmentsAre(m.chars(x, y), x, y);
  }

  lemma {:induction false} InlineSegmentsAre(ops: seq<Opcode>, a: seq<string>, b: seq<string>, m: Matcher)
      returns (parts: seq<seq<Segment>>)
    requires Sound(m)
    requires forall k :: 0 <= k < |ops| ==> ops[k].i1 <= ops[k].i2 <= |a| && ops[k].j1 <= ops[k].j2 <= |b|
    ensures AreParts(parts, ops, a, b, m) && InlineSegmentsOf(ops, a, b, m) == Flat(parts)
  {
    hide Sound, SegmentsOfOpcode, IsPart;
    parts := [];
    if ops != [] {
      assert forall k :: 0 < k < |ops| ==> ops[k] == ops[1..][k - 1];
      var rest := InlineSegmentsAre(ops[1..], a, b, m);
      OpcodeIsPart(ops[0], a, b, m);
      parts := [SegmentsOfOpcode(ops[0], a, b, m)] + rest;
      assert parts[1..] == rest;
    }
  }

  /** Which comparison each run of sentences gets. */
  lemma SegmentsFollowSentences(oldText: string, newText: string, m: Matcher) returns (parts: seq<seq<Segment>>)
    requires Sound(m)
    ensures var a, b := SentenceUnits(oldText), SentenceUnits(newText);
            AreParts(parts, m.sentences(a, b), a, b, m) && InlineSegments(oldText, newText, m) == Flat(parts)
  {
    hide SentenceUnits, Covers, InlineSegmentsOf, AreParts;
    var a, b := SentenceUnits(oldText), SentenceUnits(newText);
    OpcodesInside(m.sentences(a, b), a, b, 0, 0);
    parts := InlineSegmentsAre(m.sentences(a, b), a, b, m);
  }

  /* ---------- Conservation of characters ---------- */

  lemma {:induction false} CharsBalance(segments: seq<Segment>)
    requires AllTagged(segments)
    ensures Inserted(segments) - Deleted(segments) == |NewSide(segments)| - |OldSide(segments)|
  {
    if segments != [] {
      assert Tagged(segments[0]);
      forall s | s in segments[1..] ensures Tagged(s) { assert s in segments; }
      CharsBalance(segments[1..]);
    }
  }

  /** By how much the changed blocks grow in all. */
  function Growth(ops: seq<Opcode>, a: seq<Block>, b: seq<Block>): int {
    if ops == [] then 0
    else
      (if ops[0].tag == Equal then 0
       else |Value(Slice(b, ops[0].j1, ops[0].j2))| - |Value(Slice(a, ops[0].i1, ops[0].i2))|)
      + Growth(ops[1..], a, b)
  }

  lemma {:induction false} StatsBalance(stats: Stats, ops: seq<Opcode>, a: seq<Block>, b: seq<Block>, m: Matcher)
    requires Sound(m)
    ensures var t := DiffStats(stats, ops, a, b, m);
            t.insertedChars - t.deletedChars == stats.insertedChars - stats.deletedChars + Growth(ops, a, b)
    decreases |ops|
  {
    hide Value, Slice, InlineSegments, Inserted, Deleted, Sound;
    if ops != [] {
      if ops[0].tag == Equal {
        StatsBalance(stats, ops[1..], a, b, m);
      } else {
        var x, y := Value(Slice(a, ops[0].i1, ops[0].i2)), Value(Slice(b, ops[0].j1, ops[0].j2));
        var segments := BlockOf(ops[0], a, b, m).segments;
        assert segments == InlineSegments(x, y, m);
        SegmentsRebuildBothSides(x, y, m);
        CharsBalance(segments);
        StatsBalance(Counted(stats, ops[0], a, b, segments), ops[1..], a, b, m);
      }
    }
  }

  /** The k-th changed opcode. */
  function Changed(ops: seq<Opcode>): seq<Opcode> {
    if ops == [] then []
    else if ops[0].tag == Equal then Changed(ops[1..])
    else [ops[0]] + Changed(ops[1..])
  }

  lemma {:induction false} BlocksOfChanges(ops: seq<Opcode>, a: seq<Block>, b: seq<Block>, m: Matcher)
    ensures var blocks := DiffBlocks(ops, a, b, m);
            && |blocks| == |Changed(ops)|
            && forall k :: 0 <= k < |blocks| ==> blocks[k] == BlockOf(Changed(ops)[k], a, b, m)
  {
    hide BlockOf;
    if ops != [] { BlocksOfChanges(ops[1..], a, b, m); }
  }

  /** The kind of the first block of a run; none of an empty run. */
  ghost predicate IsKindAt(kind: Option<BlockKind>, blocks: seq<Block>, i: nat, j: nat) {
    if i < j <= |blocks| then kind == Some(blocks[i].kind) else kind == None
  }

  lemma KindsOf(op: Opcode, a: seq<Block>, b: seq<Block>, m: Matcher)
    ensures IsKindAt(BlockOf(op, a, b, m).oldKind, a, op.i1, op.i2)
    ensures IsKindAt(BlockOf(op, a, b, m).newKind, b, op.j1, op.j2)
  {
    hide InlineSegments, Value;
  }

  /** The characters in segments that are equal on both sides. */
  function Kept(segments: seq<Segment>): nat {
    if segments == [] then 0 else (if segments[0].op == Equal then |segments[0].newText| else 0) + Kept(segments[1..])
  }

  function KeptChars(blocks: seq<DiffBlock>): nat {
    if blocks == [] then 0 else Kept(blocks[0].segments) + KeptChars(blocks[1..])
  }

  /** The characters on the two sides of the changed blocks. */
  function OldChars(blocks: seq<DiffBlock>): nat {
    if blocks == [] then 0 else |OldSide(blocks[0].segments)| + OldChars(blocks[1..])
  }

  function NewChars(blocks: seq<DiffBlock>): nat {
    if blocks == [] then 0 else |NewSide(blocks[0].segments)| + NewChars(blocks[1..])
  }

  lemma {:induction false} SidesCounted(segments: seq<Segment>)
    requires AllTagged(segments)
    ensures Inserted(segments) == |NewSide(segments)| - Kept(segments)
    ensures Deleted(segments) == |OldSide(segments)| - Kept(segments)
  {
    if segments != [] {
      assert Tagged(segments[0]);
      forall s | s in segments[1..] ensures Tagged(s) { assert s in segments; }
      SidesCounted(segments[1..]);
    }
  }

  /** What is not kept was inserted on the one side and deleted on the other. */
  lemma {:induction false} CharsCounted(stats: Stats, ops: seq<Opcode>, a: seq<Block>, b: seq<Block>, m: Matcher)
    requires Sound(m)
    ensures var t, blocks := DiffStats(stats, ops, a, b, m), DiffBlocks(ops, a, b, m);
            && t.insertedChars == stats.insertedChars + NewChars(blocks) - KeptChars(blocks)
            && t.deletedChars == stats.deletedChars + OldChars(blocks) - KeptChars(blocks)
    decreases |ops|
  {
    hide Value, Slice, InlineSegments, Inserted, Deleted, Sound, Kept, OldSide, NewSide;
    if ops != [] {
      if ops[0].tag == Equal {
        CharsCounted(stats, ops[1..], a, b, m);
      } else {
        var x, y := Value(Slice(a, ops[0].i1, ops[0].i2)), Value(Slice(b, ops[0].j1, ops[0].j2));
        var segments := BlockOf(ops[0], a, b, m).segments;
        assert segments == InlineSegments(x, y, m);
        SegmentsRebuildBothSides(x, y, m);
        SidesCounted(segments);
        CharsCounted(Counted(stats, ops[0], a, b, segments), ops[1..], a, b, m);
        var blocks := DiffBlocks(ops, a, b, m);
        assert blocks[1..] == DiffBlocks(ops[1..], a, b, m) && blocks[0].segments == segments;
      }
    }
  }

  /**
   A structured diff accounts for every character: each changed block's segments give the blocks it
   replaces and the blocks it puts in their place, and the totals differ by exactly what the changed
   blocks grew.
   */
  lemma DiffAccountsForAll(oldLines: seq<string>, newLines: seq<string>, fromVersion: string, toVersion: string,
      m: Matcher)
    requires Sound(m)
    ensures var diff := StructuredDiffOf(oldLines, newLines, fromVersion, toVersion, m);
            var a, b := Blocks(oldLines), Blocks(newLines);
            var changed := Changed(m.blocks(a, b));
            && diff.fromVersion == fromVersion && diff.toVersion == toVersion
            && |diff.blocks| == |changed|
            && (forall k :: 0 <= k < |changed| ==>
                  && diff.blocks[k].op == changed[k].tag
                  && IsKindAt(diff.blocks[k].oldKind, a, changed[k].i1, changed[k].i2)
                  && IsKindAt(diff.blocks[k].newKind, b, changed[k].j1, changed[k].j2)
                  && OldSide(diff.blocks[k].segments) == Value(Slice(a, changed[k].i1, changed[k].i2))
                  && NewSide(diff.blocks[k].segments) == Value(Slice(b, changed[k].j1, changed[k].j2)))
            && diff.stats.insertedChars - diff.stats.deletedChars == Growth(m.blocks(a, b), a, b)
            && diff.stats.insertedChars == NewChars(diff.blocks) - KeptChars(diff.blocks)
            && diff.stats.deletedChars == OldChars(diff.blocks) - KeptChars(diff.blocks)
  {
    hide Blocks, Value, Slice, InlineSegments, DiffStats, DiffBlocks, Growth, Sound, Covers, NewChars, OldChars,
        KeptChars;
    var a, b := Blocks(oldLines), Blocks(newLines);
    var ops := m.blocks(a, b);
    var changed := Changed(ops);
    BlocksOfChanges(ops, a, b, m);
    StatsBalance(NO_STATS, ops, a, b, m);
    CharsCounted(NO_STATS, ops, a, b, m);
    forall k | 0 <= k < |changed|
      ensures IsKindAt(BlockOf(changed[k], a, b, m).oldKind, a, changed[k].i1, changed[k].i2)
      ensures IsKindAt(BlockOf(changed[k], a, b, m).newKind, b, changed[k].j1, changed[k].j2)
    {
      KindsOf(changed[k], a, b, m);
    }
    forall k | 0 <= k < |changed|
      ensures OldSide(BlockOf(changed[k], a, b, m).segments) == Value(Slice(a, changed[k].i1, changed[k].i2))
      ensures NewSide(BlockOf(changed[k], a, b, m).segments) == Value(Slice(b, changed[k].j1, changed[k].j2))
    {
      SegmentsRebuildBothSides(Value(Slice(a, changed[k].i1, changed[k].i2)),
          Value(Slice(b, changed[k].j1, changed[k].j2)), m);
    }
  }

  /** By how many blocks the replaced runs grow, and how many blocks they touch at most. */
  function ReplacedGrowth(ops: seq<Opcode>): int {
    if ops == [] then 0
    else (if ops[0].tag == Replace then (ops[0].j2 - ops[0].j1) - (ops[0].i2 - ops[0].i1)
        else 0) + ReplacedGrowth(ops[1..])
  }

  function ReplacedBlocks(ops: seq<Opcode>): int {
    if ops == [] then 0
    else (if ops[0].tag == Replace then Max(ops[0].i2 - ops[0].i1, ops[0].j2 - ops[0].j1)
        else 0) + ReplacedBlocks(ops[1..])
  }

  function BlocksOf(ops: seq<Opcode>, tag: Tag): int {
    if ops == [] then 0
    else (if ops[0].tag == tag then (ops[0].i2 - ops[0].i1) + (ops[0].j2 - ops[0].j1) else 0) + BlocksOf(ops[1..], tag)
  }

  lemma {:induction false} BlocksBalance(stats: Stats, ops: seq<Opcode>, a: seq<Block>, b: seq<Block>, m: Matcher,
      i: nat, j: nat)
    requires i <= |a| && j <= |b| && Covers(ops, a, b, i, j)
    ensures var t := DiffStats(stats, ops, a, b, m);
            && t.addedBlocks - t.deletedBlocks + ReplacedGrowth(ops) ==
               stats.addedBlocks - stats.deletedBlocks + (|b| - j) - (|a| - i)
            && t.changedBlocks == stats.changedBlocks + ReplacedBlocks(ops)
            && t.addedBlocks == stats.addedBlocks + BlocksOf(ops, Insert)
            && t.deletedBlocks == stats.deletedBlocks + BlocksOf(ops, Delete)
    decreases |ops|
  {
    hide BlockOf, Inserted, Deleted;
    if ops != [] {
      var op := ops[0];
      assert op.tag == Equal ==> |a[op.i1..op.i2]| == |b[op.j1..op.j2]|;
      var next := if op.tag == Equal then stats else Counted(stats, op, a, b, BlockOf(op, a, b, m).segments);
      BlocksBalance(next, ops[1..], a, b, m, op.i2, op.j2);
    }
  }

  /** Added minus deleted blocks, with what replaced runs grew, is the difference in the number of blocks. */
  lemma DiffCountsBlocks(oldLines: seq<string>, newLines: seq<string>, fromVersion: string, toVersion: string,
      m: Matcher)
    requires Sound(m)
    ensures var stats := StructuredDiffOf(oldLines, newLines, fromVersion, toVersion, m).stats;
            var a, b := Blocks(oldLines), Blocks(newLines);
            && stats.addedBlocks - stats.deletedBlocks + ReplacedGrowth(m.blocks(a, b)) == |b| - |a|
            && stats.changedBlocks == ReplacedBlocks(m.blocks(a, b))
            && stats.addedBlocks == BlocksOf(m.blocks(a, b), Insert)
            && stats.deletedBlocks == BlocksOf(m.blocks(a, b), Delete)
  {
    hide Blocks, DiffStats, Covers, ReplacedGrowth, ReplacedBlocks, BlocksOf;
    var a, b := Blocks(oldLines), Blocks(newLines);
    BlocksBalance(NO_STATS, m.blocks(a, b), a, b, m, 0, 0);
  }

  /** A sentence is never cut inside, and ends where its text does or at a closing mark. */
  predicate IsUnit(unit: string, last: bool) {
    && unit != "" && (forall k :: 0 <= k < |unit| - 1 ==> !ClosesSentence(unit[k]))
    && (last || ClosesSentence(unit[|unit| - 1]))
  }

  /** The marks of both scripts, and the line end. */
  predicate ClosesSentence(c: char) {
    c in {'\U{3002}', '\U{FF01}', '\U{FF1F}', '\U{FF1B}', '!', '?', ';', '.', '\n'}
  }

  lemma {:induction false} UnitEnds(text: string, from: nat)
    requires 0 < from <= |text| && forall k :: 0 <= k < from - 1 ==> !ClosesSentence(text[k])
    ensures IsUnit(text[..UnitLength(text, from)], UnitLength(text, from) == |text|)
    decreases |text| - from
  {
    if !(from == |text| || text[from - 1] in SENTENCE_ENDS || text[from - 1] == LF) { UnitEnds(text, from + 1); }
  }

  /** The units of a text are its sentences: each ends at its first closing mark, only the last may do without one. */
  lemma {:induction false} UnitsAreSentences(text: string)
    ensures var units := SentenceUnits(text);
            Glue(units) == text && forall i :: 0 <= i < |units| ==> IsUnit(units[i], i == |units| - 1)
  {
    hide IsUnit;
    GlueUnits(text);
    if text != "" {
      var n := UnitLength(text, 1);
      UnitEnds(text, 1);
      UnitsAreSentences(text[n..]);
      var units := SentenceUnits(text);
      assert units == [text[..n]] + SentenceUnits(text[n..]);
      assert n == |text| <==> SentenceUnits(text[n..]) == [];
    }
  }

  lemma {:induction false} NothingChanged(ops: seq<Opcode>, a: seq<Block>, b: seq<Block>, i: nat, j: nat)
    requires i <= |a| && j <= |b| && Covers(ops, a, b, i, j) && Changed(ops) == []
    ensures a[i..] == b[j..]
  {
    if ops != [] {
      var op := ops[0];
      NothingChanged(ops[1..], a, b, op.i2, op.j2);
      assert a[i..] == a[op.i1..op.i2] + a[op.i2..];
      assert b[j..] == b[op.j1..op.j2] + b[op.j2..];
    }
  }

  /** A diff without blocks is a diff of texts with the same blocks. */
  lemma EmptyDiffMeansSameBlocks(oldLines: seq<string>, newLines: seq<string>, fromVersion: string,
      toVersion: string, m: Matcher)
    requires Sound(m) && StructuredDiffOf(oldLines, newLines, fromVersion, toVersion, m).blocks == []
    ensures Blocks(oldLines) == Blocks(newLines)
  {
    hide Blocks, BlockOf, DiffStats;
    var a, b := Blocks(oldLines), Blocks(newLines);
    BlocksOfChanges(m.blocks(a, b), a, b, m);
    NothingChanged(m.blocks(a, b), a, b, 0, 0);
    assert a[0..] == a && b[0..] == b;
  }

  /* ---------- A matcher that keeps the promise ---------- */

  function CommonPrefix<T(==)>(a: seq<T>, b: seq<T>): (n: nat)
    ensures n <= |a| && n <= |b| && a[..n] == b[..n]
  {
    if a == [] || b == [] || a[0] != b[0] then 0
    else
      var n := 1 + CommonPrefix(a[1..], b[1..]);
      assert a[..n] == [a[0]] + a[1..][..n - 1] && b[..n] == [b[0]] + b[1..][..n - 1];
      n
  }

  /** Keep the common prefix, change the rest. */
  function PrefixOpcodes<T(==)>(a: seq<T>, b: seq<T>): seq<Opcode> {
    var n := CommonPrefix(a, b);
    (if n > 0 then [Opcode(Equal, 0, n, 0, n)] else []) +
    (if n == |a| && n == |b| then []
     else [Opcode(if n == |a| then Insert else if n == |b| then Delete else Replace, n, |a|, n, |b|)])
  }

  lemma PrefixCovers<T>(a: seq<T>, b: seq<T>)
    ensures Covers(PrefixOpcodes(a, b), a, b, 0, 0)
  {
    var n := CommonPrefix(a, b);
    var tail := if n == |a| && n == |b| then []
                else [Opcode(if n == |a| then Insert else if n == |b| then Delete else Replace, n, |a|, n, |b|)];
    assert Covers(tail, a, b, n, n) by {
      if tail != [] { assert tail[1..] == []; }
    }
    if n > 0 {
      assert PrefixOpcodes(a, b)[1..] == tail;
      assert a[0..n] == a[..n] && b[0..n] == b[..n];
    } else {
      assert PrefixOpcodes(a, b) == tail;
    }
  }

  /** The promise can be kept. */
  lemma SoundMatcherExists()
    ensures Sound(Matcher((a, b) => PrefixOpcodes(a, b), (a, b) => PrefixOpcodes(a, b), (a, b) => PrefixOpcodes(a, b)))
  {
    hide PrefixOpcodes, Covers;
    forall a: seq<Block>, b: seq<Block> { PrefixCovers(a, b); }
    forall a: seq<string>, b: seq<string> { PrefixCovers(a, b); }
    forall a: string, b: string { PrefixCovers(a, b); }
  }
}
