/**
 The revision history of a post: version numbers, optimistic form commits, and the diffs stored with
 revisions (Blogs/revisions.py, Blogs/services.py, Blogs/views.py). Each commit is one transaction.
 */
module Revisions {
  import opened Prelude
  import opened Decimals
  import opened TextLines
  import opened StructuredDiff

  /** A revision; its primary key is its position in the table. `diff` is `diff_structured`. */
  datatype Revision = Revision(major: nat, minor: nat, lines: seq<string>, diff: Option<Diff>)

  datatype PostRow = PostRow(status: nat, lines: seq<string>)

  const STATUS_DELETE := 0
  const STATUS_NORMAL := 1
  const STATUS_DRAFT := 2
  const STATUS_REVIEW := 3

  datatype EventType = Submitted | Approved | Rejected | Unpublished | ReturnedToDraft | StatusChanged

  datatype WorkflowEvent = WorkflowEvent(eventType: EventType, fromStatus: nat, toStatus: nat, revision: nat)

  /** One post with its revisions and workflow events. */
  datatype State = State(post: Option<PostRow>, revisions: seq<Revision>, events: seq<WorkflowEvent>)

  datatype ChangeType = MajorChange | MinorChange | OtherChange(name: string)

  datatype Failure = UnsupportedChange | RevisionConflict | NoPost

  /* ---------- Versions ---------- */

  predicate Earlier(a: Revision, b: Revision) {
    a.major < b.major || (a.major == b.major && a.minor < b.minor)
  }

  /** `order_by('-major', '-minor').first()`, among revisions that `keep` admits. */
  function Latest(revisions: seq<Revision>, keep: Revision -> bool): (r: Option<nat>)
    ensures r.Some? ==> r.value < |revisions| && keep(revisions[r.value])
  {
    if revisions == [] then None
    else
      var n := |revisions| - 1;
      var best := Latest(revisions[..n], keep);
      if keep(revisions[n]) && (best == None || Earlier(revisions[best.value], revisions[n])) then Some(n) else best
  }

  const ANY: Revision -> bool := (r: Revision) => true

  /** `get_next_version` */
  function NextVersion(revisions: seq<Revision>, change: ChangeType): (nat, nat) {
    match Latest(revisions, ANY)
    case None => (1, 0)
    case Some(i) =>
      if change == MajorChange then (revisions[i].major + 1, 0) else (revisions[i].major, revisions[i].minor + 1)
  }

  /** `f"{major}.{minor}"` */
  function VersionText(major: nat, minor: nat): string {
    Digits(major) + "." + Digits(minor)
  }

  function DropV(s: string): string {
    if s != "" && s[0] == 'v' then DropV(s[1..]) else s
  }

  /** The parts of `s.split('.')`. */
  function SplitDots(s: string): (parts: seq<string>)
    ensures parts != []
  {
    if s == "" then [""]
    else if s[0] == '.' then [""] + SplitDots(s[1..])
    else
      var rest := SplitDots(s[1..]);
      [[s[0]] + rest[0]] + rest[1..]
  }

  /** `_get_revision_by_version` up to the query; None stands for its ValueError. */
  function ParseVersion(text: string): Option<(nat, nat)> {
    var parts := SplitDots(DropV(Strip(text)));
    if |parts| == 2 && IsDecimal(parts[0]) && IsDecimal(parts[1]) then Some((ParseNat(parts[0]), ParseNat(parts[1])))
        else None
  }

  /* ---------- Commits ---------- */

  /** The revision `create_revision` makes of the post's current content. */
  function NewRevision(revisions: seq<Revision>, lines: seq<string>, change: ChangeType, m: Matcher): Revision {
    var (major, minor) := NextVersion(revisions, change);
    var diff := match Latest(revisions, ANY)
                case None => None
                case Some(i) =>
                  var previous := revisions[i];
                  Some(StructuredDiffOf(previous.lines, lines, VersionText(previous.major, previous.minor),
                      VersionText(major, minor), m));
    Revision(major, minor, lines, diff)
  }

  /** `create_revision` */
  function CreateRevision(s: State, change: ChangeType, m: Matcher): Result<State, Failure> {
    if change.OtherChange? then Err(UnsupportedChange)
    else if s.post == None then Err(NoPost)
    else Ok(s.(revisions := s.revisions + [NewRevision(s.revisions, s.post.value.lines, change, m)]))
  }

  /** `workflow_event_type_for_transition` */
  function EventTypeFor(fromStatus: nat, toStatus: nat): EventType {
    if fromStatus == STATUS_DRAFT && toStatus == STATUS_REVIEW then Submitted
    else if fromStatus == STATUS_REVIEW && toStatus == STATUS_NORMAL then Approved
    else if fromStatus == STATUS_REVIEW && toStatus == STATUS_DRAFT then Rejected
    else if fromStatus == STATUS_NORMAL && toStatus == STATUS_DELETE then Unpublished
    else if toStatus == STATUS_DRAFT then ReturnedToDraft
    else StatusChanged
  }

  /**
   `commit_post_form`; the form holds the content and the status it saves, `expected` the revision
   it was opened on.
   */
  function CommitForm(s: State, form: PostRow, change: ChangeType, expected: Option<nat>, m: Matcher)
    : Result<State, Failure>
  {
    if s.post.Some? && Latest(s.revisions, ANY) != expected then Err(RevisionConflict)
    else
      match CreateRevision(s.(post := Some(form)), change, m)
      case Err(e) => Err(e)
      case Ok(t) =>
        if s.post.Some? && s.post.value.status != form.status then
          var from := s.post.value.status;
          Ok(t.(events := t.events + [WorkflowEvent(EventTypeFor(from, form.status), from, form.status,
              |s.revisions|)]))
        else Ok(t)
  }

  /* ---------- Showing a diff ---------- */

  datatype HttpError = BadRequest | NotFound

  function FindVersion(revisions: seq<Revision>, major: nat, minor: nat): (r: Option<nat>)
    ensures r.Some? ==> r.value < |revisions| && revisions[r.value].major == major && revisions[r.value].minor == minor
  {
    if revisions == [] then None
    else
      var n := |revisions| - 1;
      if revisions[n].major == major && revisions[n].minor == minor then Some(n)
          else FindVersion(revisions[..n], major, minor)
  }

  /** `_get_adjacent_previous` */
  function AdjacentPrevious(revisions: seq<Revision>, r: Revision): Option<nat> {
    Latest(revisions, (x: Revision) => Earlier(x, r))
  }

  /** The two revisions a request names, in order, or the refusal. */
  function ResolvePair(revisions: seq<Revision>, fromText: string, toText: string): (r: Result<(nat, nat), HttpError>)
    ensures r.Ok? ==> r.value.0 < |revisions| && r.value.1 < |revisions|
  {
    if fromText == "" || toText == "" || fromText == toText then Err(BadRequest)
    else
      match (ParseVersion(fromText), ParseVersion(toText))
      case (Some(from), Some(to)) =>
        (match (FindVersion(revisions, from.0, from.1), FindVersion(revisions, to.0, to.1))
         case (Some(i), Some(j)) => if Earlier(revisions[j], revisions[i]) then Err(BadRequest) else Ok((i, j))
         case _ => Err(NotFound))
      case _ => Err(BadRequest)
  }

  /* ---------- The aggregate ---------- */

  class Post {
    var post: Option<PostRow>
    var revisions: seq<Revision>
    var events: seq<WorkflowEvent>
    const matcher: Matcher

    function Now(): State
      reads this
    {
      State(post, revisions, events)
    }

    constructor (m: Matcher)
      ensures Now() == State(None, [], []) && matcher == m
    {
      post, revisions, events, matcher := None, [], [], m;
    }

    /** `create_revision` */
    method AddRevision(change: ChangeType) returns (raised: Option<Failure>)
      modifies this
      ensures match CreateRevision(old(Now()), change, matcher)
              case Ok(t) => Now() == t && raised == None
              case Err(e) => Now() == old(Now()) && raised == Some(e)
    {
      hide StructuredDiffOf, VersionText;
      if change.OtherChange? { return Some(UnsupportedChange); }
      if post == None { return Some(NoPost); }
      var (major, minor) := NextVersion(revisions, change);
      var diff: Option<Diff> := None;
      var previous := Latest(revisions, ANY);
      if previous.Some? {
        var p := revisions[previous.value];
        var built := BuildStructuredDiff(p.lines, post.value.lines, VersionText(p.major, p.minor),
            VersionText(major, minor), matcher);
        diff := Some(built);
      }
      revisions := revisions + [Revision(major, minor, post.value.lines, diff)];
      raised := None;
    }

    /** `commit_post_form` */
    method CommitPostForm(form: PostRow, change: ChangeType, expected: Option<nat>) returns (raised: Option<Failure>)
      modifies this
      ensures match CommitForm(old(Now()), form, change, expected, matcher)
              case Ok(t) => Now() == t && raised == None
              case Err(e) => Now() == old(Now()) && raised == Some(e)
    {
      hide NewRevision, Latest;
      var isNew := post == None;
      var previousStatus := 0;
      if !isNew {
        previousStatus := post.value.status;
        if Latest(revisions, ANY) != expected { return Some(RevisionConflict); }
      }
      var before := post;
      var made := |revisions|;
      post := Some(form);
      raised := AddRevision(change);
      if raised.Some? {
        post := before;
        return;
      }
      if !isNew && previousStatus != form.status {
        events := events + [WorkflowEvent(EventTypeFor(previousStatus, form.status), previousStatus, form.status,
            made)];
      }
    }

    /** `revision_diff`: the stored diff for neighbours, a fresh one otherwise. */
    method RevisionDiff(fromText: string, toText: string) returns (r: Result<Diff, HttpError>)
      ensures r == match ResolvePair(revisions, fromText, toText)
                   case Err(e) => Err(e)
                   case Ok((i, j)) => Ok(ShownDiff(revisions, i, j, fromText, toText, matcher))
    {
      hide ParseVersion, StructuredDiffOf;
      var pair := ResolvePair(revisions, fromText, toText);
      if pair.Err? { return Err(pair.error); }
      var (i, j) := pair.value;
      var shown: Option<Diff> := None;
      var isAdjacent := AdjacentPrevious(revisions, revisions[j]) == Some(i);
      if isAdjacent && revisions[j].diff.Some? {
        shown := revisions[j].diff;
      }
      if shown == None {
        var rebuilt := BuildStructuredDiff(revisions[i].lines, revisions[j].lines, fromText, toText, matcher);
        shown := Some(rebuilt);
      }
      r := Ok(shown.value);
    }
  }

  function ShownDiff(revisions: seq<Revision>, i: nat, j: nat, fromText: string, toText: string, m: Matcher): Diff
    requires i < |revisions| && j < |revisions|
  {
    if AdjacentPrevious(revisions, revisions[j]) == Some(i) && revisions[j].diff.Some? then revisions[j].diff.value
    else StructuredDiffOf(revisions[i].lines, revisions[j].lines, fromText, toText, m)
  }

  /* ---------- Whole runs ---------- */

  datatype Step =
    | FormStep(form: PostRow, change: ChangeType, expected: Option<nat>)
    | RevisionStep(change: ChangeType)

  function Perform(s: State, step: Step, m: Matcher): Result<State, Failure> {
    match step
    case FormStep(form, change, expected) => CommitForm(s, form, change, expected, m)
    case RevisionStep(change) => CreateRevision(s, change, m)
  }

  function Apply(s: State, step: Step, m: Matcher): State {
    match Perform(s, step, m) case Ok(t) => t case Err(_) => s
  }

  function Run(s: State, steps: seq<Step>, m: Matcher): State {
    if steps == [] then s else Apply(Run(s, steps[..|steps| - 1], m), steps[|steps| - 1], m)
  }

  const NEW_POST := State(None, [], [])

  /** Versions rise along the table. */
  ghost predicate Rising(revisions: seq<Revision>) {
    forall i, j :: 0 <= i < j < |revisions| ==> Earlier(revisions[i], revisions[j])
  }

  /** Each revision but the first stores its diff against the one before; the first is 1.0. */
  ghost predicate DiffsStored(revisions: seq<Revision>, m: Matcher) {
    forall j :: 0 <= j < |revisions| ==> DiffStored(revisions, j, m)
  }

  ghost predicate DiffStored(revisions: seq<Revision>, j: nat, m: Matcher)
    requires j < |revisions|
  {
    var r := revisions[j];
    if j == 0 then r.major == 1 && r.minor == 0 && r.diff == None
    else
      var p := revisions[j - 1];
      r.diff == Some(StructuredDiffOf(p.lines, r.lines, VersionText(p.major, p.minor),
          VersionText(r.major, r.minor), m))
  }

  ghost predicate HistoryOk(s: State, m: Matcher) {
    && Rising(s.revisions) && DiffsStored(s.revisions, m)
    && (s.post.Some? <==> s.revisions != [])
    && (s.post.Some? ==> s.post.value.lines == s.revisions[|s.revisions| - 1].lines)
  }

  /** In a rising table the latest revision of those before `r` is the last of them. */
  lemma {:induction false} LatestIsLast(revisions: seq<Revision>, keep: Revision -> bool, n: nat)
    requires Rising(revisions) && n <= |revisions|
    requires forall i :: 0 <= i < |revisions| ==> (keep(revisions[i]) <==> i < n)
    ensures Latest(revisions, keep) == if n == 0 then None else Some(n - 1)
  {
    if revisions != [] {
      var k := |revisions| - 1;
      LatestIsLast(revisions[..k], keep, Min(n, k));
    }
  }

  lemma LatestOfAll(revisions: seq<Revision>)
    requires Rising(revisions)
    ensures Latest(revisions, ANY) == if revisions == [] then None else Some(|revisions| - 1)
  {
    LatestIsLast(revisions, ANY, |revisions|);
  }

  /**
   The next version starts at 1.0, moves a major change to the next whole version, and any other to
   the next minor one.
   */
  lemma NextVersionFollowsTheLast(revisions: seq<Revision>, change: ChangeType)
    requires Rising(revisions)
    ensures revisions == [] ==> NextVersion(revisions, change) == (1, 0)
    ensures revisions != [] ==>
              var last := revisions[|revisions| - 1];
              NextVersion(revisions, change) == if change == MajorChange then (last.major + 1, 0)
                  else (last.major, last.minor + 1)
  {
    hide Latest;
    LatestOfAll(revisions);
  }

  /** A new revision goes on top: its version exceeds all others, its diff is against the last. */
  lemma RevisionGoesOnTop(revisions: seq<Revision>, lines: seq<string>, change: ChangeType, m: Matcher)
    requires Rising(revisions) && DiffsStored(revisions, m)
    ensures var longer := revisions + [NewRevision(revisions, lines, change, m)];
            Rising(longer) && DiffsStored(longer, m)
  {
    hide StructuredDiffOf, VersionText, Latest;
    LatestOfAll(revisions);
    var r := NewRevision(revisions, lines, change, m);
    var longer := revisions + [r];
    forall i | 0 <= i < |revisions| ensures Earlier(revisions[i], r) {
      if i < |revisions| - 1 { assert Earlier(revisions[i], revisions[|revisions| - 1]); }
    }
    forall j | 0 <= j < |longer| ensures DiffStored(longer, j, m) {
      if j < |revisions| { assert DiffStored(revisions, j, m); }
    }
  }

  lemma StepKeeps(s: State, step: Step, m: Matcher)
    requires HistoryOk(s, m)
    ensures HistoryOk(Apply(s, step, m), m)
    ensures s.revisions <= Apply(s, step, m).revisions
  {
    hide Rising, DiffsStored, NewRevision, Latest;
    match step
    case FormStep(form, change, expected) =>
      RevisionGoesOnTop(s.revisions, form.lines, change, m);
      NewLines(s.revisions, form.lines, change, m);
    case RevisionStep(change) =>
      if s.post.Some? {
        RevisionGoesOnTop(s.revisions, s.post.value.lines, change, m);
        NewLines(s.revisions, s.post.value.lines, change, m);
      }
  }

  lemma NewLines(revisions: seq<Revision>, lines: seq<string>, change: ChangeType, m: Matcher)
    ensures NewRevision(revisions, lines, change, m).lines == lines
  {
  }

  /**
   In every run of form commits and revision creations versions strictly rise, every revision but
   1.0 stores its diff against its neighbour, and the post holds what its last revision holds.
   */
  lemma {:induction false} HistoryStaysOk(steps: seq<Step>, m: Matcher)
    ensures HistoryOk(Run(NEW_POST, steps, m), m)
  {
    hide Apply;
    if steps != [] {
      HistoryStaysOk(steps[..|steps| - 1], m);
      StepKeeps(Run(NEW_POST, steps[..|steps| - 1], m), steps[|steps| - 1], m);
    }
  }

  lemma {:induction false} HistoryOnlyGrows(s: State, steps: seq<Step>, m: Matcher)
    requires HistoryOk(s, m)
    ensures HistoryOk(Run(s, steps, m), m) && s.revisions <= Run(s, steps, m).revisions
  {
    hide Apply, HistoryOk;
    if steps != [] {
      HistoryOnlyGrows(s, steps[..|steps| - 1], m);
      StepKeeps(Run(s, steps[..|steps| - 1], m), steps[|steps| - 1], m);
    }
  }

  /** The neighbour below the j-th revision is the one before it. */
  lemma NeighbourIsPredecessor(revisions: seq<Revision>, j: nat)
    requires Rising(revisions) && j < |revisions|
    ensures AdjacentPrevious(revisions, revisions[j]) == if j == 0 then None else Some(j - 1)
  {
    var keep := (x: Revision) => Earlier(x, revisions[j]);
    forall i | 0 <= i < |revisions| ensures keep(revisions[i]) <==> i < j {
      if i > j { assert Earlier(revisions[j], revisions[i]); }
    }
    LatestIsLast(revisions, keep, j);
  }

  /**
   No update is lost: a form commit on an existing post succeeds only if the form was opened on the
   latest revision, and ever after that revision is the neighbour just below the one it made. A
   commit based on any other revision changes nothing.
   */
  lemma NoLostUpdate(s: State, form: PostRow, change: ChangeType, expected: Option<nat>, later: seq<Step>, m: Matcher)
    requires HistoryOk(s, m) && s.post.Some?
    ensures CommitForm(s, form, change, expected, m).Ok? <==>
            expected == Some(|s.revisions| - 1) && !change.OtherChange?
    ensures CommitForm(s, form, change, expected, m).Ok? ==>
              var n := |s.revisions|;
              var t := Run(CommitForm(s, form, change, expected, m).value, later, m);
              && n < |t.revisions| && t.revisions[n].lines == form.lines
              && t.revisions[..n] == s.revisions
              && AdjacentPrevious(t.revisions, t.revisions[n]) == expected
  {
    hide NewRevision, Latest, Rising, DiffsStored, Run, AdjacentPrevious;
    LatestOfAll(s.revisions);
    var step := FormStep(form, change, expected);
    if CommitForm(s, form, change, expected, m).Ok? {
      var first := CommitForm(s, form, change, expected, m).value;
      assert first == Apply(s, step, m);
      StepKeeps(s, step, m);
      HistoryOnlyGrows(first, later, m);
      NewLines(s.revisions, form.lines, change, m);
      NeighbourIsPredecessor(Run(first, later, m).revisions, |s.revisions|);
    }
  }

  /** A status change made by a form commit is recorded, with its revision; an unchanged status is not. */
  lemma StatusChangeIsRecorded(s: State, form: PostRow, change: ChangeType, expected: Option<nat>, m: Matcher)
    requires HistoryOk(s, m) && CommitForm(s, form, change, expected, m).Ok?
    ensures var t := CommitForm(s, form, change, expected, m).value;
            && |t.revisions| == |s.revisions| + 1
            && (if s.post.Some? && s.post.value.status != form.status
                then
                  var from, to := s.post.value.status, form.status;
                  var eventType :=  // 0 deleted, 1 normal, 2 draft, 3 in review
                    match (from, to)
                    case (2, 3) => Submitted
                    case (3, 1) => Approved
                    case (3, 2) => Rejected
                    case (1, 0) => Unpublished
                    case (_, 2) => ReturnedToDraft
                    case _ => StatusChanged;
                  t.events == s.events + [WorkflowEvent(eventType, from, to, |s.revisions|)]
                else t.events == s.events)
  {
    hide NewRevision, Latest, Rising, DiffsStored;
  }

  /** The text names the version of this revision. */
  ghost predicate NamesRevision(revisions: seq<Revision>, text: string, i: nat) {
    i < |revisions| && ParseVersion(text) == Some((revisions[i].major, revisions[i].minor))
  }

  lemma {:induction false} FindMeaning(revisions: seq<Revision>, major: nat, minor: nat)
    ensures FindVersion(revisions, major, minor) == None ==>
              forall i :: 0 <= i < |revisions| ==> !(revisions[i].major == major && revisions[i].minor == minor)
  {
    if revisions != [] { FindMeaning(revisions[..|revisions| - 1], major, minor); }
  }

  lemma OneNamed(revisions: seq<Revision>, text: string, i: nat, j: nat)
    requires Rising(revisions) && NamesRevision(revisions, text, i) && NamesRevision(revisions, text, j)
    ensures i == j
  {
    hide ParseVersion;
    assert i <= j;
  }

  /**
   Which comparison a request asks for: it is answered if and only if it gives two different texts
   that name an earlier and a later revision, or one and the same, in this order, and then compares
   these two; two versions of which one does not exist are not found, all else is a bad request.
   */
  lemma PairMeaning(revisions: seq<Revision>, fromText: string, toText: string)
    requires Rising(revisions)
    ensures var r := ResolvePair(revisions, fromText, toText);
            var askable := fromText != "" && toText != "" && fromText != toText
              && ParseVersion(fromText).Some? && ParseVersion(toText).Some?;
            && (forall i: nat, j: nat ::
                  NamesRevision(revisions, fromText, i) && NamesRevision(revisions, toText, j) ==>
                  r == if askable && i <= j then Ok((i, j)) else Err(BadRequest))
            && (askable && (forall i: nat :: !NamesRevision(revisions, fromText, i)) ==> r == Err(NotFound))
            && (askable && (forall j: nat :: !NamesRevision(revisions, toText, j)) ==> r == Err(NotFound))
            && (!askable ==> r == Err(BadRequest))
  {
    hide ParseVersion;
    if ParseVersion(fromText).Some? && ParseVersion(toText).Some? {
      var (a, b) := ParseVersion(fromText).value;
      var (c, d) := ParseVersion(toText).value;
      FindMeaning(revisions, a, b);
      FindMeaning(revisions, c, d);
      forall i: nat, j: nat | NamesRevision(revisions, fromText, i) && NamesRevision(revisions, toText, j)
        ensures FindVersion(revisions, a, b) == Some(i) && FindVersion(revisions, c, d) == Some(j)
        ensures Earlier(revisions[j], revisions[i]) <==> j < i
      {
        OneNamed(revisions, fromText, i, FindVersion(revisions, a, b).value);
        OneNamed(revisions, toText, j, FindVersion(revisions, c, d).value);
        if i < j { assert Earlier(revisions[i], revisions[j]); }
        if j < i { assert Earlier(revisions[j], revisions[i]); }
      }
      if FindVersion(revisions, a, b).Some? { assert NamesRevision(revisions, fromText,
          FindVersion(revisions, a, b).value); }
      if FindVersion(revisions, c, d).Some? { assert NamesRevision(revisions, toText,
          FindVersion(revisions, c, d).value); }
    }
  }

  /**
   Whatever two versions are compared, the diff shown has the blocks and totals of one built from
   the two contents on the spot; it is the stored one for neighbours and a new one for all others.
   */
  lemma StoredDiffIsFresh(s: State, i: nat, j: nat, fromText: string, toText: string, m: Matcher)
    requires HistoryOk(s, m) && i < |s.revisions| && j < |s.revisions|
    ensures var shown := ShownDiff(s.revisions, i, j, fromText, toText, m);
            var rebuilt := StructuredDiffOf(s.revisions[i].lines, s.revisions[j].lines, fromText, toText, m);
            && shown.blocks == rebuilt.blocks && shown.stats == rebuilt.stats
            && (if j == i + 1 then Some(shown) == s.revisions[j].diff else shown == rebuilt)
  {
    hide AdjacentPrevious, Rising, VersionText, DiffBlocks, DiffStats;
    NeighbourIsPredecessor(s.revisions, j);
    assert DiffStored(s.revisions, j, m);
  }

  lemma RunGoesOn(s: State, steps: seq<Step>, step: Step, m: Matcher)
    ensures Run(s, steps + [step], m) == Apply(Run(s, steps, m), step, m)
  {
    hide Apply;
    assert (steps + [step])[..|steps|] == steps;
  }

  /** Exactly this revision was added, and this is the content now. */
  ghost predicate Added(s: State, t: State, form: PostRow, major: nat, minor: nat) {
    && t.post == Some(form) && |t.revisions| == |s.revisions| + 1 && t.revisions[..|s.revisions|] == s.revisions
    && t.revisions[|s.revisions|].major == major && t.revisions[|s.revisions|].minor == minor
    && t.revisions[|s.revisions|].lines == form.lines
  }

  lemma FirstCommit(form: PostRow, m: Matcher)
    ensures Added(NEW_POST, Apply(NEW_POST, FormStep(form, MajorChange, None), m), form, 1, 0)
  {
    hide StructuredDiffOf, VersionText;
  }

  lemma MinorCommit(s: State, form: PostRow, m: Matcher)
    requires HistoryOk(s, m) && s.post.Some?
    ensures var last := s.revisions[|s.revisions| - 1];
            Added(s, Apply(s, FormStep(form, MinorChange, Some(|s.revisions| - 1)), m), form, last.major,
                last.minor + 1)
  {
    hide StructuredDiffOf, VersionText, Latest, DiffsStored, Rising;
    LatestOfAll(s.revisions);
  }

  lemma StaleCommit(s: State, form: PostRow, expected: nat, m: Matcher)
    requires HistoryOk(s, m) && s.post.Some? && expected + 1 != |s.revisions|
    ensures Apply(s, FormStep(form, MinorChange, Some(expected)), m) == s
  {
    hide NewRevision, Latest, DiffsStored, Rising;
    LatestOfAll(s.revisions);
  }

  /** A first commit makes version 1.0, a minor change based on it 1.1, a second one based on it as well is refused. */
  lemma TwoEditors(first: PostRow, second: PostRow, third: PostRow, m: Matcher)
    ensures var steps := [FormStep(first, MajorChange, None)] + [FormStep(second, MinorChange, Some(0))];
            var t := Run(NEW_POST, steps, m);
            && t.post == Some(second) && |t.revisions| == 2
            && t.revisions[0].major == 1 && t.revisions[0].minor == 0 && t.revisions[0].lines == first.lines
            && t.revisions[1].major == 1 && t.revisions[1].minor == 1 && t.revisions[1].lines == second.lines
            && Run(NEW_POST, steps + [FormStep(third, MinorChange, Some(0))], m) == t
  {
    hide Run, Apply, Rising, DiffsStored;
    NothingCommitted(m);
    assert [] + [FormStep(first, MajorChange, None)] == [FormStep(first, MajorChange, None)];
    RunGoesOn(NEW_POST, [], FormStep(first, MajorChange, None), m);
    FirstCommit(first, m);
    var s1 := Run(NEW_POST, [FormStep(first, MajorChange, None)], m);
    HistoryStaysOk([FormStep(first, MajorChange, None)], m);
    RunGoesOn(NEW_POST, [FormStep(first, MajorChange, None)], FormStep(second, MinorChange, Some(0)), m);
    MinorCommit(s1, second, m);
    var steps := [FormStep(first, MajorChange, None)] + [FormStep(second, MinorChange, Some(0))];
    HistoryStaysOk(steps, m);
    assert Run(NEW_POST, steps, m).revisions[0] == s1.revisions[0];
    RunGoesOn(NEW_POST, steps, FormStep(third, MinorChange, Some(0)), m);
    StaleCommit(Run(NEW_POST, steps, m), third, 0, m);
  }

  lemma NothingCommitted(m: Matcher)
    ensures Run(NEW_POST, [], m) == NEW_POST
  {
  }

  /* ---------- Version texts ---------- */

  lemma {:induction false} SplitAtDot(a: string, b: string)
    requires '.' !in a && '.' !in b
    ensures SplitDots(a + "." + b) == [a, b]
  {
    if a == "" {
      var s := "." + b;
      assert a + "." + b == s && s[1..] == b;
      NoDots(b);
    } else {
      var s := a + "." + b;
      assert s[1..] == a[1..] + "." + b && s[0] == a[0] && a[0] in a;
      SplitAtDot(a[1..], b);
      assert [a[0]] + a[1..] == a;
    }
  }

  lemma {:induction false} NoDots(s: string)
    requires '.' !in s
    ensures SplitDots(s) == [s]
  {
    if s != "" {
      NoDots(s[1..]);
      assert s[0] in s && [s[0]] + s[1..] == s;
    }
  }

  /** The text of a version is read back as that version. */
  lemma VersionTextParses(major: nat, minor: nat)
    ensures ParseVersion(VersionText(major, minor)) == Some((major, minor))
  {
    var a, b := Digits(major), Digits(minor);
    var s := VersionText(major, minor);
    ParseDigits(major);
    ParseDigits(minor);
    assert s[0] == a[0] && s[|s| - 1] == b[|b| - 1];
    assert LStrip(s) == s && RStrip(s) == s && DropV(s) == s;
    SplitAtDot(a, b);
  }

  lemma {:induction false} JoinDots(s: string)
    ensures |SplitDots(s)| == 1 ==> SplitDots(s) == [s]
    ensures |SplitDots(s)| == 2 ==> s == SplitDots(s)[0] + "." + SplitDots(s)[1]
  {
    if s != "" {
      JoinDots(s[1..]);
      assert s == [s[0]] + s[1..];
    }
  }

  /** `n` times the letter. */
  ghost predicate AllV(s: string) {
    forall c :: c in s ==> c == 'v'
  }

  lemma {:induction false} DropMeaning(s: string)
    ensures exists vs: string :: AllV(vs) && s == vs + DropV(s) && (DropV(s) == "" || DropV(s)[0] != 'v')
  {
    if s != "" && s[0] == 'v' {
      DropMeaning(s[1..]);
      var vs: string :| AllV(vs) && s[1..] == vs + DropV(s[1..]) && (DropV(s[1..]) == "" || DropV(s[1..])[0] != 'v');
      assert AllV("v" + vs) && s == ("v" + vs) + DropV(s);
    } else {
      assert AllV("") && s == "" + DropV(s);
    }
  }

  lemma {:induction false} DropAll(vs: string, s: string)
    requires AllV(vs) && (s == "" || s[0] != 'v')
    ensures DropV(vs + s) == s
  {
    if vs == "" {
      assert vs + s == s;
    } else {
      assert vs[0] in vs && (vs + s)[1..] == vs[1..] + s;
      forall c | c in vs[1..] ensures c == 'v' { assert c in vs; }
      DropAll(vs[1..], s);
    }
  }

  /** The text, without the space around it, is some letters v, a decimal number, a dot, and another. */
  ghost predicate Reads(text: string, vs: string, a: string, b: string) {
    AllV(vs) && IsDecimal(a) && IsDecimal(b) && Strip(text) == vs + (a + "." + b)
  }

  /** Exactly such texts are versions. */
  lemma VersionTexts(text: string, major: nat, minor: nat)
    ensures ParseVersion(text) == Some((major, minor)) <==>
            exists vs, a, b :: Reads(text, vs, a, b) && ParseNat(a) == major && ParseNat(b) == minor
  {
    hide ParseNat, Strip;
    var rest := DropV(Strip(text));
    JoinDots(rest);
    DropMeaning(Strip(text));
    var vs: string :| AllV(vs) && Strip(text) == vs + rest && (rest == "" || rest[0] != 'v');
    if ParseVersion(text) == Some((major, minor)) {
      assert Reads(text, vs, SplitDots(rest)[0], SplitDots(rest)[1]);
    }
    forall us: string, a, b | Reads(text, us, a, b) && ParseNat(a) == major && ParseNat(b) == minor
      ensures ParseVersion(text) == Some((major, minor))
    {
      assert (a + "." + b)[0] == a[0] && a[0] in a;
      DropAll(us, a + "." + b);
      SplitAtDot(a, b);
    }
  }
}
