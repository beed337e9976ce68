/**
 The media row of a clip and the conditional updates of its manager (boards/models.py, with the row
 transactions of boards/skate_worker.py and boards/skate_upload.py). Each update is one transaction.
 */
module ClipMedia {
  import opened Prelude
  import opened Decimals

  datatype MediaState = Uploaded | Processing | Ready | Failed

  datatype Kind = Main | Preview | Poster

  /** What a claim draws: the generation it raised the row to, and its token. */
  datatype Ticket = Ticket(generation: nat, token: nat)

  /** A publish key; `_versioned_keys` renders it as a path. */
  datatype Key = Key(ticket: Ticket, kind: Kind)

  /** The three file references of a row; None for an empty reference. */
  datatype Refs = Refs(main: Option<Key>, preview: Option<Key>, poster: Option<Key>)

  type Name = string

  datatype Row = Row(
    state: MediaState, claimedAt: Option<int>, generation: nat, token: nat,
    errorCode: string, errorDetail: string, processedAt: Option<int>, source: Name, refs: Refs)

  const NO_REFS := Refs(None, None, None)
  const DETAIL_LIMIT := 200

  function TicketOf(row: Row): Ticket {
    Ticket(row.generation, row.token)
  }

  /** `_versioned_keys` */
  function VersionedKeys(t: Ticket): Refs {
    Refs(Some(Key(t, Main)), Some(Key(t, Preview)), Some(Key(t, Poster)))
  }

  /** The keys among three references. */
  function KeysOf(refs: Refs): set<Key> {
    (if refs.main.Some? then {refs.main.value} else {}) +
    (if refs.preview.Some? then {refs.preview.value} else {}) +
    (if refs.poster.Some? then {refs.poster.value} else {})
  }

  /* ---------- The updates, as functions of the row ---------- */

  function ClaimedRow(row: Row, now: int, token: nat): Row {
    row.(state := Processing, claimedAt := Some(now), generation := row.generation + 1, token := token,
         errorCode := "", errorDetail := "")
  }

  /** The WHERE clause of `finish` and `fail`. */
  predicate HeldBy(row: Row, t: Ticket) {
    row.state == Processing && row.generation == t.generation && row.token == t.token
  }

  function FinishedRow(row: Row, refs: Refs, now: int): Row {
    row.(state := Ready, claimedAt := None, errorCode := "", errorDetail := "", processedAt := Some(now), refs := refs)
  }

  function FailedRow(row: Row, code: string, detail: string): Row {
    row.(state := Failed, claimedAt := None, errorCode := code, errorDetail := detail[..Min(DETAIL_LIMIT, |detail|)])
  }

  function InvalidatedRow(row: Row, token: nat): Row {
    row.(generation := row.generation + 1, token := token)
  }

  predicate Stuck(row: Row, now: int, limit: int) {
    row.state == Processing && row.claimedAt.Some? && row.claimedAt.value < now - limit
  }

  /** `reset_stuck_media`; the claim stays valid on paper, only the state shuts its holder out. */
  function ResetRow(row: Row): Row {
    row.(state := Uploaded, claimedAt := None, errorCode := "", errorDetail := "")
  }

  /** The row transaction of `ingest_skate_source` on an existing row. */
  function AttachedRow(row: Row, source: Name, token: nat): Row {
    var current := if row.state == Processing then InvalidatedRow(row, token) else row;
    current.(source := source, state := Uploaded, errorCode := "", errorDetail := "", processedAt := None)
  }

  /** The same on the row `get_or_create` has just made. */
  function FreshRow(source: Name, token: nat): Row {
    Row(Uploaded, None, 0, token, "", "", None, source, NO_REFS)
  }

  /** `requeue_existing_skate_source` */
  function RequeuedRow(row: Row, token: nat): Row {
    var current := if row.state == Processing then InvalidatedRow(row, token) else row;
    current.(state := Uploaded, claimedAt := None, errorCode := "", errorDetail := "", processedAt := None)
  }

  /* ---------- The manager ---------- */

  /** `SkateClipMediaManager`, on the table row of one clip. */
  class Manager {
    var row: Option<Row>

    constructor ()
      ensures row == None
    {
      row := None;
    }

    /** `claim`: the caller's copy is changed first, the table only where its row is still uploaded. */
    method Claim(media: Row, now: int, token: nat) returns (claimed: bool, held: Row)
      modifies this
      ensures held == ClaimedRow(media, now, token)
          == media.(state := Processing, claimedAt := Some(now), generation := media.generation + 1, token := token,
                    errorCode := "", errorDetail := "")
      ensures claimed <==> old(row).Some? && old(row).value.state == Uploaded
      ensures claimed ==> row.Some? && HeldBy(row.value, TicketOf(held))
      ensures claimed && Some(media) == old(row) ==> row == Some(held)
      ensures row == if claimed
                     then Some(old(row).value.(state := Processing, claimedAt := Some(now),
                         generation := held.generation,
                                               token := token, errorCode := "", errorDetail := ""))
                     else old(row)
    {
      held := media.(state := Processing);
      held := held.(claimedAt := Some(now));
      held := held.(generation := held.generation + 1);
      held := held.(token := token, errorCode := "", errorDetail := "");
      claimed := row.Some? && row.value.state == Uploaded;
      if claimed {
        row := Some(row.value.(state := Processing, claimedAt := held.claimedAt, generation := held.generation,
                               token := held.token, errorCode := "", errorDetail := ""));
      }
    }

    /** `claim_by_pk`, and `claim_next_media` on a table of one row: lock, then claim. */
    method ClaimByPk(now: int, token: nat) returns (held: Option<Row>)
      modifies this
      ensures held.Some? <==> old(row).Some? && old(row).value.state == Uploaded
      ensures held.Some? ==> row == held == Some(ClaimedRow(old(row).value, now, token))
      ensures held == None ==> row == old(row)
    {
      if row == None || row.value.state != Uploaded {
        return None;
      }
      var claimed, media := Claim(row.value, now, token);
      held := if claimed then Some(media) else None;
    }

    /** `finish`: the three references are switched at once, and nobody can write an outcome any more. */
    method Finish(ticket: Ticket, refs: Refs, now: int) returns (done: bool)
      modifies this
      ensures done <==> old(row).Some? && HeldBy(old(row).value, ticket)
      ensures done <==> old(row).Some? && old(row).value.state == Processing
                        && old(row).value.generation == ticket.generation && old(row).value.token == ticket.token
      ensures !done ==> row == old(row)
      ensures done ==> row == Some(FinishedRow(old(row).value, refs, now))
      ensures done ==>
          row == Some(old(row).value.(state := Ready, claimedAt := None, errorCode := "", errorDetail := "",
                                                   processedAt := Some(now), refs := refs))
      ensures done ==> forall t :: !HeldBy(row.value, t)
    {
      done := row.Some? && row.value.state == Processing && TicketOf(row.value) == ticket;
      if done {
        var media := row.value;
        media := media.(state := Ready, claimedAt := None);
        media := media.(errorCode := "", errorDetail := "", processedAt := Some(now));
        media := media.(refs := refs);
        row := Some(media);
      }
    }

    /** `fail`: the row keeps what it shows, and nobody can write an outcome any more. */
    method Fail(ticket: Ticket, code: string, detail: string) returns (done: bool)
      modifies this
      ensures done <==> old(row).Some? && HeldBy(old(row).value, ticket)
      ensures !done ==> row == old(row)
      ensures done ==> row == Some(FailedRow(old(row).value, code, detail))
      ensures done ==> row == Some(old(row).value.(
                         state := Failed, claimedAt := None, errorCode := code,
                         errorDetail := if |detail| <= 200 then detail else detail[..200]))
      ensures done ==> forall t :: !HeldBy(row.value, t)
    {
      assert detail[..|detail|] == detail;
      done := row.Some? && row.value.state == Processing && TicketOf(row.value) == ticket;
      if done {
        var media := row.value;
        media := media.(state := Failed, claimedAt := None);
        media := media.(errorCode := code);
        media := media.(errorDetail := detail[..Min(DETAIL_LIMIT, |detail|)]);
        row := Some(media);
      }
    }

    method ResetStuck(now: int, limit: int) returns (count: nat)
      modifies this
      ensures count == if old(row).Some? && Stuck(old(row).value, now, limit) then 1 else 0
      ensures row == if count == 1 then Some(ResetRow(old(row).value)) else old(row)
      ensures count == 1 <==> old(row).Some? && old(row).value.state == Processing && old(row).value.claimedAt.Some?
                              && old(row).value.claimedAt.value + limit < now
      ensures count == 1 ==> row == Some(old(row).value.(state := Uploaded, claimedAt := None, errorCode := "",
                                                         errorDetail := ""))
    {
      count := 0;
      if row.Some? && Stuck(row.value, now, limit) {
        row := Some(ResetRow(row.value));
        count := 1;
      }
    }

    /** The transaction of `ingest_skate_source`; answers the source it replaced. */
    method Attach(source: Name, token: nat) returns (oldSource: Name)
      modifies this
      ensures row.Some? && row.value.state == Uploaded && row.value.source == source
      ensures row.value == if old(row).Some? then AttachedRow(old(row).value, source, token)
          else FreshRow(source, token)
      ensures old(row).Some? ==>
                row == Some(old(row).value.(
                  state := Uploaded, source := source, errorCode := "", errorDetail := "", processedAt := None,
                  generation := old(row).value.generation + (if old(row).value.state == Processing then 1 else 0),
                  token := if old(row).value.state == Processing then token else old(row).value.token))
      ensures old(row) == None ==>
          row == Some(Row(Uploaded, None, 0, token, "", "", None, source, Refs(None, None, None)))
      ensures oldSource == if old(row).Some? then old(row).value.source else ""
    {
      var created := row == None;
      var media := if created then Row(Uploaded, None, 0, token, "", "", None, "", NO_REFS) else row.value;
      oldSource := media.source;
      if !created && media.state == Processing {
        media := InvalidatedRow(media, token);
      }
      media := media.(source := source, state := Uploaded);
      media := media.(errorCode := "", errorDetail := "", processedAt := None);
      row := Some(media);
    }

    /** False stands for the refusal `source_missing`. */
    method Requeue(token: nat) returns (accepted: bool)
      modifies this
      ensures accepted <==> old(row).Some? && old(row).value.source != ""
      ensures row == if accepted then Some(RequeuedRow(old(row).value, token)) else old(row)
      ensures accepted ==>
                row == Some(old(row).value.(
                  state := Uploaded, claimedAt := None, errorCode := "", errorDetail := "", processedAt := None,
                  generation := old(row).value.generation + (if old(row).value.state == Processing then 1 else 0),
                  token := if old(row).value.state == Processing then token else old(row).value.token))
    {
      accepted := row.Some? && row.value.source != "";
      if accepted {
        var media := row.value;
        if media.state == Processing {
          media := InvalidatedRow(media, token);
        }
        media := media.(state := Uploaded, claimedAt := None);
        media := media.(errorCode := "", errorDetail := "", processedAt := None);
        row := Some(media);
      }
    }
  }

  /* ---------- What outdates a claim ---------- */

  /**
   An upload or a requeue on a processing row outdates its claim for good: even a row processing
   again is not held by it, as its generation has moved on. A stuck reset only shuts the holder out
   until the row is claimed again, which moves the generation on as well.
   */
  lemma RequeueOutdatesTheClaim(row: Row, t: Ticket, source: Name, token: nat, now: int)
    requires HeldBy(row, t)
    ensures !HeldBy(AttachedRow(row, source, token).(state := Processing), t)
    ensures !HeldBy(RequeuedRow(row, token).(state := Processing), t)
    ensures !HeldBy(ResetRow(row), t) && !HeldBy(ClaimedRow(ResetRow(row), now, token), t)
    ensures forall next :: next in {AttachedRow(row, source, token), RequeuedRow(row, token), ResetRow(row)} ==>
              next.state == Uploaded && next.errorCode == "" && next.refs == row.refs
                  && next.generation >= row.generation
    ensures AttachedRow(row, source, token).source == source && RequeuedRow(row, token).source == row.source
    ensures AttachedRow(row, source, token).processedAt == None && RequeuedRow(row, token).processedAt == None
  {
  }

  /** A claim counts as stuck only once its time is over. */
  lemma ClaimRunsItsTime(row: Row, now: int, token: nat, later: int, limit: int)
    ensures Stuck(ClaimedRow(row, now, token), later, limit) <==> later > now + limit
    ensures HeldBy(ClaimedRow(row, now, token), TicketOf(ClaimedRow(row, now, token)))
  {
  }

  /* ---------- Publish keys as paths ---------- */

  function Folder(kind: Kind): string {
    match kind
    case Main => "delivery/"
    case Preview => "preview/"
    case Poster => "poster/"
  }

  function FileName(kind: Kind): string {
    match kind
    case Main => "/main.webm"
    case Preview => "/preview.webm"
    case Poster => "/poster.webp"
  }

  /** What follows the media key: `/<generation>-<token>` and the file name. */
  function Version(generation: nat, tokenHex: string, kind: Kind): string {
    Digits(generation) + "-" + (tokenHex + FileName(kind))
  }

  /** One of the three strings of `_versioned_keys`; `mediaKey` and `tokenHex` are UUID texts. */
  function Path(mediaKey: string, generation: nat, tokenHex: string, kind: Kind): string {
    Folder(kind) + (mediaKey + ("/" + Version(generation, tokenHex, kind)))
  }

  /** Where a run of digits is cut off by a dash does not depend on what follows the dash. */
  lemma DigitsBeforeDash(a: nat, x: string, b: nat, y: string)
    requires Digits(a) + "-" + x == Digits(b) + "-" + y
    ensures a == b && x == y
  {
    var s := Digits(a) + "-" + x;
    var da, db := Digits(a), Digits(b);
    assert s[|da|] == '-' && s[|db|] == '-';
    assert forall i :: 0 <= i < |da| ==> s[i] == da[i];
    assert forall i :: 0 <= i < |db| ==> s[i] == db[i];
    assert |da| == |db|;
    assert da == s[..|da|] == db;
    assert x == s[|da| + 1..] == y;
    DigitsInjective(a, b);
  }

  lemma SameFolder(k1: Kind, x: string, k2: Kind, y: string)
    requires Folder(k1) + x == Folder(k2) + y
    ensures k1 == k2 && x == y
  {
    var s := Folder(k1) + x;
    assert s[0] == Folder(k1)[0] == Folder(k2)[0];
    assert s[1] == Folder(k1)[1] == Folder(k2)[1];
    assert x == s[|Folder(k1)|..] == y;
  }

  lemma CutPrefix(a: string, x: string, b: string, y: string)
    requires |a| == |b| && a + x == b + y
    ensures a == b && x == y
  {
    assert a == (a + x)[..|a|] == (b + y)[..|b|] == b;
    assert x == (a + x)[|a|..] == (b + y)[|b|..] == y;
  }

  lemma CutSuffix(x: string, y: string, kind: Kind)
    requires x + FileName(kind) == y + FileName(kind)
    ensures x == y
  {
    assert |x| == |y|;
    CutPrefix(x, FileName(kind), y, FileName(kind));
  }

  /**
   Publish paths never collide: the generation alone tells two claims of one row apart whatever
   their tokens are, and rows are told apart by their media keys.
   */
  lemma PublishPathsAreDistinct(
      m1: string, g1: nat, t1: string, k1: Kind, m2: string, g2: nat, t2: string, k2: Kind)
    requires |m1| == |m2|
    requires Path(m1, g1, t1, k1) == Path(m2, g2, t2, k2)
    ensures m1 == m2 && g1 == g2 && k1 == k2 && t1 == t2
  {
    hide Digits, Folder, FileName;
    var v1, v2 := Version(g1, t1, k1), Version(g2, t2, k2);
    SameFolder(k1, m1 + ("/" + v1), k2, m2 + ("/" + v2));
    CutPrefix(m1, "/" + v1, m2, "/" + v2);
    CutPrefix("/", v1, "/", v2);
    DigitsBeforeDash(g1, t1 + FileName(k1), g2, t2 + FileName(k2));
    CutSuffix(t1, t2, k1);
  }
}
