/**
 The relational outbox (security/outbox.py): enqueueing, leasing a row, and the fenced writes that
 record a delivery or a failure. Each function is one database transaction.
 */
module Outbox {
  import opened Prelude
  import opened CanonicalJson
  import opened Normalization
  import opened AuditDocuments
  import opened MongoLog

  datatype Status = Pending | Processing | Delivered | Dead

  /** An outbox row; its primary key is its position in the table. */
  datatype Row = Row(
    event: Event, partition: string, createdAt: int,
    status: Status, attempts: nat, nextAttemptAt: int,
    lockedAt: Option<int>, lockToken: Option<nat>, lastError: string,
    deliverySequence: Option<int>, deliveryMac: string)

  /** A UTC timestamp as `_utc_timestamp` renders it: it starts with the year and the month. */
  type Timestamp = s: string | |s| >= 7 witness "1970-01"

  /* ---------- Enqueueing ---------- */

  /** The arguments of `enqueue_audit_event`; None for an argument not given. */
  datatype Request = Request(
    eventId: string, eventType: string, actor: PyValue, target: PyValue, change: PyValue,
    outcome: Option<seq<PyEntry>>, context: Option<seq<PyEntry>>, occurredAt: Option<Timestamp>,
        partition: Option<string>)

  datatype EnqueueOutcome =
    | Queued(index: nat)   // the row that now stands for the event
    | Collision            // AuditEventCollision
    | NotCanonical         // TypeError from normalisation

  function LowerAscii(c: char): char {
    if 'A' <= c <= 'Z' then ((c as int) + 32) as char else c
  }

  /** `event_type.split(".", 1)[0].lower()` */
  function Domain(eventType: string): string {
    if eventType == "" || eventType[0] == '.' then "" else [LowerAscii(eventType[0])] + Domain(eventType[1..])
  }

  /** `_partition_for`. */
  function PartitionFor(eventType: string, occurredAt: Timestamp): string {
    Domain(eventType) + ":" + occurredAt[..7]
  }

  function Mapping(given: Option<seq<PyEntry>>, default: PyValue): PyValue {
    if given == None || given.value == [] then default else PyDict(given.value)
  }

  const DEFAULT_CONTEXT := PyDict([PyEntry(PyStr("source"), PyStr("application"))])
  const SUCCESS := PyDict([PyEntry(PyStr("status"), PyStr("success")), PyEntry(PyStr("error_code"), PyNone)])

  /** The row's `event`, built from the request; None when a value is not canonical. */
  function BuildEvent(r: Request, occurredAt: string): Option<Event> {
    match (Normalize(r.actor), Normalize(r.target), Normalize(Mapping(r.context, DEFAULT_CONTEXT)),
           Normalize(r.change), Normalize(Mapping(r.outcome, SUCCESS)))
    case (Some(actor), Some(target), Some(context), Some(change), Some(outcome)) =>
      Some(Event(r.eventId, r.eventType, occurredAt, actor, target, context, change, outcome))
    case _ => None
  }

  /** `a == b` on two event mappings. */
  predicate EqualEvents(a: Event, b: Event) {
    && a.eventId == b.eventId && a.eventType == b.eventType && a.occurredAt == b.occurredAt
    && PyEq(a.actor, b.actor) && PyEq(a.target, b.target) && PyEq(a.context, b.context)
    && PyEq(a.change, b.change) && PyEq(a.outcome, b.outcome)
  }

  function Find(rows: seq<Row>, eventId: string): Option<nat> {
    if rows == [] then None
    else if rows[|rows| - 1].event.eventId == eventId then Some(|rows| - 1)
    else Find(rows[..|rows| - 1], eventId)
  }

  /** `enqueue_audit_event`: the table it leaves and what it returns or raises. */
  function Enqueue(rows: seq<Row>, r: Request, now: Timestamp, clock: int): (seq<Row>, EnqueueOutcome) {
    var found := Find(rows, r.eventId);
    var fromRow := found.Some? && r.occurredAt == None && found.value < |rows|;
    var effective: Timestamp := if r.occurredAt.Some? then r.occurredAt.value else now;
    var occurredAt := if fromRow then rows[found.value].event.occurredAt else effective;
    var partition :=
      if r.partition.Some? && r.partition.value != "" then r.partition.value
      else if fromRow then rows[found.value].partition
      else PartitionFor(r.eventType, effective);
    match BuildEvent(r, occurredAt)
    case None => (rows, NotCanonical)
    case Some(event) =>
      if found.Some? && found.value < |rows| then
        if rows[found.value].partition == partition && EqualEvents(rows[found.value].event, event)
        then (rows, Queued(found.value)) else (rows, Collision)
      else (rows + [NewRow(event, partition, clock)], Queued(|rows|))
  }

  function NewRow(event: Event, partition: string, clock: int): Row {
    Row(event, partition, clock, Pending, 0, clock, None, None, "", None, "")
  }

  /* ---------- Leasing ---------- */

  /** Due, or leased so long ago that the lease has run out. */
  predicate Claimable(row: Row, now: int, leaseSeconds: int) {
    || (row.status == Pending && row.nextAttemptAt <= now)
    || (row.status == Processing && (row.lockedAt == None || row.lockedAt.value <= now - Max(30, leaseSeconds)))
  }

  /** The claimable row among the first `n` that `order_by("created_at", "pk")` puts first. */
  function FirstClaimable(rows: seq<Row>, n: nat, now: int, leaseSeconds: int): (r: Option<nat>)
    requires n <= |rows|
    ensures r.Some? ==> r.value < n && Claimable(rows[r.value], now, leaseSeconds)
  {
    if n == 0 then None
    else
      var best := FirstClaimable(rows, n - 1, now, leaseSeconds);
      if Claimable(rows[n - 1], now, leaseSeconds)
          && (best == None || rows[n - 1].createdAt < rows[best.value].createdAt)
      then Some(n - 1) else best
  }

  function Leased(row: Row, now: int, token: nat): Row {
    row.(status := Processing, lockedAt := Some(now), lockToken := Some(token))
  }

  /** `_claim_one`: the table it leaves and the row it leased. */
  function ClaimOne(rows: seq<Row>, now: int, leaseSeconds: int, token: nat): (seq<Row>, Option<nat>) {
    match FirstClaimable(rows, |rows|, now, leaseSeconds)
    case None => (rows, None)
    case Some(i) => (rows[i := Leased(rows[i], now, token)], Some(i))
  }

  /* ---------- Recording an outcome ---------- */

  /** The WHERE clause of both writes: still processing, and under this very lease. */
  predicate HeldBy(rows: seq<Row>, i: nat, token: nat) {
    i < |rows| && rows[i].status == Processing && rows[i].lockToken == Some(token)
  }

  function DeliveredRow(row: Row, attempts: nat, sequence: int, mac: string): Row {
    row.(status := Delivered, attempts := attempts, lastError := "", lockToken := None, lockedAt := None,
         deliverySequence := Some(sequence), deliveryMac := mac)
  }

  function Power2(n: nat): nat {
    if n == 0 then 1 else 2 * Power2(n - 1)
  }

  /** Seconds to the next attempt: doubling, capped at an hour. */
  function Backoff(attempts: nat): int {
    Min(3600, Power2(Min(attempts, 12)))
  }

  predicate Terminal(attempts: nat, maxAttempts: int) {
    attempts >= Max(1, maxAttempts)
  }

  function FailedRow(row: Row, attempts: nat, error: string, maxAttempts: int, now: int): Row {
    row.(status := if Terminal(attempts, maxAttempts) then Dead else Pending, attempts := attempts,
         lastError := error[..Min(64, |error|)], lockToken := None, lockedAt := None,
         nextAttemptAt := now + Backoff(attempts))
  }

  /** `_validated_receipt`; None stands for InvalidAuditReceipt. */
  function ValidatedReceipt(doc: Doc, partition: string): Option<(int, string)> {
    if !Get(doc, "integrity").Obj? then None
    else
      match (AsInt(Seal(doc, "sequence")), Seal(doc, "mac"))
      case (Some(sequence), Str(mac)) =>
        if sequence < 1 || mac == "" || !PyEq(Seal(doc, "partition"), Str(partition)) then None
        else Some((sequence, mac))
      case _ => None
  }

  /* ---------- What these transactions promise ---------- */

  ghost predicate DistinctEvents(rows: seq<Row>) {
    forall i, j :: 0 <= i < j < |rows| ==> rows[i].event.eventId != rows[j].event.eventId
  }

  lemma {:induction false} FindMeaning(rows: seq<Row>, eventId: string)
    ensures var f := Find(rows, eventId);
            && (f.Some? ==> f.value < |rows| && rows[f.value].event.eventId == eventId)
            && (f == None ==> forall i :: 0 <= i < |rows| ==> rows[i].event.eventId != eventId)
  {
    if rows != [] { FindMeaning(rows[..|rows| - 1], eventId); }
  }

  lemma NonEmptyMapping(entries: seq<PyEntry>)
    requires entries != [] && Normalize(PyDict(entries)).Some?
    ensures Truthy(Normalize(PyDict(entries)).value)
  {
    var (key, value) := NormalizeEntry(entries[0]).value;
    assert key in NormalizeEntries(entries).value;
  }

  lemma BuiltEventIsComplete(r: Request, occurredAt: string)
    requires occurredAt != ""
    ensures BuildEvent(r, occurredAt).Some? ==> Complete(BuildEvent(r, occurredAt).value)
  {
    if BuildEvent(r, occurredAt).Some? {
      NonEmptyMapping(Mapping(r.context, DEFAULT_CONTEXT).entries);
      NonEmptyMapping(Mapping(r.outcome, SUCCESS).entries);
    }
  }

  /** Enqueueing leaves every row alone and adds at most one, for an event not seen before. */
  lemma EnqueueMeaning(rows: seq<Row>, r: Request, now: Timestamp, clock: int)
    requires DistinctEvents(rows) && forall i :: 0 <= i < |rows| ==> Complete(rows[i].event)
    ensures var (rows', outcome) := Enqueue(rows, r, now, clock);
            && rows <= rows' && |rows'| <= |rows| + 1
            && DistinctEvents(rows') && (forall i :: 0 <= i < |rows'| ==> Complete(rows'[i].event))
            && (outcome.Queued? ==> outcome.index < |rows'| && rows'[outcome.index].event.eventId == r.eventId)
            && (!outcome.Queued? ==> rows' == rows)
            && (|rows'| > |rows| <==> outcome == Queued(|rows|))
            && (|rows'| > |rows| ==> exists event, partition :: rows'[|rows|] == NewRow(event, partition, clock))
  {
    hide Complete, BuildEvent, PartitionFor;
    FindMeaning(rows, r.eventId);
    var found := Find(rows, r.eventId);
    if found == None {
      var effective: Timestamp := if r.occurredAt.Some? then r.occurredAt.value else now;
      BuiltEventIsComplete(r, effective);
      BuiltEventId(r, effective);
    }
  }

  lemma BuiltEventId(r: Request, occurredAt: string)
    ensures BuildEvent(r, occurredAt).Some? ==>
              BuildEvent(r, occurredAt).value.eventId == r.eventId
                  && BuildEvent(r, occurredAt).value.occurredAt == occurredAt
  {
  }

  /**
   The row's partition is the one given or else the lower-cased domain of the event type and the
   month it occurred in.
   */
  ghost predicate InPartition(r: Request, occurredAt: Timestamp, partition: string) {
    if r.partition.Some? && r.partition.value != "" then partition == r.partition.value
    else exists domain: string ::
      && partition == domain + ":" + occurredAt[..7] && '.' !in domain && |domain| <= |r.eventType|
      && (|domain| == |r.eventType| || r.eventType[|domain|] == '.')
      && forall i :: 0 <= i < |domain| ==>
           domain[i] == if 'A' <= r.eventType[i] <= 'Z' then ((r.eventType[i] as int) + 32) as char else r.eventType[i]
  }

  lemma OnePartition(r: Request, occurredAt: Timestamp, p: string, q: string)
    requires InPartition(r, occurredAt, p) && InPartition(r, occurredAt, q)
    ensures p == q
  {
    if r.partition == None || r.partition.value == "" {
      var d: string :|
        && p == d + ":" + occurredAt[..7] && '.' !in d && |d| <= |r.eventType|
        && (|d| == |r.eventType| || r.eventType[|d|] == '.')
        && forall i :: 0 <= i < |d| ==>
             d[i] == if 'A' <= r.eventType[i] <= 'Z' then ((r.eventType[i] as int) + 32) as char else r.eventType[i];
      var e: string :|
        && q == e + ":" + occurredAt[..7] && '.' !in e && |e| <= |r.eventType|
        && (|e| == |r.eventType| || r.eventType[|e|] == '.')
        && forall i :: 0 <= i < |e| ==>
             e[i] == if 'A' <= r.eventType[i] <= 'Z' then ((r.eventType[i] as int) + 32) as char else r.eventType[i];
      assert d == e;
    }
  }

  lemma {:induction false} DomainMeaning(eventType: string)
    ensures var d := Domain(eventType);
            && '.' !in d && |d| <= |eventType| && (|d| == |eventType| || eventType[|d|] == '.')
            && forall i :: 0 <= i < |d| ==> d[i] == LowerAscii(eventType[i])
  {
    if eventType != "" && eventType[0] != '.' { DomainMeaning(eventType[1..]); }
  }

  /** A row made by a request holds the request's own values, normalised, each in its own field. */
  lemma NewRowHoldsTheRequest(rows: seq<Row>, r: Request, now: Timestamp, clock: int)
    requires DistinctEvents(rows) && Enqueue(rows, r, now, clock).1 == Queued(|rows|)
    ensures |Enqueue(rows, r, now, clock).0| == |rows| + 1
    ensures var row := Enqueue(rows, r, now, clock).0[|rows|];
            var effective: Timestamp := if r.occurredAt.Some? then r.occurredAt.value else now;
            && row.event.eventId == r.eventId && row.event.eventType == r.eventType && row.event.occurredAt == effective
            && Normalize(r.actor) == Some(row.event.actor) && Normalize(r.target) == Some(row.event.target)
            && Normalize(r.change) == Some(row.event.change)
            && (r.context.Some? && r.context.value != [] ==>
                 Normalize(PyDict(r.context.value)) == Some(row.event.context))
            && (r.context == None || r.context.value == [] ==>
                  Normalize(PyDict([PyEntry(PyStr("source"), PyStr("application"))])) == Some(row.event.context))
            && (r.outcome.Some? && r.outcome.value != [] ==>
                 Normalize(PyDict(r.outcome.value)) == Some(row.event.outcome))
            && (r.outcome == None || r.outcome.value == [] ==>
                  Normalize(PyDict([PyEntry(PyStr("status"), PyStr("success")), PyEntry(PyStr("error_code"), PyNone)]))
                    == Some(row.event.outcome))
            && InPartition(r, effective, row.partition)
            && row.status == Pending && row.attempts == 0 && row.createdAt == row.nextAttemptAt == clock
            && row.lockToken == None && row.lockedAt == None && row.lastError == ""
            && row.deliverySequence == None && row.deliveryMac == ""
  {
    hide Normalize, Domain, EqualEvents;
    FindMeaning(rows, r.eventId);
    DomainMeaning(r.eventType);
  }

  /** The same request again, at any later time, returns the same row and adds none. */
  lemma EnqueueIsIdempotent(rows: seq<Row>, r: Request, now: Timestamp, clock: int, now2: Timestamp, clock2: int)
    requires DistinctEvents(rows) && Enqueue(rows, r, now, clock).1.Queued?
    ensures var (rows', outcome) := Enqueue(rows, r, now, clock);
            Enqueue(rows', r, now2, clock2) == (rows', outcome)
  {
    hide BuildEvent, PartitionFor, Numeric;
    var (rows', outcome) := Enqueue(rows, r, now, clock);
    var found := Find(rows, r.eventId);
    if found == None {
      var effective: Timestamp := if r.occurredAt.Some? then r.occurredAt.value else now;
      BuiltEventId(r, effective);
      assert rows'[|rows|].event.eventId == r.eventId;
      assert Find(rows', r.eventId) == Some(|rows|);
    } else {
      FindMeaning(rows, r.eventId);
    }
  }

  /** A receipt is valid if and only if it has a positive sequence number, a MAC, and the partition expected. */
  lemma ReceiptMeaning(doc: Doc, partition: string, sequence: int, mac: string)
    ensures ValidatedReceipt(doc, partition) == Some((sequence, mac)) <==>
            && Get(doc, "integrity").Obj?
            && (Seal(doc, "sequence") == Int(sequence) || (Seal(doc, "sequence") == Bool(true) && sequence == 1))
            && sequence >= 1 && Seal(doc, "mac") == Str(mac) && mac != ""
            && Seal(doc, "partition") == Str(partition)
  {
    NumericText(Seal(doc, "partition"), partition);
  }

  lemma NumericText(j: Json, s: string)
    ensures PyEq(j, Str(s)) <==> j == Str(s)
  {
  }

  /** The row already holds what the request asks for; what the request leaves open is taken from the row. */
  ghost predicate HoldsAlready(row: Row, r: Request) {
    && row.event.eventType == r.eventType
    && (r.occurredAt.Some? ==> row.event.occurredAt == r.occurredAt.value)
    && (r.partition.Some? && r.partition.value != "" ==> row.partition == r.partition.value)
    && (r.occurredAt.Some? ==> InPartition(r, r.occurredAt.value, row.partition))
    && IsNormalized(row.event.actor, r.actor) && IsNormalized(row.event.target, r.target)
    && IsNormalized(row.event.change, r.change)
    && IsNormalized(row.event.context, Mapping(r.context, DEFAULT_CONTEXT))
    && IsNormalized(row.event.outcome, Mapping(r.outcome, SUCCESS))
  }

  /** The stored value equals the normal form of the given one. */
  ghost predicate IsNormalized(stored: Json, given: PyValue) {
    Normalize(given).Some? && PyEq(stored, Normalize(given).value)
  }

  /**
   Which of its three answers enqueueing gives: a value without a normal form is refused, an event
   seen before is answered by its row if and only if that row holds the same content and is a
   collision otherwise, and any other event gets a new row.
   */
  lemma EnqueueDecides(rows: seq<Row>, r: Request, now: Timestamp, clock: int)
    requires DistinctEvents(rows)
    ensures var outcome := Enqueue(rows, r, now, clock).1;
            var canonical := Normalize(r.actor).Some? && Normalize(r.target).Some? && Normalize(r.change).Some?
              && Normalize(Mapping(r.context, DEFAULT_CONTEXT)).Some? && Normalize(Mapping(r.outcome, SUCCESS)).Some?;
            && (outcome == NotCanonical <==> !canonical)
            && (canonical && (forall i :: 0 <= i < |rows| ==> rows[i].event.eventId != r.eventId) ==>
                  outcome == Queued(|rows|))
            && (forall i :: 0 <= i < |rows| && rows[i].event.eventId == r.eventId && canonical ==>
                  outcome == if HoldsAlready(rows[i], r) then Queued(i) else Collision)
  {
    hide Normalize, Domain, Mapping, PyEq, LowerAscii, InPartition;
    FindMeaning(rows, r.eventId);
    var found := Find(rows, r.eventId);
    if found.Some? && BuildEvent(r, "").Some? {
      var row := rows[found.value];
      if r.occurredAt.Some? {
        PartitionIsIn(r, r.occurredAt.value);
        if InPartition(r, r.occurredAt.value, row.partition) {
          OnePartition(r, r.occurredAt.value, row.partition, PartitionOf(r, r.occurredAt.value));
        }
      }
    }
  }

  ghost function PartitionOf(r: Request, occurredAt: Timestamp): string {
    if r.partition.Some? && r.partition.value != "" then r.partition.value else PartitionFor(r.eventType, occurredAt)
  }

  lemma PartitionIsIn(r: Request, occurredAt: Timestamp)
    ensures InPartition(r, occurredAt, PartitionOf(r, occurredAt))
  {
    DomainMeaning(r.eventType);
  }

  /** Pending and due by `now`, or in processing under no lease or one that lasted `leaseSeconds` and 30 seconds. */
  ghost predicate AwaitsWorker(row: Row, now: int, leaseSeconds: int) {
    match row.status
    case Pending => row.nextAttemptAt <= now
    case Processing => row.lockedAt.Some? ==> row.lockedAt.value + 30 <= now && row.lockedAt.value + leaseSeconds <= now
    case Delivered => false
    case Dead => false
  }

  lemma {:induction false} FirstIsOldest(rows: seq<Row>, n: nat, now: int, leaseSeconds: int)
    requires n <= |rows|
    ensures var best := FirstClaimable(rows, n, now, leaseSeconds);
            && (best.Some? ==> AwaitsWorker(rows[best.value], now, leaseSeconds))
            && forall i :: 0 <= i < n && AwaitsWorker(rows[i], now, leaseSeconds) ==>
                 best.Some? && (rows[best.value].createdAt < rows[i].createdAt ||
                                (rows[best.value].createdAt == rows[i].createdAt && best.value <= i))
  {
    if n > 0 { FirstIsOldest(rows, n - 1, now, leaseSeconds); }
  }

  /**
   A claim leases a row if and only if some row awaits a worker: the one created first and, of
   several, the first in the table. It writes the state, the moment and the token of that row only.
   */
  lemma ClaimTakesTheOldest(rows: seq<Row>, now: int, leaseSeconds: int, token: nat)
    ensures var (rows', claimed) := ClaimOne(rows, now, leaseSeconds, token);
            && (claimed == None <==> forall i :: 0 <= i < |rows| ==> !AwaitsWorker(rows[i], now, leaseSeconds))
            && (claimed == None ==> rows' == rows)
            && (claimed.Some? ==>
                  && claimed.value < |rows| && AwaitsWorker(rows[claimed.value], now, leaseSeconds)
                  && (forall i :: 0 <= i < |rows| && AwaitsWorker(rows[i], now, leaseSeconds) ==>
                        || rows[claimed.value].createdAt < rows[i].createdAt
                        || (rows[claimed.value].createdAt == rows[i].createdAt && claimed.value <= i))
                  && rows' == rows[claimed.value := rows[claimed.value].(
                       status := Processing, lockedAt := Some(now), lockToken := Some(token))])
  {
    hide FirstClaimable;
    FirstIsOldest(rows, |rows|, now, leaseSeconds);
  }

  /** A lease keeps everybody else off the row until it has run out, and no longer. */
  lemma LeaseLasts(rows: seq<Row>, now: int, leaseSeconds: int, token: nat, later: int)
    requires ClaimOne(rows, now, leaseSeconds, token).1.Some?
    ensures var (rows', claimed) := ClaimOne(rows, now, leaseSeconds, token);
            && claimed.value < |rows'|
            && (AwaitsWorker(rows'[claimed.value], later, leaseSeconds) <==>
                later >= now + 30 && later >= now + leaseSeconds)
  {
    hide FirstClaimable;
  }

  /* The seconds between the n-th failure of a row and its next attempt, for n up to 12 and beyond. */
  const WAITS: seq<int> := [1, 2, 4, 8, 16, 32, 64, 128, 256, 512, 1024, 2048, 3600]

  lemma BackoffIsTabled(attempts: nat)
    ensures Backoff(attempts) == WAITS[if attempts < 12 then attempts else 12]
  {
    assert Power2(0) == 1 && Power2(1) == 2 && Power2(2) == 4 && Power2(3) == 8 && Power2(4) == 16 && Power2(5) == 32;
    assert Power2(6) == 64 && Power2(7) == 128 && Power2(8) == 256 && Power2(9) == 512 && Power2(10) == 1024;
    assert Power2(11) == 2048 && Power2(12) == 4096;
  }
}
