/**
 Outbox, workers and the Mongo log as one step system. A step is one relational transaction, one
 Mongo transaction or a crash; steps of any number of workers, each with a keyring of its own,
 interleave freely and every clock reading is arbitrary.
 */
module OutboxRuns {
  import opened Prelude
  import opened CanonicalJson
  import opened AuditDocuments
  import opened MongoLog
  import opened Outbox

  datatype DeliveryError =
    | Transport(name: string)  // the driver's own exceptions
    | DeliveryConflict         // AuditDeliveryConflict
    | DuplicateKeyError
    | InvalidReceipt
    | Uncaught(exception: Exception)  // raised by checking or signing

  datatype Stage =
    | Claimed
    | Received(sequence: int, mac: string)
    | Failed(error: DeliveryError)

  /** The keys a worker was configured with, by their names, and the one it signs with. */
  datatype Ring = Ring(active: string, ids: set<string>)

  /** A worker between `_claim_one` and its closing write, with the row as it was read. */
  datatype Lease = Lease(
    index: nat, event: Event, partition: string, attempts: nat, token: nat, ring: Ring, stage: Stage)

  /**
   `issued` holds every key that any worker is ever given, a name standing for one key only; `log`
   records the order of appends; `drawn` counts the lease tokens so far, and the next one is that number.
   */
  datatype System = System(
    rows: seq<Row>, store: Store, log: Log, issued: Keyring, workers: map<nat, Lease>, drawn: nat)

  /** How an `insert_event` call ends for its caller. */
  datatype Fate =
    | Answered                  // the call returns or raises what the transaction produced
    | Unseen(name: string)      // the transaction commits, the caller sees a transport error
    | Aborted(name: string)     // nothing is committed

  datatype Step =
    | EnqueueStep(r: Request, now: Timestamp, clock: int)
    | ClaimStep(w: nat, clock: int, leaseSeconds: int, ring: Ring)
    | InsertStep(w: nat, now: Timestamp, fate: Fate)
    | RecordStep(w: nat, maxAttempts: int, clock: int)
    | CrashStep(w: nat)

  /* ---------- The steps ---------- */

  /** `AuditKeyring` accepts the worker's keys. */
  predicate Usable(issued: Keyring, ring: Ring) {
    && ring.active in ring.ids
    && forall id :: id in ring.ids ==> id in issued.keys && id != "" && |issued.keys[id]| >= 32
  }

  function RingOf(issued: Keyring, ring: Ring): Keyring {
    issued.(active := ring.active, keys := map id | id in ring.ids && id in issued.keys :: issued.keys[id])
  }

  function Claim(s: System, w: nat, clock: int, leaseSeconds: int, ring: Ring): System {
    var (rows, claimed) := ClaimOne(s.rows, clock, leaseSeconds, s.drawn);
    if claimed == None || claimed.value >= |s.rows| then s
    else
      var row := s.rows[claimed.value];
      s.(rows := rows, drawn := s.drawn + 1,
         workers := s.workers[w := Lease(claimed.value, row.event, row.partition, row.attempts, s.drawn, ring,
             Claimed)])
  }

  /** What the worker holds after the transaction produced `outcome`. */
  function StageAfter(outcome: InsertOutcome, partition: string): Stage {
    match outcome
    case Conflict => Failed(DeliveryConflict)
    case DuplicateKey => Failed(DuplicateKeyError)
    case Broken(exception) => Failed(Uncaught(exception))
    case Stored(doc) =>
      match ValidatedReceipt(doc, partition)
      case None => Failed(InvalidReceipt)
      case Some((sequence, mac)) => Received(sequence, mac)
  }

  function Deliver(s: System, w: nat, now: Timestamp, fate: Fate): System
    requires w in s.workers && Usable(s.issued, s.workers[w].ring)
  {
    var lease := s.workers[w];
    if fate.Aborted? then s.(workers := s.workers[w := lease.(stage := Failed(Transport(fate.name)))])
    else
      var (store, outcome) := Insert(s.store, lease.event, lease.partition, now, RingOf(s.issued, lease.ring));
      var id := lease.event.eventId;
      var log := if id !in s.store.events && outcome.Stored? then Append(s.log, lease.partition, id) else s.log;
      var stage := if fate.Unseen? then Failed(Transport(fate.name)) else StageAfter(outcome, lease.partition);
      s.(store := store, log := log, workers := s.workers[w := lease.(stage := stage)])
  }

  function ErrorName(e: DeliveryError): string {
    match e
    case Transport(name) => name
    case DeliveryConflict => "AuditDeliveryConflict"
    case DuplicateKeyError => "DuplicateKeyError"
    case InvalidReceipt => "InvalidAuditReceipt"
    case Uncaught(AssertionError) => "AssertionError"
    case Uncaught(TypeError) => "TypeError"
    case Uncaught(AttributeError) => "AttributeError"
  }

  /** The conditional UPDATE that closes an iteration; a stale lease matches no row. */
  function Recorded(rows: seq<Row>, lease: Lease, maxAttempts: int, clock: int): seq<Row> {
    if !HeldBy(rows, lease.index, lease.token) then rows
    else
      match lease.stage
      case Claimed => rows
      case Received(sequence, mac) =>
        rows[lease.index := DeliveredRow(rows[lease.index], lease.attempts + 1, sequence, mac)]
      case Failed(error) =>
        rows[lease.index := FailedRow(rows[lease.index], lease.attempts + 1, ErrorName(error), maxAttempts, clock)]
  }

  /** Steps that are not enabled leave the system alone. */
  function Apply(s: System, step: Step): System {
    match step
    case EnqueueStep(r, now, clock) => s.(rows := Enqueue(s.rows, r, now, clock).0)
    case ClaimStep(w, clock, leaseSeconds, ring) =>
      if w in s.workers || !Usable(s.issued, ring) then s else Claim(s, w, clock, leaseSeconds, ring)
    case InsertStep(w, now, fate) => if Inserts(s, w) then Deliver(s, w, now, fate) else s
    case RecordStep(w, maxAttempts, clock) =>
      if w in s.workers && s.workers[w].stage != Claimed
      then s.(rows := Recorded(s.rows, s.workers[w], maxAttempts, clock), workers := s.workers - {w}) else s
    case CrashStep(w) => s.(workers := s.workers - {w})
  }

  /** The worker's next transaction is `insert_event`. */
  predicate Inserts(s: System, w: nat) {
    w in s.workers && s.workers[w].stage == Claimed && Usable(s.issued, s.workers[w].ring)
  }

  function Run(s: System, steps: seq<Step>): System {
    if steps == [] then s else Apply(Run(s, steps[..|steps| - 1]), steps[|steps| - 1])
  }

  function Initial(issued: Keyring): System {
    System([], Store(map[], map[]), map[], issued, map[], 0)
  }

  /* ---------- The invariant ---------- */

  /** The stored document of an event, if there is one, is the row's event in the row's partition. */
  ghost predicate StoredFaithfully(store: Store, row: Row) {
    row.event.eventId in store.events ==>
      && SameEvent(store.events[row.event.eventId], row.event)
      && Seal(store.events[row.event.eventId], "partition") == Str(row.partition)
  }

  /** `sequence` and `mac` are the receipt of the stored document of `id`. */
  ghost predicate ReceiptOf(store: Store, id: string, sequence: int, mac: string) {
    && id in store.events
    && Seal(store.events[id], "sequence") == Int(sequence)
    && Seal(store.events[id], "mac") == Str(mac)
  }

  ghost predicate RowOk(row: Row, store: Store, drawn: nat) {
    && Complete(row.event)
    && (row.lockToken.Some? <==> row.status == Processing)
    && (row.lockToken.Some? ==> row.lockToken.value < drawn)
    && StoredFaithfully(store, row)
    && (row.status == Delivered ==>
          row.deliverySequence.Some? && ReceiptOf(store, row.event.eventId, row.deliverySequence.value,
              row.deliveryMac))
  }

  ghost predicate LeaseOk(lease: Lease, rows: seq<Row>, store: Store, drawn: nat) {
    && lease.index < |rows|
    && rows[lease.index].event == lease.event && rows[lease.index].partition == lease.partition
    && lease.token < drawn
    && (rows[lease.index].lockToken == Some(lease.token) ==> rows[lease.index].attempts == lease.attempts)
    && (lease.stage.Received? ==> ReceiptOf(store, lease.event.eventId, lease.stage.sequence, lease.stage.mac))
    && lease.stage != Failed(DuplicateKeyError)
  }

  /** No token guards two rows, no two workers share one, and a worker's token guards only its row. */
  ghost predicate TokensOk(rows: seq<Row>, workers: map<nat, Lease>) {
    && (forall i, j :: 0 <= i < j < |rows| && rows[i].lockToken.Some? ==> rows[i].lockToken != rows[j].lockToken)
    && (forall w, v :: w in workers && v in workers && w != v ==> workers[w].token != workers[v].token)
    && (forall i, w :: 0 <= i < |rows| && w in workers && rows[i].lockToken == Some(workers[w].token) ==>
         i == workers[w].index)
  }

  ghost predicate EventsHaveRows(store: Store, rows: seq<Row>) {
    forall id :: id in store.events ==> exists i :: 0 <= i < |rows| && rows[i].event.eventId == id
  }

  ghost predicate RingsOk(workers: map<nat, Lease>, issued: Keyring) {
    forall w :: w in workers ==> Usable(issued, workers[w].ring)
  }

  ghost predicate Inv(s: System) {
    && Represents(s.store, s.log, s.issued) && RingsOk(s.workers, s.issued)
    && DistinctEvents(s.rows) && EventsHaveRows(s.store, s.rows)
    && (forall i :: 0 <= i < |s.rows| ==> RowOk(s.rows[i], s.store, s.drawn))
    && (forall w :: w in s.workers ==> LeaseOk(s.workers[w], s.rows, s.store, s.drawn))
    && TokensOk(s.rows, s.workers)
  }

  lemma InitialOk(issued: Keyring)
    ensures Inv(Initial(issued))
  {
  }

  /* ---------- Every step keeps it ---------- */

  lemma EnqueueKeeps(s: System, r: Request, now: Timestamp, clock: int)
    requires Inv(s)
    ensures Inv(Apply(s, EnqueueStep(r, now, clock)))
  {
    hide Represents, RingsOk, Enqueue, Complete, ReceiptOf, SameEvent;
    var rows := Enqueue(s.rows, r, now, clock).0;
    EnqueueMeaning(s.rows, r, now, clock);
    if |rows| > |s.rows| {
      var event, partition :| rows[|s.rows|] == NewRow(event, partition, clock);
      NewEventIsNotStored(s, rows);
    }
    forall i | 0 <= i < |rows| ensures RowOk(rows[i], s.store, s.drawn) {
      if i < |s.rows| { assert rows[i] == s.rows[i]; }
    }
    LongerTable(s, rows);
  }

  lemma NewEventIsNotStored(s: System, rows: seq<Row>)
    requires EventsHaveRows(s.store, s.rows) && DistinctEvents(rows) && s.rows <= rows && |rows| == |s.rows| + 1
    ensures rows[|s.rows|].event.eventId !in s.store.events
  {
    var id := rows[|s.rows|].event.eventId;
    forall i | 0 <= i < |s.rows| ensures s.rows[i].event.eventId != id {
      assert rows[i] == s.rows[i];
    }
  }

  lemma LongerTable(s: System, rows: seq<Row>)
    requires s.rows <= rows && |rows| <= |s.rows| + 1
    requires |rows| > |s.rows| ==> rows[|s.rows|].lockToken == None
    requires EventsHaveRows(s.store, s.rows) && TokensOk(s.rows, s.workers)
    requires forall w :: w in s.workers ==> LeaseOk(s.workers[w], s.rows, s.store, s.drawn)
    ensures EventsHaveRows(s.store, rows) && TokensOk(rows, s.workers)
    ensures forall w :: w in s.workers ==> LeaseOk(s.workers[w], rows, s.store, s.drawn)
  {
    hide ReceiptOf;
    assert forall i :: 0 <= i < |s.rows| ==> rows[i] == s.rows[i];
  }

  lemma ClaimKeeps(s: System, w: nat, clock: int, leaseSeconds: int, ring: Ring)
    requires Inv(s)
    ensures Inv(Apply(s, ClaimStep(w, clock, leaseSeconds, ring)))
  {
    hide Represents, Usable, FirstClaimable, Claimable, RowOk, LeaseOk, TokensOk, DistinctEvents, EventsHaveRows;
    if w !in s.workers && Usable(s.issued, ring) && FirstClaimable(s.rows, |s.rows|, clock, leaseSeconds).Some? {
      var i := FirstClaimable(s.rows, |s.rows|, clock, leaseSeconds).value;
      var t, token := Claim(s, w, clock, leaseSeconds, ring), s.drawn;
      assert t.rows == s.rows[i := Leased(s.rows[i], clock, token)];
      LeasedRowOk(s.rows[i], s.store, clock, leaseSeconds, token);
      forall k | 0 <= k < |t.rows| ensures RowOk(t.rows[k], t.store, t.drawn) {
        if k != i { MoreTokensOk(s.rows[k], s.store, s.drawn); }
      }
      forall v | v in t.workers ensures LeaseOk(t.workers[v], t.rows, t.store, t.drawn) {
        if v == w {
          FreshLeaseOk(s.rows, i, s.store, clock, token, ring);
        } else {
          UpdatedRowKeepsLease(s.workers[v], s.rows, i, t.rows[i], s.store, s.drawn, t.drawn, token);
        }
      }
      TokensIssued(s);
      ClaimTokens(s, t, i, w);
      SameEventsInRows(s.store, s.rows, t.rows);
    }
  }

  lemma LeasedRowOk(row: Row, store: Store, clock: int, leaseSeconds: int, drawn: nat)
    requires RowOk(row, store, drawn) && Claimable(row, clock, leaseSeconds)
    ensures RowOk(Leased(row, clock, drawn), store, drawn + 1)
  {
    hide Complete, SameEvent, ReceiptOf, Seal;
  }

  lemma MoreTokensOk(row: Row, store: Store, drawn: nat)
    requires RowOk(row, store, drawn)
    ensures RowOk(row, store, drawn + 1)
  {
    hide Complete, StoredFaithfully, ReceiptOf;
  }

  lemma FreshLeaseOk(rows: seq<Row>, i: nat, store: Store, clock: int, drawn: nat, ring: Ring)
    requires i < |rows|
    ensures LeaseOk(Lease(i, rows[i].event, rows[i].partition, rows[i].attempts, drawn, ring, Claimed),
                    rows[i := Leased(rows[i], clock, drawn)], store, drawn + 1)
  {
  }

  /** A row that is rewritten under another lease, or under none, leaves a worker's lease in order. */
  lemma UpdatedRowKeepsLease(
      lease: Lease, rows: seq<Row>, i: nat, row: Row, store: Store, drawn: nat, drawn': nat, token: nat)
    requires LeaseOk(lease, rows, store, drawn) && drawn <= drawn' && i < |rows|
    requires row.event == rows[i].event && row.partition == rows[i].partition
    requires row.lockToken == None || (row.lockToken == Some(token) && token >= drawn)
    ensures LeaseOk(lease, rows[i := row], store, drawn')
  {
    hide ReceiptOf;
  }

  lemma TokensIssued(s: System)
    requires forall i :: 0 <= i < |s.rows| ==> RowOk(s.rows[i], s.store, s.drawn)
    requires forall w :: w in s.workers ==> LeaseOk(s.workers[w], s.rows, s.store, s.drawn)
    ensures forall k :: 0 <= k < |s.rows| && s.rows[k].lockToken.Some? ==> s.rows[k].lockToken.value < s.drawn
    ensures forall v :: v in s.workers ==> s.workers[v].token < s.drawn
  {
    hide StoredFaithfully, ReceiptOf, Complete;
  }

  lemma SameEventsInRows(store: Store, rows: seq<Row>, rows': seq<Row>)
    requires |rows| == |rows'| && forall i :: 0 <= i < |rows| ==> rows'[i].event == rows[i].event
    ensures DistinctEvents(rows) ==> DistinctEvents(rows')
    ensures EventsHaveRows(store, rows) ==> EventsHaveRows(store, rows')
  {
  }

  lemma ClaimTokens(s: System, t: System, i: nat, w: nat)
    requires i < |s.rows| && w !in s.workers
    requires TokensOk(s.rows, s.workers)
    requires forall k :: 0 <= k < |s.rows| && s.rows[k].lockToken.Some? ==> s.rows[k].lockToken.value < s.drawn
    requires forall v :: v in s.workers ==> s.workers[v].token < s.drawn
    requires |t.rows| == |s.rows| && t.rows[i].lockToken == Some(s.drawn)
    requires forall k :: 0 <= k < |s.rows| && k != i ==> t.rows[k] == s.rows[k]
    requires t.workers.Keys == s.workers.Keys + {w} && t.workers[w].token == s.drawn && t.workers[w].index == i
    requires forall v :: v in s.workers ==> t.workers[v] == s.workers[v]
    ensures TokensOk(t.rows, t.workers)
  {
  }

  lemma UsableRing(issued: Keyring, ring: Ring)
    requires Usable(issued, ring)
    ensures ValidKeyring(RingOf(issued, ring)) && KeepsKeys(RingOf(issued, ring), issued)
    ensures RingOf(issued, ring).active == ring.active && RingOf(issued, ring).keys.Keys == ring.ids
  {
  }

  /** A worker starts with exactly those keyrings that `AuditKeyring` accepts. */
  lemma RingAccepted(issued: Keyring, ring: Ring)
    ensures Usable(issued, ring) <==> ring.ids <= issued.keys.Keys && ValidKeyring(RingOf(issued, ring))
  {
    if ring.ids <= issued.keys.Keys { assert RingOf(issued, ring).keys.Keys == ring.ids; }
  }

  /** The active key of the worker has the length that signing needs. */
  predicate Signs(issued: Keyring, ring: Ring) {
    CanSign(RingOf(issued, ring))
  }

  /**
   What `insert_event` gives a worker: the stored document if the worker has its key and a conflict
   if not; a new document if the worker's active key can sign and an AssertionError if not.
   */
  ghost predicate Delivery(s: System, lease: Lease, store: Store, outcome: InsertOutcome) {
    var id := lease.event.eventId;
    if id in s.store.events then
      && store == s.store
      && outcome == if KeyIdOf(s.store.events[id]) in lease.ring.ids then Stored(s.store.events[id]) else Conflict
    else if Signs(s.issued, lease.ring) then
      && outcome.Stored?
      && Extends(s.store, s.log, s.issued, lease.event, lease.partition, RingOf(s.issued, lease.ring), store,
           outcome.doc)
    else store == s.store && outcome == Broken(AssertionError)
  }

  lemma InsertDelivers(s: System, w: nat, now: Timestamp)
    requires Inv(s) && w in s.workers
    ensures Usable(s.issued, s.workers[w].ring)
    ensures var lease := s.workers[w];
            var (store, outcome) := Insert(s.store, lease.event, lease.partition, now, RingOf(s.issued, lease.ring));
            Delivery(s, lease, store, outcome)
  {
    hide Represents, Insert, Complete, SameEvent, Seal, PyEq, Extends, KeyIdOf, ValidKeyring, KeepsKeys, CanSign,
        Usable, RingOf;
    var lease := s.workers[w];
    assert LeaseOk(lease, s.rows, s.store, s.drawn);
    assert RowOk(s.rows[lease.index], s.store, s.drawn);
    UsableRing(s.issued, lease.ring);
    InsertKeepsChains(s.store, s.log, s.issued, lease.event, lease.partition, now, RingOf(s.issued, lease.ring));
    SameIsEqual(Str(lease.partition));
  }

  lemma GrownStoreKeepsRows(row: Row, store: Store, store': Store, drawn: nat)
    requires RowOk(row, store, drawn)
    requires forall id :: id in store.events ==> id in store'.events && store'.events[id] == store.events[id]
    requires row.event.eventId in store'.events && row.event.eventId !in store.events ==>
               && SameEvent(store'.events[row.event.eventId], row.event)
               && Seal(store'.events[row.event.eventId], "partition") == Str(row.partition)
    ensures RowOk(row, store', drawn)
  {
    hide Complete, SameEvent, Seal;
  }

  lemma GrownStoreKeepsLease(lease: Lease, rows: seq<Row>, store: Store, store': Store, drawn: nat)
    requires LeaseOk(lease, rows, store, drawn)
    requires forall id :: id in store.events ==> id in store'.events && store'.events[id] == store.events[id]
    ensures LeaseOk(lease, rows, store', drawn)
  {
    hide Seal;
  }

  lemma InsertKeeps(s: System, w: nat, now: Timestamp, fate: Fate)
    requires Inv(s) && Inserts(s, w)
    ensures Inv(Deliver(s, w, now, fate))
  {
    hide Represents, Insert, LeaseOk, RowOk, DistinctEvents, EventsHaveRows, Usable, RingOf, Delivery, StageAfter;
    var lease := s.workers[w];
    var t := Deliver(s, w, now, fate);
    if fate.Aborted? {
      StagedLeaseOk(lease, s.rows, s.store, s.drawn, Failed(Transport(fate.name)));
    } else {
      InsertDelivers(s, w, now);
      DeliveryKeepsStore(s, w, now, fate);
      forall i | 0 <= i < |s.rows| ensures RowOk(s.rows[i], t.store, s.drawn) {
        if s.rows[i].event.eventId == lease.event.eventId { SameIdSameRow(s, w, i); }
        GrownStoreKeepsRows(s.rows[i], s.store, t.store, s.drawn);
      }
      forall v | v in s.workers ensures LeaseOk(s.workers[v], s.rows, t.store, s.drawn) {
        GrownStoreKeepsLease(s.workers[v], s.rows, s.store, t.store, s.drawn);
      }
      StagedLeaseOk(lease, s.rows, t.store, s.drawn, t.workers[w].stage);
      StoredEventHasRow(s, t.store, w);
    }
  }

  /**
   As far as rows and leases can see: the stored documents stay, at most the worker's own is added,
   and its receipt is true.
   */
  lemma DeliveryKeepsStore(s: System, w: nat, now: Timestamp, fate: Fate)
    requires Inv(s) && Inserts(s, w) && !fate.Aborted?
    requires var lease := s.workers[w];
             var (store, outcome) := Insert(s.store, lease.event, lease.partition, now, RingOf(s.issued, lease.ring));
             Delivery(s, lease, store, outcome)
    ensures var lease := s.workers[w];
            var id := lease.event.eventId;
            var t := Deliver(s, w, now, fate);
            && Represents(t.store, t.log, t.issued)
            && (forall x :: x in s.store.events ==> x in t.store.events && t.store.events[x] == s.store.events[x])
            && t.store.events.Keys <= s.store.events.Keys + {id}
            && (id in t.store.events && id !in s.store.events ==>
                  SameEvent(t.store.events[id], lease.event)
                      && Seal(t.store.events[id], "partition") == Str(lease.partition))
            && var stage := t.workers[w].stage;
               && (stage.Received? ==> ReceiptOf(t.store, id, stage.sequence, stage.mac))
               && stage != Failed(DuplicateKeyError)
  {
    hide Represents, Insert, Inv, SameEvent, Seal, Continues, KeyIdOf, Usable, RingOf, CanSign, ValidatedReceipt,
        ReceiptOf;
    var lease := s.workers[w];
    var t := Deliver(s, w, now, fate);
    InvRepresents(s);
    if lease.event.eventId in t.store.events {
      ReceiptMatches(t.store, t.log, t.issued, lease.event.eventId, lease.partition);
    }
  }

  lemma InvRepresents(s: System)
    requires Inv(s)
    ensures Represents(s.store, s.log, s.issued)
  {
  }

  /** A worker moves on to a stage that says nothing false about the store. */
  lemma StagedLeaseOk(lease: Lease, rows: seq<Row>, store: Store, drawn: nat, stage: Stage)
    requires LeaseOk(lease, rows, store, drawn)
    requires stage.Received? ==> ReceiptOf(store, lease.event.eventId, stage.sequence, stage.mac)
    requires stage != Failed(DuplicateKeyError)
    ensures LeaseOk(lease.(stage := stage), rows, store, drawn)
  {
    hide ReceiptOf;
  }

  lemma StoredEventHasRow(s: System, store: Store, w: nat)
    requires Inv(s) && w in s.workers && store.events.Keys <= s.store.events.Keys + {s.workers[w].event.eventId}
    ensures EventsHaveRows(store, s.rows)
  {
    hide Represents, RingsOk, RowOk, TokensOk, DistinctEvents;
    assert LeaseOk(s.workers[w], s.rows, s.store, s.drawn);
    forall id | id in store.events ensures exists i :: 0 <= i < |s.rows| && s.rows[i].event.eventId == id {
      if id !in s.store.events { assert s.rows[s.workers[w].index].event.eventId == id; }
    }
  }

  lemma SameIdSameRow(s: System, w: nat, i: nat)
    requires Inv(s) && w in s.workers && i < |s.rows| && s.rows[i].event.eventId == s.workers[w].event.eventId
    ensures s.rows[i].event == s.workers[w].event && s.rows[i].partition == s.workers[w].partition
  {
    hide Represents, RingsOk, RowOk, TokensOk, EventsHaveRows, ReceiptOf;
    assert LeaseOk(s.workers[w], s.rows, s.store, s.drawn);
  }

  lemma ReceiptMatches(store: Store, log: Log, issued: Keyring, id: string, partition: string)
    requires Represents(store, log, issued) && id in store.events
    ensures var stage := StageAfter(Stored(store.events[id]), partition);
            && (stage.Received? ==> ReceiptOf(store, id, stage.sequence, stage.mac))
            && stage != Failed(DuplicateKeyError)
  {
    hide Numeric, Genuine;
    assert Logged(log, id);
    var q :| q in log && id in log[q];
    var i :| 0 <= i < |log[q]| && log[q][i] == id;
    assert Holds(store, q, log[q], issued);
    assert Placed(store, q, log[q], i, issued);
  }

  lemma RecordKeeps(s: System, w: nat, maxAttempts: int, clock: int)
    requires Inv(s)
    ensures Inv(Apply(s, RecordStep(w, maxAttempts, clock)))
  {
    hide Represents, RingsOk, TokensOk, LeaseOk, RowOk, DistinctEvents, EventsHaveRows, DeliveredRow, FailedRow;
    if w in s.workers && s.workers[w].stage != Claimed {
      var lease := s.workers[w];
      var t := Apply(s, RecordStep(w, maxAttempts, clock));
      if HeldBy(s.rows, lease.index, lease.token) {
        var i := lease.index;
        var row := t.rows[i];
        RecordedRowOk(s.rows, lease, s.store, s.drawn, maxAttempts, clock);
        assert t.rows == s.rows[i := row];
        forall v | v in t.workers ensures LeaseOk(t.workers[v], t.rows, t.store, t.drawn) {
          UpdatedRowKeepsLease(s.workers[v], s.rows, i, row, s.store, s.drawn, s.drawn, 0);
        }
        SameEventsInRows(s.store, s.rows, t.rows);
      }
      FewerTokens(s, t, w);
    }
  }

  /** Giving up a lease token, and the worker that held it, leaves the tokens in order. */
  lemma FewerTokens(s: System, t: System, w: nat)
    requires TokensOk(s.rows, s.workers) && RingsOk(s.workers, s.issued) && t.issued == s.issued
    requires t.workers == s.workers - {w} && |t.rows| == |s.rows|
    requires forall k :: 0 <= k < |s.rows| ==> t.rows[k] == s.rows[k] || t.rows[k].lockToken == None
    ensures TokensOk(t.rows, t.workers) && RingsOk(t.workers, t.issued)
  {
    hide Usable;
  }

  lemma RecordedRowOk(rows: seq<Row>, lease: Lease, store: Store, drawn: nat, maxAttempts: int, clock: int)
    requires HeldBy(rows, lease.index, lease.token) && lease.stage != Claimed
    requires LeaseOk(lease, rows, store, drawn) && RowOk(rows[lease.index], store, drawn)
    ensures var row := Recorded(rows, lease, maxAttempts, clock)[lease.index];
            && RowOk(row, store, drawn) && row.lockToken == None
            && row.event == rows[lease.index].event && row.partition == rows[lease.index].partition
  {
    hide Complete, SameEvent, ReceiptOf, Backoff, ErrorName, Seal;
  }

  lemma StepKeeps(s: System, step: Step)
    requires Inv(s)
    ensures Inv(Apply(s, step))
  {
    hide Inv, Apply;
    match step
    case EnqueueStep(r, now, clock) => EnqueueKeeps(s, r, now, clock);
    case ClaimStep(w, clock, leaseSeconds, ring) => ClaimKeeps(s, w, clock, leaseSeconds, ring);
    case InsertStep(w, now, fate) => InsertStepKeeps(s, w, now, fate);
    case RecordStep(w, maxAttempts, clock) => RecordKeeps(s, w, maxAttempts, clock);
    case CrashStep(w) => CrashKeeps(s, w);
  }

  lemma InsertStepKeeps(s: System, w: nat, now: Timestamp, fate: Fate)
    requires Inv(s)
    ensures Inv(Apply(s, InsertStep(w, now, fate)))
  {
    hide Inv, Deliver;
    if Inserts(s, w) { InsertKeeps(s, w, now, fate); }
  }

  lemma CrashKeeps(s: System, w: nat)
    requires Inv(s)
    ensures Inv(Apply(s, CrashStep(w)))
  {
    hide Represents, Usable, RowOk, LeaseOk;
  }
}
