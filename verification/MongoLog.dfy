/**
 The Mongo side (security/mongo_client.py): `insert_event` appends an event to the chain of its
 partition, once; the chains it builds pass `verify_chain` for every auditor who has their keys.
 */
module MongoLog {
  import opened Prelude
  import opened CanonicalJson
  import opened AuditDocuments
  import opened AuditChain

  datatype Head = Head(sequence: int, lastMac: Json)

  /** The event collection, keyed by `_id`, and the head documents, keyed by partition. */
  datatype Store = Store(events: map<string, Doc>, heads: map<string, Head>)

  datatype InsertOutcome =
    | Stored(doc: Doc)
    | Conflict        // AuditDeliveryConflict
    | DuplicateKey    // a unique index refuses the document and the transaction aborts
    | Broken(exception: Exception)  // checking or signing raises and the transaction aborts

  /** Every immutable field reads the same on both sides. */
  predicate SameEvent(doc: Doc, e: Event) {
    forall f :: f in IMMUTABLE_FIELDS ==> PyEq(Get(doc, f), Get(EventFields(e), f))
  }

  /** The stored document has the event's fields, each under its own name. */
  lemma SameEventMeaning(doc: Doc, event: Event)
    ensures SameEvent(doc, event) <==>
            && PyEq(Get(doc, "schema_version"), Int(1)) && PyEq(Get(doc, "event_id"), Str(event.eventId))
            && PyEq(Get(doc, "event_type"), Str(event.eventType))
                 && PyEq(Get(doc, "occurred_at"), Str(event.occurredAt))
            && PyEq(Get(doc, "actor"), event.actor) && PyEq(Get(doc, "target"), event.target)
            && PyEq(Get(doc, "context"), event.context) && PyEq(Get(doc, "change"), event.change)
            && PyEq(Get(doc, "outcome"), event.outcome)
  {
    hide Numeric, PyEq;
  }

  /** The unique indexes on `event_id` and on (`integrity.partition`, `integrity.sequence`). */
  predicate Clashes(events: map<string, Doc>, doc: Doc) {
    exists id :: id in events &&
      (Get(events[id], "event_id") == Get(doc, "event_id") ||
       (Seal(events[id], "partition") == Seal(doc, "partition")
           && Seal(events[id], "sequence") == Seal(doc, "sequence")))
  }

  function NextSequence(heads: map<string, Head>, partition: string): int {
    if partition in heads then heads[partition].sequence + 1 else 1
  }

  function LastMac(heads: map<string, Head>, partition: string): Json {
    if partition in heads then heads[partition].lastMac else Null
  }

  /** The document that continues the chain of `partition` with `e`, if the keyring can sign it. */
  function NextDocument(heads: map<string, Head>, e: Event, partition: string, now: string, ring: Keyring): Option<Doc>
    requires ring.active in ring.keys
  {
    SignedEvent(e, now, partition, NextSequence(heads, partition), LastMac(heads, partition), ring)
  }

  /** What `insert_event` makes of an event whose identifier is stored. */
  function Answer(existing: Doc, e: Event, partition: string, ring: Keyring): InsertOutcome {
    match Breaks(LinkOf(existing, ring))
    case Some(exception) => Broken(exception)
    case None =>
      if Verify(existing, ring) == Passes && SameEvent(existing, e) && PyEq(Seal(existing, "partition"), Str(partition))
      then Stored(existing) else Conflict
  }

  /** One `insert_event` transaction: the store it leaves and what it returns or raises. */
  function Insert(st: Store, e: Event, partition: string, now: string, ring: Keyring): (Store, InsertOutcome)
    requires ring.active in ring.keys
  {
    if e.eventId in st.events then (st, Answer(st.events[e.eventId], e, partition, ring))
    else
      match NextDocument(st.heads, e, partition, now, ring)
      case None => (st, Broken(AssertionError))
      case Some(doc) =>
        if Clashes(st.events, doc) then (st, DuplicateKey)
        else
          var head := Head(NextSequence(st.heads, partition), Seal(doc, "mac"));
          (Store(st.events[e.eventId := doc], st.heads[partition := head]), Stored(doc))
  }

  /** The collections that all loggers share. */
  class Database {
    var events: map<string, Doc>
    var heads: map<string, Head>

    constructor ()
      ensures Contents() == Store(map[], map[])
    {
      events, heads := map[], map[];
    }

    ghost function Contents(): Store
      reads this
    {
      Store(events, heads)
    }
  }

  /** Each logger has a keyring of its own. */
  class MongoLogger {
    const db: Database
    const keyring: Keyring

    constructor (db: Database, keyring: Keyring)
      requires keyring.active in keyring.keys
      ensures this.db == db && this.keyring == keyring
    {
      this.db, this.keyring := db, keyring;
    }

    method InsertEvent(e: Event, partition: string, now: string) returns (outcome: InsertOutcome)
      requires keyring.active in keyring.keys
      modifies db
      ensures (db.Contents(), outcome) == Insert(old(db.Contents()), e, partition, now, keyring)
    {
      hide Verify, SignedEvent, SameEvent;
      if e.eventId in db.events {
        outcome := Answer(db.events[e.eventId], e, partition, keyring);
        return;
      }
      var before := db.heads;
      var previousMac := LastMac(db.heads, partition);
      var sequence := NextSequence(db.heads, partition);
      db.heads := db.heads[partition := Head(sequence, previousMac)];
      var signed := SignedEvent(e, now, partition, sequence, previousMac, keyring);
      if signed == None {
        db.heads := before;
        return Broken(AssertionError);
      }
      var doc := signed.value;
      if Clashes(db.events, doc) {
        db.heads := before;
        return DuplicateKey;
      }
      db.events := db.events[e.eventId := doc];
      var head := Head(sequence, Seal(doc, "mac"));
      assert db.heads[partition := head] == before[partition := head];
      db.heads := db.heads[partition := head];
      return Stored(doc);
    }
  }

  /* ---------- The chains a store holds ---------- */

  /** For each partition the identifiers of its events in the order they were appended. */
  type Log = map<string, seq<string>>

  function MacAt(st: Store, ids: seq<string>, i: int): Json {
    if 0 <= i < |ids| && ids[i] in st.events then Seal(st.events[ids[i]], "mac") else Null
  }

  /** The `i`-th document of partition `p`. */
  ghost predicate Placed(st: Store, p: string, ids: seq<string>, i: nat, ring: Keyring)
    requires i < |ids|
  {
    && ids[i] in st.events
    && var doc := st.events[ids[i]];
       && Genuine(doc, ring)
       && Get(doc, "event_id") == Str(ids[i])
       && Seal(doc, "partition") == Str(p)
       && Seal(doc, "sequence") == Int(i + 1)
       && Seal(doc, "previous_mac") == MacAt(st, ids, i - 1)
       && Seal(doc, "mac").Str?
  }

  ghost predicate Holds(st: Store, p: string, ids: seq<string>, ring: Keyring) {
    && ids != []
    && p in st.heads && st.heads[p] == Head(|ids|, MacAt(st, ids, |ids| - 1))
    && forall i :: 0 <= i < |ids| ==> Placed(st, p, ids, i, ring)
  }

  ghost predicate Logged(log: Log, id: string) {
    exists p :: p in log && id in log[p]
  }

  /** The store is exactly the chains of `log`, signed with keys of `ring`. */
  ghost predicate Represents(st: Store, log: Log, ring: Keyring) {
    && log.Keys == st.heads.Keys
    && (forall p :: p in log ==> Holds(st, p, log[p], ring))
    && (forall id :: id in st.events ==> Logged(log, id))
  }

  function IdsOf(log: Log, p: string): seq<string> {
    if p in log then log[p] else []
  }

  function Append(log: Log, p: string, id: string): Log {
    log[p := IdsOf(log, p) + [id]]
  }

  /** Later chains continue earlier ones and no stored document changes. */
  ghost predicate Continues(st: Store, log: Log, st': Store, log': Log) {
    && (forall id :: id in st.events ==> id in st'.events && st'.events[id] == st.events[id])
    && (forall p :: p in log ==> p in log' && log[p] <= log'[p])
  }

  /** A stored event has one place only. */
  lemma OnePlace(st: Store, log: Log, ring: Keyring, p: string, i: nat, q: string, j: nat)
    requires Represents(st, log, ring)
    requires p in log && i < |log[p]| && q in log && j < |log[q]| && log[p][i] == log[q][j]
    ensures p == q && i == j
  {
    assert Holds(st, p, log[p], ring) && Holds(st, q, log[q], ring);
    assert Placed(st, p, log[p], i, ring) && Placed(st, q, log[q], j, ring);
  }

  /** The document about to be appended clashes with none: its identifier and its number are new. */
  lemma NoClash(st: Store, log: Log, ring: Keyring, id: string, p: string, doc: Doc)
    requires Represents(st, log, ring) && id !in st.events
    requires Get(doc, "event_id") == Str(id)
    requires Seal(doc, "partition") == Str(p) && Seal(doc, "sequence") == Int(NextSequence(st.heads, p))
    ensures !Clashes(st.events, doc)
  {
    forall x | x in st.events
      ensures Get(st.events[x], "event_id") != Get(doc, "event_id")
      ensures Seal(st.events[x], "partition") != Seal(doc, "partition")
          || Seal(st.events[x], "sequence") != Seal(doc, "sequence")
    {
      assert Logged(log, x);
      var q :| q in log && x in log[q];
      var i :| 0 <= i < |log[q]| && log[q][i] == x;
      assert Holds(st, q, log[q], ring);
      assert Placed(st, q, log[q], i, ring);
    }
  }

  lemma OtherChainsStay(st: Store, st': Store, p: string, ids: seq<string>, ring: Keyring)
    requires Holds(st, p, ids, ring)
    requires forall id :: id in st.events ==> id in st'.events && st'.events[id] == st.events[id]
    requires p in st.heads && p in st'.heads && st'.heads[p] == st.heads[p]
    ensures Holds(st', p, ids, ring)
  {
    hide Genuine, Seal;
    forall i | 0 <= i < |ids| ensures Placed(st', p, ids, i, ring) {
      assert Placed(st, p, ids, i, ring);
      if i > 0 { assert Placed(st, p, ids, i - 1, ring); }
    }
    assert Placed(st, p, ids, |ids| - 1, ring);
  }

  lemma ExtendedChain(st: Store, st': Store, p: string, ids: seq<string>, id: string, doc: Doc, ring: Keyring)
    requires ids == [] || Holds(st, p, ids, ring)
    requires id !in st.events && st'.events == st.events[id := doc]
    requires Genuine(doc, ring) && Get(doc, "event_id") == Str(id)
    requires Seal(doc, "partition") == Str(p) && Seal(doc, "sequence") == Int(|ids| + 1)
    requires Seal(doc, "previous_mac") == MacAt(st, ids, |ids| - 1) && Seal(doc, "mac").Str?
    requires p in st'.heads && st'.heads[p] == Head(|ids| + 1, Seal(doc, "mac"))
    ensures Holds(st', p, ids + [id], ring)
  {
    hide Genuine, Seal;
    var ids' := ids + [id];
    forall i | 0 <= i < |ids'| ensures Placed(st', p, ids', i, ring) {
      if i < |ids| { assert Placed(st, p, ids, i, ring); }
      if 0 < i { assert Placed(st, p, ids, i - 1, ring); }
    }
  }

  lemma HeadOfChain(st: Store, log: Log, p: string, ring: Keyring)
    requires Represents(st, log, ring)
    ensures IdsOf(log, p) == [] || Holds(st, p, IdsOf(log, p), ring)
    ensures NextSequence(st.heads, p) == |IdsOf(log, p)| + 1
    ensures LastMac(st.heads, p) == MacAt(st, IdsOf(log, p), |IdsOf(log, p)| - 1)
  {
    if p in log { assert Holds(st, p, log[p], ring); }
  }

  lemma SameFields(doc: Doc, e: Event)
    requires forall f :: f in IMMUTABLE_FIELDS ==> f in doc && doc[f] == EventFields(e)[f]
    ensures SameEvent(doc, e) && Get(doc, "event_id") == Str(e.eventId)
  {
    hide Numeric;
    assert "event_id" in IMMUTABLE_FIELDS;
    assert EventFields(e).Keys == IMMUTABLE_FIELDS;
  }

  /**
   One transaction, under a keyring that has some of the keys the store was signed with. It changes
   no stored document and never meets a unique index. A stored event is answered unless its content
   differs or its key is unknown here; a new one extends its chain unless the active key cannot sign.
   */
  lemma InsertKeepsChains(st: Store, log: Log, issued: Keyring, e: Event, p: string, now: string, ring: Keyring)
    requires Represents(st, log, issued) && ValidKeyring(ring) && KeepsKeys(ring, issued) && Complete(e)
    ensures var (st', outcome) := Insert(st, e, p, now, ring);
            && (e.eventId in st.events ==>
                  var doc := st.events[e.eventId];
                  && st' == st
                  && outcome == if Knows(ring, doc) && SameEvent(doc, e) && PyEq(Seal(doc, "partition"), Str(p))
                                then Stored(doc) else Conflict)
            && (e.eventId !in st.events && !CanSign(ring) ==> st' == st && outcome == Broken(AssertionError))
            && (e.eventId !in st.events && CanSign(ring) ==>
                 outcome.Stored? && Extends(st, log, issued, e, p, ring, st', outcome.doc))
  {
    hide Verify, Answer, NextDocument, SameEvent, Clashes, Represents, Extends, Complete, Seal, Knows, PyEq, CanSign,
        KeepsKeys;
    if e.eventId in st.events {
      StoredIsGenuine(st, log, issued, e.eventId);
      AnswerMeaning(st.events[e.eventId], e, p, ring, issued);
    } else if CanSign(ring) {
      NewEventExtends(st, log, issued, e, p, now, ring);
    } else {
      CannotSign(st, e, p, now, ring);
    }
  }

  /**
   The store gained the document of `e` at the end of the chain of `p`, signed with the active key,
   and nothing else.
   */
  ghost predicate Extends(st: Store, log: Log, issued: Keyring, e: Event, p: string, ring: Keyring, st': Store,
      doc: Doc) {
    && st'.events == st.events[e.eventId := doc]
    && SameEvent(doc, e) && Seal(doc, "partition") == Str(p) && KeyIdOf(doc) == ring.active
    && Represents(st', Append(log, p, e.eventId), issued)
    && Continues(st, log, st', Append(log, p, e.eventId))
  }

  lemma StoredIsGenuine(st: Store, log: Log, issued: Keyring, id: string)
    requires Represents(st, log, issued) && id in st.events
    ensures Genuine(st.events[id], issued)
  {
    assert Logged(log, id);
    var q :| q in log && id in log[q];
    var i :| 0 <= i < |log[q]| && log[q][i] == id;
    assert Holds(st, q, log[q], issued);
    assert Placed(st, q, log[q], i, issued);
  }

  lemma AnswerMeaning(doc: Doc, e: Event, p: string, ring: Keyring, issued: Keyring)
    requires Genuine(doc, issued) && KeepsKeys(ring, issued)
    ensures Answer(doc, e, p, ring) == if Knows(ring, doc) && SameEvent(doc, e) && PyEq(Seal(doc, "partition"), Str(p))
                                       then Stored(doc) else Conflict
  {
    hide Verify, SameEvent, PyEq, Seal, Knows;
    GenuineUnderFewerKeys(doc, ring, issued);
    GenuineLink(doc, issued);
  }

  lemma CannotSign(st: Store, e: Event, p: string, now: string, ring: Keyring)
    requires e.eventId !in st.events && ring.active in ring.keys && !CanSign(ring)
    ensures Insert(st, e, p, now, ring) == (st, Broken(AssertionError))
  {
  }

  lemma NewEventExtends(st: Store, log: Log, issued: Keyring, e: Event, p: string, now: string, ring: Keyring)
    requires Represents(st, log, issued) && ValidKeyring(ring) && KeepsKeys(ring, issued) && Complete(e)
    requires e.eventId !in st.events && CanSign(ring)
    ensures var (st', outcome) := Insert(st, e, p, now, ring);
            outcome.Stored? && Extends(st, log, issued, e, p, ring, st', outcome.doc)
  {
    hide Verify, NextDocument, Genuine, SameEvent, Clashes, Represents, Continues, Complete, Seal, Holds, KeyIdOf;
    NextDocumentFits(st, log, issued, e, p, now, ring);
    var ids := IdsOf(log, p);
    var doc := NextDocument(st.heads, e, p, now, ring).value;
    var st' := Store(st.events[e.eventId := doc], st.heads[p := Head(|ids| + 1, Seal(doc, "mac"))]);
    ExtendedChain(st, st', p, ids, e.eventId, doc, issued);
    KeysOfChains(st, log, issued);
    AppendedRepresents(st, log, st', p, e.eventId, issued);
  }

  lemma KeysOfChains(st: Store, log: Log, issued: Keyring)
    requires Represents(st, log, issued)
    ensures log.Keys == st.heads.Keys
  {
  }

  lemma NextDocumentFits(st: Store, log: Log, issued: Keyring, e: Event, p: string, now: string, ring: Keyring)
    requires Represents(st, log, issued) && ValidKeyring(ring) && KeepsKeys(ring, issued) && Complete(e)
    requires e.eventId !in st.events && CanSign(ring)
    ensures NextDocument(st.heads, e, p, now, ring).Some?
    ensures var doc, ids := NextDocument(st.heads, e, p, now, ring).value, IdsOf(log, p);
            && (ids == [] || Holds(st, p, ids, issued))
            && NextSequence(st.heads, p) == |ids| + 1
            && Genuine(doc, issued) && SameEvent(doc, e) && Get(doc, "event_id") == Str(e.eventId)
            && Seal(doc, "partition") == Str(p) && Seal(doc, "sequence") == Int(|ids| + 1)
            && Seal(doc, "previous_mac") == MacAt(st, ids, |ids| - 1) && Seal(doc, "mac").Str?
            && KeyIdOf(doc) == ring.active
            && !Clashes(st.events, doc)
  {
    hide Verify, SignedEvent, Genuine, SameEvent, Clashes, Represents, Complete, Seal, Holds, KeepsKeys;
    var sequence := NextSequence(st.heads, p);
    SignedEventIsGenuine(e, now, p, sequence, LastMac(st.heads, p), ring);
    var doc := NextDocument(st.heads, e, p, now, ring).value;
    GenuineUnderMoreKeys(doc, ring, issued);
    SameFields(doc, e);
    HeadOfChain(st, log, p, issued);
    NoClash(st, log, issued, e.eventId, p, doc);
  }

  lemma AppendedRepresents(st: Store, log: Log, st': Store, p: string, id: string, ring: Keyring)
    requires Represents(st, log, ring) && id !in st.events
    requires st'.events.Keys == st.events.Keys + {id}
    requires forall x :: x in st.events ==> st'.events[x] == st.events[x]
    requires st'.heads.Keys == st.heads.Keys + {p} && forall q :: q in st.heads && q != p ==>
      st'.heads[q] == st.heads[q]
    requires Holds(st', p, IdsOf(log, p) + [id], ring)
    ensures Represents(st', Append(log, p, id), ring)
    ensures Continues(st, log, st', Append(log, p, id))
  {
    hide Holds;
    var log' := Append(log, p, id);
    forall q | q in log' ensures Holds(st', q, log'[q], ring) {
      if q != p {
        OtherChainsStay(st, st', q, log[q], ring);
      }
    }
    forall x | x in st'.events ensures Logged(log', x) {
      if x == id {
        assert x in log'[p];
      } else {
        assert Logged(log, x);
        var q :| q in log && x in log[q];
        assert q in log' && x in log'[q];
      }
    }
  }

  /* ---------- Reading a partition and auditing it ---------- */

  function Bounded(limit: int): int {
    Max(1, Min(limit, 100000))
  }

  ghost predicate Matches(st: Store, p: string, after: int, id: string) {
    && id in st.events
    && Seal(st.events[id], "partition") == Str(p)
    && Seal(st.events[id], "sequence").Int? && Seal(st.events[id], "sequence").n > after
  }

  ghost function Number(st: Store, id: string): int
    requires id in st.events && Seal(st.events[id], "sequence").Int?
  {
    Seal(st.events[id], "sequence").n
  }

  /**
   `ids` is an answer to `iter_partition`: matching events in ascending sequence, cut off after
   `limit`, nothing skipped.
   */
  ghost predicate IsPage(st: Store, p: string, limit: int, after: int, ids: seq<string>) {
    && |ids| <= Bounded(limit)
    && (forall i :: 0 <= i < |ids| ==> Matches(st, p, after, ids[i]))
    && (forall i, j :: 0 <= i < j < |ids| ==> Number(st, ids[i]) < Number(st, ids[j]))
    && (forall id :: Matches(st, p, after, id) && id !in ids ==>
          |ids| == Bounded(limit) && forall i :: 0 <= i < |ids| ==> Number(st, ids[i]) < Number(st, id))
  }

  /** The matching events are the chain from position `after` on. */
  lemma MatchesChain(st: Store, log: Log, ring: Keyring, p: string, after: nat, id: string)
    requires Represents(st, log, ring)
    ensures Matches(st, p, after, id) <==>
            exists i :: after <= i < |IdsOf(log, p)| && IdsOf(log, p)[i] == id
    ensures Matches(st, p, after, id) ==>
              var n := Number(st, id); after < n <= |IdsOf(log, p)| && IdsOf(log, p)[n - 1] == id
  {
    hide Genuine, Seal;
    var ids := IdsOf(log, p);
    if Matches(st, p, after, id) {
      assert Logged(log, id);
      var q :| q in log && id in log[q];
      var i :| 0 <= i < |log[q]| && log[q][i] == id;
      assert Holds(st, q, log[q], ring);
      assert Placed(st, q, log[q], i, ring);
    }
    if i :| after <= i < |ids| && ids[i] == id {
      assert Holds(st, p, ids, ring);
      assert Placed(st, p, ids, i, ring);
    }
  }

  lemma ChainNumbers(st: Store, log: Log, ring: Keyring, p: string, i: nat)
    requires Represents(st, log, ring) && i < |IdsOf(log, p)|
    ensures Matches(st, p, i, IdsOf(log, p)[i]) && Number(st, IdsOf(log, p)[i]) == i + 1
  {
    hide Genuine, Seal;
    assert Holds(st, p, IdsOf(log, p), ring);
    assert Placed(st, p, IdsOf(log, p), i, ring);
  }

  lemma {:induction false} PageStart(
      st: Store, log: Log, ring: Keyring, p: string, limit: int, after: nat, ids: seq<string>, i: nat)
    requires Represents(st, log, ring) && IsPage(st, p, limit, after, ids) && i < |ids|
    ensures after + i < |IdsOf(log, p)| && Number(st, ids[i]) == after + i + 1 && ids[i] == IdsOf(log, p)[after + i]
  {
    hide Genuine, Represents, Seal;
    var chain := IdsOf(log, p);
    if i > 0 { PageStart(st, log, ring, p, limit, after, ids, i - 1); }
    MatchesChain(st, log, ring, p, after, ids[i]);
    var n := Number(st, ids[i]);
    if n > after + i + 1 {
      var skipped := chain[after + i];
      ChainNumbers(st, log, ring, p, after + i);
      MatchesChain(st, log, ring, p, after, skipped);
      assert false;
    }
  }

  /** Reading a partition returns the next part of its chain. */
  lemma PageIsChain(st: Store, log: Log, ring: Keyring, p: string, limit: int, after: nat, ids: seq<string>)
    requires Represents(st, log, ring) && IsPage(st, p, limit, after, ids)
    ensures var chain := IdsOf(log, p);
            after <= |chain| ==> ids == chain[after..Min(after + Bounded(limit), |chain|)]
  {
    hide Represents, Matches, Number;
    var chain := IdsOf(log, p);
    forall i | 0 <= i < |ids| ensures after + i < |chain| && ids[i] == chain[after + i] {
      PageStart(st, log, ring, p, limit, after, ids, i);
    }
    if |ids| > 0 { PageStart(st, log, ring, p, limit, after, ids, |ids| - 1); }
    if after + |ids| < |chain| {
      var missing := chain[after + |ids|];
      MatchesChain(st, log, ring, p, after, missing);
      ChainNumbers(st, log, ring, p, after + |ids|);
      forall k | 0 <= k < |ids| ensures ids[k] != missing {
        ChainNumbers(st, log, ring, p, after + k);
      }
      assert Matches(st, p, after, missing) && missing !in ids;
    }
    if after <= |chain| {
      assert |ids| == Min(after + Bounded(limit), |chain|) - after;
    }
  }

  ghost function DocsOf(st: Store, ids: seq<string>): seq<Doc>
    requires forall i :: 0 <= i < |ids| ==> ids[i] in st.events
  {
    seq(|ids|, i requires 0 <= i < |ids| => st.events[ids[i]])
  }

  /** The auditor has the keys of the first `n` documents. */
  ghost predicate KnowsAll(auditor: Keyring, docs: seq<Doc>) {
    forall i :: 0 <= i < |docs| ==> Knows(auditor, docs[i])
  }

  /** What an auditor with some of the keys reads off the `i`-th document of a chain. */
  lemma ChainLink(st: Store, p: string, ids: seq<string>, issued: Keyring, auditor: Keyring, i: nat)
    requires Holds(st, p, ids, issued) && KeepsKeys(auditor, issued) && i < |ids|
    ensures ids[i] in st.events
    ensures var doc := st.events[ids[i]];
            LinkOf(doc, auditor) == Link(
              if Knows(auditor, doc) then Passes else Fails(UnknownKeyId), false,
              Int(i + 1), Str(p), MacAt(st, ids, i - 1), MacAt(st, ids, i))
    ensures MacAt(st, ids, i).Str? && IsAscii(MacAt(st, ids, i).s)
  {
    hide Verify, Knows, KeepsKeys;
    assert Placed(st, p, ids, i, issued);
    var doc := st.events[ids[i]];
    GenuineLink(doc, issued);
    GenuineUnderFewerKeys(doc, auditor, issued);
    var _ := GenuineMac(doc, issued);
  }

  /** The first `n` documents of a chain are what `verify_chain` wants to see, to an auditor who has their keys. */
  lemma ChainVerifies(st: Store, p: string, ids: seq<string>, issued: Keyring, auditor: Keyring, n: nat)
    requires Holds(st, p, ids, issued) && KeepsKeys(auditor, issued) && n <= |ids|
    ensures forall i :: 0 <= i < n ==> ids[i] in st.events
    ensures var docs := DocsOf(st, ids[..n]);
            var links := Links(docs, auditor);
            && (Chained(links) <==> KnowsAll(auditor, docs))
            && (forall i :: 0 <= i < n ==>
                 links[i].mac == MacAt(st, ids, i) && links[i].mac.Str? && IsAscii(links[i].mac.s))
            && (n > 0 ==> PartitionBefore(links, n) == Str(p))
  {
    hide LinkOf, Knows, KeepsKeys, Holds, MacAt, IsAscii, PartitionBefore, PyEq;
    forall i | 0 <= i < n ensures ids[i] in st.events { ChainLink(st, p, ids, issued, auditor, i); }
    var docs := DocsOf(st, ids[..n]);
    var links := Links(docs, auditor);
    forall i | 0 <= i < n
      ensures links[i].result == Passes <==> Knows(auditor, docs[i])
      ensures !links[i].malformed && links[i].sequence == Int(i + 1) && links[i].partition == Str(p)
      ensures links[i].previousMac == MacAt(st, ids, i - 1)
      ensures links[i].mac == MacAt(st, ids, i) && links[i].mac.Str? && IsAscii(links[i].mac.s)
    {
      ChainLink(st, p, ids, issued, auditor, i);
    }
    forall i | 0 <= i <= n ensures PartitionBefore(links, i) == if i == 0 then Null else Str(p) {
      OnePartition(links, i, p);
    }
    NoMacBefore(st, ids);
    forall i | 0 <= i < n ensures Linked(links, i) <==> Knows(auditor, docs[i]) {
      SameIsEqual(links[i].previousMac);
      SameIsEqual(links[i].partition);
      assert i > 0 ==> links[i - 1].mac == MacAt(st, ids, i - 1);
    }
    assert Chained(links) <==> forall i :: 0 <= i < n ==> Linked(links, i);
  }

  lemma NoMacBefore(st: Store, ids: seq<string>)
    ensures MacAt(st, ids, -1) == Null
  {
  }

  lemma SameIsEqual(j: Json)
    ensures PyEq(j, j)
  {
  }

  lemma GenuineLink(doc: Doc, issued: Keyring)
    requires Genuine(doc, issued)
    ensures Get(doc, "integrity").Obj?
  {
    var _ := GenuineMac(doc, issued);
  }

  lemma {:induction false} OnePartition(links: seq<Link>, n: nat, p: string)
    requires n <= |links| && forall i :: 0 <= i < n ==> links[i].partition == Str(p)
    ensures PartitionBefore(links, n) == if n == 0 then Null else Str(p)
  {
    if n > 0 { OnePartition(links, n - 1, p); }
  }

  /** What `get_chain_head` reports, in the shape of a checkpoint. */
  function ChainHead(st: Store, p: string): Doc {
    if p in st.heads then
      map["partition" := Str(p), "sequence" := Int(st.heads[p].sequence), "mac" := st.heads[p].lastMac]
    else map[]
  }

  /** What `verify_chain` is given of the first `n` documents of a chain. */
  lemma ReadChain(st: Store, log: Log, issued: Keyring, auditor: Keyring, p: string, limit: int, ids: seq<string>)
    requires Represents(st, log, issued) && KeepsKeys(auditor, issued) && IsPage(st, p, limit, 0, ids)
    ensures ids == IdsOf(log, p)[..Min(Bounded(limit), |IdsOf(log, p)|)]
    ensures forall i :: 0 <= i < |ids| ==> ids[i] in st.events
    ensures var docs := DocsOf(st, ids);
            var links := Links(docs, auditor);
            && |docs| == |ids|
            && (Chained(links) <==> KnowsAll(auditor, docs))
            && (forall i :: 0 <= i < |ids| ==>
                  links[i].mac == MacAt(st, IdsOf(log, p), i) && links[i].mac.Str? && IsAscii(links[i].mac.s))
            && (ids != [] ==> PartitionBefore(links, |ids|) == Str(p))
  {
    hide Knows, LinkOf, PartitionBefore, Linked, MacAt, IsPage, IsAscii, Holds, KeepsKeys;
    PageIsChain(st, log, issued, p, limit, 0, ids);
    var chain := IdsOf(log, p);
    assert ids == chain[..|ids|];
    if chain != [] {
      ChainVerifies(st, p, chain, issued, auditor, |ids|);
    }
  }

  /**
   `audit_partition` on a store built by `insert_event`, by an auditor with some of the keys. Without
   a checkpoint it accepts if and only if the auditor has the keys of all documents read; against the
   head of any earlier moment, if and only if moreover the read limit reaches the sequence of that head.
   */
  lemma AuditAccepts(
      st0: Store, log0: Log, st: Store, log: Log, issued: Keyring, auditor: Keyring, p: string, limit: int,
          ids: seq<string>)
    requires Represents(st0, log0, issued) && Represents(st, log, issued) && Continues(st0, log0, st, log)
    requires KeepsKeys(auditor, issued) && IsPage(st, p, limit, 0, ids)
    ensures forall i :: 0 <= i < |ids| ==> ids[i] in st.events
    ensures var docs := DocsOf(st, ids);
            && (Accepts(docs, auditor, map[]) <==> KnowsAll(auditor, docs))
            && (p in st0.heads ==>
                  (Accepts(docs, auditor, ChainHead(st0, p)) <==>
                   KnowsAll(auditor, docs) && st0.heads[p].sequence <= Bounded(limit)))
  {
    hide Accepts, Links, Chained, Anchored, KnowsAll, DocsOf, IsPage, Represents, Continues, KeepsKeys,
        PartitionBefore, MacAt, ChainHead;
    ReadChain(st, log, issued, auditor, p, limit, ids);
    var docs := DocsOf(st, ids);
    VerdictMeaning(docs, auditor, map[]);
    if p in st0.heads {
      VerdictMeaning(docs, auditor, ChainHead(st0, p));
      EarlierHead(st0, log0, st, log, issued, p);
      HeadIsAnchored(st0, p, IdsOf(log0, p), st, IdsOf(log, p), docs, auditor, limit);
    }
  }

  /** The head of an earlier moment names a place of the later chain and the MAC that is still there. */
  lemma EarlierHead(st0: Store, log0: Log, st: Store, log: Log, issued: Keyring, p: string)
    requires Represents(st0, log0, issued) && Represents(st, log, issued) && Continues(st0, log0, st, log)
    requires p in st0.heads
    ensures ChainHead(st0, p) != map[]
    ensures var k := |IdsOf(log0, p)|;
            && 1 <= k <= |IdsOf(log, p)|
            && st0.heads[p] == Head(k, MacAt(st, IdsOf(log, p), k - 1))
  {
    hide Placed;
    var chain0 := log0[p];
    assert Holds(st0, p, chain0, issued);
    assert Placed(st0, p, chain0, |chain0| - 1, issued);
    LastPlaced(st0, p, chain0, issued);
    assert "partition" in ChainHead(st0, p);
  }

  lemma LastPlaced(st: Store, p: string, ids: seq<string>, issued: Keyring)
    requires Holds(st, p, ids, issued)
    ensures ids[|ids| - 1] in st.events
  {
    assert Placed(st, p, ids, |ids| - 1, issued);
  }

  lemma HeadIsAnchored(
      st0: Store, p: string, chain0: seq<string>, st: Store, chain: seq<string>, docs: seq<Doc>, auditor: Keyring,
          limit: int)
    requires p in st0.heads && 1 <= |chain0| <= |chain| && |docs| == Min(Bounded(limit), |chain|)
    requires st0.heads[p] == Head(|chain0|, MacAt(st, chain, |chain0| - 1))
    requires var links := Links(docs, auditor);
             && (forall i :: 0 <= i < |docs| ==>
                   links[i].mac == MacAt(st, chain, i) && links[i].mac.Str? && IsAscii(links[i].mac.s))
             && (docs != [] ==> PartitionBefore(links, |docs|) == Str(p))
    ensures Anchored(Links(docs, auditor), ChainHead(st0, p)) <==> st0.heads[p].sequence <= Bounded(limit)
  {
    hide LinkOf, PartitionBefore, MacAt, IsAscii, Bounded, PyEq;
    var checkpoint, k := ChainHead(st0, p), |chain0|;
    assert Get(checkpoint, "sequence") == Int(k) && Get(checkpoint, "partition") == Str(p);
    assert CheckpointMac(checkpoint) == AsText(MacAt(st, chain, k - 1));
    SameIsEqual(Str(p));
    BoundedIsPositive(limit);
    if k <= |docs| { assert Links(docs, auditor)[k - 1].mac == MacAt(st, chain, k - 1); }
  }

  lemma BoundedIsPositive(limit: int)
    ensures Bounded(limit) >= 1
  {
  }
}
