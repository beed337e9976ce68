/** What holds in every run of the outbox, whatever its workers do and however often they crash. */
module OutboxSafety {
  import opened Prelude
  import opened CanonicalJson
  import opened AuditDocuments
  import opened AuditChain
  import opened MongoLog
  import opened Outbox
  import opened OutboxRuns

  /* ---------- Every reachable state ---------- */

  lemma {:induction false} RunKeeps(s: System, steps: seq<Step>)
    requires Inv(s)
    ensures Inv(Run(s, steps)) && Run(s, steps).issued == s.issued
  {
    hide Inv, Apply;
    RunKeepsIssued(s, steps);
    if steps != [] {
      RunKeeps(s, steps[..|steps| - 1]);
      StepKeeps(Run(s, steps[..|steps| - 1]), steps[|steps| - 1]);
    }
  }

  lemma {:induction false} RunKeepsIssued(s: System, steps: seq<Step>)
    ensures Run(s, steps).issued == s.issued
  {
    hide Apply;
    if steps != [] {
      RunKeepsIssued(s, steps[..|steps| - 1]);
      StepKeepsIssued(Run(s, steps[..|steps| - 1]), steps[|steps| - 1]);
    }
  }

  lemma StepKeepsIssued(s: System, step: Step)
    ensures Apply(s, step).issued == s.issued
  {
    hide Enqueue, ClaimOne, Insert, StageAfter, Recorded, Usable;
  }

  /**
   What `insert_event` does for any worker at any moment of any run. It raises AuditDeliveryConflict if
   and only if the event is stored under a key this worker does not have, and an AssertionError if and
   only if the event is not stored and this worker's active key is not of 32 bytes; otherwise it stores
   or answers the document. No unique index ever refuses anything.
   */
  lemma ConflictMeansUnknownKey(issued: Keyring, steps: seq<Step>, w: nat, now: Timestamp)
    requires w in Run(Initial(issued), steps).workers
    ensures Usable(issued, Run(Initial(issued), steps).workers[w].ring)
    ensures var s := Run(Initial(issued), steps);
            var lease := s.workers[w];
            var id := lease.event.eventId;
            var outcome := Insert(s.store, lease.event, lease.partition, now, RingOf(issued, lease.ring)).1;
            && (outcome == Conflict <==> id in s.store.events && KeyIdOf(s.store.events[id]) !in lease.ring.ids)
            && (outcome.Broken? <==> id !in s.store.events && !Signs(issued, lease.ring))
            && (outcome.Broken? ==> outcome.exception == AssertionError)
            && outcome != DuplicateKey && lease.stage != Failed(DuplicateKeyError)
  {
    hide Insert, Apply, KeyIdOf, Signs, Extends, RingOf, Usable;
    InitialOk(issued);
    RunKeeps(Initial(issued), steps);
    var s := Run(Initial(issued), steps);
    InsertDelivers(s, w, now);
    assert LeaseOk(s.workers[w], s.rows, s.store, s.drawn);
  }

  /**
   What a worker holds after its one `insert_event`: the transport error where the call is cut off,
   whether or not its transaction has committed; else a conflict, if the event is stored under a key
   it lacks; else an AssertionError, if it is to sign with a key that is not of 32 bytes; else the
   sequence number and the MAC of the stored document.
   */
  ghost predicate DeliveryEnds(s: System, t: System, lease: Lease, stage: Stage, fate: Fate) {
    var id := lease.event.eventId;
    match fate
    case Aborted(name) => stage == Failed(Transport(name)) && t.store == s.store
    case Unseen(name) => stage == Failed(Transport(name))
    case Answered =>
      if id in s.store.events && KeyIdOf(s.store.events[id]) !in lease.ring.ids then
        stage == Failed(DeliveryConflict) && t.store == s.store
      else if id !in s.store.events && lease.ring.active in s.issued.keys
          && |s.issued.keys[lease.ring.active]| != 32 then
        stage == Failed(Uncaught(AssertionError)) && t.store == s.store
      else
        && id in t.store.events && stage.Received? && Seal(t.store.events[id], "sequence") == Int(stage.sequence)
        && Seal(t.store.events[id], "mac") == Str(stage.mac)
  }

  lemma InsertionMeaning(s: System, w: nat, now: Timestamp, fate: Fate)
    requires Inv(s) && w in s.workers
    ensures var t, lease := Apply(s, InsertStep(w, now, fate)), s.workers[w];
            if lease.stage != Claimed then t == s
            else
              && w in t.workers && t.workers == s.workers[w := lease.(stage := t.workers[w].stage)]
              && t.rows == s.rows && t.drawn == s.drawn && t.issued == s.issued
              && DeliveryEnds(s, t, lease, t.workers[w].stage, fate)
              && (fate.Unseen? ==> t.store == Apply(s, InsertStep(w, now, Answered)).store)
  {
    hide Inv, Insert, RingOf, KeyIdOf, SameEvent, Continues, Represents, Seal, StageAfter, Usable;
    InsertDelivers(s, w, now);
    if s.workers[w].stage == Claimed {
      SignsMeaning(s.issued, s.workers[w].ring);
      if fate == Answered { ReceiptArrives(s, w, now); }
    }
  }

  lemma SignsMeaning(issued: Keyring, ring: Ring)
    requires Usable(issued, ring)
    ensures ring.active in issued.keys && (Signs(issued, ring) <==> |issued.keys[ring.active]| == 32)
  {
  }

  /** The stages that the three kinds of outcome lead to. */
  lemma StagesOfOutcomes(partition: string, exception: Exception)
    ensures StageAfter(Conflict, partition) == Failed(DeliveryConflict)
    ensures StageAfter(Broken(exception), partition) == Failed(Uncaught(exception))
  {
  }

  lemma ReceiptArrives(s: System, w: nat, now: Timestamp)
    requires Inv(s) && Inserts(s, w)
    ensures var t := Apply(s, InsertStep(w, now, Answered));
            && w in t.workers
            && DeliveryEnds(s, t, s.workers[w], t.workers[w].stage, Answered)
  {
    hide Inv, Insert, RingOf, KeyIdOf, SameEvent, Continues, Represents, Seal, StageAfter, Usable, Extends, ReceiptOf;
    InsertDelivers(s, w, now);
    SignsMeaning(s.issued, s.workers[w].ring);
    StagesOfOutcomes(s.workers[w].partition, AssertionError);
    var lease, t := s.workers[w], Apply(s, InsertStep(w, now, Answered));
    var id := lease.event.eventId;
    StepKeeps(s, InsertStep(w, now, Answered));
    InvRepresents(t);
    WorkerLease(t, w);
    if id in s.store.events {
      if KeyIdOf(s.store.events[id]) in lease.ring.ids {
        LeaseIsFaithful(t, w);
        ReceiptIsValid(t.store, t.log, t.issued, id, lease.partition);
      } else {
        assert t.workers[w].stage == StageAfter(Conflict, lease.partition) && t.store == s.store;
      }
    } else if Signs(s.issued, lease.ring) {
      var (store, outcome) := Insert(s.store, lease.event, lease.partition, now, RingOf(s.issued, lease.ring));
      NewIsStored(s, lease, store, outcome);
      LeaseIsFaithful(t, w);
      ReceiptIsValid(t.store, t.log, t.issued, id, lease.partition);
    }
  }

  /** The receipt of a stored document of the right partition is valid. */
  lemma ReceiptIsValid(store: Store, log: Log, issued: Keyring, id: string, partition: string)
    requires Represents(store, log, issued) && id in store.events
    requires Seal(store.events[id], "partition") == Str(partition)
    ensures StageAfter(Stored(store.events[id]), partition).Received?
  {
    hide Verify;
    assert Logged(log, id);
    var q :| q in log && id in log[q];
    var i :| 0 <= i < |log[q]| && log[q][i] == id;
    assert Holds(store, q, log[q], issued);
    assert Placed(store, q, log[q], i, issued);
    var _ := GenuineMac(store.events[id], issued);
  }

  /** What is stored of a worker's event is in the worker's partition. */
  lemma LeaseIsFaithful(s: System, w: nat)
    requires Inv(s) && w in s.workers && s.workers[w].event.eventId in s.store.events
    ensures Seal(s.store.events[s.workers[w].event.eventId], "partition") == Str(s.workers[w].partition)
  {
    hide Represents, Complete, SameEvent, ReceiptOf, Seal, TokensOk, DistinctEvents, EventsHaveRows;
    assert LeaseOk(s.workers[w], s.rows, s.store, s.drawn);
    assert RowOk(s.rows[s.workers[w].index], s.store, s.drawn);
  }

  lemma NewIsStored(s: System, lease: Lease, store: Store, outcome: InsertOutcome)
    requires Delivery(s, lease, store, outcome) && lease.event.eventId !in s.store.events && Signs(s.issued, lease.ring)
    ensures lease.event.eventId in store.events && outcome == Stored(store.events[lease.event.eventId])
  {
    hide Represents, SameEvent, KeyIdOf, Signs, Genuine;
  }

  lemma WorkerLease(s: System, w: nat)
    requires Inv(s) && w in s.workers
    ensures var lease := s.workers[w];
            lease.stage.Received? ==>
              && lease.event.eventId in s.store.events
              && Seal(s.store.events[lease.event.eventId], "sequence") == Int(lease.stage.sequence)
              && Seal(s.store.events[lease.event.eventId], "mac") == Str(lease.stage.mac)
  {
    hide Represents, RowOk, TokensOk, DistinctEvents, EventsHaveRows, RingsOk, Seal;
    assert LeaseOk(s.workers[w], s.rows, s.store, s.drawn);
  }

  /* ---------- Bringing in a key ---------- */

  function Activates(step: Step): set<string> {
    if step.ClaimStep? then {step.ring.active} else {}
  }

  /** The keys that claiming workers were to sign with. */
  function Activated(steps: seq<Step>): set<string> {
    if steps == [] then {} else Activated(steps[..|steps| - 1]) + Activates(steps[|steps| - 1])
  }

  /** Whoever starts work knows every key activated before, and activates one that all workers at work know. */
  ghost predicate KnownBeforeActive(s: System, steps: seq<Step>) {
    steps == [] ||
    (var init, step := steps[..|steps| - 1], steps[|steps| - 1];
     && KnownBeforeActive(s, init)
     && (step.ClaimStep? ==>
           && Activated(init) <= step.ring.ids
           && forall w :: w in Run(s, init).workers ==> step.ring.active in Run(s, init).workers[w].ring.ids))
  }

  /** Every worker knows every key a document can have been signed with. */
  ghost predicate AllKnown(s: System, activated: set<string>) {
    && (forall id :: id in s.store.events ==> KeyIdOf(s.store.events[id]) in activated)
    && (forall w :: w in s.workers ==>
          && activated <= s.workers[w].ring.ids && s.workers[w].ring.active in activated
          && s.workers[w].stage != Failed(DeliveryConflict))
  }

  lemma StepKeepsKnown(s: System, step: Step, activated: set<string>)
    requires Inv(s) && AllKnown(s, activated)
    requires step.ClaimStep? ==>
               activated <= step.ring.ids && forall w :: w in s.workers ==> step.ring.active in s.workers[w].ring.ids
    ensures AllKnown(Apply(s, step), activated + Activates(step))
  {
    hide Inv, Enqueue, ClaimOne, Deliver, Recorded, KeyIdOf, Inserts;
    if step.InsertStep? && Inserts(s, step.w) {
      InsertKeepsKnown(s, step.w, step.now, step.fate, activated);
    }
  }

  lemma InsertKeepsKnown(s: System, w: nat, now: Timestamp, fate: Fate, activated: set<string>)
    requires Inv(s) && AllKnown(s, activated) && Inserts(s, w)
    ensures AllKnown(Deliver(s, w, now, fate), activated)
  {
    hide Inv, Insert, Usable, KeyIdOf, RingOf, Signs, Represents, Continues, SameEvent, ValidatedReceipt;
    InsertDelivers(s, w, now);
    RingActive(s.issued, s.workers[w].ring);
  }

  lemma RingActive(issued: Keyring, ring: Ring)
    ensures RingOf(issued, ring).active == ring.active
  {
  }

  lemma {:induction false} RunKeepsKnown(issued: Keyring, steps: seq<Step>)
    requires KnownBeforeActive(Initial(issued), steps)
    ensures AllKnown(Run(Initial(issued), steps), Activated(steps))
  {
    hide Inv, Apply, AllKnown, Activates;
    if steps == [] {
      NobodyYet(issued);
    } else {
      var init := steps[..|steps| - 1];
      RunKeepsKnown(issued, init);
      InitialOk(issued);
      RunKeeps(Initial(issued), init);
      StepKeepsKnown(Run(Initial(issued), init), steps[|steps| - 1], Activated(init));
    }
  }

  lemma NobodyYet(issued: Keyring)
    ensures AllKnown(Initial(issued), {})
  {
  }

  /** If every worker gets a key before anybody signs with it, no run raises AuditDeliveryConflict. */
  lemma NoConflictWhenKnownFirst(issued: Keyring, steps: seq<Step>, w: nat, now: Timestamp)
    requires KnownBeforeActive(Initial(issued), steps) && w in Run(Initial(issued), steps).workers
    ensures Usable(issued, Run(Initial(issued), steps).workers[w].ring)
    ensures var s := Run(Initial(issued), steps);
            var lease := s.workers[w];
            && lease.stage != Failed(DeliveryConflict)
            && Insert(s.store, lease.event, lease.partition, now, RingOf(issued, lease.ring)).1 != Conflict
  {
    hide Insert, Apply, KeyIdOf, RingOf, Usable, Signs, KnownBeforeActive;
    RunKeepsKnown(issued, steps);
    ConflictMeansUnknownKey(issued, steps, w, now);
  }

  /* ---------- A key brought in too early ---------- */

  /**
   A worker stores the document and dies before it records that. Another one, without the key of the
   first, takes the row over when the lease has run out.
   */
  function TakeOver(r: Request, a: Ring, b: Ring): seq<Step> {
    [EnqueueStep(r, "1970-01", 0), ClaimStep(0, 0, 30, a), InsertStep(0, "1970-01", Answered), CrashStep(0),
     ClaimStep(1, 30, 30, b), InsertStep(1, "1970-01", Answered)]
  }

  lemma {:induction false} RunSteps(s: System, steps: seq<Step>, n: nat)
    requires n < |steps|
    ensures Run(s, steps[..n + 1]) == Apply(Run(s, steps[..n]), steps[n])
  {
    assert steps[..n + 1][..n] == steps[..n];
  }

  lemma ClaimFirstRow(s: System, w: nat, clock: int, ring: Ring)
    requires |s.rows| == 1 && Claimable(s.rows[0], clock, 30)
    requires w !in s.workers && Usable(s.issued, ring)
    ensures var lease := Lease(0, s.rows[0].event, s.rows[0].partition, s.rows[0].attempts, s.drawn, ring, Claimed);
            Apply(s, ClaimStep(w, clock, 30, ring)) ==
            s.(rows := [Leased(s.rows[0], clock, s.drawn)], drawn := s.drawn + 1, workers := s.workers[w := lease])
  {
    hide Claimable, Usable;
    assert FirstClaimable(s.rows, 1, clock, 30) == Some(0);
  }

  /** So the conflict does happen, whatever event the run is about. */
  lemma ConflictHappens(issued: Keyring, r: Request, a: Ring, b: Ring)
    requires Usable(issued, a) && Usable(issued, b) && Signs(issued, a) && a.active !in b.ids
    requires Enqueue([], r, "1970-01", 0).1.Queued?
    ensures var s := Run(Initial(issued), TakeOver(r, a, b));
            1 in s.workers && s.workers[1].stage == Failed(DeliveryConflict)
  {
    hide Apply, Run, Inv, Usable, Signs, Enqueue, Insert, Extends, Delivery;
    var steps := TakeOver(r, a, b);
    var s0 := Initial(issued);
    InitialOk(issued);
    var s1 := Apply(s0, steps[0]);
    FirstRow(issued, r);
    StepKeeps(s0, steps[0]);
    var s2 := Apply(s1, steps[1]);
    ClaimFirstRow(s1, 0, 0, a);
    StepKeeps(s1, steps[1]);
    var s3 := Apply(s2, steps[2]);
    Stores(s2, 0, "1970-01");
    StepKeeps(s2, steps[2]);
    var s4 := Apply(s3, steps[3]);
    Crashes(s3, 0);
    StepKeeps(s3, steps[3]);
    var s5 := Apply(s4, steps[4]);
    ClaimFirstRow(s4, 1, 30, b);
    StepKeeps(s4, steps[4]);
    Collides(s5, 1, "1970-01");
    SixSteps(s0, steps);
  }

  lemma SixSteps(s: System, steps: seq<Step>)
    requires |steps| == 6
    ensures Run(s, steps) == Apply(Apply(Apply(Apply(Apply(Apply(s, steps[0]), steps[1]), steps[2]), steps[3]),
        steps[4]), steps[5])
  {
    hide Apply;
    assert Run(s, steps[..0]) == s;
    RunSteps(s, steps, 0);
    RunSteps(s, steps, 1);
    RunSteps(s, steps, 2);
    RunSteps(s, steps, 3);
    RunSteps(s, steps, 4);
    RunSteps(s, steps, 5);
    assert steps[..6] == steps;
  }

  lemma FirstRow(issued: Keyring, r: Request)
    requires Enqueue([], r, "1970-01", 0).1.Queued?
    ensures var s := Apply(Initial(issued), EnqueueStep(r, "1970-01", 0));
            && |s.rows| == 1 && Claimable(s.rows[0], 0, 30) && s == Initial(issued).(rows := s.rows)
  {
    hide BuildEvent, PartitionFor;
  }

  lemma Stores(s: System, w: nat, now: Timestamp)
    requires Inv(s) && Inserts(s, w) && Signs(s.issued, s.workers[w].ring)
      && s.workers[w].event.eventId !in s.store.events
    ensures var t := Apply(s, InsertStep(w, now, Answered));
            var id := s.workers[w].event.eventId;
            && t.rows == s.rows && t.drawn == s.drawn && t.issued == s.issued && t.workers.Keys == s.workers.Keys
            && id in t.store.events && KeyIdOf(t.store.events[id]) == s.workers[w].ring.active
  {
    hide Inv, Insert, Usable, KeyIdOf, RingOf, Signs, Represents, Continues, SameEvent, StageAfter;
    InsertDelivers(s, w, now);
    RingActive(s.issued, s.workers[w].ring);
  }

  lemma Crashes(s: System, w: nat)
    ensures Apply(s, CrashStep(w)) == s.(workers := s.workers - {w})
  {
  }

  lemma Collides(s: System, w: nat, now: Timestamp)
    requires Inv(s) && Inserts(s, w) && s.workers[w].event.eventId in s.store.events
    requires KeyIdOf(s.store.events[s.workers[w].event.eventId]) !in s.workers[w].ring.ids
    ensures var t := Apply(s, InsertStep(w, now, Answered));
            w in t.workers && t.workers[w].stage == Failed(DeliveryConflict)
  {
    hide Inv, Insert, Usable, KeyIdOf, RingOf, Signs, Extends;
    InsertDelivers(s, w, now);
  }

  /** A delivered row names a genuine document that carries its event, its partition and its receipt. */
  lemma DeliveredMeansStored(issued: Keyring, steps: seq<Step>, i: nat)
    requires i < |Run(Initial(issued), steps).rows| && Run(Initial(issued), steps).rows[i].status == Delivered
    ensures var s := Run(Initial(issued), steps);
            Backed(s.rows[i], s.store, issued)
  {
    hide Apply;
    InitialOk(issued);
    RunKeeps(Initial(issued), steps);
    DeliveredIsBacked(Run(Initial(issued), steps), i);
  }

  ghost predicate Backed(row: Row, store: Store, issued: Keyring) {
    && row.event.eventId in store.events
    && var doc := store.events[row.event.eventId];
       && Genuine(doc, issued) && SameEvent(doc, row.event)
       && Seal(doc, "partition") == Str(row.partition)
       && row.deliverySequence.Some? && Seal(doc, "sequence") == Int(row.deliverySequence.value)
       && Seal(doc, "mac") == Str(row.deliveryMac)
  }

  lemma DeliveredIsBacked(s: System, i: nat)
    requires Inv(s) && i < |s.rows| && s.rows[i].status == Delivered
    ensures Backed(s.rows[i], s.store, s.issued)
  {
    hide Genuine, SameEvent, Seal, Complete, RingsOk, LeaseOk, TokensOk, DistinctEvents, EventsHaveRows;
    var row := s.rows[i];
    assert RowOk(row, s.store, s.drawn);
    var id := row.event.eventId;
    assert Logged(s.log, id);
    var q :| q in s.log && id in s.log[q];
    var k :| 0 <= k < |s.log[q]| && s.log[q][k] == id;
    assert Holds(s.store, q, s.log[q], s.issued);
    assert Placed(s.store, q, s.log[q], k, s.issued);
  }

  /** An event is enqueued once, and its document stands at one place of one chain. */
  lemma OneRowOneDocument(issued: Keyring, steps: seq<Step>, i: nat, j: nat, p: string, k: nat, q: string, l: nat)
    requires i < |Run(Initial(issued), steps).rows| && j < |Run(Initial(issued), steps).rows|
    requires var log := Run(Initial(issued), steps).log; p in log && k < |log[p]| && q in log && l < |log[q]|
    ensures var s := Run(Initial(issued), steps);
            && (s.rows[i].event.eventId == s.rows[j].event.eventId ==> i == j)
            && (s.log[p][k] == s.log[q][l] ==> p == q && k == l)
  {
    hide Apply, RowOk, LeaseOk, TokensOk;
    InitialOk(issued);
    RunKeeps(Initial(issued), steps);
    var s := Run(Initial(issued), steps);
    if s.log[p][k] == s.log[q][l] { OnePlace(s.store, s.log, s.issued, p, k, q, l); }
  }

  /* ---------- What later steps cannot change ---------- */

  lemma ContinuesTransitive(a: Store, la: Log, b: Store, lb: Log, c: Store, lc: Log)
    requires Continues(a, la, b, lb) && Continues(b, lb, c, lc)
    ensures Continues(a, la, c, lc)
  {
  }

  lemma StepContinues(s: System, step: Step)
    requires Inv(s)
    ensures Continues(s.store, s.log, Apply(s, step).store, Apply(s, step).log)
  {
    hide Inv, Recorded, Enqueue, ClaimOne, Deliver, Usable;
    if step.InsertStep? && Inserts(s, step.w) {
      InsertContinues(s, step.w, step.now, step.fate);
    }
  }

  lemma InsertContinues(s: System, w: nat, now: Timestamp, fate: Fate)
    requires Inv(s) && Inserts(s, w)
    ensures Continues(s.store, s.log, Deliver(s, w, now, fate).store, Deliver(s, w, now, fate).log)
  {
    hide Inv, Insert, Represents, SameEvent, Seal, StageAfter, Usable, RingOf, Signs, KeyIdOf;
    InsertDelivers(s, w, now);
    ContinuesItself(s.store, s.log);
  }

  lemma ContinuesItself(st: Store, log: Log)
    ensures Continues(st, log, st, log)
  {
  }

  /** Stored documents never change and chains only grow at their ends. */
  lemma {:induction false} RunContinues(s: System, steps: seq<Step>)
    requires Inv(s)
    ensures Continues(s.store, s.log, Run(s, steps).store, Run(s, steps).log)
  {
    hide Inv, Apply;
    if steps != [] {
      var t := Run(s, steps[..|steps| - 1]);
      RunKeeps(s, steps[..|steps| - 1]);
      RunContinues(s, steps[..|steps| - 1]);
      StepContinues(t, steps[|steps| - 1]);
      var u := Run(s, steps);
      ContinuesTransitive(s.store, s.log, t.store, t.log, u.store, u.log);
    }
  }

  /**
   `audit_partition` in any state of any run, by an auditor with some of the keys, accepts if and only
   if the auditor has the keys of the documents read; against a chain head taken at any earlier moment
   of the run, if and only if moreover the read limit reaches that head.
   */
  lemma AuditsPass(
      issued: Keyring, steps: seq<Step>, later: seq<Step>, auditor: Keyring, p: string, limit: int, ids: seq<string>)
    requires KeepsKeys(auditor, issued)
    requires IsPage(Run(Run(Initial(issued), steps), later).store, p, limit, 0, ids)
    ensures var s0 := Run(Initial(issued), steps);
            var s := Run(s0, later);
            && (forall i :: 0 <= i < |ids| ==> ids[i] in s.store.events)
            && var docs := DocsOf(s.store, ids);
               && (Accepts(docs, auditor, map[]) <==> KnowsAll(auditor, docs))
               && (p in s0.store.heads ==>
                     (Accepts(docs, auditor, ChainHead(s0.store, p)) <==>
                      KnowsAll(auditor, docs) && s0.store.heads[p].sequence <= Bounded(limit)))
  {
    hide Apply, Accepts, IsPage, Inv, ChainHead, KnowsAll, KeepsKeys;
    InitialOk(issued);
    RunKeeps(Initial(issued), steps);
    var s0 := Run(Initial(issued), steps);
    RunKeeps(s0, later);
    RunContinues(s0, later);
    var s := Run(s0, later);
    InvRepresents(s0);
    InvRepresents(s);
    AuditAccepts(s0.store, s0.log, s.store, s.log, issued, auditor, p, limit, ids);
  }

  ghost predicate Settled(row: Row) {
    row.status == Delivered || row.status == Dead
  }

  lemma StepKeepsSettledRows(s: System, step: Step, i: nat)
    requires Inv(s) && i < |s.rows| && Settled(s.rows[i])
    ensures i < |Apply(s, step).rows| && Apply(s, step).rows[i] == s.rows[i]
  {
    hide Insert, StageAfter, Usable, Represents, RingsOk, RowOk, LeaseOk, TokensOk, EventsHaveRows, DeliveredRow,
        FailedRow, FirstClaimable;
    match step
    case EnqueueStep(r, now, clock) =>
      hide Enqueue;
      forall k | 0 <= k < |s.rows| ensures Complete(s.rows[k].event) { assert RowComplete(s, k); }
      EnqueueMeaning(s.rows, r, now, clock);
    case _ =>
  }

  ghost predicate RowComplete(s: System, k: nat)
    requires Inv(s) && k < |s.rows|
    ensures RowComplete(s, k) && Complete(s.rows[k].event)
  {
    assert RowOk(s.rows[k], s.store, s.drawn);
    true
  }

  /** DELIVERED and DEAD are final: such a row, its receipt included, never changes again. */
  lemma {:induction false} SettledRowsStay(s: System, steps: seq<Step>, i: nat)
    requires Inv(s) && i < |s.rows| && Settled(s.rows[i])
    ensures i < |Run(s, steps).rows| && Run(s, steps).rows[i] == s.rows[i]
  {
    hide Inv, Apply;
    if steps != [] {
      RunKeeps(s, steps[..|steps| - 1]);
      SettledRowsStay(s, steps[..|steps| - 1], i);
      StepKeepsSettledRows(Run(s, steps[..|steps| - 1]), steps[|steps| - 1], i);
    }
  }

  /* ---------- Lost leases ---------- */

  /** The token has been drawn and guards no row (any more). */
  ghost predicate Spent(s: System, token: nat) {
    token < s.drawn && forall i :: 0 <= i < |s.rows| ==> s.rows[i].lockToken != Some(token)
  }

  lemma StepKeepsSpent(s: System, step: Step, token: nat)
    requires Inv(s) && Spent(s, token)
    ensures Spent(Apply(s, step), token)
  {
    hide Insert, StageAfter, Usable, Represents, RingsOk, RowOk, LeaseOk, TokensOk, EventsHaveRows, FirstClaimable;
    match step
    case EnqueueStep(r, now, clock) =>
      hide Enqueue;
      forall k | 0 <= k < |s.rows| ensures Complete(s.rows[k].event) { assert RowComplete(s, k); }
      EnqueueMeaning(s.rows, r, now, clock);
      var rows := Apply(s, step).rows;
      assert forall i :: 0 <= i < |s.rows| ==> rows[i] == s.rows[i];
    case _ =>
  }

  lemma {:induction false} SpentStays(s: System, steps: seq<Step>, token: nat)
    requires Inv(s) && Spent(s, token)
    ensures Spent(Run(s, steps), token)
  {
    hide Inv, Apply, Spent;
    if steps != [] {
      RunKeeps(s, steps[..|steps| - 1]);
      SpentStays(s, steps[..|steps| - 1], token);
      StepKeepsSpent(Run(s, steps[..|steps| - 1]), steps[|steps| - 1], token);
    }
  }

  /** Whoever claims a row takes the lease from every worker that still holds it. */
  lemma ClaimTakesTheLease(s: System, v: nat, clock: int, leaseSeconds: int, ring: Ring, w: nat)
    requires Inv(s) && v !in s.workers && w in s.workers
    requires var t := Apply(s, ClaimStep(v, clock, leaseSeconds, ring));
             v in t.workers && t.workers[v].index == s.workers[w].index
    ensures Spent(Apply(s, ClaimStep(v, clock, leaseSeconds, ring)), s.workers[w].token)
  {
    hide Represents, RingsOk, Usable, RowOk, EventsHaveRows, DistinctEvents, ReceiptOf;
    assert LeaseOk(s.workers[w], s.rows, s.store, s.drawn);
  }

  /**
   A worker whose lease is gone changes no row, no matter what happens between losing the lease and
   its closing write.
   */
  lemma LostLeaseWritesNothing(s: System, w: nat, steps: seq<Step>, v: nat, maxAttempts: int, clock: int)
    requires Inv(s) && w in s.workers
    requires s.workers[w].index < |s.rows| && s.rows[s.workers[w].index].lockToken != Some(s.workers[w].token)
    requires v in Run(s, steps).workers && Run(s, steps).workers[v].token == s.workers[w].token
    ensures var t := Run(s, steps);
            Apply(t, RecordStep(v, maxAttempts, clock)).rows == t.rows
  {
    hide Represents, RingsOk, RowOk, EventsHaveRows, DistinctEvents, ReceiptOf, Run;
    assert LeaseOk(s.workers[w], s.rows, s.store, s.drawn);
    assert Spent(s, s.workers[w].token);
    SpentStays(s, steps, s.workers[w].token);
  }

  /** The class name of the exception that ended the delivery, as far as the row's column holds it. */
  ghost predicate NamesError(text: string, e: DeliveryError) {
    match e
    case Transport(name) => if |name| <= 64 then text == name else text == name[..64]
    case DeliveryConflict => text == "AuditDeliveryConflict"
    case DuplicateKeyError => text == "DuplicateKeyError"
    case InvalidReceipt => text == "InvalidAuditReceipt"
    case Uncaught(AssertionError) => text == "AssertionError"
    case Uncaught(TypeError) => text == "TypeError"
    case Uncaught(AttributeError) => text == "AttributeError"
  }

  /** What one closing write makes of the row it hits. */
  ghost predicate CountsOneAttempt(before: Row, after: Row, stage: Stage, maxAttempts: int, clock: int) {
    var n := before.attempts + 1;
    match stage
    case Claimed => after == before
    case Received(sequence, mac) =>
      after == before.(status := Delivered, attempts := n, lockedAt := None, lockToken := None, lastError := "",
                       deliverySequence := Some(sequence), deliveryMac := mac)
    case Failed(error) =>
      && after.status == (if n >= maxAttempts then Dead else Pending)
      && after.nextAttemptAt == clock + WAITS[if n < 12 then n else 12] && NamesError(after.lastError, error)
      && after == before.(status := after.status, attempts := n, lockedAt := None, lockToken := None,
                          nextAttemptAt := after.nextAttemptAt, lastError := after.lastError)
  }

  /**
   A closing write takes effect if and only if the row is still in processing under this very lease;
   it then hits that row only and counts one attempt more than the row shows at that moment.
   */
  lemma RecordCountsOneAttempt(rows: seq<Row>, lease: Lease, maxAttempts: int, clock: int)
    requires lease.index < |rows| && lease.stage != Claimed
    requires rows[lease.index].lockToken == Some(lease.token) ==> rows[lease.index].attempts == lease.attempts
    ensures var after := Recorded(rows, lease, maxAttempts, clock);
            var row := rows[lease.index];
            if row.status == Processing && row.lockToken == Some(lease.token)
            then |after| == |rows| && after == rows[lease.index := after[lease.index]]
                   && CountsOneAttempt(row, after[lease.index], lease.stage, maxAttempts, clock)
            else after == rows
  {
    hide Backoff;
    BackoffIsTabled(lease.attempts + 1);
  }

  /**
   A delivery that failed for the n-th time is not tried again before 2^n seconds have passed, or an
   hour from the twelfth failure on, and may be tried from then on unless it was the last attempt.
   */
  lemma BackoffHolds(before: Row, after: Row, error: DeliveryError, maxAttempts: int, clock: int, later: int,
      leaseSeconds: int, token: nat)
    requires CountsOneAttempt(before, after, Failed(error), maxAttempts, clock)
    ensures var n := before.attempts + 1;
            ClaimOne([after], later, leaseSeconds, token).1.Some? <==>
            n < maxAttempts && later >= clock + WAITS[if n < 12 then n else 12]
  {
    ClaimTakesTheOldest([after], later, leaseSeconds, token);
    assert [after][0] == after;
  }
}
