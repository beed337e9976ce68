/** A delivery batch that nobody disturbs gets every due row delivered. */
module OutboxProgress {
  import opened Prelude
  import opened CanonicalJson
  import opened AuditDocuments
  import opened MongoLog
  import opened Outbox
  import opened OutboxRuns
  import opened OutboxSafety
  import opened OutboxDelivery

  /** Nobody else takes a step in this round and the answer of `insert_event` arrives. */
  ghost predicate Quiet(round: Round) {
    round.before == [] && round.between == [] && round.after == [] && round.fate == Answered
  }

  ghost function Due(rows: seq<Row>, clock: int, leaseSeconds: int): set<nat> {
    set i: nat | i < |rows| && AwaitsWorker(rows[i], clock, leaseSeconds)
  }

  /** The worker knows the keys of those due events that are stored already. */
  ghost predicate KnowsDue(s: System, b: Batch, clock: int) {
    forall i :: i in Due(s.rows, clock, b.leaseSeconds) && s.rows[i].event.eventId in s.store.events ==>
      KeyIdOf(s.store.events[s.rows[i].event.eventId]) in b.ring.ids
  }

  /** The worker is free, and its keyring is accepted and can sign. */
  ghost predicate Ready(s: System, b: Batch) {
    Inv(s) && b.me !in s.workers && Usable(s.issued, b.ring) && Signs(s.issued, b.ring)
  }

  /* ---------- One undisturbed turn ---------- */

  /** The row at `i` has been delivered and no other row or document has changed. */
  ghost predicate DeliversOnly(s: System, i: nat, t: System) {
    && i < |s.rows| && |t.rows| == |s.rows| && t.rows[i].status == Delivered
    && (forall k :: 0 <= k < |s.rows| && k != i ==> t.rows[k] == s.rows[k])
    && (forall id :: id in t.store.events && id != s.rows[i].event.eventId ==>
          id in s.store.events && t.store.events[id] == s.store.events[id])
  }

  lemma QuietClaim(s: System, b: Batch, round: Round, i: nat)
    requires b.me !in s.workers && Usable(s.issued, b.ring)
    requires FirstClaimable(s.rows, |s.rows|, round.claimClock, b.leaseSeconds) == Some(i)
    ensures i < |s.rows|
    ensures var row := s.rows[i];
            Apply(s, ClaimOf(b, round)) ==
            s.(rows := s.rows[i := Leased(row, round.claimClock, s.drawn)], drawn := s.drawn + 1,
               workers := s.workers[b.me := Lease(i, row.event, row.partition, row.attempts, s.drawn, b.ring, Claimed)])
  {
    hide Usable, Claimable, AwaitsWorker;
  }

  lemma QuietInsert(s: System, b: Batch, round: Round)
    requires Inv(s) && Inserts(s, b.me) && Signs(s.issued, s.workers[b.me].ring) && round.fate == Answered
    requires var lease := s.workers[b.me];
             lease.event.eventId in s.store.events ==> KeyIdOf(s.store.events[lease.event.eventId]) in lease.ring.ids
    ensures var lease, t := s.workers[b.me], Apply(s, InsertOf(b, round));
            && t.rows == s.rows && b.me in t.workers
            && t.workers[b.me] == lease.(stage := t.workers[b.me].stage) && t.workers[b.me].stage.Received?
            && forall id :: id in t.store.events && id != lease.event.eventId ==>
                 id in s.store.events && t.store.events[id] == s.store.events[id]
  {
    hide Inv, Insert, Usable, RingOf, Signs, KeyIdOf, SameEvent, Continues, Represents, Seal, StageAfter;
    InsertDelivers(s, b.me, round.insertNow);
    var lease, t := s.workers[b.me], Apply(s, InsertOf(b, round));
    StepKeeps(s, InsertOf(b, round));
    InvRepresents(t);
    LeaseIsFaithful(t, b.me);
    ReceiptIsValid(t.store, t.log, t.issued, lease.event.eventId, lease.partition);
  }

  lemma QuietRecord(s: System, b: Batch, round: Round)
    requires b.me in s.workers && s.workers[b.me].stage.Received?
    requires HeldBy(s.rows, s.workers[b.me].index, s.workers[b.me].token)
    ensures var i, t := s.workers[b.me].index, Apply(s, RecordOf(b, round));
            && i < |s.rows| && t.store == s.store && |t.rows| == |s.rows| && t.rows[i].status == Delivered
            && (forall k :: 0 <= k < |s.rows| && k != i ==> t.rows[k] == s.rows[k])
    ensures Count(s, RecordOf(b, round), b.me) == BatchResult(1, 0, 0, 0)
  {
  }

  lemma NobodyElse(s: System, me: nat, own: Step)
    ensures Run(s, Others([], me) + [own]) == Apply(s, own) && Tally(s, Others([], me) + [own], me) == Count(s, own, me)
  {
    hide Apply, Count;
    EmptyRun(s, me);
    OneMore(s, [], own, me);
    assert [] + [own] == [own];
    NothingFirst(Count(s, own, me));
  }

  /** An undisturbed turn with something due delivers the oldest due row. */
  lemma QuietTurn(s: System, b: Batch, round: Round, i: nat)
    requires Ready(s, b) && Quiet(round)
    requires FirstClaimable(s.rows, |s.rows|, round.claimClock, b.leaseSeconds) == Some(i)
    requires KnowsDue(s, b, round.claimClock)
    ensures Leases(s, b, round)
    ensures DeliversOnly(s, i, Run(s, Turn(s, b, round)))
    ensures Tally(s, Turn(s, b, round), b.me) == BatchResult(1, 0, 0, 0)
  {
    hide Inv, Usable, Signs, KeyIdOf, Apply, Run, Tally, Count, Others, FirstClaimable, Claimable, AwaitsWorker, Turn;
    QuietClaim(s, b, round, i);
    NobodyElse(s, b.me, ClaimOf(b, round));
    var t := Apply(s, ClaimOf(b, round));
    StepKeeps(s, ClaimOf(b, round));
    FirstIsOldest(s.rows, |s.rows|, round.claimClock, b.leaseSeconds);
    assert i in Due(s.rows, round.claimClock, b.leaseSeconds);
    QuietInsert(t, b, round);
    NobodyElse(t, b.me, InsertOf(b, round));
    var u := Apply(t, InsertOf(b, round));
    QuietRecord(u, b, round);
    NobodyElse(u, b.me, RecordOf(b, round));
    TurnComposes(s, b, round);
  }

  /* ---------- The whole batch ---------- */

  /** What is due stays due. */
  lemma DueGrows(rows: seq<Row>, first: int, last: int, leaseSeconds: int)
    requires first <= last
    ensures Due(rows, first, leaseSeconds) <= Due(rows, last, leaseSeconds)
  {
  }

  lemma DueShrinks(s: System, i: nat, t: System, clock: int, leaseSeconds: int)
    requires DeliversOnly(s, i, t)
    ensures Due(t.rows, clock, leaseSeconds) == Due(s.rows, clock, leaseSeconds) - {i}
  {
    assert !AwaitsWorker(t.rows[i], clock, leaseSeconds);
  }

  lemma KnowsRest(s: System, i: nat, t: System, b: Batch, clock: int)
    requires Inv(s) && DeliversOnly(s, i, t) && KnowsDue(s, b, clock)
    ensures KnowsDue(t, b, clock)
  {
    hide Represents, RowOk, LeaseOk, TokensOk, RingsOk, EventsHaveRows, KeyIdOf, Claimable, AwaitsWorker;
    DueShrinks(s, i, t, clock, b.leaseSeconds);
    forall k | k in Due(t.rows, clock, b.leaseSeconds) && t.rows[k].event.eventId in t.store.events
      ensures KeyIdOf(t.store.events[t.rows[k].event.eventId]) in b.ring.ids
    {
      assert k in Due(s.rows, clock, b.leaseSeconds) && k != i;
      assert s.rows[k].event.eventId != s.rows[i].event.eventId;
    }
  }

  lemma ReadyAgain(s: System, b: Batch, round: Round)
    requires Ready(s, b)
    ensures Ready(Run(s, Turn(s, b, round)), b)
  {
    hide Inv, Run, Turn, Usable, Signs;
    TurnMeaning(s, b, round);
    RunKeeps(s, Turn(s, b, round));
  }

  /** Everything due at `first` is delivered, and what was not due by `last` is untouched. */
  ghost predicate AllDelivered(s: System, t: System, first: int, last: int, leaseSeconds: int) {
    && |t.rows| == |s.rows| && Due(t.rows, first, leaseSeconds) == {}
    && (forall i :: i in Due(s.rows, first, leaseSeconds) ==> t.rows[i].status == Delivered)
    && (forall i :: 0 <= i < |s.rows| && i !in Due(s.rows, last, leaseSeconds) ==> t.rows[i] == s.rows[i])
  }

  /**
   A batch that nobody disturbs, whose claims fall between `first` and `last` and whose bound is not
   below the number of rows due by `last`, delivers all that was due at `first` and fails nowhere.
   */
  lemma {:induction false} BatchDeliversAllDue(s: System, b: Batch, rounds: seq<Round>, bound: nat, first: int,
      last: int)
    requires Ready(s, b) && first <= last && KnowsDue(s, b, last)
    requires forall k :: 0 <= k < |rounds| ==> Quiet(rounds[k]) && first <= rounds[k].claimClock <= last
    requires |Due(s.rows, last, b.leaseSeconds)| <= bound && |Due(s.rows, last, b.leaseSeconds)| <= |rounds|
    ensures AllDelivered(s, Run(s, BatchRun(s, b, rounds, bound)), first, last, b.leaseSeconds)
    ensures var c := Tally(s, BatchRun(s, b, rounds, bound), b.me);
            c.failed == 0 && c.dead == 0 && c.lostLeases == 0
    decreases bound
  {
    hide Inv, Usable, Signs, KeyIdOf, Run, Tally, Turn, Leases, Claimable, AwaitsWorker, FirstClaimable, BatchRun,
        KnowsDue;
    if bound == 0 || rounds == [] {
      NothingWasDue(s, b, rounds, bound, first, last);
    } else {
      OneTurn(s, b, rounds, bound);
      var found := FirstClaimable(s.rows, |s.rows|, rounds[0].claimClock, b.leaseSeconds);
      if found == None {
        VainTurn(s, b, rounds[0], first, last);
      } else {
        var i := found.value;
        KnowsEarlier(s, b, rounds[0].claimClock, last);
        QuietTurn(s, b, rounds[0], i);
        var turn := Turn(s, b, rounds[0]);
        var t := Run(s, turn);
        DueOf(s, b, rounds[0], i, t, last);
        KnowsRest(s, i, t, b, last);
        ReadyAgain(s, b, rounds[0]);
        BatchDeliversAllDue(t, b, rounds[1..], bound - 1, first, last);
        RunAppend(s, turn, BatchRun(t, b, rounds[1..], bound - 1), b.me);
        DeliveredStays(t, b, rounds[1..], bound - 1, i);
        OneThenRest(s, i, t, Run(s, BatchRun(s, b, rounds, bound)), first, last, b.leaseSeconds);
      }
    }
  }

  lemma KnowsEarlier(s: System, b: Batch, clock: int, last: int)
    requires KnowsDue(s, b, last) && clock <= last
    ensures KnowsDue(s, b, clock)
  {
    hide KeyIdOf, Claimable, AwaitsWorker;
    DueGrows(s.rows, clock, last, b.leaseSeconds);
  }

  lemma NothingWasDue(s: System, b: Batch, rounds: seq<Round>, bound: nat, first: int, last: int)
    requires first <= last && (bound == 0 || rounds == [])
    requires |Due(s.rows, last, b.leaseSeconds)| == 0
    ensures AllDelivered(s, Run(s, BatchRun(s, b, rounds, bound)), first, last, b.leaseSeconds)
    ensures Tally(s, BatchRun(s, b, rounds, bound), b.me) == NOTHING
  {
    hide Claimable, AwaitsWorker;
    DueGrows(s.rows, first, last, b.leaseSeconds);
    EmptyRun(s, b.me);
  }

  /** A claim that finds nothing leaves the system as it is: nothing was due. */
  lemma VainTurn(s: System, b: Batch, round: Round, first: int, last: int)
    requires Ready(s, b) && Quiet(round) && first <= round.claimClock <= last
    requires FirstClaimable(s.rows, |s.rows|, round.claimClock, b.leaseSeconds) == None
    ensures !Leases(s, b, round)
    ensures AllDelivered(s, Run(s, Turn(s, b, round)), first, last, b.leaseSeconds)
    ensures Tally(s, Turn(s, b, round), b.me) == NOTHING
  {
    hide Inv, Usable, Signs, Run, Tally, Others, FirstClaimable, Claimable, AwaitsWorker;
    NobodyElse(s, b.me, ClaimOf(b, round));
    FirstIsOldest(s.rows, |s.rows|, round.claimClock, b.leaseSeconds);
    DueGrows(s.rows, first, round.claimClock, b.leaseSeconds);
    assert Claiming(b, round) + [] == Claiming(b, round);
  }

  lemma DueOf(s: System, b: Batch, round: Round, i: nat, t: System, last: int)
    requires FirstClaimable(s.rows, |s.rows|, round.claimClock, b.leaseSeconds) == Some(i)
    requires round.claimClock <= last && DeliversOnly(s, i, t)
    ensures i in Due(s.rows, last, b.leaseSeconds)
    ensures |Due(t.rows, last, b.leaseSeconds)| == |Due(s.rows, last, b.leaseSeconds)| - 1
  {
    DueShrinks(s, i, t, last, b.leaseSeconds);
    DueGrows(s.rows, round.claimClock, last, b.leaseSeconds);
    assert i in Due(s.rows, round.claimClock, b.leaseSeconds);
  }

  lemma DeliveredStays(s: System, b: Batch, rounds: seq<Round>, bound: nat, i: nat)
    requires Inv(s) && i < |s.rows| && s.rows[i].status == Delivered
    ensures var t := Run(s, BatchRun(s, b, rounds, bound)); i < |t.rows| && t.rows[i].status == Delivered
  {
    hide Inv, Run, BatchRun;
    SettledRowsStay(s, BatchRun(s, b, rounds, bound), i);
  }

  lemma OneThenRest(s: System, i: nat, t: System, u: System, first: int, last: int, leaseSeconds: int)
    requires DeliversOnly(s, i, t) && AllDelivered(t, u, first, last, leaseSeconds)
    requires i in Due(s.rows, last, leaseSeconds) && u.rows[i].status == Delivered
    ensures AllDelivered(s, u, first, last, leaseSeconds)
  {
    hide Claimable, AwaitsWorker;
    DueShrinks(s, i, t, first, leaseSeconds);
    DueShrinks(s, i, t, last, leaseSeconds);
  }
}
