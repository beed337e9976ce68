/**
 The two loops of security/outbox.py: a worker's delivery batch, interrupted by any steps of the
 others, and the reconciliation of delivered rows with the stored evidence.
 */
module OutboxDelivery {
  import opened Prelude
  import opened CanonicalJson
  import opened AuditDocuments
  import opened AuditChain
  import opened MongoLog
  import opened Outbox
  import opened OutboxRuns
  import opened OutboxSafety

  /* ---------- A delivery batch ---------- */

  datatype BatchResult = BatchResult(delivered: nat, failed: nat, dead: nat, lostLeases: nat)

  const NOTHING := BatchResult(0, 0, 0, 0)

  function StepWorker(step: Step): Option<nat> {
    match step
    case ClaimStep(w, _, _, _) => Some(w)
    case InsertStep(w, _, _) => Some(w)
    case RecordStep(w, _, _) => Some(w)
    case CrashStep(w) => Some(w)
    case _ => None
  }

  /** What a step of worker `me` adds to its counters when taken in state `s`. */
  function Count(s: System, step: Step, me: nat): BatchResult {
    if step.RecordStep? && step.w == me && me in s.workers && s.workers[me].stage != Claimed then
      var lease := s.workers[me];
      if !HeldBy(s.rows, lease.index, lease.token) then BatchResult(0, 0, 0, 1)
      else if lease.stage.Received? then BatchResult(1, 0, 0, 0)
      else BatchResult(0, 1, if Terminal(lease.attempts + 1, step.maxAttempts) then 1 else 0, 0)
    else NOTHING
  }

  function Plus(a: BatchResult, b: BatchResult): BatchResult {
    BatchResult(a.delivered + b.delivered, a.failed + b.failed, a.dead + b.dead, a.lostLeases + b.lostLeases)
  }

  /** The counters of worker `me` over a whole run. */
  function Tally(s: System, steps: seq<Step>, me: nat): BatchResult {
    if steps == [] then NOTHING
    else
      var init := steps[..|steps| - 1];
      Plus(Tally(s, init, me), Count(Run(s, init), steps[|steps| - 1], me))
  }

  lemma EmptyRun(s: System, me: nat)
    ensures Run(s, []) == s && Tally(s, [], me) == NOTHING
  {
  }

  lemma OneMore(s: System, steps: seq<Step>, step: Step, me: nat)
    ensures Run(s, steps + [step]) == Apply(Run(s, steps), step)
    ensures Tally(s, steps + [step], me) == Plus(Tally(s, steps, me), Count(Run(s, steps), step, me))
  {
    hide Apply, Count;
    var all := steps + [step];
    assert all[..|all| - 1] == steps && all[|all| - 1] == step;
  }

  lemma {:induction false} RunAppend(s: System, a: seq<Step>, b: seq<Step>, me: nat)
    ensures Run(s, a + b) == Run(Run(s, a), b)
    ensures Tally(s, a + b, me) == Plus(Tally(s, a, me), Tally(Run(s, a), b, me))
  {
    hide Apply, Count, Run, Tally;
    if b == [] {
      assert a + b == a;
      EmptyRun(Run(s, a), me);
    } else {
      var init, last := b[..|b| - 1], b[|b| - 1];
      RunAppend(s, a, init, me);
      assert a + b == (a + init) + [last] && b == init + [last];
      OneMore(s, a + init, last, me);
      OneMore(Run(s, a), init, last, me);
    }
  }

  lemma NothingMore(b: BatchResult)
    ensures Plus(b, NOTHING) == b
  {
  }

  /** Who runs the batch, with which keys and settings. */
  datatype Batch = Batch(me: nat, ring: Ring, maxAttempts: int, leaseSeconds: int)

  /** One round of the batch: what the others do before each transaction, clock readings, and luck. */
  datatype Round = Round(
    before: seq<Step>, claimClock: int,
    between: seq<Step>, insertNow: Timestamp, fate: Fate,
    after: seq<Step>, recordClock: int)

  /** Steps of the others only. */
  function Others(steps: seq<Step>, me: nat): seq<Step> {
    if steps == [] then []
    else if StepWorker(steps[0]) == Some(me) then Others(steps[1..], me)
    else [steps[0]] + Others(steps[1..], me)
  }

  lemma OtherStepLeavesMe(s: System, step: Step, me: nat)
    requires StepWorker(step) != Some(me)
    ensures me in s.workers <==> me in Apply(s, step).workers
    ensures me in s.workers ==> Apply(s, step).workers[me] == s.workers[me]
    ensures Count(s, step, me) == NOTHING
  {
    hide Enqueue, ClaimOne, Insert, StageAfter, Recorded;
  }

  lemma {:induction false} OthersLeaveMe(s: System, steps: seq<Step>, me: nat)
    requires forall step :: step in steps ==> StepWorker(step) != Some(me)
    ensures me in s.workers <==> me in Run(s, steps).workers
    ensures me in s.workers ==> Run(s, steps).workers[me] == s.workers[me]
    ensures Tally(s, steps, me) == NOTHING
  {
    hide Apply, Count, StepWorker;
    if steps != [] {
      OthersLeaveMe(s, steps[..|steps| - 1], me);
      OtherStepLeavesMe(Run(s, steps[..|steps| - 1]), steps[|steps| - 1], me);
    }
  }

  lemma {:induction false} OthersAreOthers(steps: seq<Step>, me: nat)
    ensures forall step :: step in Others(steps, me) ==> StepWorker(step) != Some(me)
    ensures (forall step :: step in steps ==> StepWorker(step) != Some(me)) ==> Others(steps, me) == steps
  {
    if steps != [] {
      OthersAreOthers(steps[1..], me);
      assert steps == [steps[0]] + steps[1..];
    }
  }

  /* The run that a batch is. */

  function ClaimOf(b: Batch, round: Round): Step {
    ClaimStep(b.me, round.claimClock, b.leaseSeconds, b.ring)
  }

  function InsertOf(b: Batch, round: Round): Step {
    InsertStep(b.me, round.insertNow, round.fate)
  }

  function RecordOf(b: Batch, round: Round): Step {
    RecordStep(b.me, b.maxAttempts, round.recordClock)
  }

  function Claiming(b: Batch, round: Round): seq<Step> {
    Others(round.before, b.me) + [ClaimOf(b, round)]
  }

  function Inserting(b: Batch, round: Round): seq<Step> {
    Others(round.between, b.me) + [InsertOf(b, round)]
  }

  function Recording(b: Batch, round: Round): seq<Step> {
    Others(round.after, b.me) + [RecordOf(b, round)]
  }

  /** The claim of this round leases a row. */
  predicate Leases(s: System, b: Batch, round: Round) {
    b.me in Run(s, Claiming(b, round)).workers
  }

  function Turn(s: System, b: Batch, round: Round): seq<Step> {
    Claiming(b, round) + if Leases(s, b, round) then Inserting(b, round) + Recording(b, round) else []
  }

  /** At most `bound` turns, up to the first that leases nothing. */
  function BatchRun(s: System, b: Batch, rounds: seq<Round>, bound: nat): seq<Step>
    decreases bound
  {
    if bound == 0 || rounds == [] then []
    else
      var turn := Turn(s, b, rounds[0]);
      turn + if Leases(s, b, rounds[0]) then BatchRun(Run(s, turn), b, rounds[1..], bound - 1) else []
  }

  /* What a worker's own steps do to its lease. */

  lemma ClaimStarts(s: System, b: Batch, round: Round)
    requires b.me !in s.workers
    ensures var t := Apply(s, ClaimOf(b, round));
            && (b.me in t.workers ==> t.workers[b.me].stage == Claimed && Usable(t.issued, t.workers[b.me].ring))
            && Count(s, ClaimOf(b, round), b.me) == NOTHING
  {
    hide ClaimOne, Usable;
  }

  lemma InsertAdvances(s: System, b: Batch, round: Round)
    requires Inserts(s, b.me)
    ensures var t := Apply(s, InsertOf(b, round));
            && b.me in t.workers && t.workers[b.me].stage != Claimed
            && Count(s, InsertOf(b, round), b.me) == NOTHING
  {
    hide Insert, ValidatedReceipt, Usable, RingOf;
  }

  lemma RecordEnds(s: System, b: Batch, round: Round)
    requires b.me in s.workers && s.workers[b.me].stage != Claimed
    ensures b.me !in Apply(s, RecordOf(b, round)).workers
    ensures var c := Count(s, RecordOf(b, round), b.me);
            c.delivered + c.failed + c.lostLeases == 1 && c.dead <= c.failed
  {
    hide Recorded, HeldBy, Terminal;
  }

  /** The others' steps, then an own one. */
  lemma PartOfTurn(s: System, steps: seq<Step>, own: Step, me: nat)
    ensures var part, t := Others(steps, me) + [own], Run(s, Others(steps, me));
            && Run(s, part) == Apply(t, own) && Tally(s, part, me) == Count(t, own, me)
            && (me in t.workers <==> me in s.workers) && (me in s.workers ==> t.workers[me] == s.workers[me])
            && t.issued == s.issued
  {
    hide Apply, Count, Run, Tally, Others;
    OthersAreOthers(steps, me);
    OthersLeaveMe(s, Others(steps, me), me);
    OneMore(s, Others(steps, me), own, me);
    RunKeepsIssued(s, Others(steps, me));
  }

  /** A complete turn is its three parts, and counts what the last one counts. */
  lemma TurnComposes(s: System, b: Batch, round: Round)
    requires b.me !in s.workers && Leases(s, b, round)
    ensures var t := Run(s, Claiming(b, round));
            var u := Run(t, Inserting(b, round));
            && Run(s, Turn(s, b, round)) == Run(u, Recording(b, round))
            && Tally(s, Turn(s, b, round), b.me) == Tally(u, Recording(b, round), b.me)
            && b.me in u.workers && u.workers[b.me].stage != Claimed
  {
    hide Run, Tally, Apply, Count, Others, Inserts, Usable;
    var t := Run(s, Claiming(b, round));
    PartOfTurn(s, round.before, ClaimOf(b, round), b.me);
    ClaimStarts(Run(s, Others(round.before, b.me)), b, round);
    PartOfTurn(t, round.between, InsertOf(b, round), b.me);
    StillInserts(t, Run(t, Others(round.between, b.me)), b.me);
    InsertAdvances(Run(t, Others(round.between, b.me)), b, round);
    RunAppend(t, Inserting(b, round), Recording(b, round), b.me);
    RunAppend(s, Claiming(b, round), Inserting(b, round) + Recording(b, round), b.me);
    NothingFirst(Tally(Run(t, Inserting(b, round)), Recording(b, round), b.me));
  }

  /** A turn ends without a lease; what it counts is its closing write. */
  lemma TurnMeaning(s: System, b: Batch, round: Round)
    requires b.me !in s.workers
    ensures b.me !in Run(s, Turn(s, b, round)).workers
    ensures var c := Tally(s, Turn(s, b, round), b.me);
            && c.dead <= c.failed
            && if Leases(s, b, round) then c.delivered + c.failed + c.lostLeases == 1 else c == NOTHING
  {
    hide Apply, Count, Run, Tally, Others;
    if Leases(s, b, round) {
      TurnComposes(s, b, round);
      var u := Run(Run(s, Claiming(b, round)), Inserting(b, round));
      PartOfTurn(u, round.after, RecordOf(b, round), b.me);
      RecordEnds(Run(u, Others(round.after, b.me)), b, round);
    } else {
      assert Turn(s, b, round) == Claiming(b, round);
      PartOfTurn(s, round.before, ClaimOf(b, round), b.me);
      ClaimStarts(Run(s, Others(round.before, b.me)), b, round);
    }
  }

  lemma StillInserts(s: System, t: System, me: nat)
    requires me in s.workers && s.workers[me].stage == Claimed && Usable(s.issued, s.workers[me].ring)
    requires me in t.workers && t.workers[me] == s.workers[me] && t.issued == s.issued
    ensures Inserts(t, me)
  {
  }

  lemma NothingFirst(b: BatchResult)
    ensures Plus(NOTHING, b) == b
  {
  }

  /* The order of a worker's own steps. */

  function Mine(steps: seq<Step>, me: nat): seq<Step> {
    if steps == [] then []
    else if StepWorker(steps[0]) == Some(me) then [steps[0]] + Mine(steps[1..], me)
    else Mine(steps[1..], me)
  }

  /** Claim, insert, record, in this order and with the readings of its round, for every round. */
  function Turns(b: Batch, rounds: seq<Round>): seq<Step> {
    if rounds == [] then []
    else [ClaimOf(b, rounds[0]), InsertOf(b, rounds[0]), RecordOf(b, rounds[0])] + Turns(b, rounds[1..])
  }

  lemma {:induction false} MineAppend(a: seq<Step>, b: seq<Step>, me: nat)
    ensures Mine(a + b, me) == Mine(a, me) + Mine(b, me)
  {
    if a == [] {
      assert a + b == b;
    } else {
      assert (a + b)[1..] == a[1..] + b;
      MineAppend(a[1..], b, me);
    }
  }

  lemma {:induction false} NoneMine(steps: seq<Step>, me: nat)
    ensures Mine(Others(steps, me), me) == []
  {
    if steps != [] {
      NoneMine(steps[1..], me);
      assert ([steps[0]] + Others(steps[1..], me))[1..] == Others(steps[1..], me);
    }
  }

  lemma MineInPart(steps: seq<Step>, own: Step, me: nat)
    requires StepWorker(own) == Some(me)
    ensures Mine(Others(steps, me) + [own], me) == [own]
  {
    NoneMine(steps, me);
    MineAppend(Others(steps, me), [own], me);
  }

  lemma MineInTurn(s: System, b: Batch, round: Round)
    ensures Mine(Turn(s, b, round), b.me) ==
            if Leases(s, b, round) then [ClaimOf(b, round), InsertOf(b, round), RecordOf(b, round)]
                else [ClaimOf(b, round)]
  {
    hide Mine, Others, Leases;
    MineInPart(round.before, ClaimOf(b, round), b.me);
    MineInPart(round.between, InsertOf(b, round), b.me);
    MineInPart(round.after, RecordOf(b, round), b.me);
    MineAppend(Inserting(b, round), Recording(b, round), b.me);
    MineAppend(Claiming(b, round), Inserting(b, round) + Recording(b, round), b.me);
    assert Claiming(b, round) + [] == Claiming(b, round);
  }

  /** No row is due or expired. */
  ghost predicate NothingClaimable(rows: seq<Row>, clock: int, leaseSeconds: int) {
    forall i :: 0 <= i < |rows| ==> !AwaitsWorker(rows[i], clock, leaseSeconds)
  }

  lemma NothingLeased(s: System, b: Batch, round: Round)
    requires b.me !in s.workers && Usable(s.issued, b.ring) && !Leases(s, b, round)
    ensures NothingClaimable(Run(s, Others(round.before, b.me)).rows, round.claimClock, b.leaseSeconds)
  {
    hide Run, Others, Usable, Claimable, AwaitsWorker, FirstClaimable;
    var t := Run(s, Others(round.before, b.me));
    PartOfTurn(s, round.before, ClaimOf(b, round), b.me);
    FirstIsOldest(t.rows, |t.rows|, round.claimClock, b.leaseSeconds);
    ClaimEnabled(t, b, round);
  }

  lemma ClaimEnabled(s: System, b: Batch, round: Round)
    requires b.me !in s.workers && Usable(s.issued, b.ring)
    ensures FirstClaimable(s.rows, |s.rows|, round.claimClock, b.leaseSeconds).Some? ==>
        b.me in Apply(s, ClaimOf(b, round)).workers
  {
    hide Usable, Claimable;
  }

  /**
   The own steps in `steps` are those of `turns` complete turns and, before the bound and the end
   of the rounds, a vain claim.
   */
  ghost predicate Ordered(s: System, b: Batch, rounds: seq<Round>, bound: nat, turns: nat, steps: seq<Step>) {
    && turns <= |rounds| && turns <= bound
    && if turns == bound || turns == |rounds| then Mine(steps, b.me) == Turns(b, rounds[..turns])
       else
         && Mine(steps, b.me) == Turns(b, rounds[..turns]) + [ClaimOf(b, rounds[turns])]
         && steps != [] && steps[|steps| - 1] == ClaimOf(b, rounds[turns])
         && NothingClaimable(Run(s, steps[..|steps| - 1]).rows, rounds[turns].claimClock, b.leaseSeconds)
  }

  ghost predicate InOrder(s: System, b: Batch, rounds: seq<Round>, bound: nat, steps: seq<Step>) {
    exists turns: nat :: Ordered(s, b, rounds, bound, turns, steps)
  }

  /**
   A batch makes complete turns, each a claim, an insertion and a closing write in this order, until
   the bound is reached or the rounds are over, or until a claim finds no row due or expired.
   */
  lemma {:induction false} BatchOrder(s: System, b: Batch, rounds: seq<Round>, bound: nat)
    requires b.me !in s.workers && Usable(s.issued, b.ring)
    ensures InOrder(s, b, rounds, bound, BatchRun(s, b, rounds, bound))
    decreases bound
  {
    hide *;
    if bound == 0 || rounds == [] {
      NoTurns(s, b, rounds, bound);
    } else {
      OneTurn(s, b, rounds, bound);
      if Leases(s, b, rounds[0]) {
        var t := Run(s, Turn(s, b, rounds[0]));
        TurnMeaning(s, b, rounds[0]);
        RunKeepsIssued(s, Turn(s, b, rounds[0]));
        BatchOrder(t, b, rounds[1..], bound - 1);
        TurnBeforeBatch(s, b, rounds, bound, BatchRun(t, b, rounds[1..], bound - 1));
      } else {
        LastClaim(s, b, rounds, bound);
      }
    }
  }

  lemma TurnBeforeBatch(s: System, b: Batch, rounds: seq<Round>, bound: nat, rest: seq<Step>)
    requires bound > 0 && rounds != [] && Leases(s, b, rounds[0])
    requires InOrder(Run(s, Turn(s, b, rounds[0])), b, rounds[1..], bound - 1, rest)
    ensures InOrder(s, b, rounds, bound, Turn(s, b, rounds[0]) + rest)
  {
    hide Run, Turn, Leases, Ordered;
    var turns: nat :| Ordered(Run(s, Turn(s, b, rounds[0])), b, rounds[1..], bound - 1, turns, rest);
    TurnBefore(s, b, rounds, bound, turns, rest);
  }

  lemma TurnBefore(s: System, b: Batch, rounds: seq<Round>, bound: nat, turns: nat, rest: seq<Step>)
    requires bound > 0 && rounds != [] && Leases(s, b, rounds[0])
    requires Ordered(Run(s, Turn(s, b, rounds[0])), b, rounds[1..], bound - 1, turns, rest)
    ensures Ordered(s, b, rounds, bound, turns + 1, Turn(s, b, rounds[0]) + rest)
  {
    hide Run, Turn, Turns, Leases, Mine, NothingClaimable, ClaimOf, InsertOf, RecordOf;
    var turn := Turn(s, b, rounds[0]);
    MineInTurn(s, b, rounds[0]);
    MineAppend(turn, rest, b.me);
    MoreTurns(b, rounds, turns);
    if rest != [] {
      assert (turn + rest)[..|turn + rest| - 1] == turn + rest[..|rest| - 1];
      RunAppend(s, turn, rest[..|rest| - 1], b.me);
    }
  }

  lemma NoTurns(s: System, b: Batch, rounds: seq<Round>, bound: nat)
    requires bound == 0 || rounds == []
    ensures BatchRun(s, b, rounds, bound) == [] && InOrder(s, b, rounds, bound, [])
  {
    assert Ordered(s, b, rounds, bound, 0, []);
  }

  lemma OneTurn(s: System, b: Batch, rounds: seq<Round>, bound: nat)
    requires bound > 0 && rounds != []
    ensures var turn := Turn(s, b, rounds[0]);
            BatchRun(s, b, rounds, bound) ==
            if Leases(s, b, rounds[0]) then turn + BatchRun(Run(s, turn), b, rounds[1..], bound - 1) else turn
  {
    hide Run, Turn, Leases;
  }

  lemma MoreTurns(b: Batch, rounds: seq<Round>, n: nat)
    requires n < |rounds|
    ensures Turns(b, rounds[..n + 1]) ==
            [ClaimOf(b, rounds[0]), InsertOf(b, rounds[0]), RecordOf(b, rounds[0])] + Turns(b, rounds[1..][..n])
  {
    assert rounds[..n + 1][1..] == rounds[1..][..n];
  }

  lemma LastClaim(s: System, b: Batch, rounds: seq<Round>, bound: nat)
    requires b.me !in s.workers && Usable(s.issued, b.ring) && bound > 0 && rounds != [] && !Leases(s, b, rounds[0])
    ensures InOrder(s, b, rounds, bound, Turn(s, b, rounds[0]))
  {
    hide Run, Others, Leases, Usable, NothingClaimable, Mine, ClaimOf;
    var round := rounds[0];
    NothingLeased(s, b, round);
    MineInTurn(s, b, round);
    var turn := Turn(s, b, round);
    assert turn == Others(round.before, b.me) + [ClaimOf(b, round)];
    assert turn[..|turn| - 1] == Others(round.before, b.me);
    assert Ordered(s, b, rounds, bound, 0, turn);
  }

  /** Each counter tells what became of the row: delivered, put back or dead, dead, or left to another worker. */
  lemma CountersTellTheTruth(s: System, me: nat, maxAttempts: int, clock: int)
    requires Inv(s) && me in s.workers && s.workers[me].stage != Claimed
    ensures var i := s.workers[me].index;
            var t := Apply(s, RecordStep(me, maxAttempts, clock));
            var c := Count(s, RecordStep(me, maxAttempts, clock), me);
            && i < |s.rows| && i < |t.rows|
            && (c.lostLeases == 1 <==> t.rows == s.rows)
            && (c.delivered == 1 <==> t.rows != s.rows && t.rows[i].status == Delivered)
            && (c.failed == 1 <==> t.rows != s.rows && t.rows[i].status in {Pending, Dead})
            && (c.dead == 1 <==> t.rows != s.rows && t.rows[i].status == Dead)
  {
    hide Represents, ValidKeyring, RowOk, EventsHaveRows, DistinctEvents, ReceiptOf, TokensOk, ErrorName, Backoff;
    assert LeaseOk(s.workers[me], s.rows, s.store, s.drawn);
  }

  function BatchBound(limit: int): nat {
    Max(0, Min(limit, 1000))
  }

  class Deployment {
    var s: System

    constructor (initial: System)
      ensures s == initial
    {
      s := initial;
    }

    /** Some steps, one after the other. */
    method Play(todo: seq<Step>)
      modifies this
      ensures s == Run(old(s), todo)
    {
      hide Apply;
      for i := 0 to |todo|
        invariant s == Run(old(s), todo[..i])
      {
        s := Apply(s, todo[i]);
        assert todo[..i + 1][..i] == todo[..i];
      }
      assert todo[..|todo|] == todo;
    }

    /**
     `deliver_outbox_batch` run by one worker. `rounds` says what happens around its transactions;
     the batch also ends when `rounds` does. `trace` is the run that took place.
     */
    method DeliverBatch(b: Batch, limit: int, rounds: seq<Round>) returns (result: BatchResult, ghost trace: seq<Step>)
      requires Inv(s) && b.me !in s.workers
      modifies this
      ensures trace == BatchRun(old(s), b, rounds, if limit < 0 then 0 else if limit > 1000 then 1000 else limit)
      ensures s == Run(old(s), trace) && Inv(s) && b.me !in s.workers
      ensures result == Tally(old(s), trace, b.me)
      ensures result.delivered + result.failed + result.lostLeases <= 1000
      ensures result.dead <= result.failed
    {
      hide Inv, Apply, Count, Run, Leases, Turn, BatchRun, Tally;
      result := NOTHING;
      trace := [];
      ghost var start := s;
      EmptyRun(start, b.me);
      var bound := BatchBound(limit);
      var i := 0;
      while i < bound && i < |rounds|
        invariant 0 <= i <= bound && i <= |rounds|
        invariant s == Run(start, trace) && b.me !in s.workers
        invariant trace + BatchRun(s, b, rounds[i..], bound - i) == BatchRun(start, b, rounds, bound)
        invariant result == Tally(start, trace, b.me)
        invariant result.delivered + result.failed + result.lostLeases <= i && result.dead <= result.failed
      {
        ghost var before := s;
        var leased, counted := DeliverOne(b, rounds[i]);
        ghost var turn := Turn(before, b, rounds[i]);
        RunAppend(start, trace, turn, b.me);
        OneTurn(before, b, rounds[i..], bound - i);
        assert rounds[i..][1..] == rounds[i + 1..];
        trace := trace + turn;
        result := Plus(result, counted);
        if !leased {
          RunKeeps(start, trace);
          return;
        }
        i := i + 1;
      }
      NoTurns(s, b, rounds[i..], bound - i);
      RunKeeps(start, trace);
    }

    /** One turn of the batch loop. */
    method DeliverOne(b: Batch, round: Round) returns (leased: bool, counted: BatchResult)
      requires b.me !in s.workers
      modifies this
      ensures s == Run(old(s), Turn(old(s), b, round)) && b.me !in s.workers
      ensures leased == Leases(old(s), b, round)
      ensures counted == Tally(old(s), Turn(old(s), b, round), b.me)
      ensures counted.delivered + counted.failed + counted.lostLeases == (if leased then 1 else 0)
          && counted.dead <= counted.failed
    {
      hide Run, Tally, Apply, Count, Plus, Others;
      ghost var start := s;
      TurnMeaning(start, b, round);
      PartOfTurn(s, round.before, ClaimOf(b, round), b.me);
      Play(Others(round.before, b.me));
      s := Apply(s, ClaimOf(b, round));
      leased := b.me in s.workers;
      if !leased {
        assert Turn(start, b, round) == Claiming(b, round);
        return false, NOTHING;
      }
      PartOfTurn(s, round.between, InsertOf(b, round), b.me);
      Play(Others(round.between, b.me));
      s := Apply(s, InsertOf(b, round));
      PartOfTurn(s, round.after, RecordOf(b, round), b.me);
      Play(Others(round.after, b.me));
      counted := Count(s, RecordOf(b, round), b.me);
      s := Apply(s, RecordOf(b, round));
      TurnComposes(start, b, round);
    }
  }

  /* ---------- Reconciliation ---------- */

  datatype Finding = Healthy | Missing | Invalid | ReceiptMismatch

  /** What reconciliation finds for one delivered row, if looking at its document does not raise. */
  function Inspect(row: Row, store: Store, ring: Keyring): Result<Finding, Exception> {
    if row.event.eventId !in store.events then Ok(Missing)
    else
      var doc := store.events[row.event.eventId];
      match Verify(doc, ring)
      case Raises(exception) => Err(exception)
      case Fails(_) => Ok(Invalid)
      case Passes =>
        if LinkOf(doc, ring).malformed then Err(AttributeError)
        else if SameEvent(doc, row.event)
          && PyEq(Seal(doc, "partition"), Str(row.partition))
          && PyEq(Seal(doc, "sequence"), if row.deliverySequence.Some? then Int(row.deliverySequence.value) else Null)
          && PyEq(Seal(doc, "mac"), Str(row.deliveryMac))
        then Ok(Healthy) else Ok(ReceiptMismatch)
  }

  datatype Reconciliation = Reconciliation(checked: nat, missing: nat, invalid: nat, receiptMismatch: nat) {
    predicate IsHealthy() {
      missing == 0 && invalid == 0 && receiptMismatch == 0
    }
  }

  function Note(r: Reconciliation, f: Finding): Reconciliation {
    match f
    case Healthy => r.(checked := r.checked + 1)
    case Missing => r.(checked := r.checked + 1, missing := r.missing + 1)
    case Invalid => r.(checked := r.checked + 1, invalid := r.invalid + 1)
    case ReceiptMismatch => r.(checked := r.checked + 1, receiptMismatch := r.receiptMismatch + 1)
  }

  /** The first delivered rows in the order of their keys, at most `bound` of them, among the first `n` rows. */
  function DeliveredAmong(rows: seq<Row>, n: nat, bound: nat): seq<Row>
    requires n <= |rows|
  {
    if n == 0 then []
    else
      var before := DeliveredAmong(rows, n - 1, bound);
      if rows[n - 1].status == Delivered && |before| < bound then before + [rows[n - 1]] else before
  }

  /** The counts over some rows, or the exception of the first row whose document raises one. */
  function Findings(rows: seq<Row>, store: Store, ring: Keyring): Result<Reconciliation, Exception> {
    if rows == [] then Ok(Reconciliation(0, 0, 0, 0))
    else
      match Findings(rows[..|rows| - 1], store, ring)
      case Err(exception) => Err(exception)
      case Ok(r) =>
        match Inspect(rows[|rows| - 1], store, ring)
        case Err(exception) => Err(exception)
        case Ok(finding) => Ok(Note(r, finding))
  }

  function ReconcileBound(limit: int): nat {
    Max(1, Min(limit, 1000))
  }

  /** `reconcile_delivered_outbox`. */
  method Reconcile(rows: seq<Row>, store: Store, ring: Keyring, limit: int)
      returns (result: Result<Reconciliation, Exception>)
    ensures result == Findings(DeliveredAmong(rows, |rows|, if limit < 1 then 1 else if limit > 1000 then 1000
        else limit),
                               store, ring)
  {
    hide Inspect, Findings, DeliveredAmong, Note;
    var r := Reconciliation(0, 0, 0, 0);
    var checked := 0;
    ghost var seen: seq<Row> := [];
    var bound := ReconcileBound(limit);
    NothingSeen(rows, store, ring, bound);
    for i := 0 to |rows|
      invariant seen == DeliveredAmong(rows, i, bound) && checked == |seen|
      invariant Findings(seen, store, ring) == Ok(r)
    {
      OneMoreSeen(rows, i, store, ring, bound);
      if rows[i].status == Delivered && checked < bound {
        seen := seen + [rows[i]];
        checked := checked + 1;
        var finding := Inspect(rows[i], store, ring);
        if finding.Err? {
          BrokenForGood(rows, i + 1, |rows|, store, ring, bound);
          return Err(finding.error);
        }
        r := Note(r, finding.value);
      }
    }
    return Ok(r);
  }

  lemma NothingSeen(rows: seq<Row>, store: Store, ring: Keyring, bound: nat)
    ensures DeliveredAmong(rows, 0, bound) == [] && Findings([], store, ring) == Ok(Reconciliation(0, 0, 0, 0))
  {
  }

  lemma OneMoreSeen(rows: seq<Row>, i: nat, store: Store, ring: Keyring, bound: nat)
    requires i < |rows|
    ensures var seen := DeliveredAmong(rows, i, bound);
            && DeliveredAmong(rows, i + 1, bound) ==
               (if rows[i].status == Delivered && |seen| < bound then seen + [rows[i]] else seen)
            && Findings(seen + [rows[i]], store, ring) ==
               match Findings(seen, store, ring)
               case Err(exception) => Err(exception)
               case Ok(r) =>
                 match Inspect(rows[i], store, ring)
                 case Err(exception) => Err(exception)
                 case Ok(finding) => Ok(Note(r, finding))
  {
    hide Inspect, Note;
    var seen := DeliveredAmong(rows, i, bound);
    assert (seen + [rows[i]])[..|seen|] == seen;
  }

  lemma {:induction false} BrokenForGood(rows: seq<Row>, n: nat, m: nat, store: Store, ring: Keyring, bound: nat)
    requires n <= m <= |rows| && Findings(DeliveredAmong(rows, n, bound), store, ring).Err?
    ensures Findings(DeliveredAmong(rows, m, bound), store, ring) ==
        Findings(DeliveredAmong(rows, n, bound), store, ring)
  {
    hide Inspect, Note, DeliveredAmong, Findings;
    if n < m {
      BrokenForGood(rows, n, m - 1, store, ring, bound);
      OneMoreSeen(rows, m - 1, store, ring, bound);
    }
  }

  /* What there is to find, in the fields of row and document. */

  ghost predicate HasNoDocument(row: Row, store: Store) {
    row.event.eventId !in store.events
  }

  ghost predicate HasUnverifiedDocument(row: Row, store: Store, ring: Keyring) {
    row.event.eventId in store.events && Verify(store.events[row.event.eventId], ring).Fails?
  }

  /** The document verifies but its content, its partition, its sequence number or its MAC is not the row's. */
  ghost predicate HasOtherDocument(row: Row, store: Store, ring: Keyring) {
    && row.event.eventId in store.events
    && var doc, event := store.events[row.event.eventId], row.event;
       && Verify(doc, ring) == Passes
       && !(&& PyEq(Get(doc, "schema_version"), Int(1)) && PyEq(Get(doc, "event_id"), Str(event.eventId))
            && PyEq(Get(doc, "event_type"), Str(event.eventType))
                 && PyEq(Get(doc, "occurred_at"), Str(event.occurredAt))
            && PyEq(Get(doc, "actor"), event.actor) && PyEq(Get(doc, "target"), event.target)
            && PyEq(Get(doc, "context"), event.context) && PyEq(Get(doc, "change"), event.change)
            && PyEq(Get(doc, "outcome"), event.outcome)
            && PyEq(Seal(doc, "partition"), Str(row.partition))
            && PyEq(Seal(doc, "sequence"), if row.deliverySequence.Some? then Int(row.deliverySequence.value) else Null)
            && PyEq(Seal(doc, "mac"), Str(row.deliveryMac)))
  }

  /** Looking at the document raises: checking it does, or it passes with an `integrity` that is not a mapping. */
  ghost function Raised(row: Row, store: Store, ring: Keyring): Option<Exception> {
    if row.event.eventId !in store.events then None
    else
      var doc := store.events[row.event.eventId];
      match Verify(doc, ring)
      case Raises(exception) => Some(exception)
      case Passes => if "integrity" in doc && !doc["integrity"].Obj? then Some(AttributeError) else None
      case Fails(_) => None
  }

  ghost predicate FirstRaised(rows: seq<Row>, k: nat, store: Store, ring: Keyring) {
    && k < |rows| && Raised(rows[k], store, ring).Some?
    && forall i :: 0 <= i < k ==> Raised(rows[i], store, ring) == None
  }

  /** Each counter of a reconciliation is the number of rows it stands for. */
  ghost predicate CountsThem(r: Reconciliation, rows: seq<Row>, store: Store, ring: Keyring) {
    && r.checked == |rows|
    && r.missing == |Positions(rows, row => HasNoDocument(row, store))|
    && r.invalid == |Positions(rows, row => HasUnverifiedDocument(row, store, ring))|
    && r.receiptMismatch == |Positions(rows, row => HasOtherDocument(row, store, ring))|
  }

  lemma InspectMeaning(row: Row, store: Store, ring: Keyring)
    ensures var f := Inspect(row, store, ring);
            if Raised(row, store, ring).Some? then f == Err(Raised(row, store, ring).value)
            else f == Ok(if HasNoDocument(row, store) then Missing
                         else if HasUnverifiedDocument(row, store, ring) then Invalid
                         else if HasOtherDocument(row, store, ring) then ReceiptMismatch else Healthy)
  {
    hide Verify, Seal, Numeric;
    if row.event.eventId in store.events { SameEventMeaning(store.events[row.event.eventId], row.event); }
  }

  ghost function Found(rows: seq<Row>, store: Store, ring: Keyring, f: Finding): set<nat> {
    Positions(rows, row => Inspect(row, store, ring) == Ok(f))
  }

  lemma OneMoreFound(rows: seq<Row>, store: Store, ring: Keyring, f: Finding)
    requires rows != []
    ensures |Found(rows, store, ring, f)| ==
            |Found(rows[..|rows| - 1], store, ring, f)| + if Inspect(rows[|rows| - 1], store, ring) == Ok(f) then 1
                else 0
  {
    hide Inspect, Positions;
    OneMorePosition(rows, row => Inspect(row, store, ring) == Ok(f));
  }

  lemma NothingFound(store: Store, ring: Keyring, f: Finding)
    ensures Found([], store, ring, f) == {}
  {
  }

  lemma {:induction false} FindingsCount(rows: seq<Row>, store: Store, ring: Keyring)
    requires forall i :: 0 <= i < |rows| ==> Inspect(rows[i], store, ring).Ok?
    ensures Findings(rows, store, ring) ==
            Ok(Reconciliation(|rows|, |Found(rows, store, ring, Missing)|, |Found(rows, store, ring, Invalid)|,
                              |Found(rows, store, ring, ReceiptMismatch)|))
  {
    hide Inspect, Found;
    NothingFound(store, ring, Missing);
    NothingFound(store, ring, Invalid);
    NothingFound(store, ring, ReceiptMismatch);
    if rows != [] {
      FindingsCount(rows[..|rows| - 1], store, ring);
      OneMoreFound(rows, store, ring, Missing);
      OneMoreFound(rows, store, ring, Invalid);
      OneMoreFound(rows, store, ring, ReceiptMismatch);
    }
  }

  lemma {:induction false} FirstRaises(rows: seq<Row>, k: nat, store: Store, ring: Keyring)
    requires k < |rows| && Inspect(rows[k], store, ring).Err?
    requires forall i :: 0 <= i < k ==> Inspect(rows[i], store, ring).Ok?
    ensures Findings(rows, store, ring) == Err(Inspect(rows[k], store, ring).error)
  {
    hide Inspect, Found;
    if |rows| > k + 1 { FirstRaises(rows[..|rows| - 1], k, store, ring); }
        else { FindingsCount(rows[..k], store, ring); }
  }

  lemma {:induction false} DeliveredAmongIs(rows: seq<Row>, n: nat, bound: nat)
    requires n <= |rows|
    ensures var delivered := Filter(rows[..n], (row: Row) => row.status == Delivered);
            DeliveredAmong(rows, n, bound) == delivered[..if |delivered| < bound then |delivered| else bound]
  {
    if n > 0 {
      DeliveredAmongIs(rows, n - 1, bound);
      assert rows[..n] == rows[..n - 1] + [rows[n - 1]];
      FilterAppend(rows[..n - 1], [rows[n - 1]], (row: Row) => row.status == Delivered);
    }
  }

  /**
   What reconciliation looks at and what it reports. It inspects the first delivered rows of the
   table, as many as the limit allows but at least one and at most a thousand. The first of them
   whose document raises ends it with that exception; otherwise each counter is the number of
   inspected rows of its kind, so a table without such rows, and no other, is healthy.
   */
  lemma ReconciliationCounts(rows: seq<Row>, store: Store, ring: Keyring, limit: int)
    ensures var bound := if limit < 1 then 1 else if limit > 1000 then 1000 else limit;
            var delivered := Filter(rows, (row: Row) => row.status == Delivered);
            var checked := delivered[..if |delivered| < bound then |delivered| else bound];
            var result := Findings(DeliveredAmong(rows, |rows|, bound), store, ring);
            && (forall k: nat :: FirstRaised(checked, k, store, ring) ==>
                 result == Err(Raised(checked[k], store, ring).value))
            && ((forall i :: 0 <= i < |checked| ==> Raised(checked[i], store, ring) == None) ==>
                  && result.Ok? && CountsThem(result.value, checked, store, ring)
                  && (result.value.IsHealthy() <==> forall i :: 0 <= i < |checked| ==>
                        && !HasNoDocument(checked[i], store) && !HasUnverifiedDocument(checked[i], store, ring)
                        && !HasOtherDocument(checked[i], store, ring)))
  {
    hide Inspect, Raised, HasNoDocument, HasUnverifiedDocument, HasOtherDocument, Findings, DeliveredAmong;
    var bound := if limit < 1 then 1 else if limit > 1000 then 1000 else limit;
    DeliveredAmongIs(rows, |rows|, bound);
    assert rows[..|rows|] == rows;
    var checked := DeliveredAmong(rows, |rows|, bound);
    forall i | 0 <= i < |checked|
      ensures Inspect(checked[i], store, ring).Err? <==> Raised(checked[i], store, ring).Some?
      ensures Raised(checked[i], store, ring).Some? ==>
                Inspect(checked[i], store, ring) == Err(Raised(checked[i], store, ring).value)
    {
      InspectMeaning(checked[i], store, ring);
    }
    forall k: nat | FirstRaised(checked, k, store, ring)
      ensures Findings(checked, store, ring) == Err(Raised(checked[k], store, ring).value)
    {
      FirstRaises(checked, k, store, ring);
    }
    if forall i :: 0 <= i < |checked| ==> Raised(checked[i], store, ring) == None {
      FindingsCount(checked, store, ring);
      KindsAreFound(checked, store, ring);
      NoPositions(checked, row => HasNoDocument(row, store));
      NoPositions(checked, row => HasUnverifiedDocument(row, store, ring));
      NoPositions(checked, row => HasOtherDocument(row, store, ring));
    }
  }

  lemma KindsAreFound(rows: seq<Row>, store: Store, ring: Keyring)
    requires forall i :: 0 <= i < |rows| ==> Raised(rows[i], store, ring) == None
    ensures Found(rows, store, ring, Missing) == Positions(rows, row => HasNoDocument(row, store))
    ensures Found(rows, store, ring, Invalid) == Positions(rows, row => HasUnverifiedDocument(row, store, ring))
    ensures Found(rows, store, ring, ReceiptMismatch) == Positions(rows, row => HasOtherDocument(row, store, ring))
  {
    hide Inspect, Raised, HasNoDocument, HasUnverifiedDocument, HasOtherDocument;
    forall i | 0 <= i < |rows|
      ensures Inspect(rows[i], store, ring) == Ok(Missing) <==> HasNoDocument(rows[i], store)
      ensures Inspect(rows[i], store, ring) == Ok(Invalid) <==> HasUnverifiedDocument(rows[i], store, ring)
      ensures Inspect(rows[i], store, ring) == Ok(ReceiptMismatch) <==> HasOtherDocument(rows[i], store, ring)
    {
      InspectMeaning(rows[i], store, ring);
      OneKind(rows[i], store, ring);
    }
  }

  lemma OneKind(row: Row, store: Store, ring: Keyring)
    ensures !(HasNoDocument(row, store) && HasUnverifiedDocument(row, store, ring))
    ensures !(HasNoDocument(row, store) && HasOtherDocument(row, store, ring))
    ensures !(HasUnverifiedDocument(row, store, ring) && HasOtherDocument(row, store, ring))
  {
    hide Verify, Seal, Numeric;
  }

  lemma {:induction false} DeliveredAmongMeaning(rows: seq<Row>, n: nat, bound: nat)
    requires n <= |rows|
    ensures |DeliveredAmong(rows, n, bound)| <= bound
    ensures forall k :: 0 <= k < |DeliveredAmong(rows, n, bound)| ==>
              exists i :: 0 <= i < n && rows[i].status == Delivered && rows[i] == DeliveredAmong(rows, n, bound)[k]
    ensures |DeliveredAmong(rows, n, bound)| < bound ==>
              forall i :: 0 <= i < n && rows[i].status == Delivered ==> rows[i] in DeliveredAmong(rows, n, bound)
  {
    if n > 0 { DeliveredAmongMeaning(rows, n - 1, bound); }
  }

  /**
   To an auditor with some of the keys a delivered row is healthy if its document's key is among
   them, invalid otherwise.
   */
  lemma BackedIsHealthy(row: Row, store: Store, issued: Keyring, auditor: Keyring)
    requires Backed(row, store, issued) && KeepsKeys(auditor, issued)
    ensures Inspect(row, store, auditor) ==
            if Knows(auditor, store.events[row.event.eventId]) then Ok(Healthy) else Ok(Invalid)
  {
    hide Verify, SameEvent, Seal, Numeric, Knows, KeepsKeys;
    var doc := store.events[row.event.eventId];
    GenuineUnderFewerKeys(doc, auditor, issued);
    GenuineLink(doc, issued);
  }

  /**
   In every state of every run and with any limit reconciliation completes and finds no row without
   its document and no receipt that is wrong; invalid are exactly the documents whose keys the auditor lacks.
   */
  lemma ReconciliationIsHealthy(issued: Keyring, steps: seq<Step>, auditor: Keyring, limit: int)
    requires KeepsKeys(auditor, issued)
    ensures var s := Run(Initial(issued), steps);
            var bound := if limit < 1 then 1 else if limit > 1000 then 1000 else limit;
            var checked := DeliveredAmong(s.rows, |s.rows|, bound);
            var f := Findings(checked, s.store, auditor);
            && (forall k :: 0 <= k < |checked| ==> checked[k].event.eventId in s.store.events)
            && f.Ok? && f.value.checked == |checked| && f.value.missing == 0 && f.value.receiptMismatch == 0
            && f.value.invalid == |Positions(checked, (row: Row) =>
                 row.event.eventId in s.store.events && !Knows(auditor, s.store.events[row.event.eventId]))|
  {
    hide Apply, Inspect, Inv, Backed, Knows, KeepsKeys, Findings;
    InitialOk(issued);
    RunKeeps(Initial(issued), steps);
    var s := Run(Initial(issued), steps);
    var bound := if limit < 1 then 1 else if limit > 1000 then 1000 else limit;
    var checked := DeliveredAmong(s.rows, |s.rows|, bound);
    DeliveredAmongMeaning(s.rows, |s.rows|, bound);
    forall k | 0 <= k < |checked|
      ensures checked[k].event.eventId in s.store.events
      ensures Inspect(checked[k], s.store, auditor) ==
              if Knows(auditor, s.store.events[checked[k].event.eventId]) then Ok(Healthy) else Ok(Invalid)
    {
      var i :| 0 <= i < |s.rows| && s.rows[i].status == Delivered && s.rows[i] == checked[k];
      DeliveredIsBacked(s, i);
      BackedIsStored(s.rows[i], s.store, issued);
      BackedIsHealthy(s.rows[i], s.store, issued, auditor);
    }
    FindingsCount(checked, s.store, auditor);
    assert Found(checked, s.store, auditor, Missing) == {};
    assert Found(checked, s.store, auditor, ReceiptMismatch) == {};
    assert Found(checked, s.store, auditor, Invalid) == Positions(checked, (row: Row) =>
      row.event.eventId in s.store.events && !Knows(auditor, s.store.events[row.event.eventId]));
  }

  lemma BackedIsStored(row: Row, store: Store, issued: Keyring)
    requires Backed(row, store, issued)
    ensures row.event.eventId in store.events
  {
  }
}
