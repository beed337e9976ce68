/**
 `process_media` (boards/skate_worker.py) written out as the sequence of steps one worker takes,
 with everybody else's steps between any two of them.
 */
module ClipProcess {
  import opened Prelude
  import opened ClipMedia
  import opened ClipRuns
  import opened ClipSafety

  /* ---------- The steps of one call ---------- */

  /**
   What the worker meets: others' steps before each of its own, exceptions in the place of its own
   steps, and how each operation turns out.
   */
  datatype Script = Script(
    others: nat -> seq<Step>, raises: nat -> Option<Problem>,
    problems: nat -> Problem, valid: bool, moves: nat -> bool, fate: Fate, now: int,
    deletes: Key -> bool, breaks: Key -> Option<Problem>, detail: string)

  predicate Foreign(step: Step, w: nat) {
    !(step.WorkStep? && step.w == w)
  }

  function ForeignSteps(steps: seq<Step>, w: nat): (r: seq<Step>)
    ensures forall step :: step in r ==> Foreign(step, w)
    ensures (forall step :: step in steps ==> Foreign(step, w)) ==> r == steps
  {
    if steps == [] then [] else (if Foreign(steps[0], w) then [steps[0]] else []) + ForeignSteps(steps[1..], w)
  }

  function Others(w: nat, script: Script, k: nat): seq<Step> {
    ForeignSteps(script.others(k), w)
  }

  const FINISH := 8

  /** The worker's nine actions up to its conditional update. */
  function Planned(script: Script, k: nat): Action {
    if k == 0 then CheckSource
    else if k <= 3 then Encode(script.problems(k - 1))
    else if k == 4 then Validate(script.valid)
    else if k <= 7 then Publish(script.moves(k - 5))
    else Finish(script.fate, script.now)
  }

  /** The stage in which the worker takes them. */
  function StageAt(k: nat): Stage {
    if k == 0 then Starting else if k <= 4 then Encoding(k - 1) else Publishing(k - 5)
  }

  predicate Raised(script: Script, k: nat) {
    k > 0 && script.raises(k).Some?
  }

  function Own(w: nat, script: Script, k: nat): Step {
    WorkStep(w, if Raised(script, k) then Raise(script.raises(k).value) else Planned(script, k))
  }

  /** The first `k` own steps, with what the others do before each. */
  function Done(w: nat, script: Script, k: nat): seq<Step> {
    if k == 0 then [] else Done(w, script, k - 1) + Others(w, script, k - 1) + [Own(w, script, k - 1)]
  }

  /** The `k`-th action, taken in state `s`, does what it is for. */
  ghost predicate Works(s: System, worker: Worker, script: Script, k: nat) {
    && !Raised(script, k)
    && if k == 0 then worker.source in s.sources
       else if k <= 3 then script.problems(k - 1) == NoProblem && worker.source in s.sources
       else if k == 4 then script.valid
       else if k <= 7 then script.moves(k - 5)
       else script.fate == Committed && HeldAt(s, worker.ticket)
  }

  /** The state in which the `k`-th own step is taken, if it is reached. */
  ghost function Before(s: System, w: nat, script: Script, k: nat): System {
    Run(s, Done(w, script, k) + Others(w, script, k))
  }

  ghost predicate Succeeds(s: System, w: nat, script: Script, k: nat)
    requires w in s.workers
  {
    Works(Before(s, w, script, k), s.workers[w], script, k)
  }

  /** Deleting one file, or an exception instead. */
  function CleanAction(script: Script, key: Key): Action {
    if script.breaks(key).Some? then Raise(script.breaks(key).value) else Delete(key, script.deletes(key))
  }

  function Cleans(w: nat, script: Script, key: Key): seq<Step> {
    Others(w, script, FINISH + 1) + [WorkStep(w, CleanAction(script, key))]
  }

  function GivesUp(w: nat, script: Script): seq<Step> {
    Others(w, script, FINISH + 2) + [WorkStep(w, Fail(script.detail))]
  }

  /** How the call ends: the deletions left to the worker in any order, then `fail` if it comes to that. */
  ghost predicate IsTail(s: System, w: nat, script: Script, tail: seq<Step>)
    decreases |tail|, 1
  {
    if w !in s.workers then tail == []
    else if s.workers[w].stage.Failing? then tail == GivesUp(w, script)
    else if s.workers[w].stage.Discarding? || s.workers[w].stage.Cleaning? then
      exists key :: key in s.workers[w].stage.todo && CleansFirst(s, w, script, key, tail)
    else false
  }

  ghost predicate CleansFirst(s: System, w: nat, script: Script, key: Key, tail: seq<Step>)
    decreases |tail|, 0
  {
    Cleans(w, script, key) <= tail
    && IsTail(Run(s, Cleans(w, script, key)), w, script, tail[|Cleans(w, script, key)|..])
  }

  /* ---------- What single steps do ---------- */

  /** At no moment of the run from `s` does the row show files of generation `g`. */
  ghost predicate Unseen(s: System, steps: seq<Step>, g: nat) {
    forall i :: 0 <= i <= |steps| ==> RefGen(CurrentRefs(Run(s, steps[..i]))) != g
  }

  ghost predicate ShowsAt(s: System, t: Ticket) {
    s.row.Some? && s.row.value.state == Ready && s.row.value.refs == VersionedKeys(t)
  }

  /** At some moment of the run the row is ready and shows the files of this claim. */
  ghost predicate OnShow(s: System, steps: seq<Step>, t: Ticket) {
    exists i :: 0 <= i <= |steps| && ShowsAt(Run(s, steps[..i]), t)
  }

  lemma RunAppend(s: System, a: seq<Step>, b: seq<Step>)
    ensures Run(s, a + b) == Run(Run(s, a), b)
  {
    hide Run;
    RunSplits(s, a + b, |a|);
    assert (a + b)[..|a|] == a && (a + b)[|a|..] == b;
  }

  lemma OneMore(s: System, steps: seq<Step>, step: Step)
    ensures Run(s, steps + [step]) == Apply(Run(s, steps), step)
  {
    hide Apply;
    assert (steps + [step])[..|steps|] == steps;
  }

  lemma NothingYet(s: System, g: nat)
    requires RefGen(CurrentRefs(s)) != g
    ensures Unseen(s, [], g)
  {
    hide RefGen, CurrentRefs;
  }

  lemma UnseenAppend(s: System, a: seq<Step>, b: seq<Step>, g: nat)
    requires Unseen(s, a, g) && Unseen(Run(s, a), b, g)
    ensures Unseen(s, a + b, g)
  {
    hide RefGen, CurrentRefs, Run;
    forall i | 0 <= i <= |a + b| ensures RefGen(CurrentRefs(Run(s, (a + b)[..i]))) != g {
      if i <= |a| {
        assert (a + b)[..i] == a[..i];
      } else {
        assert (a + b)[..i] == a + b[..i - |a|];
        RunAppend(s, a, b[..i - |a|]);
      }
    }
  }

  lemma UnseenEnd(s: System, steps: seq<Step>, g: nat)
    requires Unseen(s, steps, g)
    ensures RefGen(CurrentRefs(Run(s, steps))) != g
  {
    hide RefGen, CurrentRefs, Run;
    assert steps[..|steps|] == steps;
  }

  lemma UnseenOneMore(s: System, steps: seq<Step>, step: Step, g: nat)
    requires Unseen(s, steps, g) && RefGen(CurrentRefs(Apply(Run(s, steps), step))) != g
    ensures Unseen(s, steps + [step], g)
  {
    hide RefGen, CurrentRefs, Run, Apply;
    OneMore(s, steps, step);
    forall i | 0 <= i <= |steps + [step]| ensures RefGen(CurrentRefs(Run(s, (steps + [step])[..i]))) != g {
      if i <= |steps| { assert (steps + [step])[..i] == steps[..i]; }
          else { assert (steps + [step])[..i] == steps + [step]; }
    }
  }

  /** A step of somebody else leaves the worker alone and never shows its files. */
  lemma ForeignStep(s: System, step: Step, w: nat)
    requires Inv(s) && w in s.workers && Foreign(step, w)
    ensures var t := Apply(s, step);
            && w in t.workers && t.workers[w] == s.workers[w]
            && (RefGen(CurrentRefs(s)) != s.workers[w].ticket.generation ==>
                  RefGen(CurrentRefs(t)) != s.workers[w].ticket.generation)
  {
    hide Inv, Work, RefGen, Save, Probe, Remove;
    OthersLeaveRow(s, step);
    if step.WorkStep? {
      if step.w in s.workers { ForeignWork(s, step.w, step.action, w); }
    } else {
      OutsideLeavesWorker(s, step, w);
      KnownGeneration(s, w);
      NoRefs();
    }
  }

  lemma KnownGeneration(s: System, w: nat)
    requires Inv(s) && w in s.workers
    ensures s.workers[w].ticket.generation >= 1
  {
    hide StageOk, InStep, OneClaim, RefGen, RowOk, FilesOk, UploadsOk, Apart;
    assert WorkerOk(s, s.workers[w]);
  }

  lemma OutsideLeavesWorker(s: System, step: Step, w: nat)
    requires !step.WorkStep? && w in s.workers
    ensures w in Apply(s, step).workers && Apply(s, step).workers[w] == s.workers[w]
  {
    hide Work;
  }

  lemma ForeignWork(s: System, x: nat, action: Action, w: nat)
    requires Inv(s) && w in s.workers && x in s.workers && x != w
    ensures var t := Work(s, x, action);
            && w in t.workers && t.workers[w] == s.workers[w]
            && (RefGen(CurrentRefs(s)) != s.workers[w].ticket.generation ==>
                  RefGen(CurrentRefs(t)) != s.workers[w].ticket.generation)
  {
    hide WorkersOk, RowOk, FilesOk, UploadsOk, Apart, RefGen, WorkerOk, Work, FinishClaim;
    OneWorker(s, x);
    assert s.workers[x].ticket.generation != s.workers[w].ticket.generation by { TwoWorkers(s, x, w); }
    WorkLeavesOther(s, x, action, w);
    var stage := s.workers[x].stage;
    if action.Finish? && stage.Publishing? && stage.moved >= 3 {
      StageBound(s, x);
      FinishShowsOwn(s, x, action.fate, action.now);
      WorkIsFinish(s, x, action.fate, action.now);
    } else {
      OnlyFinishShows(s, x, action);
    }
  }

  lemma TwoWorkers(s: System, x: nat, w: nat)
    requires Apart(s) && x in s.workers && w in s.workers && x != w
    ensures s.workers[x].ticket.generation != s.workers[w].ticket.generation
  {
  }

  lemma WorkIsFinish(s: System, x: nat, fate: Fate, now: int)
    requires x in s.workers && s.workers[x].stage.Publishing? && s.workers[x].stage.moved >= 3
    ensures Work(s, x, Finish(fate, now)) == FinishClaim(s, x, fate, now)
  {
    hide FinishClaim, PublishNext, DeleteKey, FailClaim, Encoded;
  }

  lemma FinishShowsOwn(s: System, x: nat, fate: Fate, now: int)
    requires x in s.workers && WorkerOk(s, s.workers[x]) && RowOk(s) && FilesOk(s)
      && s.workers[x].stage == Publishing(3)
    ensures var t := FinishClaim(s, x, fate, now);
            if HeldAt(s, s.workers[x].ticket) && fate != RolledBack
            then RefGen(CurrentRefs(t)) == s.workers[x].ticket.generation
            else CurrentRefs(t) == CurrentRefs(s)
  {
    hide WorkerOk, RowOk, FilesOk, RefGen, FinishClaim;
    FinishWritesOwn(s, x, fate, now);
    if HeldAt(s, s.workers[x].ticket) && fate != RolledBack {
      FinishedRowOk(s, x, fate, now);
    }
  }

  lemma OnlyFinishShows(s: System, x: nat, action: Action)
    requires x in s.workers
    requires !(action.Finish? && s.workers[x].stage.Publishing? && s.workers[x].stage.moved >= 3)
    ensures CurrentRefs(Work(s, x, action)) == CurrentRefs(s)
  {
    hide Encoded, FinishClaim, FailClaim, PublishNext, DeleteKey;
    var stage := s.workers[x].stage;
    if stage.Publishing? {
      if stage.moved < 3 && action.Publish? { PublishLeavesRow(s, x, action.ok); }
    } else if stage.Failing? && action.Fail? {
      FailWritesOwn(s, x, action.detail);
    } else if (stage.Discarding? || stage.Cleaning?) && action.Delete? {
      DeleteLeavesRow(s, x, action.key, action.ok);
    }
  }

  ghost predicate OthersSame(s: System, t: System, x: nat) {
    forall w :: w != x ==> (w in s.workers <==> w in t.workers) && (w in s.workers ==> t.workers[w] == s.workers[w])
  }

  lemma FinishLeavesOther(s: System, x: nat, fate: Fate, now: int)
    requires x in s.workers
    ensures OthersSame(s, FinishClaim(s, x, fate, now), x)
  {
    hide Deleting, OwnKeys, HeldBy;
  }

  lemma PublishLeavesOther(s: System, x: nat, ok: bool)
    requires x in s.workers && s.workers[x].stage.Publishing? && s.workers[x].stage.moved < 3
    ensures OthersSame(s, PublishNext(s, x, ok), x)
  {
    hide OwnKeys;
  }

  lemma DeleteLeavesOther(s: System, x: nat, key: Key, ok: bool)
    requires x in s.workers && (s.workers[x].stage.Discarding? || s.workers[x].stage.Cleaning?)
    ensures OthersSame(s, DeleteKey(s, x, key, ok), x)
  {
    hide Deleting;
  }

  lemma WorkLeavesOther(s: System, x: nat, action: Action, w: nat)
    requires x in s.workers && w in s.workers && x != w
    ensures var t := Work(s, x, action); w in t.workers && t.workers[w] == s.workers[w]
  {
    hide Encoded, FinishClaim, PublishNext, DeleteKey, HeldBy;
    var stage := s.workers[x].stage;
    if stage.Publishing? {
      if stage.moved < 3 { if action.Publish? { PublishLeavesOther(s, x, action.ok); } }
      else if action.Finish? { FinishLeavesOther(s, x, action.fate, action.now); }
    } else if (stage.Discarding? || stage.Cleaning?) && action.Delete? {
      DeleteLeavesOther(s, x, action.key, action.ok);
    }
  }

  /** The others' steps before an own one. */
  lemma {:induction false} OthersTurn(s: System, steps: seq<Step>, w: nat)
    requires Inv(s) && w in s.workers && forall step :: step in steps ==> Foreign(step, w)
    ensures var t, g := Run(s, steps), s.workers[w].ticket.generation;
            && Inv(t) && w in t.workers && t.workers[w] == s.workers[w]
            && (RefGen(CurrentRefs(s)) != g ==> Unseen(s, steps, g))
  {
    hide Inv, Apply, RefGen, CurrentRefs, Unseen, Foreign;
    var g := s.workers[w].ticket.generation;
    if steps == [] {
      if RefGen(CurrentRefs(s)) != g { NothingYet(s, g); }
    } else {
      var init, step := steps[..|steps| - 1], steps[|steps| - 1];
      OthersTurn(s, init, w);
      ForeignStep(Run(s, init), step, w);
      StepKeeps(Run(s, init), step);
      assert steps == init + [step];
      if RefGen(CurrentRefs(s)) != g {
        UnseenEnd(s, init, g);
        UnseenOneMore(s, init, step, g);
      }
    }
  }

  lemma ApplyWork(s: System, w: nat, action: Action)
    requires w in s.workers
    ensures Apply(s, WorkStep(w, action)) == Work(s, w, action)
  {
    hide Work;
  }

  /* ---------- What the worker's own steps come to ---------- */

  /** The worker has moved on but is the same otherwise. */
  ghost predicate Continues(worker: Worker, t: System, w: nat) {
    && w in t.workers
    && t.workers[w].ticket == worker.ticket && t.workers[w].source == worker.source
         && t.workers[w].shown == worker.shown
  }

  /** The keys of the version a finished claim replaces. */
  function Replaces(worker: Worker): set<Key> {
    KeysOf(worker.shown) - OwnKeys(worker.ticket)
  }

  /** After the update: the files are on show and the version replaced is to be cleaned up. */
  ghost predicate Updated(worker: Worker, t: System, w: nat) {
    && ShowsAt(t, worker.ticket)
    && if Replaces(worker) == {} then w !in t.workers
       else Continues(worker, t, w) && t.workers[w].stage == Cleaning(Replaces(worker))
  }

  /** After a step that failed: own files are to be discarded, or the failure is to be recorded. */
  ghost predicate Stopped(worker: Worker, t: System, w: nat) {
    && Continues(worker, t, w)
    && (t.workers[w].stage.Failing? ||
        (t.workers[w].stage.Discarding? && t.workers[w].stage.todo == OwnKeys(worker.ticket)))
  }

  lemma CheckOutcome(s: System, w: nat, script: Script)
    requires w in s.workers && s.workers[w].stage == Starting
    ensures var t := Work(s, w, CheckSource);
            if Works(s, s.workers[w], script, 0) then Continues(s.workers[w], t, w) && t.workers[w].stage == Encoding(0)
            else Stopped(s.workers[w], t, w)
  {
  }

  lemma EncodeOutcome(s: System, w: nat, problem: Problem)
    requires w in s.workers && s.workers[w].stage.Encoding? && s.workers[w].stage.made < 3
    ensures var t, worker := Work(s, w, Encode(problem)), s.workers[w];
            if problem == NoProblem && worker.source in s.sources
            then Continues(worker, t, w) && t.workers[w].stage == Encoding(worker.stage.made + 1)
            else Stopped(worker, t, w)
  {
  }

  lemma ValidateOutcome(s: System, w: nat, ok: bool)
    requires w in s.workers && s.workers[w].stage == Encoding(3)
    ensures var t := Work(s, w, Validate(ok));
            if ok then Continues(s.workers[w], t, w) && t.workers[w].stage == Publishing(0)
            else Stopped(s.workers[w], t, w)
  {
  }

  lemma PublishOutcome(s: System, w: nat, ok: bool)
    requires w in s.workers && s.workers[w].stage.Publishing? && s.workers[w].stage.moved < 3
      && WorkerOk(s, s.workers[w])
    ensures var t, worker := Work(s, w, Publish(ok)), s.workers[w];
            if ok then Continues(worker, t, w) && t.workers[w].stage == Publishing(worker.stage.moved + 1)
            else Stopped(worker, t, w)
  {
    hide OwnKeys, Private, Finished, Unwritten, OneClaim, InStep;
  }

  lemma FinishOutcome(s: System, w: nat, script: Script)
    requires w in s.workers && s.workers[w].stage == Publishing(3) && !Raised(script, FINISH)
    ensures var t, worker := FinishClaim(s, w, script.fate, script.now), s.workers[w];
            if Works(s, worker, script, FINISH) then Updated(worker, t, w) else Stopped(worker, t, w)
  {
    hide OwnKeys, KeysOf, VersionedKeys;
  }

  lemma RaiseOutcome(s: System, w: nat, problem: Problem)
    requires w in s.workers && !s.workers[w].stage.Starting? && !s.workers[w].stage.Failing?
    ensures var t := Work(s, w, Raise(problem)); Stopped(s.workers[w], t, w) && t.workers[w].stage.Failing?
  {
  }

  /** What the `k`-th own step comes to in a state where the worker is ready for it. */
  lemma OwnOutcome(s: System, w: nat, script: Script, k: nat)
    requires Inv(s) && w in s.workers && k <= FINISH && s.workers[w].stage == StageAt(k)
    ensures var t, worker := Apply(s, Own(w, script, k)), s.workers[w];
            if !Works(s, worker, script, k) then Stopped(worker, t, w)
            else if k < FINISH then Continues(worker, t, w) && t.workers[w].stage == StageAt(k + 1)
            else Updated(worker, t, w)
  {
    hide Inv, Apply, Work, Stopped, Updated, Continues, HeldAt, FinishClaim;
    ApplyWork(s, w, Own(w, script, k).action);
    if Raised(script, k) {
      RaiseOutcome(s, w, script.raises(k).value);
    } else if k == 0 {
      CheckOutcome(s, w, script);
    } else if k <= 3 {
      EncodeOutcome(s, w, script.problems(k - 1));
    } else if k == 4 {
      ValidateOutcome(s, w, script.valid);
    } else if k <= 7 {
      WorkerIsOk(s, w);
      PublishOutcome(s, w, script.moves(k - 5));
    } else {
      WorkIsFinish(s, w, script.fate, script.now);
      FinishOutcome(s, w, script);
    }
  }

  lemma WorkerIsOk(s: System, w: nat)
    requires Inv(s) && w in s.workers
    ensures WorkerOk(s, s.workers[w])
  {
    hide WorkerOk, FilesOk, RowOk, Apart, UploadsOk;
  }

  /** The update takes effect, whether or not its caller is told so. */
  ghost predicate TakesEffect(s: System, ticket: Ticket, script: Script, k: nat) {
    k == FINISH && !Raised(script, FINISH) && script.fate != RolledBack && HeldAt(s, ticket)
  }

  /** Only the update shows the worker's own files. */
  lemma OwnShows(s: System, w: nat, script: Script, k: nat)
    requires Inv(s) && w in s.workers && k <= FINISH && s.workers[w].stage == StageAt(k)
    ensures var ticket := s.workers[w].ticket;
            if TakesEffect(s, ticket, script, k) then ShowsAt(Apply(s, Own(w, script, k)), ticket)
            else CurrentRefs(Apply(s, Own(w, script, k))) == CurrentRefs(s)
  {
    hide Inv, Apply, Work, RefGen, FinishClaim, RowOk, FilesOk;
    ApplyWork(s, w, Own(w, script, k).action);
    if k == FINISH && !Raised(script, FINISH) {
      WorkIsFinish(s, w, script.fate, script.now);
      EffectShows(s, w, script.fate, script.now);
    } else {
      OnlyFinishShows(s, w, Own(w, script, k).action);
    }
  }

  lemma EffectShows(s: System, w: nat, fate: Fate, now: int)
    requires w in s.workers
    ensures var t := FinishClaim(s, w, fate, now);
            if fate != RolledBack && HeldAt(s, s.workers[w].ticket) then ShowsAt(t, s.workers[w].ticket)
            else CurrentRefs(t) == CurrentRefs(s)
  {
    hide Deleting, OwnKeys, KeysOf;
  }

  /** The worker has come to its `k`-th own step by successes only, and its files have not been seen. */
  ghost predicate Reached(s0: System, w: nat, script: Script, k: nat)
    requires w in s0.workers
  {
    var s, worker := Run(s0, Done(w, script, k)), s0.workers[w];
    && Inv(s) && Continues(worker, s, w) && s.workers[w].stage == StageAt(k)
    && Unseen(s0, Done(w, script, k), worker.ticket.generation)
  }

  lemma ReachedStart(s0: System, w: nat, script: Script)
    requires Inv(s0) && w in s0.workers && s0.workers[w].stage == Starting
    ensures Reached(s0, w, script, 0)
  {
    hide RefGen, CurrentRefs, RowOk, FilesOk, UploadsOk, Apart;
    assert WorkerOk(s0, s0.workers[w]);
    NothingYet(s0, s0.workers[w].ticket.generation);
  }

  /** The state before the `k`-th own step. */
  lemma BeforeOwn(s0: System, w: nat, script: Script, k: nat)
    requires w in s0.workers && Reached(s0, w, script, k)
    ensures var b, g := Before(s0, w, script, k), s0.workers[w].ticket.generation;
            && b == Run(Run(s0, Done(w, script, k)), Others(w, script, k))
            && Inv(b) && Continues(s0.workers[w], b, w) && b.workers[w].stage == StageAt(k)
            && Unseen(s0, Done(w, script, k) + Others(w, script, k), g)
            && Run(s0, Done(w, script, k + 1)) == Apply(b, Own(w, script, k))
  {
    hide Inv, Run, Unseen, Others, Own, RefGen, CurrentRefs, Apply;
    var done, others, g := Done(w, script, k), Others(w, script, k), s0.workers[w].ticket.generation;
    OthersForeign(w, script, k);
    UnseenEnd(s0, done, g);
    OthersTurn(Run(s0, done), others, w);
    RunAppend(s0, done, others);
    UnseenAppend(s0, done, others, g);
    OneMore(s0, done + others, Own(w, script, k));
    assert Done(w, script, k + 1) == done + others + [Own(w, script, k)];
  }

  lemma OthersForeign(w: nat, script: Script, k: nat)
    ensures forall step :: step in Others(w, script, k) ==> Foreign(step, w)
  {
  }

  /** A success takes the worker to its next step. */
  lemma ReachedNext(s0: System, w: nat, script: Script, k: nat)
    requires w in s0.workers && k < FINISH && Reached(s0, w, script, k) && Succeeds(s0, w, script, k)
    ensures Reached(s0, w, script, k + 1)
  {
    hide Inv, Run, Unseen, Others, Own, Works, RefGen, CurrentRefs, Apply, Done, Before;
    BeforeOwn(s0, w, script, k);
    var b := Before(s0, w, script, k);
    WorksAlike(b, s0.workers[w], b.workers[w], script, k);
    OwnOutcome(b, w, script, k);
    StepKeeps(b, Own(w, script, k));
    OwnUnseen(s0, w, script, k);
  }

  lemma WorksAlike(s: System, worker: Worker, other: Worker, script: Script, k: nat)
    requires other.ticket == worker.ticket && other.source == worker.source
    ensures Works(s, other, script, k) <==> Works(s, worker, script, k)
  {
  }

  lemma OwnUnseen(s0: System, w: nat, script: Script, k: nat)
    requires w in s0.workers && k <= FINISH && Reached(s0, w, script, k)
    requires !TakesEffect(Before(s0, w, script, k), s0.workers[w].ticket, script, k)
    ensures Unseen(s0, Done(w, script, k + 1), s0.workers[w].ticket.generation)
  {
    hide Inv, Run, Unseen, Others, Own, RefGen, CurrentRefs, Apply, HeldAt;
    BeforeOwn(s0, w, script, k);
    var b, g := Before(s0, w, script, k), s0.workers[w].ticket.generation;
    OwnShows(b, w, script, k);
    UnseenEnd(s0, Done(w, script, k) + Others(w, script, k), g);
    UnseenOneMore(s0, Done(w, script, k) + Others(w, script, k), Own(w, script, k), g);
  }

  lemma {:induction false} ReachedAfter(s0: System, w: nat, script: Script, k: nat)
    requires Inv(s0) && w in s0.workers && s0.workers[w].stage == Starting && k <= FINISH
    requires forall j :: 0 <= j < k ==> Succeeds(s0, w, script, j)
    ensures Reached(s0, w, script, k)
  {
    hide Inv, Reached, Succeeds;
    if k == 0 {
      ReachedStart(s0, w, script);
    } else {
      ReachedAfter(s0, w, script, k - 1);
      ReachedNext(s0, w, script, k - 1);
    }
  }

  /* ---------- The end of a call ---------- */

  lemma CleanTurn(s: System, w: nat, script: Script, key: Key)
    requires Inv(s) && w in s.workers && (s.workers[w].stage.Discarding? || s.workers[w].stage.Cleaning?)
    requires key in s.workers[w].stage.todo
    ensures var t, stage := Run(s, Cleans(w, script, key)), s.workers[w].stage;
            && Inv(t)
            && if script.breaks(key).Some? then Continues(s.workers[w], t, w) && t.workers[w].stage.Failing?
               else
                 var left := stage.todo - {key};
                 if left != {} then Continues(s.workers[w], t, w) && t.workers[w].stage == stage.(todo := left)
                 else if stage.Discarding? && stage.reason.Some?
                 then Continues(s.workers[w], t, w) && t.workers[w].stage == Failing(stage.reason.value)
                 else w !in t.workers
    ensures var g := s.workers[w].ticket.generation;
            RefGen(CurrentRefs(s)) != g ==> Unseen(s, Cleans(w, script, key), g)
  {
    hide Inv, Run, Unseen, Others, RefGen, CurrentRefs, Apply, Work;
    var others, g := Others(w, script, FINISH + 1), s.workers[w].ticket.generation;
    var own := WorkStep(w, CleanAction(script, key));
    OthersForeign(w, script, FINISH + 1);
    OthersTurn(s, others, w);
    var b := Run(s, others);
    OneMore(s, others, own);
    ApplyWork(b, w, own.action);
    StepKeeps(b, own);
    DeleteOutcome(b, w, script, key);
    OnlyFinishShows(b, w, own.action);
    if RefGen(CurrentRefs(s)) != g {
      UnseenEnd(s, others, g);
      UnseenOneMore(s, others, own, g);
    }
  }

  lemma DeleteOutcome(s: System, w: nat, script: Script, key: Key)
    requires w in s.workers && (s.workers[w].stage.Discarding? || s.workers[w].stage.Cleaning?)
    requires key in s.workers[w].stage.todo
    ensures var t, stage := Work(s, w, CleanAction(script, key)), s.workers[w].stage;
            if script.breaks(key).Some? then Continues(s.workers[w], t, w) && t.workers[w].stage.Failing?
            else
              var left := stage.todo - {key};
              if left != {} then Continues(s.workers[w], t, w) && t.workers[w].stage == stage.(todo := left)
              else if stage.Discarding? && stage.reason.Some?
              then Continues(s.workers[w], t, w) && t.workers[w].stage == Failing(stage.reason.value)
              else w !in t.workers
  {
  }

  lemma GiveUpTurn(s: System, w: nat, script: Script)
    requires Inv(s) && w in s.workers && s.workers[w].stage.Failing?
    ensures Inv(Run(s, GivesUp(w, script))) && w !in Run(s, GivesUp(w, script)).workers
    ensures var g := s.workers[w].ticket.generation;
            RefGen(CurrentRefs(s)) != g ==> Unseen(s, GivesUp(w, script), g)
  {
    hide Inv, Run, Unseen, Others, RefGen, CurrentRefs, Apply, Work;
    var others, g := Others(w, script, FINISH + 2), s.workers[w].ticket.generation;
    var own := WorkStep(w, Fail(script.detail));
    OthersForeign(w, script, FINISH + 2);
    OthersTurn(s, others, w);
    var b := Run(s, others);
    OneMore(s, others, own);
    ApplyWork(b, w, own.action);
    StepKeeps(b, own);
    FailEnds(b, w, script.detail);
    OnlyFinishShows(b, w, own.action);
    if RefGen(CurrentRefs(s)) != g {
      UnseenEnd(s, others, g);
      UnseenOneMore(s, others, own, g);
    }
  }

  lemma FailEnds(s: System, w: nat, detail: string)
    requires w in s.workers && s.workers[w].stage.Failing?
    ensures w !in Work(s, w, Fail(detail)).workers
  {
    hide HeldBy;
  }

  /** Files not on show when the call comes to its end stay out of sight. */
  lemma {:induction false} TailUnseen(s: System, w: nat, script: Script, tail: seq<Step>, g: nat)
    requires Inv(s) && IsTail(s, w, script, tail)
    requires RefGen(CurrentRefs(s)) != g && (w in s.workers ==> s.workers[w].ticket.generation == g)
    ensures Unseen(s, tail, g)
    decreases |tail|
  {
    hide Inv, Run, Unseen, RefGen, CurrentRefs, Cleans, GivesUp;
    if w !in s.workers {
      NothingYet(s, g);
    } else if s.workers[w].stage.Failing? {
      GiveUpTurn(s, w, script);
    } else {
      var key :| key in s.workers[w].stage.todo && CleansFirst(s, w, script, key, tail);
      var part := Cleans(w, script, key);
      CleanTurn(s, w, script, key);
      UnseenEnd(s, part, g);
      PartsAreSteps(w, script, key);
      TailUnseen(Run(s, part), w, script, tail[|part|..], g);
      UnseenAppend(s, part, tail[|part|..], g);
      assert tail == part + tail[|part|..];
    }
  }

  lemma PartsAreSteps(w: nat, script: Script, key: Key)
    ensures |Cleans(w, script, key)| > 0
  {
  }

  /** A call of `process_media` has taken these steps: `last` is the first own step that failed, or the update. */
  ghost predicate IsCall(s0: System, w: nat, script: Script, last: nat, tail: seq<Step>)
    requires w in s0.workers
  {
    && last <= FINISH
    && (forall k :: 0 <= k < last ==> Succeeds(s0, w, script, k))
    && (last < FINISH ==> !Succeeds(s0, w, script, last))
    && IsTail(Run(s0, Done(w, script, last + 1)), w, script, tail)
  }

  /**
   A call puts its own files on show if and only if its update is reached and takes effect; otherwise
   the row never shows them.
   */
  lemma CallShowsExactly(s0: System, w: nat, script: Script, last: nat, tail: seq<Step>)
    requires Inv(s0) && w in s0.workers && s0.workers[w].stage == Starting && IsCall(s0, w, script, last, tail)
    ensures var ticket, steps := s0.workers[w].ticket, Done(w, script, last + 1) + tail;
            if TakesEffect(Before(s0, w, script, last), ticket, script, last) then OnShow(s0, steps, ticket)
            else Unseen(s0, steps, ticket.generation)
  {
    hide Inv, Run, Unseen, RefGen, CurrentRefs, Done, Others, Before, IsTail, Reached, Succeeds, TakesEffect,
        ShowsAt, Own;
    ReachedAfter(s0, w, script, last);
    var ticket, done := s0.workers[w].ticket, Done(w, script, last + 1);
    if TakesEffect(Before(s0, w, script, last), ticket, script, last) {
      UpdateShows(s0, w, script, last);
      assert (done + tail)[..|done|] == done;
    } else {
      OwnUnseen(s0, w, script, last);
      UnseenEnd(s0, done, ticket.generation);
      StepEnds(s0, w, script, last);
      TailUnseen(Run(s0, done), w, script, tail, ticket.generation);
      UnseenAppend(s0, done, tail, ticket.generation);
    }
  }

  lemma UpdateShows(s0: System, w: nat, script: Script, k: nat)
    requires w in s0.workers && k <= FINISH && Reached(s0, w, script, k)
    requires TakesEffect(Before(s0, w, script, k), s0.workers[w].ticket, script, k)
    ensures ShowsAt(Run(s0, Done(w, script, k + 1)), s0.workers[w].ticket)
  {
    hide Inv, Run, Unseen, Others, Own, RefGen, CurrentRefs, Apply, HeldAt, Done, Before, ShowsAt;
    BeforeOwn(s0, w, script, k);
    OwnShows(Before(s0, w, script, k), w, script, k);
  }

  /** What the last of the nine steps leaves. */
  lemma StepEnds(s0: System, w: nat, script: Script, k: nat)
    requires w in s0.workers && k <= FINISH && Reached(s0, w, script, k)
    ensures var t, worker := Run(s0, Done(w, script, k + 1)), s0.workers[w];
            && Inv(t) && (w in t.workers ==> Continues(worker, t, w))
            && if !Succeeds(s0, w, script, k) then Stopped(worker, t, w)
               else if k < FINISH then w in t.workers && t.workers[w].stage == StageAt(k + 1)
               else Updated(worker, t, w)
  {
    hide Inv, Run, Unseen, Others, Own, Works, RefGen, CurrentRefs, Apply, Done, Before;
    BeforeOwn(s0, w, script, k);
    var b := Before(s0, w, script, k);
    WorksAlike(b, s0.workers[w], b.workers[w], script, k);
    OwnOutcome(b, w, script, k);
    StepKeeps(b, Own(w, script, k));
  }

  /** No exception meets the deletion of these files. */
  ghost predicate Unbroken(script: Script, keys: set<Key>) {
    forall key :: key in keys ==> script.breaks(key) == None
  }

  /* ---------- What a failing call records ---------- */

  /** The error code of an exception that nothing more specific has caught. */
  ghost predicate NamesException(problem: Problem, code: string) {
    match problem
    case Timeout => code == "ffmpeg_timeout"
    case OsError => code == "ffmpeg_not_found"
    case ExitStatus => code == "worker_unexpected"
    case NoProblem => code == "worker_unexpected"
  }

  /** The error code that stands for the failure of the `k`-th own step. */
  ghost predicate NamesFailure(script: Script, ticket: Ticket, k: nat, code: string) {
    if k > 0 && script.raises(k).Some? then NamesException(script.raises(k).value, code)
    else if k == 0 then code == "source_missing"
    else if k <= 3 then
      match script.problems(k - 1)
      case Timeout => code == "ffmpeg_timeout"
      case OsError => code == "ffmpeg_not_found"
      case _ => code == ["encode_main_failed", "encode_preview_failed", "encode_poster_failed"][k - 1]
    else if k == 4 then code == "derived_invalid"
    else if k <= 7 then
      // the files moved so far are deleted first, which an exception may end
      var own := {Key(ticket, Main), Key(ticket, Preview), Key(ticket, Poster)};
      if forall key :: key in own ==> script.breaks(key) == None then code == "promote_failed"
      else exists key :: key in own && script.breaks(key).Some? && NamesException(script.breaks(key).value, code)
    else code == "worker_unexpected"
  }

  /**
   The row after a failure was recorded: failed with this code if it was still processing under the
   claim, source and all three references kept; otherwise as it was.
   */
  ghost predicate RecordsFailure(before: Option<Row>, after: Option<Row>, ticket: Ticket, code: string,
      detail: string) {
    after ==
    if before.Some? && before.value.state == Processing && before.value.generation == ticket.generation
       && before.value.token == ticket.token
    then Some(before.value.(
           state := ClipMedia.Failed, claimedAt := None, errorCode := code,
           errorDetail := if |detail| <= 200 then detail else detail[..200]))
    else before
  }

  /** The steps end with `fail`, which records the failure. */
  ghost predicate EndsInFailure(s: System, w: nat, script: Script, steps: seq<Step>, ticket: Ticket, code: string) {
    && steps != [] && steps[|steps| - 1] == WorkStep(w, Fail(script.detail))
    && RecordsFailure(Run(s, steps[..|steps| - 1]).row, Run(s, steps).row, ticket, code, script.detail)
  }

  lemma FailureBefore(s: System, w: nat, script: Script, part: seq<Step>, steps: seq<Step>, ticket: Ticket,
      code: string)
    requires EndsInFailure(Run(s, part), w, script, steps, ticket, code)
    ensures EndsInFailure(s, w, script, part + steps, ticket, code)
  {
    hide Run, Apply, RecordsFailure, IsTail, CleansFirst;
    var n := |steps| - 1;
    LastOf(part, steps);
    assert Run(s, part + steps) == Run(Run(s, part), steps) by { RunAppend(s, part, steps); }
    assert Run(s, part + steps[..n]) == Run(Run(s, part), steps[..n]) by { RunAppend(s, part, steps[..n]); }
  }

  lemma LastOf(part: seq<Step>, steps: seq<Step>)
    requires steps != []
    ensures var all := part + steps;
            all[..|all| - 1] == part + steps[..|steps| - 1] && all[|all| - 1] == steps[|steps| - 1]
  {
  }

  lemma FailMarks(s: System, w: nat, detail: string)
    requires w in s.workers && s.workers[w].stage.Failing?
    ensures RecordsFailure(s.row, Apply(s, WorkStep(w, Fail(detail))).row, s.workers[w].ticket, s.workers[w].stage.code,
                           detail)
  {
    assert detail[..|detail|] == detail;
  }

  lemma GivingUpFails(s: System, w: nat, script: Script)
    requires Inv(s) && w in s.workers && s.workers[w].stage.Failing?
    ensures EndsInFailure(s, w, script, GivesUp(w, script), s.workers[w].ticket, s.workers[w].stage.code)
  {
    hide Inv, Run, Others, Apply, RecordsFailure;
    var others, own := Others(w, script, FINISH + 2), WorkStep(w, Fail(script.detail));
    OthersForeign(w, script, FINISH + 2);
    OthersTurn(s, others, w);
    OneMore(s, others, own);
    FailMarks(Run(s, others), w, script.detail);
    assert (others + [own])[..|others|] == others;
  }

  lemma BrokenClean(s: System, w: nat, script: Script, key: Key)
    requires Inv(s) && w in s.workers && (s.workers[w].stage.Discarding? || s.workers[w].stage.Cleaning?)
    requires key in s.workers[w].stage.todo && script.breaks(key).Some?
    ensures var t := Run(s, Cleans(w, script, key));
            && w in t.workers && t.workers[w].stage.Failing?
            && NamesException(script.breaks(key).value, t.workers[w].stage.code)
  {
    hide Inv, Run, Others, Apply;
    var others, own := Others(w, script, FINISH + 1), WorkStep(w, CleanAction(script, key));
    OthersForeign(w, script, FINISH + 1);
    OthersTurn(s, others, w);
    OneMore(s, others, own);
    RaiseNames(Run(s, others), w, script.breaks(key).value);
  }

  lemma RaiseNames(s: System, w: nat, problem: Problem)
    requires w in s.workers && !s.workers[w].stage.Starting? && !s.workers[w].stage.Failing?
    ensures var t := Apply(s, WorkStep(w, Raise(problem)));
            w in t.workers && t.workers[w].stage.Failing? && NamesException(problem, t.workers[w].stage.code)
  {
  }

  /** From a failure on, or from the deletion of own files after one, the call ends with `fail`. */
  lemma {:induction false} TailFails(s: System, w: nat, script: Script, tail: seq<Step>) returns (code: string)
    requires Inv(s) && w in s.workers && IsTail(s, w, script, tail)
    requires s.workers[w].stage.Failing? || (s.workers[w].stage.Discarding? && s.workers[w].stage.reason.Some?)
    ensures EndsInFailure(s, w, script, tail, s.workers[w].ticket, code)
    ensures var stage := s.workers[w].stage;
            if stage.Failing? then code == stage.code
            else if Unbroken(script, stage.todo) then code == stage.reason.value
            else exists key :: key in stage.todo && script.breaks(key).Some? &&
                   NamesException(script.breaks(key).value, code)
    decreases |tail|
  {
    hide Inv, Run, Cleans, GivesUp, EndsInFailure, NamesException;
    if s.workers[w].stage.Failing? {
      code := s.workers[w].stage.code;
      GivingUpFails(s, w, script);
    } else {
      var key :| key in s.workers[w].stage.todo && CleansFirst(s, w, script, key, tail);
      var part := Cleans(w, script, key);
      CleanTurn(s, w, script, key);
      if script.breaks(key).Some? { BrokenClean(s, w, script, key); }
      PartsAreSteps(w, script, key);
      code := TailFails(Run(s, part), w, script, tail[|part|..]);
      assert tail == part + tail[|part|..];
      FailureBefore(s, w, script, part, tail[|part|..], s.workers[w].ticket, code);
    }
  }

  /** What a failed own step leaves the worker with. */
  ghost predicate LeftWith(script: Script, ticket: Ticket, k: nat, stage: Stage) {
    if 5 <= k <= 7 && script.raises(k) == None then stage == Discarding(OwnKeys(ticket), Some("promote_failed"))
    else stage.Failing? && NamesFailure(script, ticket, k, stage.code)
  }

  lemma FailedEncode(s: System, w: nat, script: Script, k: nat)
    requires w in s.workers && 1 <= k <= 3 && s.workers[w].stage == StageAt(k)
    requires !Works(s, s.workers[w], script, k) && !Raised(script, k)
    ensures var t := Work(s, w, Planned(script, k));
            w in t.workers && LeftWith(script, s.workers[w].ticket, k, t.workers[w].stage)
  {
  }

  lemma FailedMove(s: System, w: nat, script: Script, k: nat)
    requires w in s.workers && WorkerOk(s, s.workers[w]) && 5 <= k <= 7 && s.workers[w].stage == StageAt(k)
    requires !Works(s, s.workers[w], script, k) && !Raised(script, k)
    ensures var t := PublishNext(s, w, script.moves(k - 5));
            w in t.workers && LeftWith(script, s.workers[w].ticket, k, t.workers[w].stage)
  {
    hide OwnKeys, Private, Finished, Unwritten, OneClaim, InStep;
  }

  lemma FailedUpdate(s: System, w: nat, script: Script)
    requires w in s.workers && script.fate != Committed && !Raised(script, FINISH)
    ensures var t := FinishClaim(s, w, script.fate, script.now);
            w in t.workers && LeftWith(script, s.workers[w].ticket, FINISH, t.workers[w].stage)
  {
    hide OwnKeys, KeysOf;
  }

  lemma FailedCheck(s: System, w: nat, script: Script, k: nat)
    requires w in s.workers && (k == 0 || k == 4) && s.workers[w].stage == StageAt(k)
    requires !Works(s, s.workers[w], script, k) && !Raised(script, k)
    ensures var t := Work(s, w, Planned(script, k));
            w in t.workers && LeftWith(script, s.workers[w].ticket, k, t.workers[w].stage)
  {
  }

  lemma RaisedStep(s: System, w: nat, script: Script, k: nat)
    requires w in s.workers && k <= FINISH && s.workers[w].stage == StageAt(k) && Raised(script, k)
    ensures var t := Apply(s, Own(w, script, k));
            w in t.workers && LeftWith(script, s.workers[w].ticket, k, t.workers[w].stage)
  {
    hide Apply, OwnKeys;
    RaiseNames(s, w, script.raises(k).value);
  }

  lemma FailedStep(s: System, w: nat, script: Script, k: nat)
    requires w in s.workers && WorkerOk(s, s.workers[w]) && k <= FINISH && s.workers[w].stage == StageAt(k)
    requires !Works(s, s.workers[w], script, k)
    requires k < FINISH || Raised(script, k) || script.fate != Committed
    ensures var t := Apply(s, Own(w, script, k));
            w in t.workers && LeftWith(script, s.workers[w].ticket, k, t.workers[w].stage)
  {
    hide Apply, Work, LeftWith, WorkerOk, FinishClaim, PublishNext, HeldAt;
    if Raised(script, k) {
      RaisedStep(s, w, script, k);
    } else {
      ApplyWork(s, w, Planned(script, k));
      if k == 0 || k == 4 { FailedCheck(s, w, script, k); }
      else if k <= 3 { FailedEncode(s, w, script, k); }
      else if k <= 7 { FailedMove(s, w, script, k); WorkIsPublish(s, w, script.moves(k - 5)); }
      else { FailedUpdate(s, w, script); WorkIsFinish(s, w, script.fate, script.now); }
    }
  }

  lemma WorkIsPublish(s: System, x: nat, ok: bool)
    requires x in s.workers && s.workers[x].stage.Publishing? && s.workers[x].stage.moved < 3
    ensures Work(s, x, Publish(ok)) == PublishNext(s, x, ok)
  {
    hide FinishClaim, PublishNext, DeleteKey, FailClaim, Encoded;
  }

  lemma FailureEnds(s0: System, w: nat, script: Script, k: nat)
    requires w in s0.workers && k <= FINISH && Reached(s0, w, script, k) && !Succeeds(s0, w, script, k)
    requires k < FINISH || Raised(script, k) || script.fate != Committed
    ensures var t := Run(s0, Done(w, script, k + 1));
            w in t.workers && LeftWith(script, s0.workers[w].ticket, k, t.workers[w].stage)
  {
    hide Inv, Run, Unseen, Others, Own, Works, RefGen, CurrentRefs, Apply, Done, Before, LeftWith, WorkerOk;
    BeforeOwn(s0, w, script, k);
    var b := Before(s0, w, script, k);
    WorksAlike(b, s0.workers[w], b.workers[w], script, k);
    WorkerIsOk(b, w);
    FailedStep(b, w, script, k);
  }

  /**
   A call in which an own step fails or raises, or whose update does not commit, ends with `fail`: the
   row is marked with the code of that step if it is still processing under the claim at that moment.
   */
  lemma FailureIsRecorded(s0: System, w: nat, script: Script, last: nat, tail: seq<Step>) returns (code: string)
    requires Inv(s0) && w in s0.workers && s0.workers[w].stage == Starting && IsCall(s0, w, script, last, tail)
    requires last < FINISH || Raised(script, last) || script.fate != Committed
    ensures EndsInFailure(s0, w, script, Done(w, script, last + 1) + tail, s0.workers[w].ticket, code)
    ensures NamesFailure(script, s0.workers[w].ticket, last, code)
  {
    hide Inv, Run, Done, IsTail, Reached, Before, EndsInFailure, NamesException, Updated;
    ReachedAfter(s0, w, script, last);
    StepEnds(s0, w, script, last);
    FailureEnds(s0, w, script, last);
    code := TailFails(Run(s0, Done(w, script, last + 1)), w, script, tail);
    FailureBefore(s0, w, script, Done(w, script, last + 1), tail, s0.workers[w].ticket, code);
    assert OwnKeys(s0.workers[w].ticket) == {Key(s0.workers[w].ticket, Main), Key(s0.workers[w].ticket, Preview),
        Key(s0.workers[w].ticket, Poster)};
  }

  lemma EmptyRun(s: System)
    ensures Run(s, []) == s
  {
  }

  /* ---------- What a call deletes ---------- */

  /** Keys only worker `w` can bring into being or that nobody can: its own, and those it found on show. */
  ghost predicate Guarded(worker: Worker, key: Key) {
    key.ticket.generation == worker.ticket.generation
    || key.ticket.generation == RefGen(worker.shown)
  }

  lemma PublishAddsOwn(s: System, x: nat, ok: bool)
    requires x in s.workers && s.workers[x].stage.Publishing? && s.workers[x].stage.moved < 3
    ensures forall k :: k in PublishNext(s, x, ok).delivery ==>
              k in s.delivery || k.ticket == s.workers[x].ticket
  {
    hide OwnKeys;
  }

  lemma PublisherIsPrivate(s: System, x: nat, w: nat)
    requires Inv(s) && x in s.workers && w in s.workers && s.workers[x].stage.Publishing?
    ensures RefGen(s.workers[w].shown) != s.workers[x].ticket.generation
  {
    hide FilesOk, RowOk, Apart, UploadsOk, Prepared, Finished, Unwritten, OneClaim, InStep, RefGen;
    assert WorkerOk(s, s.workers[x]);
  }

  lemma FinishKeepsFiles(s: System, x: nat, fate: Fate, now: int)
    requires x in s.workers
    ensures FinishClaim(s, x, fate, now).delivery == s.delivery
  {
    hide Deleting, OwnKeys, KeysOf, HeldBy;
  }

  lemma WorkAddsOwn(s: System, x: nat, action: Action)
    requires x in s.workers
    ensures forall k :: k in Work(s, x, action).delivery ==>
              k in s.delivery || (s.workers[x].stage.Publishing? && k.ticket == s.workers[x].ticket)
  {
    hide Encoded, FinishClaim, FailClaim, PublishNext, DeleteKey;
    var stage := s.workers[x].stage;
    if stage.Publishing? {
      if stage.moved < 3 { if action.Publish? { PublishAddsOwn(s, x, action.ok); } }
      else if action.Finish? { FinishKeepsFiles(s, x, action.fate, action.now); }
    } else if stage.Failing? && action.Fail? {
      FailWritesOwn(s, x, action.detail);
    } else if (stage.Discarding? || stage.Cleaning?) && action.Delete? {
      DeleteLeavesRow(s, x, action.key, action.ok);
    }
  }

  /** Nobody else brings back a file of the worker's or of the version it found. */
  lemma ForeignAddsNone(s: System, step: Step, w: nat, key: Key)
    requires Inv(s) && w in s.workers && Foreign(step, w) && Guarded(s.workers[w], key) && key !in s.delivery
    ensures key !in Apply(s, step).delivery
  {
    hide Inv, Work, Save, Probe, Remove, RefGen;
    OthersLeaveFiles(s, step);
    if step.WorkStep? && step.w in s.workers {
      WorkAddsOwn(s, step.w, step.action);
      if s.workers[step.w].stage.Publishing? {
        PublisherIsPrivate(s, step.w, w);
        InvApart(s);
        TwoWorkers(s, step.w, w);
      }
    }
  }

  lemma InvApart(s: System)
    requires Inv(s)
    ensures Apart(s)
  {
    hide FilesOk, RowOk, WorkersOk, UploadsOk, Apart;
  }

  lemma {:induction false} OthersAddNone(s: System, steps: seq<Step>, w: nat, key: Key)
    requires Inv(s) && w in s.workers && forall step :: step in steps ==> Foreign(step, w)
    requires Guarded(s.workers[w], key) && key !in s.delivery
    ensures key !in Run(s, steps).delivery
  {
    hide Inv, Apply, Foreign, Guarded;
    if steps != [] {
      var init := steps[..|steps| - 1];
      OthersTurn(s, init, w);
      OthersAddNone(s, init, w, key);
      ForeignAddsNone(Run(s, init), steps[|steps| - 1], w, key);
    }
  }

  /** The worker's own last steps add no file, and delete what they are to delete. */
  lemma CleanDeletes(s: System, w: nat, script: Script, key: Key, other: Key)
    requires Inv(s) && w in s.workers && (s.workers[w].stage.Discarding? || s.workers[w].stage.Cleaning?)
    requires key in s.workers[w].stage.todo && Guarded(s.workers[w], other)
    requires other !in s.delivery || (other == key && script.breaks(key) == None && script.deletes(key))
    ensures other !in Run(s, Cleans(w, script, key)).delivery
  {
    hide Inv, Run, Others, Apply, Guarded, Work;
    var others, own := Others(w, script, FINISH + 1), WorkStep(w, CleanAction(script, key));
    OthersForeign(w, script, FINISH + 1);
    OthersTurn(s, others, w);
    OneMore(s, others, own);
    var b := Run(s, others);
    ApplyWork(b, w, own.action);
    WorkAddsOwn(b, w, own.action);
    if other !in s.delivery {
      OthersAddNone(s, others, w, other);
    } else {
      DeletesIt(b, w, key);
    }
  }

  lemma DeletesIt(s: System, w: nat, key: Key)
    requires w in s.workers && (s.workers[w].stage.Discarding? || s.workers[w].stage.Cleaning?)
    requires key in s.workers[w].stage.todo
    ensures key !in Work(s, w, Delete(key, true)).delivery
  {
    hide Deleting;
  }

  lemma GiveUpAddsNone(s: System, w: nat, script: Script, key: Key)
    requires Inv(s) && w in s.workers && s.workers[w].stage.Failing? && Guarded(s.workers[w], key) && key !in s.delivery
    ensures key !in Run(s, GivesUp(w, script)).delivery
  {
    hide Inv, Run, Others, Apply, Guarded, Work;
    var others, own := Others(w, script, FINISH + 2), WorkStep(w, Fail(script.detail));
    OthersForeign(w, script, FINISH + 2);
    OthersTurn(s, others, w);
    OneMore(s, others, own);
    ApplyWork(Run(s, others), w, own.action);
    WorkAddsOwn(Run(s, others), w, own.action);
    OthersAddNone(s, others, w, key);
  }

  /** A file that is gone, or to be deleted without an exception in the way, is gone when the call ends. */
  lemma {:induction false} TailDeletes(s: System, w: nat, script: Script, tail: seq<Step>, key: Key)
    requires Inv(s) && w in s.workers && IsTail(s, w, script, tail) && Guarded(s.workers[w], key)
    requires key !in s.delivery ||
             ((s.workers[w].stage.Discarding? || s.workers[w].stage.Cleaning?) && key in s.workers[w].stage.todo
              && Unbroken(script, s.workers[w].stage.todo) && script.deletes(key))
    ensures key !in Run(s, tail).delivery
    decreases |tail|
  {
    hide Inv, Run, Cleans, GivesUp, RefGen, CurrentRefs, Unseen;
    if s.workers[w].stage.Failing? {
      GiveUpAddsNone(s, w, script, key);
    } else {
      var next :| next in s.workers[w].stage.todo && CleansFirst(s, w, script, next, tail);
      var part := Cleans(w, script, next);
      CleanTurn(s, w, script, next);
      if key !in s.delivery || key == next { CleanDeletes(s, w, script, next, key); }
      PartsAreSteps(w, script, next);
      assert tail == part + tail[|part|..];
      RunAppend(s, part, tail[|part|..]);
      if w in Run(s, part).workers {
        TailDeletes(Run(s, part), w, script, tail[|part|..], key);
      } else {
        assert IsTail(Run(s, part), w, script, tail[|part|..]);
        EmptyRun(Run(s, part));
      }
    }
  }

  /** The files of one claim that a call leaves behind: none but those whose deletion failed. */
  ghost predicate LeavesNone(s: System, ticket: Ticket, script: Script) {
    forall kind :: Key(ticket, kind) in s.delivery ==> !script.deletes(Key(ticket, kind))
  }

  ghost predicate Unhindered(script: Script, ticket: Ticket) {
    forall kind :: script.breaks(Key(ticket, kind)) == None
  }

  /**
   A call that no exception stops while it deletes takes the version it replaced out of the delivery
   area once its update has committed, and its own files if a move failed or the claim was gone by then.
   */
  lemma CallCleansUp(s0: System, w: nat, script: Script, last: nat, tail: seq<Step>)
    requires Inv(s0) && w in s0.workers && s0.workers[w].stage == Starting && IsCall(s0, w, script, last, tail)
    ensures var worker, s := s0.workers[w], Run(s0, Done(w, script, last + 1) + tail);
            && (last == FINISH && Succeeds(s0, w, script, last) && worker.shown.main.Some?
                && Unhindered(script, worker.shown.main.value.ticket) ==>
                  LeavesNone(s, worker.shown.main.value.ticket, script))
            && (5 <= last && script.raises(last) == None && !Succeeds(s0, w, script, last)
                && (last < FINISH || script.fate == Committed) && Unhindered(script, worker.ticket) ==>
                  LeavesNone(s, worker.ticket, script))
  {
    hide Inv, Run, Done, IsTail, Reached, Before, LeavesNone, Unhindered, ShowsAt;
    ReachedAfter(s0, w, script, last);
    StepEnds(s0, w, script, last);
    var worker, t := s0.workers[w], Run(s0, Done(w, script, last + 1));
    RunAppend(s0, Done(w, script, last + 1), tail);
    if last == FINISH && Succeeds(s0, w, script, last) && worker.shown.main.Some?
       && Unhindered(script, worker.shown.main.value.ticket) {
      ReplacedKeys(s0, w);
      TailLeavesNone(t, w, script, tail, worker.shown.main.value.ticket);
    }
    if 5 <= last && script.raises(last) == None && !Succeeds(s0, w, script, last)
       && (last < FINISH || script.fate == Committed) && Unhindered(script, worker.ticket) {
      DiscardsOwn(s0, w, script, last);
      TailLeavesNone(t, w, script, tail, worker.ticket);
    }
  }

  lemma TailLeavesNone(s: System, w: nat, script: Script, tail: seq<Step>, ticket: Ticket)
    requires Inv(s) && w in s.workers && IsTail(s, w, script, tail) && Unhindered(script, ticket)
    requires s.workers[w].stage.Discarding? || s.workers[w].stage.Cleaning?
    requires s.workers[w].stage.todo == OwnKeys(ticket)
    requires ticket.generation in {s.workers[w].ticket.generation, RefGen(s.workers[w].shown)}
    ensures LeavesNone(Run(s, tail), ticket, script)
  {
    hide Inv, Run, IsTail;
    forall kind | Key(ticket, kind) in Run(s, tail).delivery ensures !script.deletes(Key(ticket, kind)) {
      OwnKeyOfKind(ticket, kind);
      if script.deletes(Key(ticket, kind)) { TailDeletes(s, w, script, tail, Key(ticket, kind)); }
    }
  }

  lemma OwnKeyOfKind(ticket: Ticket, kind: Kind)
    ensures Key(ticket, kind) in OwnKeys(ticket)
    ensures forall key :: key in OwnKeys(ticket) ==> key == Key(ticket, key.kind)
  {
    match kind case Main => case Preview => case Poster =>
  }

  /** The version to be replaced is the three files of an earlier claim. */
  lemma ReplacedKeys(s: System, w: nat)
    requires Inv(s) && w in s.workers && s.workers[w].shown.main.Some?
    ensures var worker, ticket := s.workers[w], s.workers[w].shown.main.value.ticket;
            && Replaces(worker) == OwnKeys(ticket) && Replaces(worker) != {}
            && ticket.generation == RefGen(worker.shown)
  {
    hide FilesOk, RowOk, Apart, UploadsOk, StageOk, InStep;
    assert WorkerOk(s, s.workers[w]);
    var ticket := s.workers[w].shown.main.value.ticket;
    assert Key(ticket, Main) in OwnKeys(ticket);
  }

  lemma DiscardsOwn(s0: System, w: nat, script: Script, k: nat)
    requires w in s0.workers && 5 <= k <= FINISH && Reached(s0, w, script, k) && !Succeeds(s0, w, script, k)
    requires script.raises(k) == None && (k < FINISH || script.fate == Committed)
    ensures var t := Run(s0, Done(w, script, k + 1));
            && w in t.workers && t.workers[w].stage.Discarding?
            && t.workers[w].stage.todo == OwnKeys(s0.workers[w].ticket)
  {
    hide Inv, Run, Unseen, Others, Own, Works, RefGen, CurrentRefs, Apply, Done, Before, WorkerOk, NamesFailure,
        OwnKeys;
    BeforeOwn(s0, w, script, k);
    var b := Before(s0, w, script, k);
    WorksAlike(b, s0.workers[w], b.workers[w], script, k);
    WorkerIsOk(b, w);
    if k < FINISH { FailedStep(b, w, script, k); } else { StaleUpdate(b, w, script); }
  }

  lemma StaleUpdate(s: System, w: nat, script: Script)
    requires w in s.workers && s.workers[w].stage == StageAt(FINISH) && !Works(s, s.workers[w], script, FINISH)
    requires script.fate == Committed && !Raised(script, FINISH)
    ensures var t := Apply(s, Own(w, script, FINISH));
            && w in t.workers && t.workers[w].stage.Discarding?
            && t.workers[w].stage.todo == OwnKeys(s.workers[w].ticket)
  {
    hide Apply, Work, OwnKeys, FinishClaim;
    ApplyWork(s, w, Own(w, script, FINISH).action);
    WorkIsFinish(s, w, script.fate, script.now);
    StaleFinish(s, w, script.now);
  }

  lemma StaleFinish(s: System, w: nat, now: int)
    requires w in s.workers && !HeldAt(s, s.workers[w].ticket)
    ensures var t := FinishClaim(s, w, Committed, now);
            && w in t.workers && t.workers[w].stage.Discarding?
            && t.workers[w].stage.todo == OwnKeys(s.workers[w].ticket)
  {
    hide OwnKeys, KeysOf;
  }

  lemma NothingDone(s0: System, w: nat, script: Script)
    ensures Done(w, script, 0) == [] && Run(s0, []) == s0
  {
  }

  lemma TurnIsDone(s0: System, w: nat, script: Script, k: nat)
    ensures var turn := Others(w, script, k) + [Own(w, script, k)];
            && Done(w, script, k + 1) == Done(w, script, k) + turn
            && Run(s0, Done(w, script, k + 1)) == Run(Run(s0, Done(w, script, k)), turn)
  {
    hide Run, Others, Own;
    RunAppend(s0, Done(w, script, k), Others(w, script, k) + [Own(w, script, k)]);
  }

  lemma TailUnit(s: System, w: nat, script: Script)
    ensures w !in s.workers ==> IsTail(s, w, script, [])
    ensures forall rest :: IsTail(s, w, script, rest) ==> IsTail(s, w, script, [] + rest)
  {
    hide CleansFirst, GivesUp;
    forall rest | IsTail(s, w, script, rest) ensures IsTail(s, w, script, [] + rest) { assert [] + rest == rest; }
  }

  lemma TailExtends(s1: System, steps: seq<Step>, s: System, w: nat, script: Script, key: Key)
    requires w in s.workers && (s.workers[w].stage.Discarding? || s.workers[w].stage.Cleaning?)
    requires key in s.workers[w].stage.todo
    requires forall rest :: IsTail(s, w, script, rest) ==> IsTail(s1, w, script, steps + rest)
    ensures forall rest :: IsTail(Run(s, Cleans(w, script, key)), w, script, rest) ==>
              IsTail(s1, w, script, (steps + Cleans(w, script, key)) + rest)
  {
    hide Run, Cleans, GivesUp;
    var part := Cleans(w, script, key);
    forall rest | IsTail(Run(s, part), w, script, rest) ensures IsTail(s1, w, script, (steps + part) + rest) {
      PartsAreSteps(w, script, key);
      assert (part + rest)[|part|..] == rest;
      assert CleansFirst(s, w, script, key, part + rest);
      assert steps + (part + rest) == (steps + part) + rest;
    }
  }

  /** After the nine steps there is nothing left, a failure to record, or files to delete. */
  lemma EndsWell(worker: Worker, s: System, w: nat, script: Script)
    requires Stopped(worker, s, w) || Updated(worker, s, w)
    ensures w in s.workers ==>
              s.workers[w].stage.Failing? ||
              ((s.workers[w].stage.Discarding? || s.workers[w].stage.Cleaning?) && s.workers[w].stage.todo != {})
    ensures Updated(worker, s, w) && !Stopped(worker, s, w) ==>
              ((w in s.workers && !s.workers[w].stage.Failing? && !Unbroken(script, s.workers[w].stage.todo)) <==>
               !Unbroken(script, Replaces(worker)))
  {
    hide ShowsAt;
    assert Key(worker.ticket, Main) in OwnKeys(worker.ticket);
  }

  class Site {
    var s: System
    ghost const start: System
    ghost var trace: seq<Step>

    ghost predicate Valid()
      reads this
    {
      s == Run(start, trace) && Inv(s)
    }

    constructor (initial: System)
      requires Inv(initial)
      ensures Valid() && s == start == initial && trace == []
    {
      s := initial;
      start := initial;
      trace := [];
    }

    /** Some steps, one after the other. */
    method Take(steps: seq<Step>)
      requires Valid()
      modifies this
      ensures Valid() && trace == old(trace) + steps && s == Run(old(s), steps)
    {
      hide Inv, Apply;
      for i := 0 to |steps|
        invariant Valid() && trace == old(trace) + steps[..i] && s == Run(old(s), steps[..i])
      {
        StepKeeps(s, steps[i]);
        OneMore(start, trace, steps[i]);
        s := Apply(s, steps[i]);
        trace := trace + [steps[i]];
        assert steps[..i + 1] == steps[..i] + [steps[i]];
        assert steps[..i + 1][..i] == steps[..i];
      }
      assert steps[..|steps|] == steps;
    }

    /** The others go on, then the worker takes its `k`-th step; `ok` says whether it may go on. */
    method OwnTurn(w: nat, script: Script, k: nat, ghost s0: System, ghost base: seq<Step>) returns (ok: bool)
      requires Valid() && w in s0.workers && k <= FINISH && Reached(s0, w, script, k)
      requires trace == base + Done(w, script, k) && s == Run(s0, Done(w, script, k))
      modifies this
      ensures Valid() && trace == base + Done(w, script, k + 1) && s == Run(s0, Done(w, script, k + 1))
      ensures ok == Succeeds(s0, w, script, k)
      ensures if !ok then Stopped(s0.workers[w], s, w)
              else if k < FINISH then Reached(s0, w, script, k + 1) && w in s.workers else Updated(s0.workers[w], s, w)
    {
      hide Inv, Run, Unseen, Others, Own, Works, RefGen, CurrentRefs, Apply, Done, Before, Reached, ShowsAt;
      Take(Others(w, script, k) + [Own(w, script, k)]);
      TurnIsDone(s0, w, script, k);
      assert trace == base + Done(w, script, k + 1);
      StepEnds(s0, w, script, k);
      ok := w !in s.workers || (k < FINISH && s.workers[w].stage == StageAt(k + 1)) || s.workers[w].stage.Cleaning?;
      if k < FINISH && Succeeds(s0, w, script, k) { ReachedNext(s0, w, script, k); }
    }

    /** `_cleanup_keys` on the keys left to the worker, in any order; `broken` if an exception ends it. */
    method CleanUp(w: nat, script: Script) returns (broken: bool, ghost steps: seq<Step>)
      requires Valid() && w in s.workers && (s.workers[w].stage.Discarding? || s.workers[w].stage.Cleaning?)
      requires s.workers[w].stage.todo != {}
      modifies this
      ensures Valid() && trace == old(trace) + steps && s == Run(old(s), steps)
      ensures broken <==> !Unbroken(script, old(s).workers[w].stage.todo)
      ensures w in s.workers ==> s.workers[w].stage.Failing?
      ensures broken ==> w in s.workers
      ensures forall rest :: IsTail(s, w, script, rest) ==> IsTail(old(s), w, script, steps + rest)
    {
      hide Inv, Run, Cleans, IsTail, CleansFirst;
      broken := false;
      steps := [];
      ghost var s1, stage := s, s.workers[w].stage;
      assert Run(s1, []) == s1 by { EmptyRun(s1); }
      TailUnit(s1, w, script);
      while w in s.workers && !s.workers[w].stage.Failing?
        invariant Valid() && trace == old(trace) + steps && s == Run(s1, steps)
        invariant w in s.workers && !s.workers[w].stage.Failing? ==>
                    && !broken && (s.workers[w].stage.Discarding? || s.workers[w].stage.Cleaning?)
                    && s.workers[w].stage.todo != {} && s.workers[w].stage.todo <= stage.todo
                    && Unbroken(script, stage.todo - s.workers[w].stage.todo)
        invariant w !in s.workers || s.workers[w].stage.Failing? ==> (broken <==> !Unbroken(script, stage.todo))
        invariant broken ==> w in s.workers
        invariant forall rest :: IsTail(s, w, script, rest) ==> IsTail(s1, w, script, steps + rest)
        decreases if w in s.workers && !s.workers[w].stage.Failing? then 1 + |s.workers[w].stage.todo| else 0
      {
        var key :| key in s.workers[w].stage.todo;
        ghost var before := s;
        CleanTurn(s, w, script, key);
        TailExtends(s1, steps, before, w, script, key);
        RunAppend(s1, steps, Cleans(w, script, key));
        Take(Cleans(w, script, key));
        steps := steps + Cleans(w, script, key);
        broken := script.breaks(key).Some?;
      }
    }

    /** The closing `fail`. */
    method GiveUp(w: nat, script: Script) returns (ghost steps: seq<Step>)
      requires Valid() && w in s.workers && s.workers[w].stage.Failing?
      modifies this
      ensures Valid() && trace == old(trace) + steps && s == Run(old(s), steps) && w !in s.workers
      ensures IsTail(old(s), w, script, steps)
    {
      hide Inv, Run, GivesUp;
      GiveUpTurn(s, w, script);
      Take(GivesUp(w, script));
      steps := GivesUp(w, script);
    }

    /** What is left after the nine steps. */
    method End(w: nat, script: Script) returns (broken: bool, ghost tail: seq<Step>)
      requires Valid()
      requires w in s.workers ==>
                 s.workers[w].stage.Failing? ||
                 ((s.workers[w].stage.Discarding? || s.workers[w].stage.Cleaning?) && s.workers[w].stage.todo != {})
      modifies this
      ensures Valid() && trace == old(trace) + tail && w !in s.workers && IsTail(old(s), w, script, tail)
      ensures broken <==> w in old(s).workers && !old(s).workers[w].stage.Failing? &&
                          !Unbroken(script, old(s).workers[w].stage.todo)
    {
      hide Inv, Run, IsTail, Unbroken;
      broken := false;
      tail := [];
      TailUnit(s, w, script);
      if w in s.workers && !s.workers[w].stage.Failing? {
        broken, tail := CleanUp(w, script);
      }
      TailUnit(s, w, script);
      if w in s.workers {
        ghost var rest := GiveUp(w, script);
        tail := tail + rest;
      } else {
        assert tail + [] == tail;
      }
    }

    /**
     `process_media` after a claim. The call takes exactly the steps of `IsCall`; it returns true if
     and only if the source exists at the check and at each encoding, every encoding, the validation
     and the three moves succeed, the update commits under the claim, and nothing raises.
     */
    method ProcessMedia(w: nat, script: Script) returns (ready: bool, ghost last: nat, ghost tail: seq<Step>)
      requires Valid() && w in s.workers && s.workers[w].stage == Starting
      modifies this
      ensures Valid() && w !in s.workers
      ensures trace == old(trace) + Done(w, script, last + 1) + tail && IsCall(old(s), w, script, last, tail)
      ensures ready <==> (forall k :: 0 <= k <= FINISH ==> Succeeds(old(s), w, script, k)) &&
                         Unbroken(script, Replaces(old(s).workers[w]))
    {
      hide Inv, Run, Done, Succeeds, IsTail, Unbroken, Reached;
      ghost var s0, base := s, trace;
      ReachedStart(s0, w, script);
      NothingDone(s0, w, script);
      var k, ok := 0, true;
      while ok && k <= FINISH
        invariant 0 <= k <= FINISH + 1 && (ok || k > 0)
        invariant Valid() && trace == base + Done(w, script, k) && s == Run(s0, Done(w, script, k))
        invariant ok && k <= FINISH ==> Reached(s0, w, script, k)
        invariant forall j :: 0 <= j < k - 1 ==> Succeeds(s0, w, script, j)
        invariant 0 < k ==> (ok == Succeeds(s0, w, script, k - 1))
        invariant !ok ==> Stopped(s0.workers[w], s, w)
        invariant ok && k == FINISH + 1 ==> Updated(s0.workers[w], s, w)
        decreases FINISH + 1 - k, ok
      {
        ok := OwnTurn(w, script, k, s0, base);
        k := k + 1;
      }
      last := k - 1;
      EndsWell(s0.workers[w], s, w, script);
      var broken;
      broken, tail := End(w, script);
      ready := ok && !broken;
    }
  }
}
