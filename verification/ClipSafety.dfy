/** What the claim protocol of clip media guarantees over whole runs. */
module ClipSafety {
  import opened Prelude
  import opened ClipMedia
  import opened ClipRuns

  lemma RunExtends(s: System, steps: seq<Step>, i: nat)
    requires i < |steps|
    ensures Run(s, steps[..i + 1]) == Apply(Run(s, steps[..i]), steps[i])
  {
    hide Apply;
    assert steps[..i + 1][..i] == steps[..i];
  }

  lemma {:induction false} RunKeeps(s: System, steps: seq<Step>)
    requires Inv(s)
    ensures Inv(Run(s, steps))
  {
    hide Inv, Apply;
    if steps != [] {
      RunKeeps(s, steps[..|steps| - 1]);
      StepKeeps(Run(s, steps[..|steps| - 1]), steps[|steps| - 1]);
    }
  }

  lemma InitialOk()
    ensures Inv(INITIAL)
  {
    NoRefs();
  }

  /**
   What the row shows: three existing files of one claim or none, and when it is ready, files made
   from its source.
   */
  ghost predicate Sound(s: System, row: Row) {
    && (row.refs == NO_REFS || exists ticket :: row.refs == VersionedKeys(ticket))
    && (forall k :: k in KeysOf(row.refs) ==> k in s.delivery)
    && (row.state == Ready ==> row.refs != NO_REFS && row.source in s.saved)
    && (row.state == Ready ==>
          forall k :: k in KeysOf(row.refs) ==> s.delivery[k] == Derived(k.kind, s.saved[row.source]))
  }

  /**
   In every state of every run all three references exist and come from one claim, and what a ready
   row shows was encoded from the source it has now.
   */
  lemma ReferencesNeverDangle(steps: seq<Step>)
    requires Run(INITIAL, steps).row.Some?
    ensures Sound(Run(INITIAL, steps), Run(INITIAL, steps).row.value)
  {
    hide Apply, Run, KeysOf;
    InitialOk();
    RunKeeps(INITIAL, steps);
    var s := Run(INITIAL, steps);
    Shown(s);
  }

  lemma Shown(s: System)
    requires Inv(s) && s.row.Some?
    ensures Sound(s, s.row.value)
  {
    hide WorkersOk, UploadsOk, Apart, KeysOf, RefGen;
    if RefTicket(s.row.value.refs).Some? {
      assert s.row.value.refs == VersionedKeys(RefTicket(s.row.value.refs).value);
    }
  }

  /* ---------- Who may write an outcome ---------- */

  ghost predicate HeldAt(s: System, t: Ticket) {
    s.row.Some? && HeldBy(s.row.value, t)
  }

  /** The claim of `t` is over for good. */
  ghost predicate Over(s: System, t: Ticket) {
    s.row.Some? && s.row.value.generation >= t.generation
    && !(s.row.value.state == Processing && s.row.value.generation == t.generation)
  }

  /** Only `finish` and `fail` write the row, and only under their own claim. */
  ghost predicate OnlyOwnOutcome(s: System, t: System, ticket: Ticket) {
    t.row == s.row || (HeldAt(s, ticket) && t.row.Some? && t.row.value.state in {Ready, Failed}
                       && t.row.value.generation == s.row.value.generation && t.row.value.source == s.row.value.source)
  }

  lemma PublishLeavesRow(s: System, w: nat, ok: bool)
    requires w in s.workers && s.workers[w].stage.Publishing? && s.workers[w].stage.moved < 3
    ensures var t := PublishNext(s, w, ok);
            && t.row == s.row && t.sources == s.sources
            && forall k :: k in s.delivery && k != Key(s.workers[w].ticket, KINDS[s.workers[w].stage.moved]) ==>
                 k in t.delivery && t.delivery[k] == s.delivery[k]
  {
    hide OwnKeys;
  }

  lemma DeleteLeavesRow(s: System, w: nat, key: Key, ok: bool)
    requires w in s.workers && (s.workers[w].stage.Discarding? || s.workers[w].stage.Cleaning?)
    ensures var t := DeleteKey(s, w, key, ok);
            && t.row == s.row && t.sources == s.sources
            && (forall k :: k in t.delivery ==> k in s.delivery && t.delivery[k] == s.delivery[k])
            && (forall k :: k in s.delivery && (k != key || key !in s.workers[w].stage.todo) ==> k in t.delivery)
  {
    hide Deleting;
  }

  lemma FinishWritesOwn(s: System, w: nat, fate: Fate, now: int)
    requires w in s.workers
    ensures var t := FinishClaim(s, w, fate, now);
            && OnlyOwnOutcome(s, t, s.workers[w].ticket) && t.sources == s.sources && t.delivery == s.delivery
            && (!(HeldAt(s, s.workers[w].ticket) && fate != RolledBack) ==> t.row == s.row)
  {
    hide Deleting, OwnKeys;
  }

  lemma FailWritesOwn(s: System, w: nat, detail: string)
    requires w in s.workers && s.workers[w].stage.Failing?
    ensures var t := FailClaim(s, w, detail);
            && OnlyOwnOutcome(s, t, s.workers[w].ticket) && t.sources == s.sources && t.delivery == s.delivery
            && (t.row == s.row || CurrentRefs(t) == CurrentRefs(s))
  {
  }

  lemma WorkMovesRow(s: System, w: nat, action: Action)
    requires w in s.workers
    ensures OnlyOwnOutcome(s, Work(s, w, action), s.workers[w].ticket)
  {
    hide Encoded, FinishClaim, FailClaim, PublishNext, DeleteKey, HeldAt;
    var stage := s.workers[w].stage;
    if stage.Publishing? {
      if stage.moved < 3 { if action.Publish? { PublishLeavesRow(s, w, action.ok); } }
      else if action.Finish? { FinishWritesOwn(s, w, action.fate, action.now); }
    } else if stage.Failing? && action.Fail? {
      FailWritesOwn(s, w, action.detail);
    } else if (stage.Discarding? || stage.Cleaning?) && action.Delete? {
      DeleteLeavesRow(s, w, action.key, action.ok);
    }
  }

  lemma OverStays(s: System, step: Step, t: Ticket)
    requires Over(s, t)
    ensures Over(Apply(s, step), t)
  {
    hide Work, Save, Probe, Remove;
    if step.WorkStep? && step.w in s.workers { WorkMovesRow(s, step.w, step.action); }
    OthersLeaveRow(s, step);
  }

  lemma OthersLeaveRow(s: System, step: Step)
    ensures step.SaveStep? || step.ProbeStep? || step.RemoveStep? || step.AbandonStep? ==> Apply(s, step).row == s.row
  {
    hide Work, Attach, Requeue, Reset, Claim;
  }

  lemma {:induction false} OverForever(s: System, steps: seq<Step>, t: Ticket)
    requires Over(s, t)
    ensures Over(Run(s, steps), t)
  {
    hide Apply, Over;
    if steps != [] {
      OverForever(s, steps[..|steps| - 1], t);
      OverStays(Run(s, steps[..|steps| - 1]), steps[|steps| - 1], t);
    }
  }

  lemma HeldOrOver(s: System, step: Step, t: Ticket)
    requires HeldAt(s, t)
    ensures HeldAt(Apply(s, step), t) || Over(Apply(s, step), t)
  {
    hide Work, Save, Probe, Remove;
    if step.WorkStep? && step.w in s.workers { WorkMovesRow(s, step.w, step.action); }
    OthersLeaveRow(s, step);
  }

  lemma RunSplits(s: System, steps: seq<Step>, i: nat)
    requires i <= |steps|
    ensures Run(s, steps) == Run(Run(s, steps[..i]), steps[i..])
    decreases |steps|
  {
    hide Apply;
    if i == |steps| {
      assert steps[..i] == steps && steps[i..] == [];
    } else {
      var n := |steps| - 1;
      RunSplits(s, steps[..n], i);
      assert steps[..n][..i] == steps[..i] && steps[i..][..n - i] == steps[..n][i..];
    }
  }

  /** A step that puts the row back in the queue, by an upload, a requeue or a stuck reset. */
  ghost predicate Requeues(s: System, step: Step) {
    Apply(s, step).row.Some? && Apply(s, step).row.value.state == Uploaded
    && (step.AttachStep? || step.RequeueStep? || step.ResetStep?)
  }

  /**
   `finish` and `fail` match a claim only if the row stayed under it ever since: nothing re-queued,
   re-claimed, finished or failed it at any moment in between.
   */
  lemma {:induction false} OutcomeOnlyOfUntouchedClaim(s: System, steps: seq<Step>, t: Ticket)
    requires HeldAt(s, t) && HeldAt(Run(s, steps), t)
    ensures forall i :: 0 <= i <= |steps| ==> HeldAt(Run(s, steps[..i]), t)
    ensures forall i :: 0 <= i < |steps| ==> !Requeues(Run(s, steps[..i]), steps[i])
  {
    hide Apply, HeldBy;
    assert steps[..|steps|] == steps;
    forall i | 0 <= i <= |steps| ensures HeldAt(Run(s, steps[..i]), t) {
      HeldBefore(s, steps, t, i);
    }
    forall i | 0 <= i < |steps| ensures !Requeues(Run(s, steps[..i]), steps[i]) {
      RunExtends(s, steps, i);
      HeldBefore(s, steps, t, i + 1);
      HeldIsProcessing(Run(s, steps[..i + 1]), t);
    }
  }

  lemma HeldIsProcessing(s: System, t: Ticket)
    requires HeldAt(s, t)
    ensures s.row.value.state == Processing
  {
  }

  lemma {:induction false} HeldBefore(s: System, steps: seq<Step>, t: Ticket, i: nat)
    requires i <= |steps| && HeldAt(s, t) && HeldAt(Run(s, steps), t)
    ensures HeldAt(Run(s, steps[..i]), t)
    decreases i
  {
    hide Apply;
    if i == 0 {
      assert steps[..0] == [];
    } else {
      HeldBefore(s, steps, t, i - 1);
      RunExtends(s, steps, i - 1);
      HeldOrOver(Run(s, steps[..i - 1]), steps[i - 1], t);
      RunSplits(s, steps, i);
      if Over(Run(s, steps[..i]), t) {
        OverForever(Run(s, steps[..i]), steps[i..], t);
      }
    }
  }

  /** A worker whose claim is gone changes neither the row, nor a source, nor a file the row refers to. */
  lemma StaleWorkIsHarmless(s: System, w: nat, action: Action)
    requires Inv(s) && w in s.workers && !HeldAt(s, s.workers[w].ticket)
    ensures var t := Work(s, w, action);
            && t.row == s.row && t.sources == s.sources
            && forall k :: k in KeysOf(CurrentRefs(s)) ==>
                 k in s.delivery && k in t.delivery && t.delivery[k] == s.delivery[k]
  {
    hide WorkersOk, RowOk, FilesOk, UploadsOk, Apart, KeysOf, Encoded, OneClaim, RefGen, WorkerOk, OwnKeys;
    hide FinishClaim, FailClaim, PublishNext, DeleteKey, HeldAt, CurrentRefs;
    OneWorker(s, w);
    RefsOk(s);
    var stage := s.workers[w].stage;
    if stage.Publishing? {
      if stage.moved < 3 {
        PublishesElsewhere(s, w);
        if action.Publish? { PublishLeavesRow(s, w, action.ok); }
      } else if action.Finish? { FinishWritesOwn(s, w, action.fate, action.now); }
    } else if stage.Failing? && action.Fail? {
      FailWritesOwn(s, w, action.detail);
    } else if (stage.Discarding? || stage.Cleaning?) && action.Delete? {
      DeleteLeavesRow(s, w, action.key, action.ok);
      if action.key in stage.todo { DeletedRow(s, w, action.key, action.ok); }
    }
  }

  lemma PublishesElsewhere(s: System, w: nat)
    requires w in s.workers && WorkerOk(s, s.workers[w]) && RowOk(s)
    requires s.workers[w].stage.Publishing? && s.workers[w].stage.moved < 3
    ensures Key(s.workers[w].ticket, KINDS[s.workers[w].stage.moved]) !in KeysOf(CurrentRefs(s))
    ensures Key(s.workers[w].ticket, KINDS[s.workers[w].stage.moved]) !in s.delivery
  {
    hide KeysOf, OneClaim;
    RefsOk(s);
    KeysHaveGeneration(CurrentRefs(s));
  }

  /* ---------- Monotonicity ---------- */

  /** Generations grow, the references move only to later claims, and no file is written twice. */
  ghost predicate Advances(s: System, t: System) {
    && RowGen(s) <= RowGen(t)
    && RefGen(CurrentRefs(s)) <= RefGen(CurrentRefs(t))
    && forall k :: k in s.delivery && k in t.delivery ==> t.delivery[k] == s.delivery[k]
  }

  lemma WorkAdvances(s: System, w: nat, action: Action)
    requires Inv(s) && w in s.workers
    ensures Advances(s, Work(s, w, action))
  {
    hide WorkersOk, RowOk, FilesOk, UploadsOk, Apart, KeysOf, Encoded, OneClaim, RefGen, WorkerOk, OwnKeys;
    hide FinishClaim, FailClaim, PublishNext, DeleteKey, HeldAt, HeldBy;
    OneWorker(s, w);
    var stage := s.workers[w].stage;
    if stage.Publishing? {
      if stage.moved < 3 {
        PublishesElsewhere(s, w);
        if action.Publish? { PublishLeavesRow(s, w, action.ok); }
      } else if action.Finish? {
        FinishWritesOwn(s, w, action.fate, action.now);
        StageBound(s, w);
        FinishAdvances(s, w, action.fate, action.now);
      }
    } else if stage.Failing? && action.Fail? {
      FailWritesOwn(s, w, action.detail);
    } else if (stage.Discarding? || stage.Cleaning?) && action.Delete? {
      DeleteLeavesRow(s, w, action.key, action.ok);
    }
  }

  lemma FinishAdvances(s: System, w: nat, fate: Fate, now: int)
    requires w in s.workers && WorkerOk(s, s.workers[w]) && RowOk(s) && FilesOk(s)
      && s.workers[w].stage == Publishing(3)
    ensures RefGen(CurrentRefs(s)) <= RefGen(CurrentRefs(FinishClaim(s, w, fate, now)))
  {
    hide WorkerOk, RowOk, FilesOk, RefGen, FinishClaim;
    FinishWritesOwn(s, w, fate, now);
    if HeldAt(s, s.workers[w].ticket) && fate != RolledBack {
      FinishedRowOk(s, w, fate, now);
    }
  }

  lemma StepAdvances(s: System, step: Step)
    requires Inv(s)
    ensures Advances(s, Apply(s, step))
  {
    hide Inv, Work, RefGen, Save, Probe, Remove;
    OthersLeaveRow(s, step);
    OthersLeaveFiles(s, step);
    if step.WorkStep? {
      if step.w in s.workers { WorkAdvances(s, step.w, step.action); }
    } else {
      NoRefs();
    }
  }

  lemma OthersLeaveFiles(s: System, step: Step)
    ensures !step.WorkStep? ==> Apply(s, step).delivery == s.delivery
  {
    hide Work;
  }

  /** Over every run generations grow and the references move only to later claims. */
  lemma {:induction false} RunAdvances(s: System, steps: seq<Step>)
    requires Inv(s)
    ensures RowGen(s) <= RowGen(Run(s, steps))
    ensures RefGen(CurrentRefs(s)) <= RefGen(CurrentRefs(Run(s, steps)))
  {
    hide Apply, Inv, RefGen, RowGen, CurrentRefs;
    if steps != [] {
      var init := steps[..|steps| - 1];
      RunAdvances(s, init);
      RunKeeps(s, init);
      StepAdvances(Run(s, init), steps[|steps| - 1]);
    }
  }

  /** Two claims that take effect in one run have increasing generations, hence different publish keys. */
  lemma ClaimsAreNumberedApart(s: System, steps: seq<Step>, i: nat, j: nat, w: nat, x: nat, n1: int, n2: int,
      t1: nat, t2: nat)
    requires Inv(s) && i < j < |steps|
    requires steps[i] == ClaimStep(w, n1, t1) && steps[j] == ClaimStep(x, n2, t2)
    requires Apply(Run(s, steps[..i]), steps[i]) != Run(s, steps[..i])
    requires Apply(Run(s, steps[..j]), steps[j]) != Run(s, steps[..j])
    ensures var first := Run(s, steps[..i + 1]);
            var second := Run(s, steps[..j + 1]);
            && w in first.workers && x in second.workers
            && first.workers[w].ticket.generation < second.workers[x].ticket.generation
            && OwnKeys(first.workers[w].ticket) !! OwnKeys(second.workers[x].ticket)
  {
    hide Inv, Run, Apply, KeysOf, OwnKeys;
    RunExtends(s, steps, i);
    RunExtends(s, steps, j);
    var a, b := Run(s, steps[..i]), Run(s, steps[..j]);
    ClaimNumbers(a, w, n1, t1);
    ClaimNumbers(b, x, n2, t2);
    var first := Run(s, steps[..i + 1]);
    RunSplits(s, steps[..j], i + 1);
    assert steps[..j][..i + 1] == steps[..i + 1];
    RunKeeps(s, steps[..i + 1]);
    RunAdvances(first, steps[..j][i + 1..]);
    OwnKeysHaveGeneration(first.workers[w].ticket);
    OwnKeysHaveGeneration(Run(s, steps[..j + 1]).workers[x].ticket);
  }

  lemma ClaimNumbers(s: System, w: nat, now: int, token: nat)
    requires Apply(s, ClaimStep(w, now, token)) != s
    ensures var t := Apply(s, ClaimStep(w, now, token));
            w in t.workers && t.workers[w].ticket.generation == RowGen(t) == RowGen(s) + 1
  {
  }
}
