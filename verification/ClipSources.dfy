/** Exactly when the source file of a clip's row is missing. */
module ClipSources {
  import opened Prelude
  import opened ClipMedia
  import opened ClipRuns
  import opened ClipSafety

  /** This step deletes the file `name` for an upload whose row transaction committed and raised all the same. */
  ghost predicate Drops(s: System, step: Step, name: Name) {
    step.RemoveStep? && step.ok && step.u in s.uploads && s.uploads[step.u] == Upload(name, Removing(Unacknowledged))
  }

  /** The files that the steps of a run drop. */
  ghost function Dropped(s: System, steps: seq<Step>): set<Name> {
    if steps == [] then {}
    else
      var init, step := steps[..|steps| - 1], steps[|steps| - 1];
      Dropped(s, init) + DroppedBy(Run(s, init), step)
  }

  ghost function DroppedBy(s: System, step: Step): set<Name> {
    if step.RemoveStep? && step.u in s.uploads && Drops(s, step, s.uploads[step.u].name)
        then {s.uploads[step.u].name} else {}
  }

  lemma {:induction false} DroppedMeaning(s: System, steps: seq<Step>, name: Name)
    ensures name in Dropped(s, steps) <==> exists i :: 0 <= i < |steps| && Drops(Run(s, steps[..i]), steps[i], name)
  {
    hide Run;
    if steps != [] {
      var n := |steps| - 1;
      DroppedMeaning(s, steps[..n], name);
      if i :| 0 <= i < |steps| && Drops(Run(s, steps[..i]), steps[i], name) {
        if i < n { assert steps[..n][..i] == steps[..i]; }
      }
      if i :| 0 <= i < n && Drops(Run(s, steps[..n][..i]), steps[..n][i], name) {
        assert steps[..n][..i] == steps[..i];
      }
    }
  }

  /** A file that is still to be attached exists and is nobody else's. */
  ghost predicate Waiting(s: System, u: nat, dropped: set<Name>)
    requires u in s.uploads
  {
    var name := s.uploads[u].name;
    && name in s.sources && name !in dropped
    && (s.row.Some? ==> s.row.value.source != name)
    && forall v :: v in s.uploads && v != u ==> s.uploads[v].name != name
  }

  /** The row lacks its source if it has been dropped, and no other deletion is after the row's source. */
  ghost predicate SourcesOk(s: System, dropped: set<Name>) {
    && (forall n :: n in dropped ==> n in s.saved && n !in s.sources)
    && (s.row.Some? ==> s.row.value.source in s.sources || s.row.value.source in dropped)
    && (forall u :: u in s.uploads && !s.uploads[u].stage.Removing? ==> Waiting(s, u, dropped))
    && (forall u :: u in s.uploads && s.uploads[u].stage.Removing? && s.uploads[u].stage.cause != Unacknowledged ==>
          s.row.Some? ==> s.row.value.source != s.uploads[u].name)
  }

  lemma SaveKeepsSources(s: System, u: nat, name: Name, content: Content, dropped: set<Name>)
    requires FilesOk(s) && RowOk(s) && UploadsOk(s) && SourcesOk(s, dropped)
    ensures SourcesOk(Save(s, u, name, content), dropped)
  {
    hide OneClaim, KeysOf, RefGen, ReadyIsCurrent, RowGen;
    var t := Save(s, u, name, content);
    if t != s {
      assert t.uploads == s.uploads[u := Upload(name, Saved)];
    }
  }

  lemma ProbeKeepsSources(s: System, u: nat, ok: bool, dropped: set<Name>)
    requires SourcesOk(s, dropped)
    ensures SourcesOk(Probe(s, u, ok), dropped)
  {
  }

  lemma AttachKeepsSources(s: System, u: nat, token: nat, fate: Fate, dropped: set<Name>)
    requires SourcesOk(s, dropped)
    ensures SourcesOk(Attach(s, u, token, fate), dropped)
  {
    var t := Attach(s, u, token, fate);
    if t != s {
      assert Waiting(s, u, dropped);
      assert t.sources == s.sources && t.saved == s.saved;
    }
  }

  lemma RemoveKeepsSources(s: System, u: nat, ok: bool, dropped: set<Name>)
    requires SourcesOk(s, dropped) && UploadsOk(s)
    ensures SourcesOk(Remove(s, u, ok), dropped + DroppedBy(s, RemoveStep(u, ok)))
  {
    var t := Remove(s, u, ok);
    if t != s {
      forall v | v in t.uploads && !t.uploads[v].stage.Removing?
        ensures Waiting(t, v, dropped + DroppedBy(s, RemoveStep(u, ok)))
      {
        assert Waiting(s, v, dropped);
      }
    }
  }

  /** Workers leave uploads and sources alone. */
  ghost predicate SameUploads(s: System, t: System) {
    t.sources == s.sources && t.saved == s.saved && t.uploads == s.uploads
  }

  lemma FinishLeavesUploads(s: System, w: nat, fate: Fate, now: int)
    requires w in s.workers
    ensures SameUploads(s, FinishClaim(s, w, fate, now))
  {
    hide Deleting, OwnKeys, HeldBy, KeysOf;
  }

  lemma FilesLeaveUploads(s: System, w: nat, action: Action)
    requires w in s.workers
    ensures s.workers[w].stage.Publishing? && s.workers[w].stage.moved < 3 && action.Publish? ==>
              SameUploads(s, PublishNext(s, w, action.ok))
    ensures (s.workers[w].stage.Discarding? || s.workers[w].stage.Cleaning?) && action.Delete? ==>
              SameUploads(s, DeleteKey(s, w, action.key, action.ok))
    ensures s.workers[w].stage.Failing? && action.Fail? ==> SameUploads(s, FailClaim(s, w, action.detail))
  {
    hide Deleting, OwnKeys, HeldBy;
  }

  lemma WorkLeavesUploads(s: System, w: nat, action: Action)
    requires w in s.workers
    ensures SameUploads(s, Work(s, w, action))
  {
    hide Encoded, FinishClaim, FailClaim, PublishNext, DeleteKey;
    FilesLeaveUploads(s, w, action);
    if action.Finish? { FinishLeavesUploads(s, w, action.fate, action.now); }
  }

  /** Uploads go on as they were, if at all, and the row keeps its source. */
  ghost predicate KeepsUploads(s: System, t: System) {
    && t.sources == s.sources && t.saved == s.saved
    && (t.row.Some? ==> s.row.Some? && t.row.value.source == s.row.value.source)
    && (forall u :: u in t.uploads ==> u in s.uploads && t.uploads[u] == s.uploads[u])
  }

  lemma WorkKeepsUploads(s: System, w: nat, action: Action)
    requires w in s.workers
    ensures KeepsUploads(s, Work(s, w, action))
  {
    hide Work;
    WorkLeavesUploads(s, w, action);
    WorkMovesRow(s, w, action);
  }

  lemma ClaimKeepsUploads(s: System, w: nat, now: int, token: nat)
    ensures KeepsUploads(s, Claim(s, w, now, token))
  {
  }

  lemma RequeueKeepsUploads(s: System, token: nat)
    ensures KeepsUploads(s, Requeue(s, token))
  {
  }

  lemma ResetKeepsUploads(s: System, now: int, limit: int, u: nat)
    ensures KeepsUploads(s, Reset(s, now, limit)) && KeepsUploads(s, WithoutUpload(s, u)) && KeepsUploads(s, s)
  {
  }

  lemma RowStepsKeepUploads(s: System, step: Step)
    requires !step.SaveStep? && !step.ProbeStep? && !step.AttachStep? && !step.RemoveStep?
    ensures KeepsUploads(s, Apply(s, step))
  {
    hide Work, Claim, Requeue, Reset, WithoutUpload, KeepsUploads;
    ResetKeepsUploads(s, 0, 0, 0);
    match step
    case WorkStep(w, action) => if w in s.workers { WorkKeepsUploads(s, w, action); }
    case ClaimStep(w, now, token) => ClaimKeepsUploads(s, w, now, token);
    case RequeueStep(token) => RequeueKeepsUploads(s, token);
    case ResetStep(now, limit) => ResetKeepsUploads(s, now, limit, 0);
    case AbandonStep(u) => ResetKeepsUploads(s, 0, 0, u);
  }

  lemma SameSourcesOk(s: System, t: System, dropped: set<Name>)
    requires SourcesOk(s, dropped) && KeepsUploads(s, t)
    ensures SourcesOk(t, dropped)
  {
    forall u | u in t.uploads && !t.uploads[u].stage.Removing? ensures Waiting(t, u, dropped) {
      assert Waiting(s, u, dropped);
    }
  }

  lemma StepKeepsSources(s: System, step: Step, dropped: set<Name>)
    requires Inv(s) && SourcesOk(s, dropped)
    ensures SourcesOk(Apply(s, step), dropped + DroppedBy(s, step))
  {
    hide SourcesOk, FilesOk, RowOk, WorkersOk, UploadsOk, Apart, Save, Probe, Attach, Remove, Work, Drops, KeepsUploads;
    match step
    case SaveStep(u, name, content) =>
      SaveKeepsSources(s, u, name, content, dropped);
      assert dropped + {} == dropped;
    case ProbeStep(u, ok) =>
      ProbeKeepsSources(s, u, ok, dropped);
      assert dropped + {} == dropped;
    case AttachStep(u, token, fate) =>
      AttachKeepsSources(s, u, token, fate, dropped);
      assert dropped + {} == dropped;
    case RemoveStep(u, ok) => RemoveKeepsSources(s, u, ok, dropped);
    case _ =>
      RowStepsKeepUploads(s, step);
      SameSourcesOk(s, Apply(s, step), dropped);
      assert dropped + {} == dropped;
  }

  lemma {:induction false} RunKeepsSources(steps: seq<Step>)
    ensures SourcesOk(Run(INITIAL, steps), Dropped(INITIAL, steps))
  {
    hide Inv, Apply, SourcesOk, DroppedBy;
    if steps == [] {
      NothingSaved();
    } else {
      var init := steps[..|steps| - 1];
      RunKeepsSources(init);
      InitialOk();
      RunKeeps(INITIAL, init);
      StepKeepsSources(Run(INITIAL, init), steps[|steps| - 1], Dropped(INITIAL, init));
    }
  }

  lemma NothingSaved()
    ensures SourcesOk(INITIAL, {})
  {
  }

  /**
   In every state of every run the row's source is missing if and only if, at some step of the run, an
   upload whose row transaction had committed and raised deleted a file that the row still names.
   */
  lemma SourceMissingExactlyWhenDropped(steps: seq<Step>)
    requires Run(INITIAL, steps).row.Some?
    ensures var s := Run(INITIAL, steps);
            s.row.value.source !in s.sources <==>
            exists i :: 0 <= i < |steps| && Drops(Run(INITIAL, steps[..i]), steps[i], s.row.value.source)
  {
    hide Run, Dropped, Drops;
    RunKeepsSources(steps);
    DroppedMeaning(INITIAL, steps, Run(INITIAL, steps).row.value.source);
  }

  /* ---------- Where such deletions come from ---------- */

  /** No upload transaction of the run commits and raises. */
  ghost predicate Answered(steps: seq<Step>) {
    forall i :: 0 <= i < |steps| ==> !(steps[i].AttachStep? && steps[i].fate == Lost)
  }

  lemma {:induction false} NoneUnacknowledged(steps: seq<Step>, u: nat)
    requires Answered(steps)
    ensures u in Run(INITIAL, steps).uploads ==> Run(INITIAL, steps).uploads[u].stage != Removing(Unacknowledged)
  {
    hide Apply;
    if steps != [] {
      var before, step := Run(INITIAL, steps[..|steps| - 1]), steps[|steps| - 1];
      NoneUnacknowledged(steps[..|steps| - 1], u);
      StageBefore(before, step, u);
    }
  }

  /** An upload comes into that stage by its own transaction only. */
  ghost predicate OnlyByOwn(s: System, step: Step, t: System, u: nat) {
    u in t.uploads && t.uploads[u].stage == Removing(Unacknowledged) ==>
      (u in s.uploads && s.uploads[u] == t.uploads[u]) || (step.AttachStep? && step.fate == Lost && step.u == u)
  }

  lemma AttachOnlyByOwn(s: System, step: Step, u: nat)
    requires step.AttachStep?
    ensures OnlyByOwn(s, step, Attach(s, step.u, step.token, step.fate), u)
  {
  }

  lemma FilesOnlyByOwn(s: System, step: Step, u: nat)
    ensures step.SaveStep? ==> OnlyByOwn(s, step, Save(s, step.u, step.name, step.content), u)
    ensures step.ProbeStep? ==> OnlyByOwn(s, step, Probe(s, step.u, step.ok), u)
    ensures step.RemoveStep? ==> OnlyByOwn(s, step, Remove(s, step.u, step.ok), u)
  {
  }

  lemma StageBefore(s: System, step: Step, u: nat)
    ensures OnlyByOwn(s, step, Apply(s, step), u)
  {
    hide Work, Claim, Requeue, Reset, WithoutUpload, Save, Probe, Remove, Attach;
    FilesOnlyByOwn(s, step, u);
    if step.AttachStep? {
      AttachOnlyByOwn(s, step, u);
    } else if !step.SaveStep? && !step.ProbeStep? && !step.RemoveStep? {
      RowStepsKeepUploads(s, step);
    }
  }

  /** Without them the row's source exists in every state. */
  lemma SourceExistsWhenAnswered(steps: seq<Step>)
    requires Answered(steps) && Run(INITIAL, steps).row.Some?
    ensures Run(INITIAL, steps).row.value.source in Run(INITIAL, steps).sources
  {
    hide Run;
    SourceMissingExactlyWhenDropped(steps);
    forall i | 0 <= i < |steps| ensures !Drops(Run(INITIAL, steps[..i]), steps[i],
        Run(INITIAL, steps).row.value.source) {
      if steps[i].RemoveStep? { NoneUnacknowledged(steps[..i], steps[i].u); }
    }
  }

  /** And they do occur: an upload that commits, raises and cleans up loses the source the row now names. */
  lemma LostAttachDangles(name: Name, content: Content, token: nat)
    requires name != ""
    ensures var steps := [SaveStep(0, name, content), ProbeStep(0, true), AttachStep(0, token, Lost),
        RemoveStep(0, true)];
            var s := Run(INITIAL, steps);
            s.row.Some? && s.row.value.source == name && name !in s.sources
  {
    hide Work, Claim, Requeue, Reset;
    var steps := [SaveStep(0, name, content), ProbeStep(0, true), AttachStep(0, token, Lost), RemoveStep(0, true)];
    var s1 := Save(INITIAL, 0, name, content);
    var s2 := Probe(s1, 0, true);
    assert s2.uploads[0] == Upload(name, Probed);
    var s3 := Attach(s2, 0, token, Lost);
    assert s3.uploads[0] == Upload(name, Removing(Unacknowledged));
    assert Run(INITIAL, steps[..0]) == INITIAL;
    RunExtends(INITIAL, steps, 0);
    RunExtends(INITIAL, steps, 1);
    RunExtends(INITIAL, steps, 2);
    RunExtends(INITIAL, steps, 3);
    assert steps[..4] == steps;
  }

  /* ---------- Sources that are no longer needed ---------- */

  /** The step leaves upload `u` with this file to delete: its own, or the one the row has just let go. */
  ghost predicate Releases(s: System, u: nat, step: Step, name: Name) {
    && u in s.uploads
    && match step
       case ProbeStep(v, ok) => v == u && !ok && s.uploads[u] == Upload(name, Saved)
       case AttachStep(v, _, RolledBack) => v == u && s.uploads[u] == Upload(name, Probed)
       case AttachStep(v, _, Committed) =>
         && v == u && s.uploads[u].stage == Probed
         && s.row.Some? && s.row.value.source == name && name != "" && name != s.uploads[u].name
       case _ => false
  }

  /** The step is one of upload `u`. */
  predicate OfUpload(step: Step, u: nat) {
    match step
    case SaveStep(v, _, _) => v == u
    case ProbeStep(v, _) => v == u
    case AttachStep(v, _, _) => v == u
    case RemoveStep(v, _) => v == u
    case AbandonStep(v) => v == u
    case _ => false
  }

  lemma ReleaseMeaning(s: System, u: nat, step: Step, name: Name)
    requires Releases(s, u, step, name)
    ensures var t := Apply(s, step);
            u in t.uploads && t.uploads[u].name == name && t.uploads[u].stage.Removing?
  {
    hide Work, AttachedRow, FreshRow;
  }

  lemma OtherUploadsWait(s: System, u: nat, step: Step)
    requires !OfUpload(step, u) && u in s.uploads
    ensures u in Apply(s, step).uploads && Apply(s, step).uploads[u] == s.uploads[u]
  {
    hide Work, AttachedRow, FreshRow;
    if step.WorkStep? && step.w in s.workers { WorkLeavesUploads(s, step.w, step.action); }
  }

  lemma {:induction false} UploadWaits(s: System, u: nat, steps: seq<Step>)
    requires u in s.uploads && forall step :: step in steps ==> !OfUpload(step, u)
    ensures u in Run(s, steps).uploads && Run(s, steps).uploads[u] == s.uploads[u]
  {
    hide Apply, OfUpload;
    if steps != [] {
      UploadWaits(s, u, steps[..|steps| - 1]);
      OtherUploadsWait(Run(s, steps[..|steps| - 1]), u, steps[|steps| - 1]);
    }
  }

  /** A name once used never names a file again after its file is gone. */
  lemma GoneStaysGone(s: System, step: Step, name: Name)
    requires name in s.saved && name !in s.sources
    ensures name in Apply(s, step).saved && name !in Apply(s, step).sources
  {
    hide Work, AttachedRow, FreshRow;
    if step.WorkStep? && step.w in s.workers { WorkLeavesUploads(s, step.w, step.action); }
  }

  lemma {:induction false} GoneForGood(s: System, steps: seq<Step>, name: Name)
    requires name in s.saved && name !in s.sources
    ensures name !in Run(s, steps).sources && name in Run(s, steps).saved
  {
    hide Apply;
    if steps != [] {
      GoneForGood(s, steps[..|steps| - 1], name);
      GoneStaysGone(Run(s, steps[..|steps| - 1]), steps[|steps| - 1], name);
    }
  }

  lemma RemoveRemoves(s: System, u: nat)
    requires u in s.uploads && s.uploads[u].stage.Removing?
    ensures s.uploads[u].name !in Apply(s, RemoveStep(u, true)).sources
    ensures Apply(s, RemoveStep(u, true)).saved == s.saved
  {
  }

  lemma UploadNameSaved(s: System, u: nat)
    requires Inv(s) && u in s.uploads
    ensures s.uploads[u].name in s.saved
  {
    hide FilesOk, RowOk, WorkersOk, Apart;
  }

  /**
   The file of a rejected upload, of one whose transaction was rolled back, and the source that an
   upload has replaced are gone for ever once the upload has deleted them, whatever else happens
   in between and after.
   */
  lemma ReleasedSourcesGo(s: System, u: nat, step: Step, name: Name, between: seq<Step>, later: seq<Step>)
    requires Inv(s) && Releases(s, u, step, name)
    requires forall other :: other in between ==> !OfUpload(other, u)
    ensures name !in Run(Apply(Run(Apply(s, step), between), RemoveStep(u, true)), later).sources
  {
    hide Inv, Apply, Run, Releases, OfUpload;
    ReleaseMeaning(s, u, step, name);
    StepKeeps(s, step);
    var t := Apply(s, step);
    UploadWaits(t, u, between);
    RunKeeps(t, between);
    var before := Run(t, between);
    UploadNameSaved(before, u);
    RemoveRemoves(before, u);
    GoneForGood(Apply(before, RemoveStep(u, true)), later, name);
  }
}
