/**
 Uploads, requeues, stuck resets and processing workers on one clip as a step system
 (boards/skate_worker.py, boards/skate_upload.py). A step is one row transaction, one file
 operation, or a crash; any number of uploads and workers interleave freely.
 */
module ClipRuns {
  import opened Prelude
  import opened ClipMedia

  type Content = nat

  /** An encoder's output: what it is and which source content it was made from. */
  datatype Derived = Derived(kind: Kind, made: Content)

  datatype Stage =
    | Starting
    | Encoding(made: nat)                              // kinds encoded so far
    | Publishing(moved: nat)                           // kinds moved to their final key so far
    | Discarding(todo: set<Key>, reason: Option<string>)  // own keys; then `fail` with the reason, if any
    | Cleaning(todo: set<Key>)                         // keys of the version replaced
    | Failing(code: string)

  /** A worker with the row as it was when claimed; `tmp` is its own temporary directory. */
  datatype Worker = Worker(ticket: Ticket, source: Name, shown: Refs, tmp: map<Kind, Derived>, stage: Stage)

  /** Why a source file is to be deleted; Unacknowledged: the row transaction committed, yet raised. */
  datatype Cause = Rejected | Unattached | Unacknowledged | Replaced

  datatype UploadStage = Saved | Probed | Removing(cause: Cause)

  /** An upload in flight and the source file it has to deal with next. */
  datatype Upload = Upload(name: Name, stage: UploadStage)

  /** `saved` remembers the content of every source ever saved. */
  datatype System = System(
    row: Option<Row>, sources: map<Name, Content>, delivery: map<Key, Derived>,
    workers: map<nat, Worker>, uploads: map<nat, Upload>, saved: map<Name, Content>)

  /** How a transaction ends for its caller; Lost has committed, yet raises. */
  datatype Fate = Committed | RolledBack | Lost

  datatype Problem = NoProblem | ExitStatus | Timeout | OsError

  datatype Action =
    | CheckSource
    | Encode(problem: Problem)
    | Validate(ok: bool)
    | Publish(ok: bool)
    | Finish(fate: Fate, now: int)
    | Delete(key: Key, ok: bool)
    | Raise(problem: Problem)
    | Fail(detail: string)
    | Crash

  datatype Step =
    | SaveStep(u: nat, name: Name, content: Content)
    | ProbeStep(u: nat, ok: bool)
    | AttachStep(u: nat, token: nat, fate: Fate)
    | RemoveStep(u: nat, ok: bool)
    | AbandonStep(u: nat)
    | RequeueStep(token: nat)
    | ResetStep(now: int, limit: int)
    | ClaimStep(w: nat, now: int, token: nat)
    | WorkStep(w: nat, action: Action)

  const INITIAL := System(None, map[], map[], map[], map[], map[])

  /* ---------- Uploads ---------- */

  function WithoutUpload(s: System, u: nat): System {
    s.(uploads := s.uploads - {u})
  }

  /** `storage.save` under a name never drawn before. */
  function Save(s: System, u: nat, name: Name, content: Content): System {
    if u in s.uploads || name in s.saved || name == "" then s
    else s.(sources := s.sources[name := content], saved := s.saved[name := content],
        uploads := s.uploads[u := Upload(name, Saved)])
  }

  function Probe(s: System, u: nat, ok: bool): System {
    if u in s.uploads && s.uploads[u].stage == Saved
    then s.(uploads := s.uploads[u := s.uploads[u].(stage := if ok then Probed else Removing(Rejected))]) else s
  }

  function Attach(s: System, u: nat, token: nat, fate: Fate): System {
    if u !in s.uploads || s.uploads[u].stage != Probed then s
    else
      var upload := s.uploads[u];
      if fate == RolledBack then s.(uploads := s.uploads[u := upload.(stage := Removing(Unattached))])
      else
        var row := match s.row case None => FreshRow(upload.name, token) case Some(row) =>
            AttachedRow(row, upload.name, token);
        var before := match s.row case None => "" case Some(row) => row.source;
        s.(row := Some(row),
           uploads := if fate == Lost then s.uploads[u := upload.(stage := Removing(Unacknowledged))]
                      else if before != "" && before != upload.name
                          then s.uploads[u := Upload(before, Removing(Replaced))]
                      else s.uploads - {u})
  }

  /** `storage.delete`, of a rejected or failed upload or of the source replaced; errors are ignored. */
  function Remove(s: System, u: nat, ok: bool): System {
    if u in s.uploads && s.uploads[u].stage.Removing?
    then WithoutUpload(if ok then s.(sources := s.sources - {s.uploads[u].name}) else s, u) else s
  }

  function Requeue(s: System, token: nat): System {
    if s.row.Some? && s.row.value.source != "" then s.(row := Some(RequeuedRow(s.row.value, token))) else s
  }

  function Reset(s: System, now: int, limit: int): System {
    if s.row.Some? && Stuck(s.row.value, now, limit) then s.(row := Some(ResetRow(s.row.value))) else s
  }

  /* ---------- Workers ---------- */

  const KINDS := [Main, Preview, Poster]

  function EncodeCode(kind: Kind, problem: Problem): string {
    match problem
    case Timeout => "ffmpeg_timeout"
    case OsError => "ffmpeg_not_found"
    case _ =>
      match kind
      case Main => "encode_main_failed"
      case Preview => "encode_preview_failed"
      case Poster => "encode_poster_failed"
  }

  function RaiseCode(problem: Problem): string {
    match problem
    case Timeout => "ffmpeg_timeout"
    case OsError => "ffmpeg_not_found"
    case _ => "worker_unexpected"
  }

  function OwnKeys(ticket: Ticket): set<Key> {
    KeysOf(VersionedKeys(ticket))
  }

  /** The worker once `todo` is what remains of its deletions. */
  function Deleting(worker: Worker, todo: set<Key>): Option<Worker> {
    match worker.stage
    case Discarding(_, reason) =>
      if todo != {} then Some(worker.(stage := Discarding(todo, reason)))
      else if reason.Some? then Some(worker.(stage := Failing(reason.value)))
      else None
    case Cleaning(_) => if todo != {} then Some(worker.(stage := Cleaning(todo))) else None
    case _ => Some(worker)
  }

  function With(s: System, w: nat, worker: Option<Worker>): System {
    s.(workers := match worker case None => s.workers - {w} case Some(x) => s.workers[w := x])
  }

  function Encoded(s: System, worker: Worker, problem: Problem): Worker
    requires worker.stage.Encoding? && worker.stage.made < 3
  {
    var kind := KINDS[worker.stage.made];
    if problem == NoProblem && worker.source in s.sources then
      worker.(tmp := worker.tmp[kind := Derived(kind, s.sources[worker.source])],
          stage := Encoding(worker.stage.made + 1))
    else worker.(stage := Failing(EncodeCode(kind, problem)))
  }

  function PublishNext(s: System, w: nat, ok: bool): System
    requires w in s.workers && s.workers[w].stage.Publishing? && s.workers[w].stage.moved < 3
  {
    var worker := s.workers[w];
    var kind := KINDS[worker.stage.moved];
    if ok && kind in worker.tmp then
      With(s.(delivery := s.delivery[Key(worker.ticket, kind) := worker.tmp[kind]]), w,
           Some(worker.(tmp := worker.tmp - {kind}, stage := Publishing(worker.stage.moved + 1))))
    else With(s, w, Some(worker.(stage := Discarding(OwnKeys(worker.ticket), Some("promote_failed")))))
  }

  function FinishClaim(s: System, w: nat, fate: Fate, now: int): System
    requires w in s.workers
  {
    var worker := s.workers[w];
    var held := s.row.Some? && HeldBy(s.row.value, worker.ticket);
    var refs := VersionedKeys(worker.ticket);
    var after := if held && fate != RolledBack then s.(row := Some(FinishedRow(s.row.value, refs, now))) else s;
    if fate != Committed then With(after, w, Some(worker.(stage := Failing("worker_unexpected"))))
    else if held then With(after, w,
        Deleting(worker.(stage := Cleaning({})), KeysOf(worker.shown) - OwnKeys(worker.ticket)))
    else With(after, w, Some(worker.(stage := Discarding(OwnKeys(worker.ticket), None))))
  }

  function DeleteKey(s: System, w: nat, key: Key, ok: bool): System
    requires w in s.workers && (s.workers[w].stage.Discarding? || s.workers[w].stage.Cleaning?)
  {
    var worker := s.workers[w];
    if key !in worker.stage.todo then s
    else With(if ok then s.(delivery := s.delivery - {key}) else s, w, Deleting(worker, worker.stage.todo - {key}))
  }

  function FailClaim(s: System, w: nat, detail: string): System
    requires w in s.workers && s.workers[w].stage.Failing?
  {
    var worker := s.workers[w];
    var held := s.row.Some? && HeldBy(s.row.value, worker.ticket);
    With(if held then s.(row := Some(FailedRow(s.row.value, worker.stage.code, detail))) else s, w, None)
  }

  /** One action of `process_media`; an action out of turn changes nothing. */
  function Work(s: System, w: nat, action: Action): System
    requires w in s.workers
  {
    var worker := s.workers[w];
    match (action, worker.stage)
    case (CheckSource, Starting) =>
      With(s, w, Some(worker.(stage := if worker.source in s.sources then Encoding(0) else Failing("source_missing"))))
    case (Encode(problem), Encoding(made)) => if made < 3 then With(s, w, Some(Encoded(s, worker, problem))) else s
    case (Validate(ok), Encoding(made)) =>
      if made < 3 then s else With(s, w,
          Some(worker.(stage := if ok then Publishing(0) else Failing("derived_invalid"))))
    case (Publish(ok), Publishing(moved)) => if moved < 3 then PublishNext(s, w, ok) else s
    case (Finish(fate, now), Publishing(moved)) => if moved < 3 then s else FinishClaim(s, w, fate, now)
    case (Delete(key, ok), Discarding(_, _)) => DeleteKey(s, w, key, ok)
    case (Delete(key, ok), Cleaning(_)) => DeleteKey(s, w, key, ok)
    case (Fail(detail), Failing(_)) => FailClaim(s, w, detail)
    case (Raise(problem), stage) =>
      if stage.Starting? || stage.Failing? then s else With(s, w, Some(worker.(stage := Failing(RaiseCode(problem)))))
    case (Crash, _) => With(s, w, None)
    case _ => s
  }

  function Claim(s: System, w: nat, now: int, token: nat): System {
    if w in s.workers || s.row == None || s.row.value.state != Uploaded then s
    else
      var row := ClaimedRow(s.row.value, now, token);
      With(s.(row := Some(row)), w, Some(Worker(TicketOf(row), row.source, row.refs, map[], Starting)))
  }

  function Apply(s: System, step: Step): System {
    match step
    case SaveStep(u, name, content) => Save(s, u, name, content)
    case ProbeStep(u, ok) => Probe(s, u, ok)
    case AttachStep(u, token, fate) => Attach(s, u, token, fate)
    case RemoveStep(u, ok) => Remove(s, u, ok)
    case AbandonStep(u) => WithoutUpload(s, u)
    case RequeueStep(token) => Requeue(s, token)
    case ResetStep(now, limit) => Reset(s, now, limit)
    case ClaimStep(w, now, token) => Claim(s, w, now, token)
    case WorkStep(w, action) => if w in s.workers then Work(s, w, action) else s
  }

  function Run(s: System, steps: seq<Step>): System {
    if steps == [] then s else Apply(Run(s, steps[..|steps| - 1]), steps[|steps| - 1])
  }

  /* ---------- What every state keeps ---------- */

  function RefTicket(refs: Refs): Option<Ticket> {
    match refs.main case None => None case Some(key) => Some(key.ticket)
  }

  /** The three references name the files of one claim, or nothing. */
  predicate OneClaim(refs: Refs) {
    refs == match RefTicket(refs) case None => NO_REFS case Some(ticket) => VersionedKeys(ticket)
  }

  /** The generation the references come from; 0 for none. */
  function RefGen(refs: Refs): nat {
    match refs.main case None => 0 case Some(key) => key.ticket.generation
  }

  function RowGen(s: System): nat {
    match s.row case None => 0 case Some(row) => row.generation
  }

  function CurrentRefs(s: System): Refs {
    match s.row case None => NO_REFS case Some(row) => row.refs
  }

  ghost predicate FilesOk(s: System) {
    && (forall n :: n in s.sources ==> n in s.saved && s.sources[n] == s.saved[n])
    && (forall k :: k in s.delivery ==> k.ticket.generation <= RowGen(s))
  }

  /** The row's source has been saved, and all three references name existing files. */
  ghost predicate NoDangling(s: System) {
    s.row.Some? ==>
      && s.row.value.source in s.saved
      && OneClaim(s.row.value.refs)
      && forall k :: k in KeysOf(s.row.value.refs) ==> k in s.delivery
  }

  /** A ready row shows three files, all encoded from the source it has now. */
  ghost predicate ReadyIsCurrent(s: System) {
    s.row.Some? && s.row.value.state == Ready && s.row.value.source in s.saved ==>
      && s.row.value.refs.main.Some?
      && forall k :: k in KeysOf(s.row.value.refs) && k in s.delivery ==>
           s.delivery[k] == Derived(k.kind, s.saved[s.row.value.source])
  }

  ghost predicate RowOk(s: System) {
    && NoDangling(s) && ReadyIsCurrent(s)
    && RefGen(CurrentRefs(s)) <= RowGen(s)
    && (CurrentRefs(s).main.Some? ==> RefGen(CurrentRefs(s)) >= 1)
  }

  /** No reference, past or present, comes from generation `g`. */
  ghost predicate Private(s: System, g: nat) {
    && RefGen(CurrentRefs(s)) != g
    && forall x :: x in s.workers ==> RefGen(s.workers[x].shown) != g
  }

  ghost predicate Finished(files: map<Key, Derived>, ticket: Ticket, made: Content, n: nat)
    requires n <= 3
  {
    forall i :: 0 <= i < n ==> Key(ticket, KINDS[i]) in files && files[Key(ticket, KINDS[i])] == Derived(KINDS[i], made)
  }

  ghost predicate Prepared(tmp: map<Kind, Derived>, made: Content, from: nat, n: nat)
    requires n <= 3
  {
    forall i :: from <= i < n ==> KINDS[i] in tmp && tmp[KINDS[i]] == Derived(KINDS[i], made)
  }

  ghost predicate Unwritten(files: map<Key, Derived>, ticket: Ticket, from: nat) {
    forall i :: from <= i < 3 ==> Key(ticket, KINDS[i]) !in files
  }

  ghost predicate StageOk(s: System, worker: Worker)
    requires worker.source in s.saved
  {
    var made := s.saved[worker.source];
    var g := worker.ticket.generation;
    match worker.stage
    case Starting => Private(s, g) && Unwritten(s.delivery, worker.ticket, 0)
    case Encoding(n) =>
      n <= 3 && Private(s, g) && Prepared(worker.tmp, made, 0, n) && Unwritten(s.delivery, worker.ticket, 0)
    case Publishing(n) =>
      && n <= 3 && Private(s, g) && Prepared(worker.tmp, made, n, 3)
      && Finished(s.delivery, worker.ticket, made, n) && Unwritten(s.delivery, worker.ticket, n)
    case Discarding(todo, _) => Private(s, g) && todo <= OwnKeys(worker.ticket)
    case Cleaning(todo) => todo <= KeysOf(worker.shown) && g <= RefGen(CurrentRefs(s))
    case Failing(_) => true
  }

  /** While the row is held under a worker's generation it is the row that worker saw. */
  ghost predicate InStep(s: System, worker: Worker) {
    s.row.Some? && s.row.value.state == Processing && s.row.value.generation == worker.ticket.generation ==>
      s.row.value.token == worker.ticket.token && s.row.value.source == worker.source
          && s.row.value.refs == worker.shown
  }

  ghost predicate WorkerOk(s: System, worker: Worker) {
    && 1 <= worker.ticket.generation <= RowGen(s)
    && worker.source in s.saved
    && OneClaim(worker.shown) && RefGen(worker.shown) < worker.ticket.generation
    && InStep(s, worker)
    && StageOk(s, worker)
  }

  ghost predicate Apart(s: System) {
    forall x, y :: x in s.workers && y in s.workers && x != y ==>
      s.workers[x].ticket.generation != s.workers[y].ticket.generation
  }

  ghost predicate WorkersOk(s: System) {
    forall w :: w in s.workers ==> WorkerOk(s, s.workers[w])
  }

  ghost predicate UploadsOk(s: System) {
    forall u :: u in s.uploads ==> s.uploads[u].name in s.saved && s.uploads[u].name != ""
  }

  ghost predicate Inv(s: System) {
    FilesOk(s) && RowOk(s) && Apart(s) && WorkersOk(s) && UploadsOk(s)
  }

  /* ---------- Steps of uploads and of the row ---------- */

  ghost predicate SameFiles(a: map<Key, Derived>, b: map<Key, Derived>, ticket: Ticket) {
    forall kind :: (Key(ticket, kind) in a <==> Key(ticket, kind) in b)
                   && (Key(ticket, kind) in a ==> a[Key(ticket, kind)] == b[Key(ticket, kind)])
  }

  /** The stages in which a worker relies on the files under its own keys. */
  predicate NeedsFiles(worker: Worker) {
    worker.stage.Starting? || worker.stage.Encoding? || worker.stage.Publishing?
  }

  /** A worker stays in order when its own files, its generation's privacy and the references stay. */
  lemma WorkerKept(s: System, t: System, worker: Worker)
    requires WorkerOk(s, worker)
    requires worker.source in t.saved && t.saved[worker.source] == s.saved[worker.source]
    requires RowGen(s) <= RowGen(t) && InStep(t, worker)
    requires NeedsFiles(worker) ==> SameFiles(s.delivery, t.delivery, worker.ticket)
    requires RefGen(CurrentRefs(s)) <= RefGen(CurrentRefs(t))
    requires Private(s, worker.ticket.generation) ==> Private(t, worker.ticket.generation)
    ensures WorkerOk(t, worker)
  {
    hide InStep, Private, RowGen, RefGen, CurrentRefs, OwnKeys, KeysOf, OneClaim;
  }

  /** Uploads, requeues and resets leave workers, their files and the references alone. */
  lemma OutsideKeepsWorkers(s: System, t: System)
    requires WorkersOk(s) && Apart(s)
    requires t.workers == s.workers && t.delivery == s.delivery && CurrentRefs(t) == CurrentRefs(s)
    requires forall n :: n in s.saved ==> n in t.saved && t.saved[n] == s.saved[n]
    requires RowGen(s) <= RowGen(t)
    requires t.row.Some? && t.row.value.state == Processing ==> t.row == s.row
    ensures WorkersOk(t) && Apart(t)
  {
    hide WorkerOk, RefGen, CurrentRefs, RowGen;
    forall w | w in t.workers ensures WorkerOk(t, t.workers[w]) {
      WorkerFields(s, s.workers[w]);
      WorkerKept(s, t, s.workers[w]);
    }
  }

  lemma WorkerFields(s: System, worker: Worker)
    requires WorkerOk(s, worker)
    ensures worker.source in s.saved && InStep(s, worker)
    ensures 1 <= worker.ticket.generation <= RowGen(s)
    ensures OneClaim(worker.shown) && RefGen(worker.shown) < worker.ticket.generation
  {
    hide StageOk, InStep, OneClaim;
  }

  lemma RowKept(s: System, t: System)
    requires RowOk(s) && FilesOk(s)
    requires t.row == s.row && t.delivery == s.delivery
    requires forall n :: n in s.saved ==> n in t.saved && t.saved[n] == s.saved[n]
    requires forall n :: n in t.sources ==> n in t.saved && t.sources[n] == t.saved[n]
    ensures RowOk(t) && FilesOk(t)
  {
    hide KeysOf, OneClaim, RefGen;
  }

  lemma UploadsKept(s: System, t: System)
    requires UploadsOk(s) && t.uploads == s.uploads && t.saved == s.saved
    ensures UploadsOk(t)
  {
  }

  lemma SaveKeeps(s: System, u: nat, name: Name, content: Content)
    requires Inv(s)
    ensures Inv(Save(s, u, name, content))
  {
    hide WorkersOk, Apart, RowOk, UploadsOk, RefGen;
    var t := Save(s, u, name, content);
    if t != s {
      OutsideKeepsWorkers(s, t);
      SourceSaved(s);
      RowKept(s, t);
      SaveKeepsUploads(s, u, name, content);
    }
  }

  lemma SaveKeepsUploads(s: System, u: nat, name: Name, content: Content)
    requires UploadsOk(s) && FilesOk(s) && RowOk(s)
    ensures UploadsOk(Save(s, u, name, content))
  {
    hide FilesOk, RowOk;
    SourceSaved(s);
  }

  lemma SourceSaved(s: System)
    requires RowOk(s) && FilesOk(s)
    ensures s.row.Some? ==> s.row.value.source in s.saved
  {
    hide KeysOf, OneClaim, RefGen, RowGen;
  }

  lemma ProbeKeeps(s: System, u: nat, ok: bool)
    requires Inv(s)
    ensures Inv(Probe(s, u, ok))
  {
    hide WorkersOk, Apart, RowOk, RefGen;
    var t := Probe(s, u, ok);
    OutsideKeepsWorkers(s, t);
    SourceSaved(s);
    RowKept(s, t);
  }

  lemma RemoveKeeps(s: System, u: nat, ok: bool)
    requires Inv(s)
    ensures Inv(Remove(s, u, ok))
  {
    hide WorkersOk, Apart, RowOk, RefGen;
    var t := Remove(s, u, ok);
    OutsideKeepsWorkers(s, t);
    SourceSaved(s);
    RowKept(s, t);
  }

  lemma AbandonKeeps(s: System, u: nat)
    requires Inv(s)
    ensures Inv(WithoutUpload(s, u))
  {
    hide WorkersOk, Apart, RowOk, RefGen;
    var t := WithoutUpload(s, u);
    OutsideKeepsWorkers(s, t);
    SourceSaved(s);
    RowKept(s, t);
  }

  lemma NoRefs()
    ensures OneClaim(NO_REFS) && RefGen(NO_REFS) == 0 && KeysOf(NO_REFS) == {}
  {
  }

  /** Writing a new state, source or generation to the row, but neither `ready` nor `processing`. */
  lemma QueuedRowKept(s: System, t: System)
    requires RowOk(s) && FilesOk(s)
    requires t.delivery == s.delivery && t.sources == s.sources && t.saved == s.saved
    requires t.row.Some? && t.row.value.state == Uploaded && t.row.value.source in t.saved
    requires RowGen(t) >= RowGen(s) && CurrentRefs(t) == CurrentRefs(s)
    ensures RowOk(t) && FilesOk(t)
  {
    hide RefGen;
    NoRefs();
  }

  lemma AttachKeeps(s: System, u: nat, token: nat, fate: Fate)
    requires Inv(s)
    ensures Inv(Attach(s, u, token, fate))
  {
    hide WorkersOk, Apart, RowOk, UploadsOk, RefGen;
    var t := Attach(s, u, token, fate);
    OutsideKeepsWorkers(s, t);
    SourceSaved(s);
    AttachKeepsUploads(s, u, token, fate);
    if t.row == s.row { RowKept(s, t); } else { AttachedSource(s, u); QueuedRowKept(s, t); }
  }

  lemma AttachedSource(s: System, u: nat)
    requires UploadsOk(s) && u in s.uploads
    ensures s.uploads[u].name in s.saved
  {
  }

  lemma AttachKeepsUploads(s: System, u: nat, token: nat, fate: Fate)
    requires UploadsOk(s) && RowOk(s) && FilesOk(s)
    ensures UploadsOk(Attach(s, u, token, fate))
  {
    hide FilesOk, RowOk;
    SourceSaved(s);
  }

  lemma RequeueKeeps(s: System, token: nat)
    requires Inv(s)
    ensures Inv(Requeue(s, token))
  {
    hide WorkersOk, Apart, RowOk, FilesOk, UploadsOk, RefGen;
    var t := Requeue(s, token);
    if t != s {
      OutsideKeepsWorkers(s, t);
      SourceSaved(s);
      UploadsKept(s, t);
      QueuedRowKept(s, t);
    }
  }

  lemma ResetKeeps(s: System, now: int, limit: int)
    requires Inv(s)
    ensures Inv(Reset(s, now, limit))
  {
    hide WorkersOk, Apart, RowOk, FilesOk, UploadsOk, RefGen;
    var t := Reset(s, now, limit);
    if t != s {
      OutsideKeepsWorkers(s, t);
      SourceSaved(s);
      UploadsKept(s, t);
      QueuedRowKept(s, t);
    }
  }

  /* ---------- Steps of workers ---------- */

  lemma KeysHaveGeneration(refs: Refs)
    requires OneClaim(refs)
    ensures forall k :: k in KeysOf(refs) ==> k.ticket.generation == RefGen(refs)
    ensures refs.main.Some? ==> KeysOf(refs) == OwnKeys(refs.main.value.ticket)
  {
  }

  lemma ClaimKeeps(s: System, w: nat, now: int, token: nat)
    requires Inv(s)
    ensures Inv(Claim(s, w, now, token))
  {
    hide WorkersOk, RowOk, FilesOk, UploadsOk, Apart;
    var t := Claim(s, w, now, token);
    if t != s {
      ClaimKeepsRow(s, w, now, token);
      ClaimKeepsWorkers(s, w, now, token);
      UploadsKept(s, t);
    }
  }

  lemma ClaimKeepsRow(s: System, w: nat, now: int, token: nat)
    requires RowOk(s) && FilesOk(s)
    ensures RowOk(Claim(s, w, now, token)) && FilesOk(Claim(s, w, now, token))
  {
    hide RefGen, KeysOf, OneClaim;
  }

  lemma RefsOk(s: System)
    requires RowOk(s)
    ensures OneClaim(CurrentRefs(s)) && RefGen(CurrentRefs(s)) <= RowGen(s)
    ensures forall k :: k in KeysOf(CurrentRefs(s)) ==> k in s.delivery
  {
    hide RefGen, ReadyIsCurrent;
    NoRefs();
  }

  lemma ClaimKeepsWorkers(s: System, w: nat, now: int, token: nat)
    requires WorkersOk(s) && Apart(s) && RowOk(s) && FilesOk(s)
    requires w !in s.workers && s.row.Some? && s.row.value.state == Uploaded
    ensures WorkersOk(Claim(s, w, now, token)) && Apart(Claim(s, w, now, token))
  {
    hide WorkerOk, RowOk, FilesOk, OneClaim, KeysOf, RefGen;
    var t := Claim(s, w, now, token);
    RefsOk(s);
    forall x | x in s.workers
      ensures WorkerOk(t, s.workers[x]) && RefGen(s.workers[x].shown) < s.workers[x].ticket.generation <= RowGen(s)
    {
      WorkerFields(s, s.workers[x]);
      WorkerKept(s, t, s.workers[x]);
    }
    ClaimedWorkerOk(s, w, now, token);
  }

  lemma ClaimedWorkerOk(s: System, w: nat, now: int, token: nat)
    requires RowOk(s) && FilesOk(s)
    requires w !in s.workers && s.row.Some? && s.row.value.state == Uploaded
    requires forall x :: x in s.workers ==> RefGen(s.workers[x].shown) < RowGen(s) + 1
    ensures var t := Claim(s, w, now, token); w in t.workers && WorkerOk(t, t.workers[w])
  {
    hide RowOk, OneClaim, KeysOf, RefGen;
    RefsOk(s);
    SourceSaved(s);
  }

  /** `t` is `s` after a step of worker `w`, which neither moves a generation nor takes a foreign claim. */
  ghost predicate OwnStep(s: System, t: System, w: nat)
    requires w in s.workers
  {
    && t.saved == s.saved && t.sources == s.sources && t.uploads == s.uploads
    && RowGen(t) == RowGen(s)
    && (t.row.Some? ==> s.row.Some? && t.row.value.source == s.row.value.source)
    && (t.row.Some? && t.row.value.state == Processing ==> t.row == s.row)
    && (CurrentRefs(t) == CurrentRefs(s)
         || RefGen(CurrentRefs(s)) <= RefGen(CurrentRefs(t)) == s.workers[w].ticket.generation)
    && (forall x :: x in t.workers ==> x in s.workers && (x != w ==> t.workers[x] == s.workers[x]))
    && (w in t.workers ==> t.workers[w].ticket == s.workers[w].ticket && t.workers[w].shown == s.workers[w].shown
                           && t.workers[w].source == s.workers[w].source)
  }

  lemma OthersKept(s: System, t: System, w: nat)
    requires w in s.workers && OwnStep(s, t, w)
    requires WorkersOk(s) && Apart(s)
    requires forall x :: x in s.workers && x != w && NeedsFiles(s.workers[x]) ==>
               SameFiles(s.delivery, t.delivery, s.workers[x].ticket)
    requires w in t.workers ==> WorkerOk(t, t.workers[w])
    ensures WorkersOk(t) && Apart(t)
  {
    hide WorkerOk, OneClaim, KeysOf, RefGen, CurrentRefs, SameFiles;
    forall x | x in t.workers && x != w ensures WorkerOk(t, t.workers[x]) {
      WorkerFields(s, s.workers[x]);
      WorkerKept(s, t, s.workers[x]);
    }
  }

  /** A step that only moves the worker itself on. */
  lemma LocalKeeps(s: System, w: nat, worker: Option<Worker>)
    requires Inv(s) && w in s.workers
    requires worker.Some? ==> worker.value.ticket == s.workers[w].ticket && worker.value.shown == s.workers[w].shown
                              && worker.value.source == s.workers[w].source
    requires worker.Some? ==> StageOk(s, worker.value)
    ensures Inv(With(s, w, worker))
  {
    hide FilesOk, RowOk, UploadsOk, WorkersOk, Apart, StageOk, OneClaim, KeysOf, RefGen;
    var t := With(s, w, worker);
    LocalKeepsSelf(s, w, worker);
    OthersKept(s, t, w);
    UploadsKept(s, t);
    LocalKeepsRow(s, w, worker);
  }

  lemma LocalKeepsRow(s: System, w: nat, worker: Option<Worker>)
    requires RowOk(s) && FilesOk(s)
    ensures RowOk(With(s, w, worker)) && FilesOk(With(s, w, worker))
  {
    hide RefGen, KeysOf, OneClaim;
  }

  lemma LocalKeepsSelf(s: System, w: nat, worker: Option<Worker>)
    requires w in s.workers && WorkersOk(s)
    requires worker.Some? ==> worker.value.ticket == s.workers[w].ticket && worker.value.shown == s.workers[w].shown
                              && worker.value.source == s.workers[w].source
    requires worker.Some? ==> StageOk(s, worker.value)
    ensures worker.Some? ==> WorkerOk(With(s, w, worker), worker.value)
  {
    hide OneClaim, KeysOf, RefGen, OwnKeys;
    var before := s.workers[w];
    assert WorkerOk(s, before);
  }

  lemma PublishKeeps(s: System, w: nat, ok: bool)
    requires Inv(s) && w in s.workers && s.workers[w].stage.Publishing? && s.workers[w].stage.moved < 3
    ensures Inv(PublishNext(s, w, ok))
  {
    hide FilesOk, RowOk, UploadsOk, WorkersOk, Apart, OneClaim, KeysOf, RefGen, OwnKeys;
    var worker := s.workers[w];
    assert WorkerOk(s, worker) by { OneWorker(s, w); }
    var kind := KINDS[worker.stage.moved];
    if ok && kind in worker.tmp {
      var t := PublishNext(s, w, ok);
      PublishedSelf(s, w);
      OthersUntouched(s, w, t.delivery);
      OthersKept(s, t, w);
      UploadsKept(s, t);
      PublishedRow(s, w);
    } else {
      LocalKeeps(s, w, Some(worker.(stage := Discarding(OwnKeys(worker.ticket), Some("promote_failed")))));
    }
  }

  lemma OneWorker(s: System, w: nat)
    requires WorkersOk(s) && w in s.workers
    ensures WorkerOk(s, s.workers[w])
  {
    hide WorkerOk;
  }

  /** Files under one worker's keys are nobody else's. */
  lemma OthersUntouched(s: System, w: nat, delivery: map<Key, Derived>)
    requires Apart(s) && w in s.workers
    requires forall k: Key :: k.ticket.generation != s.workers[w].ticket.generation ==>
               (k in delivery <==> k in s.delivery) && (k in delivery ==> delivery[k] == s.delivery[k])
    ensures forall x :: x in s.workers && x != w ==> SameFiles(s.delivery, delivery, s.workers[x].ticket)
  {
  }

  lemma PublishedSelf(s: System, w: nat)
    requires w in s.workers && WorkerOk(s, s.workers[w])
    requires s.workers[w].stage.Publishing? && s.workers[w].stage.moved < 3
    requires KINDS[s.workers[w].stage.moved] in s.workers[w].tmp
    ensures var t := PublishNext(s, w, true); w in t.workers && WorkerOk(t, t.workers[w])
  {
    hide OneClaim, KeysOf, RefGen, OwnKeys;
  }

  lemma PublishedRow(s: System, w: nat)
    requires w in s.workers && WorkerOk(s, s.workers[w]) && RowOk(s) && FilesOk(s)
    requires s.workers[w].stage.Publishing? && s.workers[w].stage.moved < 3
    requires KINDS[s.workers[w].stage.moved] in s.workers[w].tmp
    ensures var t := PublishNext(s, w, true); RowOk(t) && FilesOk(t)
  {
    hide KeysOf, OwnKeys, Prepared, Finished, Unwritten;
    RefsOk(s);
    KeysHaveGeneration(CurrentRefs(s));
  }

  lemma FinishKeeps(s: System, w: nat, fate: Fate, now: int)
    requires Inv(s) && w in s.workers && s.workers[w].stage == Publishing(3)
    ensures Inv(FinishClaim(s, w, fate, now))
  {
    hide FilesOk, RowOk, UploadsOk, WorkersOk, Apart, OneClaim, KeysOf, RefGen, OwnKeys;
    var worker := s.workers[w];
    OneWorker(s, w);
    var t := FinishClaim(s, w, fate, now);
    if s.row.Some? && HeldBy(s.row.value, worker.ticket) && fate != RolledBack {
      FinishedRowOk(s, w, fate, now);
      FinishedSelf(s, w, fate, now);
      OthersKept(s, t, w);
      UploadsKept(s, t);
    } else if fate == Committed {
      LocalKeeps(s, w, Some(worker.(stage := Discarding(OwnKeys(worker.ticket), None))));
    } else {
      LocalKeeps(s, w, Some(worker.(stage := Failing("worker_unexpected"))));
    }
  }

  /** The row a successful `finish` leaves shows this claim's files, encoded from the row's source. */
  lemma FinishedRowOk(s: System, w: nat, fate: Fate, now: int)
    requires w in s.workers && WorkerOk(s, s.workers[w]) && RowOk(s) && FilesOk(s)
    requires s.workers[w].stage == Publishing(3) && fate != RolledBack
    requires s.row.Some? && HeldBy(s.row.value, s.workers[w].ticket)
    ensures var t := FinishClaim(s, w, fate, now);
            && RowOk(t) && FilesOk(t)
            && RefGen(CurrentRefs(s)) < RefGen(CurrentRefs(t)) == s.workers[w].ticket.generation
  {
    hide Deleting, Prepared, Unwritten;
    assert KINDS[0] == Main && KINDS[1] == Preview && KINDS[2] == Poster;
  }

  lemma FinishedSelf(s: System, w: nat, fate: Fate, now: int)
    requires w in s.workers && WorkerOk(s, s.workers[w])
    requires s.workers[w].stage == Publishing(3) && fate != RolledBack
    requires s.row.Some? && HeldBy(s.row.value, s.workers[w].ticket)
    ensures var t := FinishClaim(s, w, fate, now);
            && OwnStep(s, t, w)
            && (w in t.workers ==> WorkerOk(t, t.workers[w]))
  {
    hide Prepared, Unwritten, Finished, OneClaim, KeysOf, OwnKeys;
  }

  lemma DeleteKeeps(s: System, w: nat, key: Key, ok: bool)
    requires Inv(s) && w in s.workers && (s.workers[w].stage.Discarding? || s.workers[w].stage.Cleaning?)
    ensures Inv(DeleteKey(s, w, key, ok))
  {
    hide FilesOk, RowOk, UploadsOk, WorkersOk, Apart, OneClaim, KeysOf, RefGen, OwnKeys;
    var worker := s.workers[w];
    OneWorker(s, w);
    if key in worker.stage.todo {
      var t := DeleteKey(s, w, key, ok);
      DeletedRow(s, w, key, ok);
      DeletedSelf(s, w, key, ok);
      DeletedOthers(s, w, key);
      OthersKept(s, t, w);
      UploadsKept(s, t);
    }
  }

  /** A cleanup never touches a file the row refers to. */
  lemma DeletedRow(s: System, w: nat, key: Key, ok: bool)
    requires w in s.workers && WorkerOk(s, s.workers[w]) && RowOk(s) && FilesOk(s)
    requires s.workers[w].stage.Discarding? || s.workers[w].stage.Cleaning?
    requires key in s.workers[w].stage.todo
    ensures key !in KeysOf(CurrentRefs(s))
    ensures var t := DeleteKey(s, w, key, ok); RowOk(t) && FilesOk(t)
  {
    hide KeysOf, OneClaim, RefGen, Deleting;
    RefsOk(s);
    KeysHaveGeneration(CurrentRefs(s));
    KeysHaveGeneration(s.workers[w].shown);
    OwnKeysHaveGeneration(s.workers[w].ticket);
  }

  lemma OwnKeysHaveGeneration(ticket: Ticket)
    ensures forall k :: k in OwnKeys(ticket) ==> k.ticket == ticket
  {
  }

  lemma DeletedSelf(s: System, w: nat, key: Key, ok: bool)
    requires w in s.workers && WorkerOk(s, s.workers[w])
    requires s.workers[w].stage.Discarding? || s.workers[w].stage.Cleaning?
    requires key in s.workers[w].stage.todo
    ensures var t := DeleteKey(s, w, key, ok);
            && OwnStep(s, t, w)
            && (w in t.workers ==> WorkerOk(t, t.workers[w]))
  {
    hide OneClaim, KeysOf, OwnKeys, RefGen;
  }

  lemma DeletedOthers(s: System, w: nat, key: Key)
    requires WorkersOk(s) && Apart(s) && w in s.workers
    requires s.workers[w].stage.Discarding? || s.workers[w].stage.Cleaning?
    requires key in s.workers[w].stage.todo
    ensures forall x :: x in s.workers && x != w && NeedsFiles(s.workers[x]) ==>
              SameFiles(s.delivery, s.delivery - {key}, s.workers[x].ticket)
  {
    hide OneClaim, KeysOf, OwnKeys, RefGen;
    assert WorkerOk(s, s.workers[w]);
    KeysHaveGeneration(s.workers[w].shown);
    OwnKeysHaveGeneration(s.workers[w].ticket);
    forall x | x in s.workers && x != w && NeedsFiles(s.workers[x]) ensures s.workers[x].ticket != key.ticket {
      assert WorkerOk(s, s.workers[x]);
    }
  }

  lemma FailKeeps(s: System, w: nat, detail: string)
    requires Inv(s) && w in s.workers && s.workers[w].stage.Failing?
    ensures Inv(FailClaim(s, w, detail))
  {
    hide FilesOk, RowOk, UploadsOk, WorkersOk, Apart, OneClaim, KeysOf, RefGen, OwnKeys, WorkerOk;
    var t := FailClaim(s, w, detail);
    FailedRowOk(s, w, detail);
    OthersKept(s, t, w);
    UploadsKept(s, t);
  }

  lemma FailedRowOk(s: System, w: nat, detail: string)
    requires w in s.workers && s.workers[w].stage.Failing? && RowOk(s) && FilesOk(s)
    ensures var t := FailClaim(s, w, detail); RowOk(t) && FilesOk(t)
  {
    hide KeysOf, OneClaim, RefGen;
  }

  lemma WorkKeeps(s: System, w: nat, action: Action)
    requires Inv(s) && w in s.workers
    ensures Inv(Work(s, w, action))
  {
    hide Inv, FinishClaim, PublishNext, DeleteKey, FailClaim, Encoded;
    var worker := s.workers[w];
    match (action, worker.stage)
    case (CheckSource, Starting) =>
      LocalStage(s, w, if worker.source in s.sources then Encoding(0) else Failing("source_missing"));
    case (Encode(problem), Encoding(made)) =>
      if made < 3 { EncodeKeeps(s, w, problem); }
    case (Validate(ok), Encoding(made)) =>
      if made >= 3 { LocalStage(s, w, if ok then Publishing(0) else Failing("derived_invalid")); }
    case (Publish(ok), Publishing(moved)) =>
      if moved < 3 { PublishKeeps(s, w, ok); }
    case (Finish(fate, now), Publishing(moved)) =>
      if moved >= 3 { StageBound(s, w); FinishKeeps(s, w, fate, now); }
    case (Delete(key, ok), Discarding(_, _)) => DeleteKeeps(s, w, key, ok);
    case (Delete(key, ok), Cleaning(_)) => DeleteKeeps(s, w, key, ok);
    case (Fail(detail), Failing(_)) => FailKeeps(s, w, detail);
    case (Raise(problem), stage) =>
      if !stage.Starting? && !stage.Failing? { LocalStage(s, w, Failing(RaiseCode(problem))); }
    case (Crash, _) => CrashKeeps(s, w);
    case _ =>
  }

  lemma StageBound(s: System, w: nat)
    requires Inv(s) && w in s.workers
    ensures s.workers[w].stage.Publishing? ==> s.workers[w].stage.moved <= 3
    ensures s.workers[w].stage.Encoding? ==> s.workers[w].stage.made <= 3
  {
    hide FilesOk, RowOk, UploadsOk, Apart, Private, Prepared, Finished, Unwritten, OneClaim;
    assert WorkerOk(s, s.workers[w]);
  }

  lemma LocalStage(s: System, w: nat, stage: Stage)
    requires Inv(s) && w in s.workers
    requires stage.Failing? || (stage == Encoding(0) && s.workers[w].stage == Starting)
             || (stage == Publishing(0) && s.workers[w].stage.Encoding? && s.workers[w].stage.made >= 3)
    ensures Inv(With(s, w, Some(s.workers[w].(stage := stage))))
  {
    hide FilesOk, RowOk, UploadsOk, Apart, Private, OneClaim, Unwritten;
    assert WorkerOk(s, s.workers[w]);
    LocalKeeps(s, w, Some(s.workers[w].(stage := stage)));
  }

  lemma CrashKeeps(s: System, w: nat)
    requires Inv(s) && w in s.workers
    ensures Inv(With(s, w, None))
  {
    hide Inv;
    LocalKeeps(s, w, None);
  }

  lemma EncodeKeeps(s: System, w: nat, problem: Problem)
    requires Inv(s) && w in s.workers && s.workers[w].stage.Encoding? && s.workers[w].stage.made < 3
    ensures Inv(With(s, w, Some(Encoded(s, s.workers[w], problem))))
  {
    hide RowOk, UploadsOk, Apart, Private, OneClaim, Unwritten;
    assert WorkerOk(s, s.workers[w]);
    LocalKeeps(s, w, Some(Encoded(s, s.workers[w], problem)));
  }

  /** Every step keeps the invariant. */
  lemma StepKeeps(s: System, step: Step)
    requires Inv(s)
    ensures Inv(Apply(s, step))
  {
    hide Inv, Save, Probe, Attach, Remove, Requeue, Reset, Claim, Work;
    match step
    case SaveStep(u, name, content) => SaveKeeps(s, u, name, content);
    case ProbeStep(u, ok) => ProbeKeeps(s, u, ok);
    case AttachStep(u, token, fate) => AttachKeeps(s, u, token, fate);
    case RemoveStep(u, ok) => RemoveKeeps(s, u, ok);
    case AbandonStep(u) => AbandonKeeps(s, u);
    case RequeueStep(token) => RequeueKeeps(s, token);
    case ResetStep(now, limit) => ResetKeeps(s, now, limit);
    case ClaimStep(w, now, token) => ClaimKeeps(s, w, now, token);
    case WorkStep(w, action) => if w in s.workers { WorkKeeps(s, w, action); }
  }
}
