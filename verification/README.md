# Models of the site's protocols and algorithms, with proofs

This project models, in Dafny, the parts of a Django site that hold real protocols and algorithms,
and proves what they promise.

- **Audit log.** Events are written to a relational outbox and delivered by any number of workers
  to a MAC-chained event log. `CanonicalJson`, `JsonParser`, `Normalization` and `Utf8` give the
  canonical bytes that are signed; `AuditDocuments` and `AuditChain` signing and verification;
  `MongoLog` the append transaction; `Outbox`, `OutboxRuns`, `OutboxSafety`, `OutboxDelivery` and
  `OutboxProgress` the leases, the step system over all interleavings, what holds in every run, and
  what a delivery batch gets done.
- **Clip media.** `ClipMedia`, `ClipRuns`, `ClipSafety`, `ClipSources` and `ClipProcess` model the row of a clip's
  media, its files, uploads, requeues, stuck resets and processing workers, each database
  transaction and each file operation a step of its own.
- **Boards.** `Membership` and `MembershipRuns` model membership operations, their event log and
  access requests; `AccessRules` and `Policies` the authorisation decisions and the list filters that
  must agree with them.
- **Posts.** `TextLines`, `WordWrap`, `MarkdownBlocks`, `StructuredDiff` and `Revisions` model the
  text algorithms, the two-level diff, and versioned optimistic commits.
- **Second factor.** `Totp` and `MfaSessions` model the life of a TOTP device and the session
  stamps that depend on it.
- **Algorithms.** `ClipGroups`, `Base64Url`, `EventQueries`, `PublishedPaging` and `MusicImport`.

`Prelude` and `Decimals` hold shared vocabulary. Protocols that run concurrently are step systems: a
state, a function from a state and a step to the next state, and theorems over every sequence of
steps. Code that updates fields is a class whose methods are proved against functions of the old
state; the theorems are about those functions.

Assumptions are parameters or hypotheses of the theorems: the MAC, the code generator, artist-name
normalisation and the sequence matcher are function parameters, and MAC theorems that need it assume
that distinct keys of 32 bytes, or distinct messages, have distinct MACs. Every worker and every
auditor of the audit log has a keyring of its own; the name of a key never stands for two keys. Clock
readings are arbitrary everywhere. Lease tokens are drawn fresh, and a saved source gets a name never
used before, as random identifiers provide. A transaction that raises has not committed, except where
a step says otherwise: a lost answer of `insert_event`, of a worker's `finish`, or of an upload's row
transaction.

Where the code and its comments differ the code is followed. A comment in the claim manager says that
invalidating a claim needs no row lock; both callers hold it, and the model relies on that. The worker's
description says a stale claim leaves its marker on the row; the code only sets it on its own copy.

Some promises hold under a condition only; each has a lemma that shows how it fails and one that gives
the exact condition: signing (keys of 32 bytes), pinning by a checkpoint (no usable key for documents
without a schema version), delivery without conflict (keys known before they are signed with), the
source of a clip (no upload that commits and raises), the list filter of published posts, and a second
music import (values that are their own stored form).

## Model

The rows from `MembershipRuns.GrantMeaning` on spell out single definitions; all others are results.

| member | source | states |
|---|---|---|
| `Normalization.CanonicalBytesIgnoreOrder` | security/audit.py:44-72 | Two values that differ only in the order of mapping entries, at any depth, have the same canonical bytes. |
| `JsonParser.ParseInvertsText` | security/audit.py:62-72 | A parser reads every canonical text back as the value it was written from, string escapes of section 7 of RFC 8259 included. |
| `JsonParser.BytesInjective` | security/audit.py:62-72 | Different normalised values have different canonical bytes. |
| `Normalization.CanonicalBytesDetermineValue` | security/audit.py:44-72 | Equal canonical bytes mean equal normalised values, whatever Python values they came from. |
| `Normalization.NormalizeLift` | security/audit.py:44-59 | Normalising a normalised value changes nothing. |
| `Normalization.NormalizeMeaning` | security/audit.py:44-59 | Texts, truth values, whole numbers, nothing, moments of a known time zone, identifiers, and lists and mappings of such under text keys have a normal form, member by member; everything else is refused. |
| `Normalization.CanonicalValueIsStable` | security/outbox.py:115-116 | A value that went through canonical bytes and back has the same canonical bytes again, so an outbox row compares and signs alike at any later time. |
| `AuditDocuments.SignedEventIsGenuine` | security/audit.py:145-184 | Under every keyring that `AuditKeyring` accepts an event is signed if and only if the active key has exactly 32 bytes; the document then passes `verify_document` and carries every field it was given, provided no default replaces an empty one. |
| `AuditDocuments.LongKeyCannotSign` | security/sec_utils/hmac_utils.py:26-45 | `AuditKeyring` accepts a key of 33 bytes, with which signing raises and a document that was valid under the name of that key can no longer be checked. |
| `AuditDocuments.GenuineMeaning` | security/audit.py:199-223 | A document of schema version 1 passes if and only if all its fields and all of its integrity block are there, its two identifiers agree, the algorithm is the one known, its key is in the keyring and of 32 bytes, and its MAC is that of everything but the MAC. |
| `AuditDocuments.GenuineUnderFewerKeys` | security/audit.py:187-223 | To a keyring with some of the keys a genuine document is valid if its key is among them and has an unknown key otherwise; the check never raises and never gives another reason. |
| `AuditDocuments.GenuineUnderMoreKeys` | security/audit.py:187-223 | A document that verifies keeps verifying when keys are added or the active key changes. |
| `AuditDocuments.MacDeterminesDocument` | security/audit.py:133-142 | With a collision-free MAC two versioned documents that verify and show one MAC are the same document, all fields included. |
| `AuditChain.VerifyChain` | security/audit.py:226-276 | The loop of `verify_chain` returns the verdict, last sequence, last MAC and error list of its specification, or ends with the exception of its specification. |
| `AuditChain.VerdictMeaning` | security/audit.py:226-276 | `verify_chain` accepts exactly the lists whose documents are each genuine, of one partition, numbered without gaps and linked by their MACs, and that reach and match the checkpoint. |
| `AuditChain.VerdictRaises` | security/audit.py:226-276 | `verify_chain` raises if and only if a document makes it raise (a key that is not of 32 bytes, a MAC that is not ASCII, an `integrity` that is not a mapping), then with the exception of the first such, or else if it comes to compare the checkpoint's MAC with a text that is not ASCII on either side. |
| `AuditChain.CheckpointPinsPrefix` | security/audit.py:226-276 | Two lists of versioned documents accepted against one checkpoint (partition, sequence k, MAC) are identical on their first k documents. |
| `AuditChain.UnversionedDocumentsAreNotPinned` | security/audit.py:187-223 | With a usable key for documents without a schema version two different lists are accepted against one checkpoint. |
| `AuditChain.CheckpointsPinWithoutLegacyKey` | security/audit.py:187-276 | With a collision-free MAC, any two accepted lists of any documents agree up to the checkpoint if and only if the keyring has no usable key for documents without a schema version. |
| `MongoLog.MongoLogger.InsertEvent` | security/mongo_client.py:152-206 | One transaction of `insert_event` under the logger's own keyring: the head is advanced, the document signed and inserted, the head given its MAC; a known event is answered or refused; a refusal or an exception leaves the database as it was. |
| `MongoLog.InsertKeepsChains` | security/mongo_client.py:152-206 | On a store of gapless chains an insertion never meets a unique index and changes no stored document; a stored event is answered if and only if its content and partition agree and its key is known here; a new one extends its chain by exactly that event, unless the active key cannot sign. |
| `MongoLog.PageIsChain` | security/mongo_client.py:217-234 | Reading a partition returns the next part of its chain, in order, cut off at the limit. |
| `MongoLog.AuditAccepts` | security/mongo_client.py:236-251 | An audit of a partition succeeds without a checkpoint if and only if the auditor has the keys of all documents read, and against the head of any earlier moment if and only if moreover the read limit reaches the sequence of that head. |
| `Outbox.EnqueueMeaning` | security/outbox.py:124-176 | Enqueueing adds at most one row, only for an event not seen before, changes no row, and keeps event identifiers distinct; a refusal leaves the table as it is. |
| `Outbox.EnqueueDecides` | security/outbox.py:137-176 | A request is refused if and only if one of its values is not canonical; an identifier seen before is answered by its row if and only if the row holds the same content, what the request leaves open being taken from the row, and is a collision otherwise; any other gets a new row. |
| `Outbox.NewRowHoldsTheRequest` | security/outbox.py:119-176 | A new row holds the request's own values, normalised, each in its own field, in the partition given or else that of the event's domain and month. |
| `Outbox.EnqueueIsIdempotent` | security/outbox.py:124-176 | The same request again, at any time, answers the same row and adds none. |
| `Outbox.ClaimTakesTheOldest` | security/outbox.py:179-199 | A claim leases a row if and only if some row is pending and due, or in processing under no lease or one as old as the lease time and 30 seconds; it takes the one of these created first, then the first in the table, and writes the state, the moment and the token of that row only. |
| `Outbox.LeaseLasts` | security/outbox.py:179-199 | A leased row can be claimed again as soon as the lease time, and at least 30 seconds, are over, and no sooner. |
| `OutboxRuns.StepKeeps` | security/outbox.py:124-287 | Every step of any worker, crash included, keeps the invariant that ties rows, leases, documents and chains together. |
| `OutboxSafety.ConflictMeansUnknownKey` | security/outbox.py:219-287 | In every run and for every worker, each with a keyring of its own, `insert_event` raises a delivery conflict if and only if the event is stored under a key this worker does not have, and an AssertionError if and only if it is not stored and this worker's active key is not of 32 bytes; no unique index is ever hit. |
| `OutboxSafety.NoConflictWhenKnownFirst` | security/mongo_client.py:52-80 | If whoever starts work knows every key activated before, and activates one that all workers at work know, no run raises a delivery conflict. |
| `OutboxSafety.ConflictHappens` | security/mongo_client.py:155-167 | Otherwise it happens: a worker with a new key stores an event and dies, one without that key takes the row over. |
| `OutboxSafety.DeliveredMeansStored` | security/outbox.py:219-287 | In every run every delivered row has a genuine document with its event fields, its partition and exactly its receipt. |
| `OutboxSafety.OneRowOneDocument` | security/mongo_client.py:152-206 | In every run an event has one row, and its document one place in one chain. |
| `OutboxSafety.RunContinues` | security/mongo_client.py:152-206 | Over every run stored documents never change and chains grow at their ends only. |
| `OutboxSafety.AuditsPass` | security/mongo_client.py:236-251 | Audits of any state of a run succeed if and only if the auditor has the keys of the documents read, and with a checkpoint taken at any earlier state if and only if moreover the read limit reaches it. |
| `OutboxSafety.SettledRowsStay` | security/outbox.py:245-287 | A delivered or dead row, its receipt included, never changes again. |
| `OutboxSafety.LostLeaseWritesNothing` | security/outbox.py:241-287 | A worker whose lease token no longer guards its row changes no row at any later time, whatever happens in between. |
| `OutboxSafety.ClaimTakesTheLease` | security/outbox.py:179-199 | Claiming a row ends the lease of every worker that held it before. |
| `OutboxSafety.RecordCountsOneAttempt` | security/outbox.py:245-287 | A closing write takes effect if and only if the row is in processing under that very token; it counts one attempt, releases the lease, and writes the receipt, or the error's name, the next attempt and whether there is one, and nothing else. |
| `OutboxSafety.BackoffHolds` | security/outbox.py:245-256 | After its n-th failure a row can be claimed from 2^n seconds on, from an hour on if n is at least twelve, and not before, and never if that was its last attempt. |
| `OutboxSafety.InsertionMeaning` | security/outbox.py:232-248 | A worker inserts once per lease: it then holds the transport error if the call was cut off, committed or not, a conflict if the event is stored under a key it lacks, an AssertionError if it is to sign with a key that is not of 32 bytes, and the stored document's sequence number and MAC otherwise. |
| `OutboxDelivery.Deployment.DeliverBatch` | security/outbox.py:219-287 | The batch takes exactly the steps of its specification, turn by turn, interleaved with any steps of others, up to its bound or a claim that leases nothing; its counters are the outcomes of its own closing writes. |
| `OutboxDelivery.BatchOrder` | security/outbox.py:232-287 | A batch's own steps are complete turns of claim, insertion and closing write in this order; it ends at its bound, or when a claim finds no row due or expired. |
| `OutboxProgress.BatchDeliversAllDue` | security/outbox.py:219-287 | A batch that nobody disturbs, with a usable keyring and a bound not below the number of rows due by its last claim, delivers every row due at its first, leaves none of them claimable, fails nowhere and touches no other row. |
| `OutboxDelivery.CountersTellTheTruth` | security/outbox.py:245-287 | Each counter of the batch tells what became of the row: delivered, put back or dead, dead, or left to another worker. |
| `OutboxDelivery.Reconcile` | security/outbox.py:290-322 | The reconciliation loop counts exactly the findings on the first delivered rows within the bound, or ends with the exception of the first document that raises one. |
| `OutboxDelivery.ReconciliationCounts` | security/outbox.py:290-322 | For every table and every store: the first delivered rows, at least one and at most a thousand, are inspected; the first whose document raises ends it; otherwise missing, invalid and mismatched are the numbers of inspected rows without a document, with one that does not verify, and with a valid one that differs in an immutable field, the partition, the sequence number or the MAC, and healthy means that there are none. |
| `OutboxDelivery.ReconciliationIsHealthy` | security/outbox.py:290-322 | In every state of every run, for every limit, reconciliation completes, finds nothing missing and no wrong receipt, and counts as invalid exactly the documents whose keys the auditor lacks. |
| `ClipMedia.Manager.Claim` | boards/models.py:705-727 | The caller's copy and the table row are moved to a new generation and token, the row only where it is still uploaded. |
| `ClipMedia.Manager.Finish` | boards/models.py:743-772 | Takes effect exactly when the row is processing under the given generation and token; it then switches all three references at once, keeps source and claim numbers, and leaves a row that no claim can write an outcome to. |
| `ClipMedia.Manager.Fail` | boards/models.py:774-795 | Takes effect under the same condition; it keeps all references and the processing time, cuts the detail to its limit, and leaves a row that no claim can write an outcome to. |
| `ClipMedia.Manager.Attach` | boards/skate_upload.py:64-91 | An upload's row transaction queues the new source, outdating a running claim, and answers the source it replaced. |
| `ClipMedia.Manager.Requeue` | boards/skate_upload.py:104-138 | Requeueing needs a row with a source, outdates a running claim and queues the row. |
| `ClipMedia.RequeueOutdatesTheClaim` | boards/models.py:797-803 | An upload or a requeue outdates a running claim for good; a stuck reset shuts its holder out until the row is claimed again, which outdates it as well. |
| `ClipMedia.PublishPathsAreDistinct` | boards/skate_worker.py:112-119 | Publish paths of different claims never collide: the generation alone tells the claims of a row apart, the media key the rows. |
| `ClipRuns.StepKeeps` | boards/skate_worker.py:361-500 | Every step of any upload, requeue, reset or worker, crashes and lost answers included, keeps the invariant that ties the row, the files and all claims together. |
| `ClipRuns.DeletedRow` | boards/skate_worker.py:217-225 | No clean-up, of an own unpublished version or of a replaced one, deletes a file the row refers to. |
| `ClipRuns.FinishedRowOk` | boards/skate_worker.py:444-466 | The row a successful `finish` leaves refers to three existing files of that claim, encoded from the row's own source, and of a later claim than the files shown before. |
| `ClipSafety.ReferencesNeverDangle` | boards/skate_worker.py:339-358 | In every run all three references exist and come from one claim, and what a ready row shows was encoded from the source it has now. |
| `ClipSafety.OutcomeOnlyOfUntouchedClaim` | boards/models.py:743-795 | If a claim's condition matches, the row was under that claim at every moment since, and nothing re-queued it in between. |
| `ClipSafety.StaleWorkIsHarmless` | boards/skate_worker.py:440-466 | A worker whose claim is gone changes neither the row, nor a source, nor any file the row refers to, whatever it does next. |
| `ClipSafety.StepAdvances` | boards/skate_worker.py:339-358 | No step rewrites a published file, lowers the generation or moves the references back to an earlier claim. |
| `ClipSafety.ClaimsAreNumberedApart` | boards/models.py:705-727 | Two claims of one run have increasing generations and disjoint publish keys. |
| `ClipSources.SourceMissingExactlyWhenDropped` | boards/skate_upload.py:64-108 | In every run the row's source is missing if and only if, at some step, an upload whose row transaction had committed and raised deleted a file that the row still names. |
| `ClipSources.SourceExistsWhenAnswered` | boards/skate_upload.py:64-108 | In a run in which no upload transaction commits and raises the row's source exists in every state. |
| `ClipSources.LostAttachDangles` | boards/skate_upload.py:91-101 | An upload whose transaction commits and raises deletes, in its clean-up, the source the row now names. |
| `ClipSources.ReleasedSourcesGo` | boards/skate_upload.py:38-101 | The file of a rejected upload or of one rolled back, and a source replaced, are gone for ever once deleted, whatever happens in between and after. |
| `ClipProcess.Site.ProcessMedia` | boards/skate_worker.py:361-500 | A call of `process_media` takes exactly its own steps in their order, interleaved with any steps of others: up to the first that fails or raises, then the deletions and `fail` that are due. It returns true if and only if the source exists at the check and at each encoding, every encoding, the validation and the three moves succeed, the update commits under the claim, and nothing raises. |
| `ClipProcess.CallShowsExactly` | boards/skate_worker.py:440-487 | A call puts its own files on show if and only if its update is reached and takes effect, be its answer lost or not; otherwise the row never shows them. |
| `ClipProcess.FailureIsRecorded` | boards/skate_worker.py:384-500 | A call in which a step fails or raises, or whose update does not commit, ends with `fail`; if the row is still processing under the claim at that moment it becomes failed, keeps source and references, and gets the code of that step: source missing, the encoding of its kind, time-out, no encoder, invalid outputs, promotion, or unexpected. |
| `ClipProcess.CallCleansUp` | boards/skate_worker.py:217-225 | A call that no exception stops while it deletes takes the version it replaced out of the delivery area, or its own files if a move failed or the claim was gone, whatever others do meanwhile; only a file whose deletion failed stays. |
| `Membership.Directory.ApplyTransition` | boards/services.py:176-268 | The transition helper either raises the first failing check and writes nothing, or writes the row and appends its event. |
| `Membership.Directory.TransferManager` | boards/services.py:548-637 | Both transitions of a transfer happen, or neither. |
| `Membership.Directory.DecideRequest` | boards/services.py:714-774 | A decision and the transition it causes happen together or not at all. |
| `MembershipRuns.ManagersStay` | boards/services.py:149-173 | A board with an active manager keeps one through every run in which nobody breaks the glass on that board. |
| `MembershipRuns.BreakGlassTakesTheLast` | boards/services.py:640-711 | Break-glass succeeds if and only if a verified active superuser gives a reason, the confirmation and the capability for the one active manager of a board, who is no superuser and has no request waiting; it takes exactly that one and touches no other row. |
| `MembershipRuns.StepDownFailsOnlyForTheAccount` | boards/services.py:548-637 | After the promotion the old manager's step down never fails the continuity check; it fails exactly when that account is a superuser, or inactive while keeping a role. |
| `MembershipRuns.TransferMeaning` | boards/services.py:548-637 | A transfer succeeds if and only if it is permitted and has a reason, the old manager is active and no superuser, the heir is another active user who may be manager of this active board and is not, neither has a request waiting, and an old manager who keeps a role below manager has an active account; the heir is then manager and the old one retired, two events say so, the heir's first, and nothing else changes. |
| `MembershipRuns.DecisionMeaning` | boards/services.py:714-774 | A decision succeeds if and only if the request is pending, the actor may decide it, never being its applicant nor, as a board manager, deciding on a manager or an inactive member, and an approval can be carried out; approval puts the applicant in the requested role with one event that names the request, rejection changes no row. |
| `MembershipRuns.LogTellsAll` | boards/services.py:216-268 | In every run the event log links each change to the one before, replays to the current rows, contains no event without a change, and names each event after its change; one request at most waits per user and board. |
| `MembershipRuns.DecisionsAreFinal` | boards/services.py:714-724 | A decided request reads the same in every later state. |
| `Policies.CategoryCheck` | boards/policies.py:75-97 | The set form of a role check holds of a post exactly when the user's active membership of the post's only board has one of the roles. |
| `Policies.DecisionsByRole` | boards/policies.py:351-434 | With one active membership of the post's only, active board: reviewers and managers view, contributors and editors their own; managers edit, editors their own, contributors their own drafts; reviewers and managers publish what is not theirs. |
| `Policies.DecisionsWithoutRole` | boards/policies.py:351-434 | Nobody who is not active, or has no active membership of the post's only board, may view, edit or publish; an active superuser may. |
| `Policies.VisibleAgrees` | boards/policies.py:271-288 | The list filter selects exactly the posts the view decision allows, in order. |
| `Policies.EditableAgrees` | boards/policies.py:291-317 | The list filter selects exactly the posts the edit decision allows. |
| `Policies.PublishableAgrees` | boards/policies.py:320-331 | The list filter selects exactly the posts the publish decision allows. |
| `Policies.PublishedAgrees` | boards/policies.py:334-348 | The list filter agrees with the per-post decision if and only if no published post of a third visibility is open to the user; on two-valued visibility it always agrees. |
| `Policies.ModerationAgrees` | boards/policies.py:452-461 | The list filter selects exactly the comments the moderation decision allows. |
| `Policies.RevisionsAgree` | boards/policies.py:464-485 | The list filter selects exactly the revisions whose post the user may view. |
| `Policies.ManageableAgrees` | boards/policies.py:173-183 | The list filter selects exactly the boards whose members the user may manage. |
| `WordWrap.Wrap` | Blogs/revisions.py:334-372 | The nested loops compute the wrapped lines of their specification. |
| `WordWrap.WrapLineIsShortest` | Blogs/revisions.py:361-370 | A text line becomes a layout of its words, in order, into lines that fit or hold one word, and no other such layout has fewer lines; a structural line stays as it is. |
| `WordWrap.WrapKeepsWords` | Blogs/revisions.py:334-372 | Wrapping loses, adds, changes and moves no word. |
| `WordWrap.WrapIsIdempotent` | Blogs/revisions.py:334-372 | Wrapping wrapped lines changes nothing. |
| `MarkdownBlocks.SplitBlocks` | Blogs/revisions.py:130-171 | The loop over lines computes the blocks given by longest runs. |
| `MarkdownBlocks.BlocksCoverLines` | Blogs/revisions.py:130-171 | Every line but blank ones outside fences is in exactly one block, in order, even with a fence left open. |
| `MarkdownBlocks.SplitPrintSplit` | Blogs/revisions.py:130-171 | Printing the blocks with one blank line between them and splitting again gives the same blocks. |
| `StructuredDiff.BuildStructuredDiff` | Blogs/revisions.py:214-261 | The loop over opcodes computes the blocks and totals of its specification. |
| `StructuredDiff.UnitsAreSentences` | Blogs/revisions.py:174-177 | The sentence units concatenate to the text; each ends at its first closing mark or line end, and only the last may do without one. |
| `StructuredDiff.SegmentsRebuildBothSides` | Blogs/revisions.py:180-211 | For texts of any length the segments concatenate to the old text and to the new text, and their tags are true of them. |
| `StructuredDiff.SegmentsFollowSentences` | Blogs/revisions.py:180-211 | Run of sentences by run of sentences, a replacement of up to 20000 characters is compared character by character and anything else is one segment. |
| `StructuredDiff.DiffAccountsForAll` | Blogs/revisions.py:214-261 | Each changed block shows the kinds of the blocks it replaces and of their replacements, its segments give both texts, and the totals of inserted and deleted characters are the sizes of the two sides less what is kept. |
| `StructuredDiff.DiffCountsBlocks` | Blogs/revisions.py:239-252 | Added, deleted and changed blocks are those of the insertions, of the deletions and the larger sides of the replacements, and they balance with the number of blocks. |
| `StructuredDiff.EmptyDiffMeansSameBlocks` | Blogs/revisions.py:214-261 | A diff without blocks is one of texts with equal blocks. |
| `StructuredDiff.SoundMatcherExists` | Blogs/revisions.py:221-231 | The promise expected of the sequence matcher can be kept. |
| `Revisions.Post.CommitPostForm` | Blogs/services.py:62-107 | A form commit checks its token, saves, adds a revision and records a status change, or leaves everything as it was. |
| `Revisions.HistoryStaysOk` | Blogs/revisions.py:34-106 | In every run versions strictly rise, each revision but 1.0 stores its diff against its neighbour, and the post holds what its last revision holds. |
| `Revisions.NoLostUpdate` | Blogs/services.py:78-96 | A form commit succeeds if and only if it was opened on the latest revision (and its change type is known), and ever after that revision is the neighbour just below the new one. |
| `Revisions.Post.RevisionDiff` | Blogs/views.py:878-935 | Two versions are compared by the stored diff when they are neighbours and by a new one otherwise, after the same refusals. |
| `Revisions.PairMeaning` | Blogs/views.py:890-912 | A comparison is answered if and only if it gives two different texts naming an earlier and a later revision in this order, and is about these two; a version that does not exist is not found, all else is a bad request. |
| `Revisions.VersionTexts` | Blogs/views.py:949-954 | Exactly the texts of some letters v, a decimal number, a dot and another one, spaces around, name a version. |
| `Revisions.StoredDiffIsFresh` | Blogs/views.py:914-930 | Whatever two versions are compared, the diff shown has the blocks and totals of one built on the spot; it is the stored one for neighbours and a new one for all others. |
| `Revisions.VersionTextParses` | Blogs/views.py:949-954 | The text of a version is read back as that version. |
| `Totp.MatchingStep` | accounts/authn/mfa_services.py:214-221 | The search returns the earliest matching step within the window, or none if none matches. |
| `Totp.MfaDevice.ConfirmTotpEnrollment` | accounts/authn/mfa_services.py:229-304 | A pending device becomes active on a matching code; an expired or unreadable binding is erased before the error is raised. |
| `Totp.ConfirmMeaning` | accounts/authn/mfa_services.py:229-304 | A confirmation succeeds if and only if the binding is unexpired and readable and the code stands for a step of the window; it spends that step, and an expired or unreadable device is erased instead. |
| `Totp.MfaDevice.VerifyActiveTotp` | accounts/authn/mfa_services.py:389-426 | A step is accepted only if it exceeds the last accepted one, which it then replaces. |
| `Totp.VerifyMeaning` | accounts/authn/mfa_services.py:389-426 | A verification succeeds if and only if the device is active and readable and the code stands for a step later than every accepted one; it records exactly that step, and a refusal changes nothing. |
| `Totp.RevokeMeaning` | accounts/authn/mfa_services.py:460-510 | A revocation succeeds if and only if it is allowed, the device is in use and, on the own device of a superuser, the code stands for a step later than the last accepted one; it destroys the device, and a refusal changes nothing. |
| `Totp.MfaDevice.RevokeTotpDevice` | accounts/authn/mfa_services.py:460-510 | Revoking erases the device; a superuser revoking the own device needs an unspent code. |
| `Totp.AcceptedStepsRise` | accounts/authn/mfa_services.py:229-426 | In every run, settings changing freely, the accepted steps of one enrolment strictly rise, the confirming one included, as section 5.2 of RFC 6238 asks. |
| `Totp.AcceptedCodeIsSpent` | accounts/authn/mfa_services.py:389-426 | A code once accepted is refused as a replay for as long as the enrolment lasts. |
| `Totp.RecoveryCodeWorksOnce` | accounts/authn/mfa_services.py:308-386 | A used recovery code is refused in every later state of the same enrolment, and a use for rebinding ends the enrolment. |
| `MfaSessions.SessionStore.PrivilegedSessionIsValid` | accounts/authn/mfa_session.py:243-313 | The check holds exactly of a stamp in time, of the requesting user, of an active device under the stamped version and of a live certificate where one is needed; an invalid stamp is dropped, a certificate stamp refreshed. |
| `MfaSessions.SessionStore.DashboardRememberedSessionIsValid` | accounts/authn/mfa_session.py:316-347 | The remembered grant holds exactly within its own and the maximal time, for the same user and device version, and is dropped otherwise. |
| `MfaSessions.NoStampSurvivesErasure` | accounts/authn/mfa_services.py:437-457 | Once a device is erased no stamp or grant taken of it before is valid at any later moment, after re-enrolment or from a device object read earlier. |
| `MfaSessions.StampLastsItsTime` | accounts/authn/mfa_session.py:243-313 | A stamp of an active device is valid at a later moment if and only if its age is allowed and the device still has that version. |
| `MfaSessions.StampLastsInUse` | accounts/authn/mfa_session.py:243-313 | A session passes a series of checks, with or without a certificate, if and only if at each of them the user, the device version and the age are right, the certificate is live and the one presented, and, where one is asked for, no more than the idle time has gone since the last check that asked for one. |
| `MfaSessions.GrantLastsItsTime` | accounts/authn/mfa_session.py:316-347 | A remembered grant is valid at a later moment if and only if the device still has its version, the user and the dashboard right are there, its age is within the limit of both moments, and today's limit is not the shorter one. |
| `MfaSessions.FailedCheckIsFinal` | accounts/authn/mfa_session.py:243-313 | Once a check of a logged-in user fails no later check of that stamp passes. |
| `ClipGroups.PrepareSkateClips` | boards/board_index.py:68-105 | The loop over three queues computes the groups of its specification and ends. |
| `ClipGroups.GroupsArrangeClips` | boards/board_index.py:80-105 | Every clip is placed exactly once; portraits are never horizontal, landscapes and squares never vertical. |
| `ClipGroups.GroupCount` | boards/board_index.py:92-105 | The number of groups is the largest of half the portraits, a third of the wide clips and a fifth of all, rounded up. |
| `ClipGroups.NoArrangementIsShorter` | boards/board_index.py:92-105 | No arrangement of the clips into groups of two vertical and three horizontal slots has fewer groups. |
| `Base64Url.DecodeEncoded` | security/queries.py:36-55 | Unpadded base64url, section 5 of RFC 4648, decodes to the bytes it encodes. |
| `EventQueries.CursorRoundTrip` | security/queries.py:36-55 | A cursor decodes to the pair it encodes if and only if both parts are non-empty and it keeps to the length bound; otherwise it is refused. |
| `EventQueries.PagesCoverEverything` | security/queries.py:86-121 | From the first page on, following the cursor returns every matching document exactly once, in descending order, and then stops, for any limit. |
| `EventQueries.PageMeaning` | security/queries.py:65-121 | A page holds the first documents below the cursor, as many as the limit between 1 and 200 allows, and a cursor if and only if it is full; it is refused if and only if the cursor carries no pair. |
| `EventQueries.PlainKeysFit` | security/queries.py:36-55 | Two non-empty texts that JSON does not escape fit a cursor if and only if they have at most 377 characters together. |
| `EventQueries.StoredEventsAreCovered` | security/queries.py:86-121 | Following the cursor returns every event that `insert_event` stores, as a timestamp and a UUID fit a cursor. |
| `PublishedPaging.PublishedContext` | Blogs/views.py:199-230 | One row read ahead decides whether the page carries a cursor for its last post. |
| `PublishedPaging.PromptReaderSeesAll` | Blogs/views.py:199-230 | A reader who keeps the filters and loads each page within the life of its cursor gets every post exactly once and is then told there is no more. |
| `MusicImport.MusicTable.ImportMusicRecords` | boards/music_record_import.py:93-130 | The loop with its counters synchronises all records, or raises the position of the first invalid one and leaves the tables as they were. |
| `MusicImport.ImportSynchronises` | boards/music_record_import.py:93-130 | For pairwise distinct identities one import leaves exactly one row per declared identity, holding the stored form of all declared columns and the artist, and every other row as it was. |
| `MusicImport.CountsBalance` | boards/music_record_import.py:93-130 | Over every import the table grows by exactly the rows created less the duplicates removed, keys are drawn for created rows only, and no record is counted twice. |
| `MusicImport.ArtistMeaning` | boards/music_record_import.py:76-90 | A name stands for the first artist of the board with its normal form, or a new one; a link fills that artist's empty column and nothing else changes. |
| `MusicImport.SecondImportDoesNothing` | boards/music_record_import.py:93-130 | An immediate second import changes nothing and creates and removes nothing; it reports as updated exactly the records with a value that is not its own stored form, so it reports nothing if and only if there is none. |
| `MusicImport.NumberForTextIsAlwaysUpdated` | boards/music_record_import.py:113-119 | A valid record with the number 5 in a text column is reported as updated by every later import. |
| `MembershipRuns.GrantMeaning` | boards/services.py:362-408 | A grant succeeds if and only if it is permitted, has a reason, and the pair may be active and has no row yet; it makes that row and one event, and changes nothing else. |
| `MembershipRuns.ChangeMeaning` | boards/services.py:411-457 | A role change succeeds if and only if the member is active, in another role and not the last manager; one row and one event change. |
| `MembershipRuns.DeactivateMeaning` | boards/services.py:460-504 | A deactivation succeeds if and only if the member is active and not the last manager; it keeps the role. |
| `MembershipRuns.ReactivateMeaning` | boards/services.py:507-545 | A reactivation succeeds if and only if the member is inactive and may be active; it takes the role asked for. |
| `MembershipRuns.WithdrawMeaning` | boards/services.py:795-822 | A member leaves if and only if the actor is that member, active, below manager and without a pending request. |
| `AccessRules.SeparationOfDuties` | boards/access_rules.py:57-89 | Whatever the role, nobody reviews or publishes their own post, and own-object actions need ownership. |
| `AccessRules.RolesAreNested` | boards/access_rules.py:40-54 | A manager may do what any role may, an editor what a contributor may. |
| `Policies.DuplicateMembershipsDisagree` | boards/policies.py:54-72 | With two active rows for one user and board the two forms part ways, so the uniqueness constraint is needed. |
| `ClipMedia.ClaimRunsItsTime` | boards/models.py:705-727 | A claim counts as stuck exactly when its time is over. |
| `Revisions.NextVersionFollowsTheLast` | Blogs/revisions.py:34-48 | The first version is 1.0; a major change moves to the next whole version, any other to the next minor one of the last revision. |
| `Revisions.StatusChangeIsRecorded` | Blogs/services.py:97-107 | A status changed by a commit is recorded with its revision, both statuses and the event type that belongs to the two; an unchanged one is not. |
| `MfaSessions.ErasureMeaning` | accounts/authn/mfa_services.py:437-457 | Taking a device out of use destroys its seed and codes and raises its version by one; only revocation, recovery for rebinding and a failed confirmation do it. |
| `PublishedPaging.LateReaderStartsOver` | Blogs/views.py:165-181 | A cursor used too late or under other filters gives the first page again. |
| `MusicImport.ValidMeaning` | boards/music_record_import.py:40-65 | A record is accepted if and only if it keeps to the importable columns and has those its kind and scope need; the accepted columns are the ones given, a yearly record's month aside. |
| `MembershipRuns.SubmissionMeaning` | boards/services.py:54-77 | A request is filed if and only if its active, eligible applicant asks an active board for a known role not held already and has none waiting there; it is for that role and pending. |
| `AccessRules.RolesOfActions` | boards/access_rules.py:36-89 | Who may do what, action by action. |
| `AccessRules.NothingElseIsAllowed` | boards/access_rules.py:57-89 | Without a role, on another board, by an inactive membership or for an unknown action nothing is allowed. |
| `Policies.PublishedDecision` | boards/policies.py:369-374 | A post is open to a reader of published posts if and only if it is published and public or open to that user anyway. |
| `Policies.ManagementDecision` | boards/policies.py:151-152 | Members are managed by active superusers and by the active managers of an active board. |
| `Outbox.ReceiptMeaning` | security/outbox.py:202-216 | A receipt is valid if and only if it has a positive sequence number, a MAC and the partition expected. |
| `OutboxRuns.RingAccepted` | security/audit.py:82-89 | A worker starts with exactly the keyrings that `AuditKeyring` accepts. |
| `AuditDocuments.LegacyMeaning` | security/audit.py:187-197 | A document without a schema version passes if and only if its three fields are there and its MAC is that of its data under the key named for such documents. |
| `Totp.StartMeaning` | accounts/authn/mfa_services.py:163-211 | An enrolment starts if and only if the user is eligible, the settings are sound and no device is active; it leaves a pending device with the new seed. |
| `Totp.RecoverMeaning` | accounts/authn/mfa_services.py:308-386 | A recovery code is accepted if and only if an active device has it unused; it is then used, or the device destroyed. |
| `MfaSessions.MarkingMeaning` | accounts/authn/mfa_session.py:208-240 | Marking writes a stamp of the user, the version and the certificate, and a grant if and only if it is asked for and no certificate is there. |
| `MfaSessions.OnlyTheActiveDeviceCounts` | accounts/authn/mfa_session.py:243-347 | No stamp and no grant lets in anybody but the owner of an active device of the stamped version. |
| `PublishedPaging.PageMeaning` | Blogs/views.py:199-222 | A page is the next rows after the cursor, up to its size, and names the last as the next cursor if and only if there are more. |
| `PublishedPaging.CursorMeaning` | Blogs/views.py:165-181 | A token counts if and only if it was signed for these filters, with a real key, an hour ago at most. |
| `MusicImport.IdentityMeaning` | boards/music_record_import.py:68-76 | Rows are of one identity if and only if they agree on board, time, kind and, for a ranked kind, the rank, else the label. |
| `MembershipRuns.BoardChangesHands` | boards/services.py:362-637 | The runs are not empty: a board gets a manager and a contributor, who becomes editor and takes it over from the manager, who leaves. |
| `Totp.EnrolmentCompletes` | accounts/authn/mfa_services.py:163-426 | A new user can enrol, confirm with the code of the moment and verify with that of any later one. |
| `Revisions.TwoEditors` | Blogs/services.py:62-107 | A first commit makes version 1.0, a minor change based on it 1.1, and another one based on it as well is refused. |
| `WordWrap.StructuralMeaning` | Blogs/revisions.py:345-357 | Which lines are kept as they are: blank ones, headings, tables, quotes, fences, admonitions, rules, and short list items of either kind. |
| `MarkdownBlocks.KindMeaning` | Blogs/revisions.py:113-128 | What each kind of line looks like, and which lines are fences or blank. |
| `StructuredDiff.ValueMeaning` | Blogs/revisions.py:236-237 | The text of blocks is theirs with an empty line between any two. |

## Left out

- Django, PostgreSQL and MongoDB themselves: tables are maps and sequences, a locked transaction is one step, and column widths are not modelled.
- SM3-HMAC, AES-GCM, password hashing and token signing: function parameters, or values that can or cannot be read.
- Audit documents without a schema version: only their checks are modelled, not the code that once wrote them.
- AuditDocuments.AsText: the text Python gives a list or a mapping used as a key identifier or MAC is not modelled, nor whether comparing it raises; such a value names no key and equals no MAC.
- OutboxRuns.Ring: a worker's keyring is fixed from its claim to its closing write, and which key it would use for documents without a schema version plays no part.
- Outbox.PartitionFor: lower-cases ASCII letters only.
- Outbox health counters, index creation and deployment checks: they would only add easy members.
- ClipRuns.Encoded: encoders and probes are abstract; an output records its kind and the content it was made from, and validation may succeed or fail freely.
- ClipRuns.With: a worker's temporary directory is part of the worker; its path is unique to the claim, and leftovers after a crash are not modelled.
- ClipProcess.Script: an exception outside the guarded part of `process_media`, or out of `fail` itself, ends the worker like a crash; crashes are steps of the runs, not of a call.
- Clips other than one: rows and files of different clips are apart by their keys.
- Deletion of clips, boards, users and posts, and media garbage collection.
- Membership.Grant: permission checks, step-up capabilities, certificates and confirmation phrases are gates that may refuse.
- Membership.Written: free-text reasons, notes, timestamps and name snapshots of events and requests are not stored; the audit event each operation enqueues is the subject of the outbox modules.
- Policy predicates without a list form (submission, review queue, detail page) have nothing to be compared with.
- WordWrap.Structural: decimal digits are the ASCII ones.
- MarkdownBlocks.KindOf: decimal digits are the ASCII ones.
- MarkdownBlocks.SplitPrintSplit: about lines; splitting a text into lines and joining lines drops trailing blank lines, so it is not a round trip of texts.
- WordWrap.WrapIsIdempotent: about lines, for the same reason.
- StructuredDiff.Sound: the sequence matcher of the standard library is assumed to return opcodes that cover both sides; which of the possible answers it gives is not modelled.
- StructuredDiff.StructuredDiffOf: the HTML renderings of diffs are not modelled.
- Revisions.ParseVersion: decimal digits are the ASCII ones; other digit characters are refused by it.
- Revisions.Post.RevisionDiff: the display mode and the visibility check of the page are not modelled, nor the older HTML diff shown for a revision stored before structured diffs existed.
- Revisions.CommitForm: about one post; the moderation transitions between commits change no content and are left out.
- Totp.Decrypt: decryption succeeds exactly on a sealed seed with a keyring at hand.
- MfaSessions.StampValid: stamps are those that marking writes; malformed session entries, which the code drops, are not modelled.
- Pending challenges, enrolment and recovery sessions, rate limits, e-mail codes: they would only add easy members.
- EventQueries.DecodeCursor: accepts the base64url alphabet and compact ASCII JSON that cursors are made of; a foreign cursor with characters Python skips, with white space or with raw non-ASCII characters is refused by the model and may be read by Python.
- EventQueries.QueryPage: the filters of a query are the choice of the matching documents, all of which have text timestamps; a document without one would end the paging.
- MusicImport.Validate: declared values are integers, texts or nothing; reading the payload file is left out.
- MusicImport.Target: a value that a column refuses (nothing where something is needed, too long, out of range) ends the import with a database error, which is not modelled.
- MusicImport.ResolveArtist: one provider's link column is modelled, the one that the import sets.
- Board pages, music pages, slugs, images, caching, e-mail, routing and administration pages.
