# Gerrit's per-change submit operation and revision-note data, in Dafny

This project models two parts of Gerrit's server.

**`SubmitStrategyOp`** is the operation a batch update runs once for each change of a submission. It has three phases:

- `updateRepo` stages the compare-and-swap ref command for the new branch tip. For `refs/meta/config` it first checks that the new commit loads as a project configuration.
- `updateChange` does four things in order:
  - it reconciles the change's votes: it keys the stored approvals, puts the submitter's SUBMIT=1 vote over them, normalises them, and writes the result to the review database and the note database, again on the new patch set when the strategy created one;
  - it picks the history message that the merge status calls for;
  - it marks the change merged with the submission id;
  - it records a storage failure as a problem of the change instead of failing.
- `postUpdate` refreshes the caches and runs the change-merged hook, each only when its condition holds.

**`RevisionNoteData`** holds the flat form of a revision note's comments. Each holder is built from a review-database object and exported back to one.

Layout:

- `wrappers.dfy`: `Option`, `Result` and `Outcome`.
- `reviewdb_client.dfy`: the review-database value types the two classes use, such as ids, approvals, messages and comments.
- `revision_note_data.dfy`: the note holders as datatypes. Each constructor is a function whose contract is the round trip through `Export`.
- `submit_plan.dfy`: pure functions and lemmas that specify the operation:
  - ref planning;
  - re-keying approvals onto a patch set;
  - the keyed approval map;
  - the writes and note events of `saveApprovals` and `setApproval`;
  - the message text;
  - the effects of `postUpdate`.
- `submit_strategy_op.dfy`: the operation as a class with the source's fields (`command`, `submitter`, `mergeResultRev`, `mergedPatchSet`, `updatedChange`). It works on contexts that are classes too. Each method is proved against the functions of `SubmitPlan`.

How the environment is modelled:

- **Review database.** The writes sent to it form a log. There is also a countdown `opsBeforeFailure`: the store throws an `OrmException` on the operation after that many have succeeded, or never when it is `None`. The countdown covers every write, the two approval writes of each save and the message insert, and the patch-set read of `setMerged`. The other two reads, the stored approvals' lookup and the message uuid, are not counted (see "## Left out").
- **Note database.** Every call on a patch set's `ChangeUpdate` is one event in a single log, tagged with the patch set's id.
- **Collaborators.** The label normaliser, the stored approvals of a patch set, the account cache, the project-configuration loader and the text of each merge status are function fields of `Arguments`.
- **Message uuid.** The uuid the generator yields is a field of the change context; `None` means it throws.
- **Strategy hook.** The strategy's `updateRepoImpl` is represented only by the tip it leaves behind.

## Model

| member | source | states |
|---|---|---|
| RevisionNoteData.Identity.Export | gerrit-server/src/main/java/com/google/gerrit/server/notedb/RevisionNoteData.java:42-44 | The exported account id carries the stored id. |
| RevisionNoteData.IdentityOf | gerrit-server/src/main/java/com/google/gerrit/server/notedb/RevisionNoteData.java:38-44 | The holder stores the account's id; exporting it gives the same account id back. |
| RevisionNoteData.NoteCommentKey.Export | gerrit-server/src/main/java/com/google/gerrit/server/notedb/RevisionNoteData.java:58-64 | The exported key has the stored uuid and file name, on the patch set with the given change id and the stored number. |
| RevisionNoteData.NoteCommentKeyOf | gerrit-server/src/main/java/com/google/gerrit/server/notedb/RevisionNoteData.java:52-64 | The holder stores uuid, file name and patch-set number; exporting with the key's own change id rebuilds the key. |
| RevisionNoteData.NoteCommentRange.Export | gerrit-server/src/main/java/com/google/gerrit/server/notedb/RevisionNoteData.java:80-83 | All four stored coordinates reach the exported range. |
| RevisionNoteData.NoteCommentRangeOf | gerrit-server/src/main/java/com/google/gerrit/server/notedb/RevisionNoteData.java:73-83 | Start line, start character, end line and end character survive the round trip. |
| RevisionNoteData.NoteComment.Export | gerrit-server/src/main/java/com/google/gerrit/server/notedb/RevisionNoteData.java:113-126 | The exported comment has the key for the given change, the stored line, author, parent uuid, time, side, message, tag and revision, and the given status. It has a range exactly when one is stored, and then that range exported. |
| RevisionNoteData.NoteCommentOf | gerrit-server/src/main/java/com/google/gerrit/server/notedb/RevisionNoteData.java:99-126 | The holder keeps the server id and has a range exactly when the comment does. Exporting it with the comment's own change and status rebuilds the comment. |
| RevisionNoteData.NoteData.ExportComments | gerrit-server/src/main/java/com/google/gerrit/server/notedb/RevisionNoteData.java:134-140 | One exported comment per stored comment, with the same length and order. |
| RevisionNoteData.ExportCommentsRoundTrip | gerrit-server/src/main/java/com/google/gerrit/server/notedb/RevisionNoteData.java:99-140 | Comments of one change with one status come back equal and in order when stored and then exported. |
| SubmitPlan.CheckProjectConfig | gerrit-server/src/main/java/com/google/gerrit/server/git/strategy/SubmitStrategyOp.java:120-134 | Fails exactly for the configuration ref with a commit that does not load, and then with the invalid-configuration error for that commit and project. |
| SubmitPlan.PlanRefUpdate | gerrit-server/src/main/java/com/google/gerrit/server/git/strategy/SubmitStrategyOp.java:98-117 | No command exactly when the tip did not move or vanished. The configuration error exactly when the moved tip is an invalid configuration. Otherwise one command on the destination ref from the old tip (or the zero id) to the new tip, which for the configuration ref loads. |
| SubmitPlan.ConvertPatchSet | gerrit-server/src/main/java/com/google/gerrit/server/git/strategy/SubmitStrategyOp.java:261-273 | The result is keyed on the patch set with the same account and label and keeps value, grant time and tag. It is the approval itself when that is already on the patch set. |
| SubmitPlan.ConvertPatchSetIdempotent | gerrit-server/src/main/java/com/google/gerrit/server/git/strategy/SubmitStrategyOp.java:265-271 | Converting twice equals converting once. |
| SubmitPlan.ConvertAll | gerrit-server/src/main/java/com/google/gerrit/server/git/strategy/SubmitStrategyOp.java:275-278 | Same length; each element is the conversion of the approval in its place. |
| SubmitPlan.ConvertAllCopiesOnto | gerrit-server/src/main/java/com/google/gerrit/server/git/strategy/SubmitStrategyOp.java:275-278 | The converted approvals are exactly the conversions of the input approvals, and all of them lie on the target patch set. |
| SubmitPlan.KeyedDomain | gerrit-server/src/main/java/com/google/gerrit/server/git/strategy/SubmitStrategyOp.java:207-211 | The keyed map's keys are exactly the stored approvals' keys. Each entry is a stored approval filed under its own key. |
| SubmitPlan.KeyedLastWins | gerrit-server/src/main/java/com/google/gerrit/server/git/strategy/SubmitStrategyOp.java:207-211 | Under each key the map holds the last stored approval with that key. |
| SubmitPlan.ApprovalMap | gerrit-server/src/main/java/com/google/gerrit/server/git/strategy/SubmitStrategyOp.java:207-221 | The submitter's vote is under its key, replacing any stored vote there. Every other key is present and mapped as in the stored approvals. |
| SubmitPlan.SubmitApproval | gerrit-server/src/main/java/com/google/gerrit/server/git/strategy/SubmitStrategyOp.java:213-221 | The synthetic vote is on the patch set, for the user, with the submit label, value 1 and the update's time as grant time. |
| SubmitPlan.PutsFor | gerrit-server/src/main/java/com/google/gerrit/server/git/strategy/SubmitStrategyOp.java:243-245 | One put per updated vote, in order, with the vote's account, label and value. |
| SubmitPlan.RemovesFor | gerrit-server/src/main/java/com/google/gerrit/server/git/strategy/SubmitStrategyOp.java:246-248 | One removal per deleted vote, in order, with the vote's account and label. |
| SubmitPlan.UnchangedPutsExactly | gerrit-server/src/main/java/com/google/gerrit/server/git/strategy/SubmitStrategyOp.java:252-258 | An unchanged vote is put exactly when unchanged votes are included or it is a submit vote, and every put comes from such a vote. |
| SubmitPlan.UnchangedPuts | gerrit-server/src/main/java/com/google/gerrit/server/git/strategy/SubmitStrategyOp.java:252-258 | At most one put per unchanged vote, and one for every vote when unchanged votes are included. Each is a put on the patch set's update. |
| SubmitPlan.SaveApprovalsOnPatchSet | gerrit-server/src/main/java/com/google/gerrit/server/git/strategy/SubmitStrategyOp.java:239-258 | Two writes, an upsert carrying one approval per normalised vote and then a delete carrying one per deleted vote, every approval on the target patch set. The note events all go to that patch set's update: one per updated and deleted vote, at most one per unchanged vote. |
| SubmitPlan.SaveApprovalsRecords | gerrit-server/src/main/java/com/google/gerrit/server/git/strategy/SubmitStrategyOp.java:243-258 | The patch set's note events contain a put for every updated vote, a removal for every deleted vote and a put for every kept unchanged vote, and nothing else. |
| SubmitPlan.ReviewerAndSubmit | gerrit-server/src/main/java/com/google/gerrit/server/git/strategy/SubmitStrategyOp.java:191-192 | Two events on the original patch set: the caller as reviewer, then the user's SUBMIT=1 vote. |
| SubmitPlan.SetApprovalLayout | gerrit-server/src/main/java/com/google/gerrit/server/git/strategy/SubmitStrategyOp.java:182-202 | Four writes for a new patch set and two otherwise. The first two are the original patch set's save, the rest the new one's. The notes start with the reviewer and the submit vote, and the merged submit records come right after the original patch set's saved votes (last, with no new patch set). Every event goes to the original or the new patch set's update. |
| SubmitPlan.ApprovalsCopiedToNewPatchSet | gerrit-server/src/main/java/com/google/gerrit/server/git/strategy/SubmitStrategyOp.java:194-201 | With no new patch set the votes are written once. With a new one, every normalised vote is upserted again as a copy with the same account, label, value and grant time on the new patch set, and every updated and unchanged vote is recorded on its update. |
| SubmitPlan.SaveApprovalsIdempotent | gerrit-server/src/main/java/com/google/gerrit/server/git/strategy/SubmitStrategyOp.java:239-242 | Applying the upsert and delete of one normaliser result twice leaves the approvals table as applying them once does. |
| SubmitPlan.ApprovalWritesIdempotent | gerrit-server/src/main/java/com/google/gerrit/server/git/strategy/SubmitStrategyOp.java:239-242 | Replaying any sequence of upserts and deletes of approvals leaves the approvals table as applying it once does. |
| SubmitPlan.SetApprovalIdempotent | gerrit-server/src/main/java/com/google/gerrit/server/git/strategy/SubmitStrategyOp.java:194-201 | Replaying setApproval's writes, on the original patch set and for a rebase or cherry-pick on the new one as well, leaves the approvals table as writing them once does. |
| SubmitPlan.ByAccountName | gerrit-server/src/main/java/com/google/gerrit/server/git/strategy/SubmitStrategyOp.java:280-289 | Empty exactly when the account is unknown or has no full name; otherwise " by " followed by the full name. |
| SubmitPlan.MessageBody | gerrit-server/src/main/java/com/google/gerrit/server/git/strategy/SubmitStrategyOp.java:155-169 | Fails exactly for a status outside the four handled ones, with the unexpected-status error. No message exactly for ALREADY_MERGED. The text plus the submitter for CLEAN_MERGE. The text, " as ", the commit name and the submitter for CLEAN_REBASE and CLEAN_PICK. |
| SubmitPlan.MessageBodyShape | gerrit-server/src/main/java/com/google/gerrit/server/git/strategy/SubmitStrategyOp.java:158-163 | A body starts with the status text and ends with the submitter part; after a rebase or pick, " as " and the commit name follow the text directly. |
| SubmitPlan.Message | gerrit-server/src/main/java/com/google/gerrit/server/git/strategy/SubmitStrategyOp.java:291-305 | No message exactly when the uuid generator fails. Otherwise a message keyed by the patch set's change and the uuid, with the body, no author, the update's time and the patch set. |
| SubmitPlan.StatusOfAsWritten | gerrit-server/src/main/java/com/google/gerrit/server/git/strategy/SubmitStrategyOp.java:144-150 | As written: a missing commit is a null dereference. A commit with no status fails with the status-not-set error. Otherwise the result is the commit's status. |
| SubmitPlan.StatusOf | gerrit-server/src/main/java/com/google/gerrit/server/git/strategy/SubmitStrategyOp.java:144-150 | Fails with the status-not-set error exactly when there is no commit or no status; otherwise it gives the commit's status. |
| SubmitPlan.MissingCommitEscapesStateCheck | gerrit-server/src/main/java/com/google/gerrit/server/git/strategy/SubmitStrategyOp.java:144-150 | For a change with no commit in the batch, the as-written status is a null dereference; the corrected one is the state check's error. |
| SubmitPlan.PostUpdateEffects | gerrit-server/src/main/java/com/google/gerrit/server/git/strategy/SubmitStrategyOp.java:330-362 | The fast-forward refresh with the command's ref and ids comes first and exactly when a command was staged. The configuration reload happens exactly when that command was for the configuration ref. The merged hook with the merge result's name comes last and exactly when there is a merge result. |
| SubmitStrategyOp.MergedMessage | gerrit-server/src/main/java/com/google/gerrit/server/git/strategy/SubmitStrategyOp.java:153-169 | Fails exactly for an unhandled status, with the unexpected-status error. No message exactly for ALREADY_MERGED or, for a handled status, when the uuid generator fails. Otherwise the message on the commit's patch set whose text is MessageBody of the status text, the commit name and the submitter's name. |
| SubmitStrategyOp.ReviewDb.Perform | gerrit-server/src/main/java/com/google/gerrit/server/git/strategy/SubmitStrategyOp.java:239-242 | A write reaches the log exactly when the store has an operation left, and the countdown drops by one. |
| SubmitStrategyOp.ReviewDb.GetPatchSet | gerrit-server/src/main/java/com/google/gerrit/server/git/strategy/SubmitStrategyOp.java:313 | Unless the store throws, gives the stored patch set or none; it uses one operation. |
| SubmitStrategyOp.RepoContext.AddRefUpdate | gerrit-server/src/main/java/com/google/gerrit/server/git/strategy/SubmitStrategyOp.java:117 | The command is appended to the batch's ref updates. |
| SubmitStrategyOp.StatusUpdateProblem | gerrit-server/src/main/java/com/google/gerrit/server/git/strategy/SubmitStrategyOp.java:172-174 | The problem is for the change, with the text "Error updating change status for " followed by its id. |
| SubmitStrategyOp.CommitStatus.LogProblem | gerrit-server/src/main/java/com/google/gerrit/server/git/strategy/SubmitStrategyOp.java:174 | The problem is appended to the batch's problems. |
| SubmitStrategyOp.SubmitStrategyOp.constructor | gerrit-server/src/main/java/com/google/gerrit/server/git/strategy/SubmitStrategyOp.java:72-76 | The operation holds its arguments and commit, and every field starts out null. |
| SubmitStrategyOp.SubmitStrategyOp.UpdateRepo | gerrit-server/src/main/java/com/google/gerrit/server/git/strategy/SubmitStrategyOp.java:95-118 | A missing merge tip is a null dereference. Otherwise the tip moves, and the command and the context's ref updates are exactly what PlanRefUpdate gives: nothing is staged on no movement or on a configuration error. |
| SubmitStrategyOp.SubmitStrategyOp.UpdateChange | gerrit-server/src/main/java/com/google/gerrit/server/git/strategy/SubmitStrategyOp.java:137-180 | A missing status fails before anything changes. The staged command is never touched. Otherwise, case by case: (1) if the approval writes fail, a problem is logged, the change is not merged, the merge result and merged patch set are kept, the writes are those that reached the store, and true is returned; (2) an unexpected status is an illegal state; (3) if the read succeeds, the change is merged, stamped and saved, and its notes are the approval events then the message event; (4) if every write succeeds, they all reach the store in order and no problem is logged; (5) if a later write fails, the problem is logged. |
| SubmitStrategyOp.SubmitStrategyOp.MarkMerged | gerrit-server/src/main/java/com/google/gerrit/server/git/strategy/SubmitStrategyOp.java:153-170 | The merge result is read from the merge tip when there is one. An unexpected status fails, keeping the change, its notes, the saved flag, the merged patch set and the store's writes and countdown. When the patch-set read throws, the change, its notes, the saved flag, the merged patch set and the writes are kept. Otherwise setMerged runs with the selected message. |
| SubmitStrategyOp.SubmitStrategyOp.PostUpdate | gerrit-server/src/main/java/com/google/gerrit/server/git/strategy/SubmitStrategyOp.java:327-363 | The effects run are exactly PostUpdateEffects of the staged command, the merge result, the updated change, the submitter's account and the merged patch set. |
| SubmitStrategyOp.SubmitStrategyOp.RunPhases | gerrit-server/src/main/java/com/google/gerrit/server/git/strategy/SubmitStrategyOp.java:111-117 | Run in the batch's order, the command updateRepo snapshots survives updateChange. When both succeed, the first effect of postUpdate is the fast-forward refresh from the tip before (or the zero id) to the moved tip on the destination ref. When either fails, postUpdate does not run. |
| SubmitStrategyOp.SubmitStrategyOp.Approve | gerrit-server/src/main/java/com/google/gerrit/server/git/strategy/SubmitStrategyOp.java:204-233 | The submitter becomes the SUBMIT=1 vote of the user at the update's time. The normaliser gets the stored votes with it put over them. The put of the submit vote is recorded, then saveApprovals runs without unchanged votes. |
| SubmitStrategyOp.SubmitStrategyOp.SetApproval | gerrit-server/src/main/java/com/google/gerrit/server/git/strategy/SubmitStrategyOp.java:182-202 | The writes that reach the store are the votes saved on the original patch set and, for a new patch set, on it too, up to a store failure. On success the notes gain the reviewer, the submit vote, the saved votes, the merged submit records and the new patch set's votes. When the first save fails they gain only the reviewer and the submit vote; when the save on the new patch set fails they gain everything up to the merged submit records. The submitter is moved onto a new patch set only after a successful save. |
| SubmitStrategyOp.SubmitStrategyOp.ReviewAndApprove | gerrit-server/src/main/java/com/google/gerrit/server/git/strategy/SubmitStrategyOp.java:189-192 | The caller is added as reviewer on the original patch set's update, then approve runs there. The notes gain the reviewer and the submit vote always, and the saved votes when the save completed. |
| SubmitStrategyOp.SubmitStrategyOp.MergeRecords | gerrit-server/src/main/java/com/google/gerrit/server/git/strategy/SubmitStrategyOp.java:194-201 | The submit records are merged into the current patch set's update. Only for a new patch set are the votes saved there, unchanged ones included, and the submitter moved. The notes gain the merge event always, and the new patch set's votes when that save completed. |
| SubmitStrategyOp.SubmitStrategyOp.MoveToPatchSet | gerrit-server/src/main/java/com/google/gerrit/server/git/strategy/SubmitStrategyOp.java:198-201 | The votes are saved on the new patch set, unchanged ones included, and the submitter is re-keyed onto it only when the save completed. |
| SubmitStrategyOp.SubmitStrategyOp.SetMerged | gerrit-server/src/main/java/com/google/gerrit/server/git/strategy/SubmitStrategyOp.java:307-324 | When the patch-set read throws, nothing changes. Otherwise the merged patch set is the current one, the change is MERGED with the submission id and saved, with or without a message, and a message is recorded and inserted only when there is one. |
| SubmitStrategyOp.SubmitStrategyOp.SaveApprovals | gerrit-server/src/main/java/com/google/gerrit/server/git/strategy/SubmitStrategyOp.java:235-259 | Upserts the normalised votes and deletes the deleted ones, both moved onto the patch set, stopping at a store failure. After both writes, records SaveApprovalsNotes. |
| SubmitStrategyOp.SubmitStrategyOp.RecordSavedApprovals | gerrit-server/src/main/java/com/google/gerrit/server/git/strategy/SubmitStrategyOp.java:243-258 | The three loops append the updated puts, the deleted removals and the kept unchanged puts, in that order. |
| SubmitStrategyOp.SubmitStrategyOp.RecordPuts | gerrit-server/src/main/java/com/google/gerrit/server/git/strategy/SubmitStrategyOp.java:243-245 | The loop over the updated votes appends exactly PutsFor. |
| SubmitStrategyOp.SubmitStrategyOp.RecordRemoves | gerrit-server/src/main/java/com/google/gerrit/server/git/strategy/SubmitStrategyOp.java:246-248 | The loop over the deleted votes appends exactly RemovesFor. |
| SubmitStrategyOp.SubmitStrategyOp.RecordUnchanged | gerrit-server/src/main/java/com/google/gerrit/server/git/strategy/SubmitStrategyOp.java:252-258 | The loop over the unchanged votes appends a put for each submit vote, or for every vote when unchanged ones are included. |

## Left out

- Logging: `logDebug`, `logWarn`, `logError` and `log.error` have no effect on state.
- Email: the merged-notification email (`mergedSenderFactory` … `sendAsync`) runs inside a catch-all, so its failure cannot change the outcome.
- Caches and the project description: `tagCache`, `projectCache` and `setProjectDescription` appear only as the effects `UpdateFastForward` and `ReloadProjectConfig`; their internals are outside the core.
- Change-merged hook: it appears only as the effect `ChangeMergedHook`. An `OrmException` from the hook is caught and logged, so it is not modelled.
- Strategy hooks: `updateChangeImpl` and `postUpdateImpl` are not modelled. `updateRepoImpl` is modelled only as the merge tip it leaves behind (`movedTip`).
- `toMerge.setControl`: change control (permissions) is not modelled.
- Stored approvals: reading them (`approvalsUtil.byPatchSet`) is a function parameter that cannot throw.
- Note-database updates: `ChangeUpdate` objects are one event log, so their lazy creation per patch set is left out.
- Change messages: `ChangeMessagesUtil.addChangeMessage` is not part of this model. It is represented as a message event on the message's patch set followed by one database insert.
- Merge-status texts: the text of each `CommitMergeStatus` is a parameter (`statusMessage`), because that enum is not part of this model.
- Submit label: `LabelId.SUBMIT` is taken to be `"SUBM"`, and `PatchSetApproval.isSubmit` to compare the label with it.
- Approval copies: the copy constructor `new PatchSetApproval(psId, in)` is taken to keep value, grant time and tag.
- Normaliser: it is a function parameter, and its four partitions are not related to one another.
- Timestamps are opaque values. JSON (de)serialisation of the note holders is not part of this model.
- Accessors: `getId`, `getCommit`, `getDest` and `getProject` are not modelled; the model reads the corresponding values directly.
- SubmitPlan.Message: `ChangeUtil.messageUUID` is modelled as an outcome fixed in advance, not as a database operation that uses up the store's budget.
- SubmitStrategyOp.SubmitStrategyOp.UpdateChange: after a failed patch-set read, or a failed message insert, the contract states only that the problem is logged and true is returned. It does not restate SetMerged's description of the change.
- SubmitStrategyOp.SubmitStrategyOp.UpdateChange: for a change with no commit in the batch it returns the state check's status-not-set error. The source as written throws a NullPointerException there (see "## Findings"); the operation is built on the intended `SubmitPlan.StatusOf`.
- RevisionNoteData.NoteCommentOf: a comment without an author or a revision id cannot be represented, because both fields are required here. The source's constructor throws a NullPointerException on such a comment.

## Findings

| source | as written | input that shows it | evidently intended | confidence | as-written member | corrected member |
|---|---|---|---|---|---|---|
| gerrit-server/src/main/java/com/google/gerrit/server/git/strategy/SubmitStrategyOp.java:144-150 | The debug log at line 146 evaluates `commit.name()` before the state check at lines 148-150. | A change whose id has no commit in `args.commits`: line 145 tolerates the null commit, and then line 146 throws a NullPointerException. | Line 145 guards against a null commit, so a missing commit should fail the state check with "status not set for change …". | not executed | SubmitPlan.StatusOfAsWritten, SubmitPlan.MissingCommitEscapesStateCheck | SubmitPlan.StatusOf |
