/**
 * Gerrit's per-change submit operation, `SubmitStrategyOp`, as an object
 * whose three phases (`UpdateRepo`, `UpdateChange`, `PostUpdate`) update its
 * fields and the batch's contexts in place. Each method is proved to do
 * what the functions of module SubmitPlan describe.
 */
module SubmitStrategyOp {
  import opened Wrappers
  import opened ReviewDbClient
  import opened SubmitPlan

  // ---------------------------------------------------------------------
  // Storage that may fail
  // ---------------------------------------------------------------------

  /** Whether a store with this many operations left before it fails completes `k` more. */
  predicate Completes(opsLeft: Option<nat>, k: nat)
  {
    opsLeft.None? || opsLeft.value >= k
  }

  /** The operations left after attempting `k` more (a failed store stays failed). */
  function CountdownBy(opsLeft: Option<nat>, k: nat): Option<nat>
  {
    if opsLeft.None? then None else Some(if opsLeft.value >= k then opsLeft.value - k else 0)
  }

  /** The writes of `ws` that reach the store before it fails. */
  function Performed<T>(ws: seq<T>, opsLeft: Option<nat>): (r: seq<T>)
    ensures Completes(opsLeft, |ws|) ==> r == ws
  {
    if Completes(opsLeft, |ws|) then ws else ws[..opsLeft.value]
  }

  /** Attempting two batches of writes in turn performs what attempting both at once does. */
  lemma PerformedAppend<T>(ws1: seq<T>, ws2: seq<T>, opsLeft: Option<nat>)
    ensures Performed(ws1 + ws2, opsLeft) ==
            Performed(ws1, opsLeft) + (if Completes(opsLeft, |ws1|) then Performed(ws2, CountdownBy(opsLeft, |ws1|)) else [])
    ensures CountdownBy(CountdownBy(opsLeft, |ws1|), |ws2|) == CountdownBy(opsLeft, |ws1| + |ws2|)
    ensures Completes(opsLeft, |ws1|) && Completes(CountdownBy(opsLeft, |ws1|), |ws2|) <==> Completes(opsLeft, |ws1| + |ws2|)
  {
    if opsLeft.Some? && opsLeft.value >= |ws1| && opsLeft.value < |ws1| + |ws2| {
      assert (ws1 + ws2)[..opsLeft.value] == ws1 + ws2[..opsLeft.value - |ws1|];
    }
  }

  /** Regrouping a log extended by three pieces. */
  lemma SeqAssoc<T>(s: seq<T>, a: seq<T>, b: seq<T>, c: seq<T>)
    ensures s + a + b + c == s + (a + b + c)
  {
  }

  /** Regrouping a log extended by four pieces; the last is dropped when empty. */
  lemma ExtendAssoc<T>(s: seq<T>, a: seq<T>, b: seq<T>, c: seq<T>, d: seq<T>)
    ensures s + a + b + c + d == s + (a + b + c + d)
    ensures d == [] ==> s + a + b + c + d == s + (a + b + c) && s + a + b + c + d == s + a + b + c
  {
  }

  /** Regrouping a log extended by two single events and then a piece. */
  lemma PairAssoc<T>(s: seq<T>, x: T, y: T, c: seq<T>)
    ensures s + [x] + [y] + c == s + [x, y] + c
  {
    assert s + [x] + [y] == s + [x, y];
  }

  /**
   * Writes `ws` attempted on a store with `opsLeft` operations left and all
   * performed, then one read and the writes `mw` attempted with `ok` saying
   * whether they completed: they completed exactly when the store had room
   * for all of them, and then every write reached it in order.
   */
  lemma ComposeWrites<T>(opsLeft: Option<nat>, ws: seq<T>, mw: seq<T>, w0: seq<T>, w1: seq<T>, w2: seq<T>,
                         opsMid: Option<nat>, ok: bool)
    requires Completes(opsLeft, |ws|) && w1 == w0 + Performed(ws, opsLeft) && opsMid == CountdownBy(opsLeft, |ws|)
    requires ok == Completes(opsMid, 1 + |mw|) && (ok ==> w2 == w1 + mw)
    ensures ok == Completes(opsLeft, |ws| + 1 + |mw|)
    ensures Completes(opsMid, 1) == Completes(opsLeft, |ws| + 1)
    ensures ok ==> w2 == w0 + ws + mw
  {
  }

  /**
   * `ReviewDb`: the writes sent to the review database, the stored patch
   * sets, and how many more operations succeed before the store throws an
   * OrmException (`None`: it never does).
   */
  class ReviewDb {
    var writes: seq<DbWrite>
    const patchSets: map<PatchSetId, PatchSet>
    var opsBeforeFailure: Option<nat>

    constructor (patchSets: map<PatchSetId, PatchSet>, opsBeforeFailure: Option<nat>)
      ensures writes == [] && this.patchSets == patchSets && this.opsBeforeFailure == opsBeforeFailure
    {
      this.writes := [];
      this.patchSets := patchSets;
      this.opsBeforeFailure := opsBeforeFailure;
    }

    /** One write, which either reaches the store or throws. */
    method Perform(w: DbWrite) returns (ok: bool)
      modifies this
      ensures ok == Completes(old(opsBeforeFailure), 1)
      ensures writes == old(writes) + Performed([w], old(opsBeforeFailure))
      ensures opsBeforeFailure == CountdownBy(old(opsBeforeFailure), 1)
    {
      ok := Completes(opsBeforeFailure, 1);
      if ok {
        writes := writes + [w];
      }
      opsBeforeFailure := CountdownBy(opsBeforeFailure, 1);
    }

    /** `patchSets().get(id)`: the stored patch set or null, unless the store throws. */
    method GetPatchSet(id: PatchSetId) returns (ok: bool, ps: Option<PatchSet>)
      modifies this`opsBeforeFailure
      ensures ok == Completes(old(opsBeforeFailure), 1)
      ensures ok ==> ps == (if id in patchSets then Some(patchSets[id]) else None)
      ensures opsBeforeFailure == CountdownBy(old(opsBeforeFailure), 1)
    {
      ok := Completes(opsBeforeFailure, 1);
      ps := if ok && id in patchSets then Some(patchSets[id]) else None;
      opsBeforeFailure := CountdownBy(opsBeforeFailure, 1);
    }
  }

  // ---------------------------------------------------------------------
  // The batch's shared state and contexts
  // ---------------------------------------------------------------------

  /** `MergeTip`: the branch tip shared by the changes of one submission, and the merge result of each commit. */
  class MergeTip {
    var currentTip: Option<ObjectId>
    var mergeResults: map<ObjectId, ObjectId>

    constructor (initialTip: Option<ObjectId>)
      ensures currentTip == initialTip && mergeResults == map[]
    {
      currentTip := initialTip;
      mergeResults := map[];
    }
  }

  /** `BatchUpdate.RepoContext`: the ref updates of the batch's ref transaction. */
  class RepoContext {
    var refUpdates: seq<ReceiveCommand>

    constructor ()
      ensures refUpdates == []
    {
      refUpdates := [];
    }

    /** `addRefUpdate`. */
    method AddRefUpdate(cmd: ReceiveCommand)
      modifies this
      ensures refUpdates == old(refUpdates) + [cmd]
    {
      refUpdates := refUpdates + [cmd];
    }
  }

  /** `Change`: the fields the submit operation reads and sets. */
  class Change {
    const id: ChangeId
    const dest: Branch
    const currentPatchSetId: PatchSetId
    var status: ChangeStatus
    var submissionId: Option<string>

    constructor (id: ChangeId, dest: Branch, currentPatchSetId: PatchSetId, status: ChangeStatus)
      ensures this.id == id && this.dest == dest && this.currentPatchSetId == currentPatchSetId
      ensures this.status == status && submissionId.None?
    {
      this.id := id;
      this.dest := dest;
      this.currentPatchSetId := currentPatchSetId;
      this.status := status;
      this.submissionId := None;
    }
  }

  /** A problem recorded against a change of the batch. */
  datatype Problem = Problem(change: ChangeId, message: string)

  /** The problem `updateChange` records when storing the change's new state failed. */
  function StatusUpdateProblem(id: ChangeId): (p: Problem)
    ensures p.change == id && p.message == "Error updating change status for " + id.ToString()
  {
    Problem(id, "Error updating change status for " + id.ToString())
  }

  /** `CommitStatus` (`args.commits`): the batch's commits, their submit records and the problems logged. */
  class CommitStatus {
    const commits: map<ChangeId, CodeReviewCommit>
    const submitRecords: ChangeId -> seq<SubmitRecord>
    var problems: seq<Problem>

    constructor (commits: map<ChangeId, CodeReviewCommit>, submitRecords: ChangeId -> seq<SubmitRecord>)
      ensures this.commits == commits && this.submitRecords == submitRecords && problems == []
    {
      this.commits := commits;
      this.submitRecords := submitRecords;
      this.problems := [];
    }

    /** `logProblem`. */
    method LogProblem(id: ChangeId, message: string)
      modifies this
      ensures problems == old(problems) + [Problem(id, message)]
    {
      problems := problems + [Problem(id, message)];
    }
  }

  /**
   * `BatchUpdate.ChangeContext`: the change, the database, the acting user
   * and time, the uuid the message generator yields (`None`: it throws), the
   * calls made on the change's note-database updates, and whether the change
   * was saved.
   */
  class ChangeContext {
    const change: Change
    const db: ReviewDb
    const user: AccountId
    const when: Timestamp
    const messageUuid: Option<string>
    var notes: seq<NoteEvent>
    var saved: bool

    constructor (change: Change, db: ReviewDb, user: AccountId, when: Timestamp, messageUuid: Option<string>)
      ensures this.change == change && this.db == db && this.user == user && this.when == when
      ensures this.messageUuid == messageUuid && notes == [] && !saved
    {
      this.change := change;
      this.db := db;
      this.user := user;
      this.when := when;
      this.messageUuid := messageUuid;
      this.notes := [];
      this.saved := false;
    }

    /** A call on `getUpdate(e.patchSetId)`. */
    method Record(e: NoteEvent)
      modifies this`notes
      ensures notes == old(notes) + [e]
    {
      notes := notes + [e];
    }

    /** `saveChange`. */
    method SaveChange()
      modifies this`saved
      ensures saved
    {
      saved := true;
    }
  }

  /** `BatchUpdate.Context` of the post-update phase: the effects run after both transactions committed. */
  class PostUpdateContext {
    var effects: seq<PostUpdateEffect>

    constructor ()
      ensures effects == []
    {
      effects := [];
    }

    method Run(e: PostUpdateEffect)
      modifies this
      ensures effects == old(effects) + [e]
    {
      effects := effects + [e];
    }
  }

  /**
   * `SubmitStrategy.Arguments`: the submission's caller and id, the shared
   * merge tip (may be null), the batch's commit status, and the
   * collaborators the operation calls: the stored approvals of a patch set,
   * the label normaliser, the account cache, whether a commit loads as a
   * project configuration, and the text of each merge status.
   */
  datatype Arguments = Arguments(
    caller: AccountId,
    submissionId: string,
    mergeTip: MergeTip?,
    commits: CommitStatus,
    approvalsByPatchSet: PatchSetId -> seq<PatchSetApproval>,
    normalize: map<ApprovalKey, PatchSetApproval> -> NormalizerResult,
    accountCache: AccountId -> Option<Account>,
    loadsAsConfig: (ProjectName, ObjectId) -> bool,
    statusMessage: CommitMergeStatus -> string)

  /** The commit `args.commits.get(id)` returns, or null. */
  function CommitOf(commits: map<ChangeId, CodeReviewCommit>, id: ChangeId): Option<CodeReviewCommit>
  {
    if id in commits then Some(commits[id]) else None
  }

  /** The merge result `mergeTip.getMergeResults().get(commit)` returns, or null. */
  function MergeResultOf(mergeResults: map<ObjectId, ObjectId>, commit: ObjectId): Option<ObjectId>
  {
    if commit in mergeResults then Some(mergeResults[commit]) else None
  }

  /** The patch set `db.patchSets().get(id)` returns, or null. */
  function PatchSetOf(patchSets: map<PatchSetId, PatchSet>, id: PatchSetId): Option<PatchSet>
  {
    if id in patchSets then Some(patchSets[id]) else None
  }

  /**
   * The message `updateChange` hands to `setMerged` for a commit with status
   * `s` submitted by `user`, or the error it raises: the body `MessageBody`
   * gives, with the submitter's name from the account cache, wrapped by
   * `Message` on the commit's patch set.
   */
  function MergedMessage(args: Arguments, commit: CodeReviewCommit, s: CommitMergeStatus, change: ChangeId,
                         user: AccountId, uuid: Option<string>, when: Timestamp)
    : (r: Result<Option<ChangeMessage>, SubmitError>)
    ensures r.Failure? <==> s.Unhandled?
    ensures r.Failure? ==> r.error == UnexpectedStatus(s, change)
    ensures r.Success? && r.value.None? <==> s == AlreadyMerged || (!s.Unhandled? && uuid.None?)
    ensures r.Success? && r.value.Some? ==>
              var body := MessageBody(s, change, args.statusMessage(s), commit.id.name, ByAccountName(args.accountCache(user)));
              && body.Success? && body.value.Some?
              && r.value == Message(uuid, when, commit.patchsetId, body.value.value)
              && r.value.value.message == body.value.value
              && r.value.value.patchSetId == commit.patchsetId
  {
    var body := MessageBody(s, change, args.statusMessage(s), commit.id.name, ByAccountName(args.accountCache(user)));
    if body.Failure? then Failure(body.error)
    else if body.value.None? then Success(None)
    else Success(Message(uuid, when, commit.patchsetId, body.value.value))
  }

  /** The note event and database write of `addChangeMessage` for an optional message. */
  function MessageNotes(msg: Option<ChangeMessage>): seq<NoteEvent>
  {
    if msg.Some? then [NoteEvent(msg.value.patchSetId, SetChangeMessage(msg.value.message))] else []
  }

  function MessageWrites(msg: Option<ChangeMessage>): seq<DbWrite>
  {
    if msg.Some? then [InsertMessage(msg.value)] else []
  }

  // ---------------------------------------------------------------------
  // The operation
  // ---------------------------------------------------------------------

  /** `SubmitStrategyOp`: the submit of one change within a batch. */
  class SubmitStrategyOp {
    const args: Arguments
    const toMerge: CodeReviewCommit

    var command: Option<ReceiveCommand>
    var submitter: Option<PatchSetApproval>
    var mergeResultRev: Option<ObjectId>
    var mergedPatchSet: Option<PatchSet>
    var updatedChange: Change?

    /** A merge result is only ever recorded once the submitter's approval exists. */
    ghost predicate Valid()
      reads this
    {
      mergeResultRev.Some? ==> submitter.Some?
    }

    constructor (args: Arguments, toMerge: CodeReviewCommit)
      ensures Valid()
      ensures this.args == args && this.toMerge == toMerge
      ensures command.None? && submitter.None? && mergeResultRev.None? && mergedPatchSet.None? && updatedChange == null
    {
      this.args := args;
      this.toMerge := toMerge;
      command := None;
      submitter := None;
      mergeResultRev := None;
      mergedPatchSet := None;
      updatedChange := null;
    }

    /**
     * `updateRepo`: run the strategy (which moves the merge tip to
     * `movedTip`), then stage the ref command `PlanRefUpdate` gives for the
     * tips before and after, or fail when it gives an invalid configuration.
     */
    method UpdateRepo(ctx: RepoContext, movedTip: Option<ObjectId>) returns (r: Outcome<SubmitError>)
      requires Valid()
      modifies this`command, ctx, args.mergeTip
      ensures Valid()
      ensures args.mergeTip == null ==>
                r == Fail(NullPointer) && command == old(command) && ctx.refUpdates == old(ctx.refUpdates)
      ensures args.mergeTip != null ==>
                var plan := PlanRefUpdate(toMerge.dest, old(args.mergeTip.currentTip), movedTip, args.loadsAsConfig);
                && args.mergeTip.currentTip == movedTip
                && args.mergeTip.mergeResults == old(args.mergeTip.mergeResults)
                && r == (if plan.Failure? then Fail(plan.error) else Pass)
                && (if plan.Success? && plan.value.Some? then
                      command == plan.value && ctx.refUpdates == old(ctx.refUpdates) + [plan.value.value]
                    else
                      command == old(command) && ctx.refUpdates == old(ctx.refUpdates))
    {
      if args.mergeTip == null {
        return Fail(NullPointer);
      }
      var tipBefore := args.mergeTip.currentTip;
      args.mergeTip.currentTip := movedTip;
      var tipAfter := args.mergeTip.currentTip;

      if tipBefore == tipAfter {
        return Pass;
      } else if tipAfter.None? {
        return Pass;
      }

      var check := CheckProjectConfig(toMerge.dest, tipAfter.value, args.loadsAsConfig);
      if check.Fail? {
        return check;
      }

      command := Some(ReceiveCommand(if tipBefore.Some? then tipBefore.value else ZeroId, tipAfter.value,
                                     toMerge.dest.refName));
      ctx.AddRefUpdate(command.value);
      return Pass;
    }

    /** The commit the batch holds for the change, or null. */
    function CommitFor(ctx: ChangeContext): Option<CodeReviewCommit>
    {
      CommitOf(args.commits.commits, ctx.change.id)
    }

    /** The merge status the batch recorded for the change. */
    function StatusFor(ctx: ChangeContext): Result<CommitMergeStatus, SubmitError>
    {
      StatusOf(CommitFor(ctx), ctx.change.id)
    }

    /** The normaliser's result for the original patch set's votes with the submitter's vote put over them. */
    function Normalized(ctx: ChangeContext): NormalizerResult
    {
      args.normalize(ApprovalMap(args.approvalsByPatchSet(toMerge.patchsetId),
                                 SubmitApproval(toMerge.patchsetId, ctx.user, ctx.when)))
    }

    /** The database writes of `setApproval` on this change. */
    function ApprovalWrites(ctx: ChangeContext): seq<DbWrite>
    {
      SetApprovalWrites(Normalized(ctx), toMerge.patchsetId, ctx.change.currentPatchSetId)
    }

    /** The note events of `setApproval` on this change for `caller`. */
    function ApprovalNotes(ctx: ChangeContext, caller: AccountId): seq<NoteEvent>
    {
      SetApprovalNotes(caller, ctx.user, args.commits.submitRecords(ctx.change.id), Normalized(ctx),
                       toMerge.patchsetId, ctx.change.currentPatchSetId)
    }

    /** The message `setMerged` is given for the change's merge status, or the illegal state. */
    function MessageFor(ctx: ChangeContext): Result<Option<ChangeMessage>, SubmitError>
      requires StatusFor(ctx).Success?
    {
      MergedMessage(args, CommitFor(ctx).value, StatusFor(ctx).value, ctx.change.id, ctx.user, ctx.messageUuid, ctx.when)
    }

    /**
     * `updateChange`: fail fast when the batch recorded no status for the
     * change; otherwise reconcile the approvals, read the merge result, and
     * mark the change merged with the message its status selects (an
     * unexpected status is an illegal state). A storage failure anywhere is
     * recorded as a problem of the change and the phase still succeeds.
     */
    method UpdateChange(ctx: ChangeContext) returns (r: Result<bool, SubmitError>)
      requires Valid()
      modifies this`submitter, this`mergeResultRev, this`mergedPatchSet, this`updatedChange
      modifies ctx, ctx.change, ctx.db, args.commits
      ensures Valid()
      ensures StatusFor(ctx).Failure? ==>
                r == Failure(StatusFor(ctx).error) && unchanged(this, ctx, ctx.change, ctx.db, args.commits)
      ensures StatusFor(ctx).Success? ==> submitter.Some? && submitter.value.key.accountId == ctx.user
      // The approvals could not be stored: a problem is logged and the change stays as it was.
      ensures StatusFor(ctx).Success? && !Completes(old(ctx.db.opsBeforeFailure), |ApprovalWrites(ctx)|) ==>
                && r == Success(true) && updatedChange == ctx.change
                && args.commits.problems == old(args.commits.problems) + [StatusUpdateProblem(ctx.change.id)]
                && ctx.change.status == old(ctx.change.status)
                && ctx.change.submissionId == old(ctx.change.submissionId)
                && mergeResultRev == old(mergeResultRev) && mergedPatchSet == old(mergedPatchSet)
                && ctx.db.writes == old(ctx.db.writes) + Performed(ApprovalWrites(ctx), old(ctx.db.opsBeforeFailure))
      ensures StatusFor(ctx).Success? && Completes(old(ctx.db.opsBeforeFailure), |ApprovalWrites(ctx)|) ==>
                mergeResultRev == (if args.mergeTip == null then None
                                   else MergeResultOf(args.mergeTip.mergeResults, CommitFor(ctx).value.id))
      // An unexpected merge status is an illegal state.
      ensures StatusFor(ctx).Success? && Completes(old(ctx.db.opsBeforeFailure), |ApprovalWrites(ctx)|)
              && MessageFor(ctx).Failure? ==>
                && r == Failure(MessageFor(ctx).error) && ctx.change.status == old(ctx.change.status)
                && args.commits.problems == old(args.commits.problems)
      ensures StatusFor(ctx).Success? && Completes(old(ctx.db.opsBeforeFailure), |ApprovalWrites(ctx)|)
              && MessageFor(ctx).Success? ==>
                r == Success(true) && updatedChange == ctx.change
      // The change was read back: it is merged, saved, and its notes hold the approvals and the message.
      ensures StatusFor(ctx).Success? && Completes(old(ctx.db.opsBeforeFailure), |ApprovalWrites(ctx)| + 1)
              && MessageFor(ctx).Success? ==>
                && ctx.change.status == Merged
                && ctx.change.submissionId == Some(args.submissionId) && ctx.saved
                && mergedPatchSet == PatchSetOf(ctx.db.patchSets, ctx.change.currentPatchSetId)
                && ctx.notes == old(ctx.notes) + ApprovalNotes(ctx, args.caller) + MessageNotes(MessageFor(ctx).value)
      // Every write reached the store: no problem is logged.
      ensures StatusFor(ctx).Success? && MessageFor(ctx).Success?
              && Completes(old(ctx.db.opsBeforeFailure), |ApprovalWrites(ctx)| + 1 + |MessageWrites(MessageFor(ctx).value)|) ==>
                && ctx.db.writes == old(ctx.db.writes) + ApprovalWrites(ctx) + MessageWrites(MessageFor(ctx).value)
                && args.commits.problems == old(args.commits.problems)
      // A later write failed: the problem is logged.
      ensures StatusFor(ctx).Success? && Completes(old(ctx.db.opsBeforeFailure), |ApprovalWrites(ctx)|)
              && MessageFor(ctx).Success?
              && !Completes(old(ctx.db.opsBeforeFailure), |ApprovalWrites(ctx)| + 1 + |MessageWrites(MessageFor(ctx).value)|) ==>
                args.commits.problems == old(args.commits.problems) + [StatusUpdateProblem(ctx.change.id)]
    {
      var c := ctx.change;
      var id := c.id;
      var commit := CommitOf(args.commits.commits, id);
      var status := StatusOf(commit, id);
      if status.Failure? {
        return Failure(status.error);
      }
      ghost var opsLeft := ctx.db.opsBeforeFailure;

      var ok := SetApproval(ctx, args.caller);
      if ok {
        ghost var writesAfterApproval, opsAfterApproval := ctx.db.writes, ctx.db.opsBeforeFailure;
        r, ok := MarkMerged(ctx);
        if r.Failure? {
          return r;
        }
        ComposeWrites(opsLeft, ApprovalWrites(ctx), MessageWrites(MessageFor(ctx).value),
                      old(ctx.db.writes), writesAfterApproval, ctx.db.writes, opsAfterApproval, ok);
      }
      if !ok {
        args.commits.LogProblem(id, StatusUpdateProblem(id).message);
      }
      updatedChange := c;
      return Success(true);
    }

    /**
     * The part of `updateChange` after the approvals were saved: read the
     * merge result, select the message for status `s` (an unexpected status
     * is an illegal state) and mark the change merged with it.
     */
    method MarkMerged(ctx: ChangeContext) returns (r: Result<bool, SubmitError>, ok: bool)
      requires StatusFor(ctx).Success?
      requires submitter.Some? && submitter.value.key.accountId == ctx.user
      modifies this`mergeResultRev, this`mergedPatchSet, ctx`notes, ctx`saved, ctx.change, ctx.db
      ensures mergeResultRev == (if args.mergeTip == null then None
                                 else MergeResultOf(args.mergeTip.mergeResults, CommitFor(ctx).value.id))
      ensures MessageFor(ctx).Failure? ==>
                && r == Failure(MessageFor(ctx).error) && !ok
                && ctx.change.status == old(ctx.change.status) && ctx.change.submissionId == old(ctx.change.submissionId)
                && ctx.db.writes == old(ctx.db.writes) && ctx.db.opsBeforeFailure == old(ctx.db.opsBeforeFailure)
                && ctx.notes == old(ctx.notes) && ctx.saved == old(ctx.saved) && mergedPatchSet == old(mergedPatchSet)
      // The patch-set read threw: the change, its notes and the store's writes stay as they were.
      ensures MessageFor(ctx).Success? && !Completes(old(ctx.db.opsBeforeFailure), 1) ==>
                && ctx.change.status == old(ctx.change.status) && ctx.change.submissionId == old(ctx.change.submissionId)
                && ctx.db.writes == old(ctx.db.writes)
                && ctx.notes == old(ctx.notes) && ctx.saved == old(ctx.saved) && mergedPatchSet == old(mergedPatchSet)
      ensures MessageFor(ctx).Success? ==>
                && r == Success(true)
                && ok == Completes(old(ctx.db.opsBeforeFailure), 1 + |MessageWrites(MessageFor(ctx).value)|)
                && (ok ==> ctx.db.writes == old(ctx.db.writes) + MessageWrites(MessageFor(ctx).value))
      ensures MessageFor(ctx).Success? && Completes(old(ctx.db.opsBeforeFailure), 1) ==>
                && ctx.change.status == Merged
                && ctx.change.submissionId == Some(args.submissionId) && ctx.saved
                && mergedPatchSet == PatchSetOf(ctx.db.patchSets, ctx.change.currentPatchSetId)
                && ctx.notes == old(ctx.notes) + MessageNotes(MessageFor(ctx).value)
    {
      var commit := CommitFor(ctx).value;
      mergeResultRev := if args.mergeTip != null then MergeResultOf(args.mergeTip.mergeResults, commit.id) else None;
      // The message text by status, CLEAN_MERGE / CLEAN_REBASE / CLEAN_PICK / ALREADY_MERGED, else illegal.
      var chosen := MergedMessage(args, commit, StatusFor(ctx).value, ctx.change.id, submitter.value.key.accountId,
                                  ctx.messageUuid, ctx.when);
      if chosen.Failure? {
        return Failure(chosen.error), false;
      }
      ok := SetMerged(ctx, chosen.value);
      r := Success(true);
    }

    /**
     * `postUpdate`: refresh the fast-forward cache when a command was staged
     * (and the project configuration when it was for the configuration ref),
     * and run the change-merged hook when there is a merge result.
     */
    method PostUpdate(ctx: PostUpdateContext)
      requires Valid()
      modifies ctx
      ensures ctx.effects == old(ctx.effects)
                             + PostUpdateEffects(command, toMerge.dest, mergeResultRev,
                                                 if updatedChange == null then None else Some(updatedChange.id),
                                                 if submitter.Some? then args.accountCache(submitter.value.key.accountId) else None,
                                                 mergedPatchSet)
    {
      if command.Some? {
        ctx.Run(UpdateFastForward(toMerge.dest.project, command.value.refName, command.value.oldId, command.value.newId));
        if toMerge.dest.refName == RefsConfig {
          ctx.Run(ReloadProjectConfig(toMerge.dest.project));
        }
      }
      if mergeResultRev.Some? {
        ctx.Run(ChangeMergedHook(if updatedChange == null then None else Some(updatedChange.id),
                                 args.accountCache(submitter.value.key.accountId), mergedPatchSet,
                                 mergeResultRev.value.name));
      }
    }

    /**
     * The three phases in the order the batch runs them, post-update only
     * after both others succeeded: the command `updateRepo` snapshots is the
     * one the fast-forward refresh of `postUpdate` is given, with the tips
     * before and after the strategy ran.
     */
    method RunPhases(repo: RepoContext, movedTip: Option<ObjectId>, ctx: ChangeContext, post: PostUpdateContext)
      returns (repoOutcome: Outcome<SubmitError>, changeOutcome: Result<bool, SubmitError>)
      requires Valid()
      modifies this, repo, args.mergeTip, ctx, ctx.change, ctx.db, args.commits, post
      ensures Valid()
      ensures repoOutcome.Fail? || changeOutcome.Failure? ==> post.effects == old(post.effects)
      ensures args.mergeTip != null && repoOutcome.Pass? && changeOutcome.Success? ==>
                var plan := PlanRefUpdate(toMerge.dest, old(args.mergeTip.currentTip), movedTip, args.loadsAsConfig);
                plan.Success? && plan.value.Some? ==>
                  && |post.effects| > |old(post.effects)|
                  && post.effects[|old(post.effects)|]
                     == UpdateFastForward(toMerge.dest.project, toMerge.dest.refName,
                                          if old(args.mergeTip.currentTip).Some? then old(args.mergeTip.currentTip).value else ZeroId,
                                          movedTip.value)
    {
      changeOutcome := Success(false);
      repoOutcome := UpdateRepo(repo, movedTip);
      if repoOutcome.Fail? {
        return;
      }
      changeOutcome := UpdateChange(ctx);
      if changeOutcome.Failure? {
        return;
      }
      PostUpdate(post);
    }

    /**
     * `approve`: key the stored votes of the patch set, put the submitter's
     * SUBMIT=1 vote over them, normalise the map, record the submit vote on
     * the update and save the normaliser's result without the unchanged
     * non-submit votes.
     */
    method Approve(ctx: ChangeContext, psId: PatchSetId) returns (ok: bool, normalized: NormalizerResult)
      modifies this`submitter, ctx`notes, ctx.db
      ensures submitter == Some(SubmitApproval(psId, ctx.user, ctx.when))
      ensures normalized == args.normalize(ApprovalMap(args.approvalsByPatchSet(psId), submitter.value))
      ensures ok == Completes(old(ctx.db.opsBeforeFailure), 2)
      ensures ctx.db.writes == old(ctx.db.writes)
                               + Performed(SaveApprovalsWrites(normalized, psId), old(ctx.db.opsBeforeFailure))
      ensures ctx.db.opsBeforeFailure == CountdownBy(old(ctx.db.opsBeforeFailure), 2)
      ensures ctx.notes == old(ctx.notes) + [NoteEvent(psId, PutApproval(ctx.user, Submit, 1))]
                           + (if ok then SaveApprovalsNotes(psId, normalized, false) else [])
    {
      var stored := args.approvalsByPatchSet(psId);
      var byKey: map<ApprovalKey, PatchSetApproval> := map[];
      var i := 0;
      while i < |stored|
        invariant 0 <= i <= |stored|
        invariant byKey == Keyed(stored[..i])
      {
        assert stored[..i + 1][..i] == stored[..i];
        byKey := byKey[stored[i].key := stored[i]];
        i := i + 1;
      }
      assert stored[..i] == stored;

      var sub := SubmitApproval(psId, ctx.user, ctx.when);
      submitter := Some(sub);
      byKey := byKey[sub.key := sub];

      normalized := args.normalize(byKey);
      ctx.Record(NoteEvent(psId, PutApproval(ctx.user, sub.key.labelId, sub.value)));
      ok := SaveApprovals(normalized, ctx, psId, false);
    }

    /**
     * `setApproval`: add the caller as reviewer of the original patch set,
     * approve it, merge the submit records into the current patch set's
     * update and, when the strategy created a new patch set, save the votes
     * there too and move the submitter's vote onto it.
     */
    method SetApproval(ctx: ChangeContext, user: AccountId) returns (ok: bool)
      modifies this`submitter, ctx`notes, ctx.db
      ensures ok == Completes(old(ctx.db.opsBeforeFailure), |ApprovalWrites(ctx)|)
      ensures ctx.db.writes == old(ctx.db.writes) + Performed(ApprovalWrites(ctx), old(ctx.db.opsBeforeFailure))
      ensures ctx.db.opsBeforeFailure == CountdownBy(old(ctx.db.opsBeforeFailure), |ApprovalWrites(ctx)|)
      ensures ok ==> ctx.notes == old(ctx.notes) + ApprovalNotes(ctx, user)
      // A store failure keeps the events recorded before it.
      ensures !Completes(old(ctx.db.opsBeforeFailure), 2) ==>
                ctx.notes == old(ctx.notes) + ReviewerAndSubmit(user, ctx.user, toMerge.patchsetId)
      ensures !ok && Completes(old(ctx.db.opsBeforeFailure), 2) ==>
                ctx.notes == old(ctx.notes) + ReviewerAndSubmit(user, ctx.user, toMerge.patchsetId)
                             + SaveApprovalsNotes(toMerge.patchsetId, Normalized(ctx), false)
                             + [NoteEvent(ctx.change.currentPatchSetId, MergeSubmitRecords(args.commits.submitRecords(ctx.change.id)))]
      ensures var sub := SubmitApproval(toMerge.patchsetId, ctx.user, ctx.when);
              var newPsId := ctx.change.currentPatchSetId;
              submitter == Some(if ok && newPsId != toMerge.patchsetId then ConvertPatchSet(newPsId, sub) else sub)
    {
      var records := args.commits.submitRecords(ctx.change.id);
      var oldPsId := toMerge.patchsetId;
      var newPsId := ctx.change.currentPatchSetId;
      ghost var opsLeft := ctx.db.opsBeforeFailure;

      var normalized;
      ok, normalized := ReviewAndApprove(ctx, user, oldPsId);
      ghost var w1 := SaveApprovalsWrites(normalized, oldPsId);
      ghost var w2 := if newPsId != oldPsId then SaveApprovalsWrites(normalized, newPsId) else [];
      assert |w1| == 2 && |w2| == (if newPsId != oldPsId then 2 else 0);
      PerformedAppend(w1, w2, opsLeft);
      if !ok {
        return;
      }
      ok := MergeRecords(normalized, ctx, records, oldPsId, newPsId);
      ghost var head := ReviewerAndSubmit(user, ctx.user, oldPsId);
      ghost var merge := [NoteEvent(newPsId, MergeSubmitRecords(records))];
      ghost var moved := if ok && newPsId != oldPsId then SaveApprovalsNotes(newPsId, normalized, true) else [];
      ExtendAssoc(old(ctx.notes), head, SaveApprovalsNotes(oldPsId, normalized, false), merge, moved);
    }

    /** The part of `setApproval` on the original patch set: add the caller as reviewer, then approve. */
    method ReviewAndApprove(ctx: ChangeContext, user: AccountId, psId: PatchSetId)
      returns (ok: bool, normalized: NormalizerResult)
      modifies this`submitter, ctx`notes, ctx.db
      ensures submitter == Some(SubmitApproval(psId, ctx.user, ctx.when))
      ensures normalized == args.normalize(ApprovalMap(args.approvalsByPatchSet(psId), submitter.value))
      ensures ok == Completes(old(ctx.db.opsBeforeFailure), 2)
      ensures ctx.db.writes == old(ctx.db.writes)
                               + Performed(SaveApprovalsWrites(normalized, psId), old(ctx.db.opsBeforeFailure))
      ensures ctx.db.opsBeforeFailure == CountdownBy(old(ctx.db.opsBeforeFailure), 2)
      ensures ctx.notes == old(ctx.notes) + ReviewerAndSubmit(user, ctx.user, psId)
                                          + (if ok then SaveApprovalsNotes(psId, normalized, false) else [])
    {
      ghost var notes0 := ctx.notes;
      ctx.Record(NoteEvent(psId, PutReviewer(user, Reviewer)));
      ok, normalized := Approve(ctx, psId);
      PairAssoc(notes0, NoteEvent(psId, PutReviewer(user, Reviewer)), NoteEvent(psId, PutApproval(ctx.user, Submit, 1)),
                if ok then SaveApprovalsNotes(psId, normalized, false) else []);
    }

    /**
     * The part of `setApproval` after the approval: merge the submit records
     * into the current patch set's update and, for a new patch set, move the
     * votes there.
     */
    method MergeRecords(n: NormalizerResult, ctx: ChangeContext, records: seq<SubmitRecord>,
                        oldPsId: PatchSetId, newPsId: PatchSetId) returns (ok: bool)
      requires submitter.Some?
      modifies this`submitter, ctx`notes, ctx.db
      ensures ok == (newPsId == oldPsId || Completes(old(ctx.db.opsBeforeFailure), 2))
      ensures newPsId == oldPsId ==> ctx.db.writes == old(ctx.db.writes) && ctx.db.opsBeforeFailure == old(ctx.db.opsBeforeFailure)
      ensures newPsId != oldPsId ==>
                && ctx.db.writes == old(ctx.db.writes) + Performed(SaveApprovalsWrites(n, newPsId), old(ctx.db.opsBeforeFailure))
                && ctx.db.opsBeforeFailure == CountdownBy(old(ctx.db.opsBeforeFailure), 2)
      ensures ctx.notes == old(ctx.notes) + [NoteEvent(newPsId, MergeSubmitRecords(records))]
                                          + (if ok && newPsId != oldPsId then SaveApprovalsNotes(newPsId, n, true) else [])
      ensures submitter == Some(if ok && newPsId != oldPsId then ConvertPatchSet(newPsId, old(submitter.value))
                                else old(submitter.value))
    {
      ctx.Record(NoteEvent(newPsId, MergeSubmitRecords(records)));
      ok := true;
      if newPsId != oldPsId {
        ok := MoveToPatchSet(n, ctx, newPsId);
      }
    }

    /** The new-patch-set branch of `setApproval`: save every vote there and move the submitter's vote onto it. */
    method MoveToPatchSet(n: NormalizerResult, ctx: ChangeContext, psId: PatchSetId) returns (ok: bool)
      requires submitter.Some?
      modifies this`submitter, ctx`notes, ctx.db
      ensures ok == Completes(old(ctx.db.opsBeforeFailure), 2)
      ensures ctx.db.writes == old(ctx.db.writes) + Performed(SaveApprovalsWrites(n, psId), old(ctx.db.opsBeforeFailure))
      ensures ctx.db.opsBeforeFailure == CountdownBy(old(ctx.db.opsBeforeFailure), 2)
      ensures ctx.notes == old(ctx.notes) + (if ok then SaveApprovalsNotes(psId, n, true) else [])
      ensures submitter == Some(if ok then ConvertPatchSet(psId, old(submitter.value)) else old(submitter.value))
    {
      ok := SaveApprovals(n, ctx, psId, true);
      if ok {
        submitter := Some(ConvertPatchSet(psId, submitter.value));
      }
    }

    /**
     * `setMerged`: read the current patch set, mark the change merged with
     * the submission id and save it, then add the message when there is one.
     * When the store fails on the read nothing changes.
     */
    method SetMerged(ctx: ChangeContext, msg: Option<ChangeMessage>) returns (ok: bool)
      modifies this`mergedPatchSet, ctx`notes, ctx`saved, ctx.change, ctx.db
      ensures ok == Completes(old(ctx.db.opsBeforeFailure), 1 + |MessageWrites(msg)|)
      ensures ctx.db.opsBeforeFailure == CountdownBy(old(ctx.db.opsBeforeFailure), 1 + |MessageWrites(msg)|)
      ensures !Completes(old(ctx.db.opsBeforeFailure), 1) ==>
                && mergedPatchSet == old(mergedPatchSet) && ctx.saved == old(ctx.saved)
                && ctx.change.status == old(ctx.change.status) && ctx.change.submissionId == old(ctx.change.submissionId)
                && ctx.notes == old(ctx.notes) && ctx.db.writes == old(ctx.db.writes)
      ensures Completes(old(ctx.db.opsBeforeFailure), 1) ==>
                && mergedPatchSet == PatchSetOf(ctx.db.patchSets, ctx.change.currentPatchSetId) && ctx.saved
                && ctx.change.status == Merged && ctx.change.submissionId == Some(args.submissionId)
                && ctx.notes == old(ctx.notes) + MessageNotes(msg)
                && ctx.db.writes == old(ctx.db.writes)
                                    + Performed(MessageWrites(msg), CountdownBy(old(ctx.db.opsBeforeFailure), 1))
    {
      var got, ps := ctx.db.GetPatchSet(ctx.change.currentPatchSetId);
      if !got {
        return false;
      }
      mergedPatchSet := ps;
      ctx.change.status := Merged;
      ctx.change.submissionId := Some(args.submissionId);
      ctx.SaveChange();

      ok := true;
      if msg.Some? {
        ctx.Record(NoteEvent(msg.value.patchSetId, SetChangeMessage(msg.value.message)));
        ok := ctx.db.Perform(InsertMessage(msg.value));
      }
    }

    /**
     * `saveApprovals`: upsert the normalised and delete the deleted votes,
     * moved onto the patch set, then record the updated, deleted and kept
     * unchanged votes on its update. A store failure stops it where it
     * happens.
     */
    method SaveApprovals(n: NormalizerResult, ctx: ChangeContext, psId: PatchSetId, includeUnchanged: bool)
      returns (ok: bool)
      modifies ctx`notes, ctx.db
      ensures ok == Completes(old(ctx.db.opsBeforeFailure), 2)
      ensures ctx.db.writes == old(ctx.db.writes) + Performed(SaveApprovalsWrites(n, psId), old(ctx.db.opsBeforeFailure))
      ensures ctx.db.opsBeforeFailure == CountdownBy(old(ctx.db.opsBeforeFailure), 2)
      ensures ctx.notes == old(ctx.notes) + (if ok then SaveApprovalsNotes(psId, n, includeUnchanged) else [])
    {
      var ws := SaveApprovalsWrites(n, psId);
      PerformedAppend([ws[0]], [ws[1]], ctx.db.opsBeforeFailure);
      assert ws == [ws[0]] + [ws[1]];
      ok := ctx.db.Perform(Upsert(ConvertAll(n.normalized, psId)));
      if !ok {
        return;
      }
      ok := ctx.db.Perform(Delete(ConvertAll(n.deleted, psId)));
      if !ok {
        return;
      }

      RecordSavedApprovals(n, ctx, psId, includeUnchanged);
    }

    /** The three loops of `saveApprovals` over the updated, deleted and unchanged votes. */
    method RecordSavedApprovals(n: NormalizerResult, ctx: ChangeContext, psId: PatchSetId, includeUnchanged: bool)
      modifies ctx`notes
      ensures ctx.notes == old(ctx.notes) + SaveApprovalsNotes(psId, n, includeUnchanged)
    {
      RecordPuts(ctx, psId, n.updated);
      RecordRemoves(ctx, psId, n.deleted);
      RecordUnchanged(ctx, psId, n.unchangedApprovals, includeUnchanged);
      SeqAssoc(old(ctx.notes), PutsFor(psId, n.updated), RemovesFor(psId, n.deleted),
               UnchangedPuts(psId, n.unchangedApprovals, includeUnchanged));
    }

    /** The loop over the updated votes: put each on the update. */
    method RecordPuts(ctx: ChangeContext, psId: PatchSetId, approvals: seq<PatchSetApproval>)
      modifies ctx`notes
      ensures ctx.notes == old(ctx.notes) + PutsFor(psId, approvals)
    {
      var i := 0;
      while i < |approvals|
        invariant 0 <= i <= |approvals|
        invariant ctx.notes == old(ctx.notes) + PutsFor(psId, approvals[..i])
        modifies ctx`notes
      {
        assert approvals[..i + 1][..i] == approvals[..i];
        ctx.Record(PutFor(psId, approvals[i]));
        i := i + 1;
      }
      assert approvals[..i] == approvals;
    }

    /** The loop over the deleted votes: remove each from the update. */
    method RecordRemoves(ctx: ChangeContext, psId: PatchSetId, approvals: seq<PatchSetApproval>)
      modifies ctx`notes
      ensures ctx.notes == old(ctx.notes) + RemovesFor(psId, approvals)
    {
      var j := 0;
      while j < |approvals|
        invariant 0 <= j <= |approvals|
        invariant ctx.notes == old(ctx.notes) + RemovesFor(psId, approvals[..j])
        modifies ctx`notes
      {
        assert approvals[..j + 1][..j] == approvals[..j];
        ctx.Record(RemoveFor(psId, approvals[j]));
        j := j + 1;
      }
      assert approvals[..j] == approvals;
    }

    /** The loop over the unchanged votes: put the submit votes, or all when unchanged ones are included. */
    method RecordUnchanged(ctx: ChangeContext, psId: PatchSetId, approvals: seq<PatchSetApproval>, includeUnchanged: bool)
      modifies ctx`notes
      ensures ctx.notes == old(ctx.notes) + UnchangedPuts(psId, approvals, includeUnchanged)
    {
      var k := 0;
      while k < |approvals|
        invariant 0 <= k <= |approvals|
        invariant ctx.notes == old(ctx.notes) + UnchangedPuts(psId, approvals[..k], includeUnchanged)
        modifies ctx`notes
      {
        assert approvals[..k + 1][..k] == approvals[..k];
        var psa := approvals[k];
        if includeUnchanged || psa.IsSubmit() {
          ctx.Record(PutFor(psId, psa));
        }
        k := k + 1;
      }
      assert approvals[..k] == approvals;
    }
  }
}
