/**
 * The decisions of Gerrit's per-change submit operation (SubmitStrategyOp),
 * stated as functions of their inputs: which ref update is staged, which
 * votes are written and recorded, which history message is produced and
 * which post-update effects run. The methods of module SubmitStrategyOp
 * are proved to perform exactly these.
 */
module SubmitPlan {
  import opened Wrappers
  import opened ReviewDbClient

  /** `CommitMergeStatus`, with every status the operation does not handle folded into one. */
  datatype CommitMergeStatus = CleanMerge | CleanRebase | CleanPick | AlreadyMerged | Unhandled(name: string)

  /** `CodeReviewCommit`: a commit being merged, with its change and the strategy's verdict. */
  datatype CodeReviewCommit = CodeReviewCommit(
    id: ObjectId,
    changeId: ChangeId,
    dest: Branch,
    patchsetId: PatchSetId,
    statusCode: Option<CommitMergeStatus>)

  /** `SubmitRecord`, passed from the batch to the new patch set's update untouched. */
  datatype SubmitRecord = SubmitRecord(status: string)

  /** The exceptions that leave the operation (an OrmException never does). */
  datatype SubmitError =
    | InvalidProjectConfig(commit: ObjectId, project: ProjectName)  // IntegrationException
    | StatusNotSet(change: ChangeId)                                // failed checkState
    | UnexpectedStatus(status: CommitMergeStatus, change: ChangeId) // IllegalStateException
    | NullPointer                                                   // NullPointerException

  // ---------------------------------------------------------------------
  // updateRepo: the ref update staged for the merge tip's movement
  // ---------------------------------------------------------------------

  /**
   * `checkProjectConfig`: a commit for the configuration ref must load as a
   * project configuration; other refs are not checked.
   */
  function CheckProjectConfig(dest: Branch, commit: ObjectId, loadsAsConfig: (ProjectName, ObjectId) -> bool)
    : (r: Outcome<SubmitError>)
    ensures r.Fail? <==> dest.refName == RefsConfig && !loadsAsConfig(dest.project, commit)
    ensures r.Fail? ==> r.error == InvalidProjectConfig(commit, dest.project)
  {
    if dest.refName == RefsConfig && !loadsAsConfig(dest.project, commit) then
      Fail(InvalidProjectConfig(commit, dest.project))
    else
      Pass
  }

  /**
   * The ref command `updateRepo` stages for tips observed before and after
   * the strategy ran: none when the tip did not move or vanished, the
   * configuration error when the new tip is an invalid configuration, and
   * otherwise one compare-and-swap from the old tip (or the zero id) to the
   * new one on the destination ref.
   */
  function PlanRefUpdate(dest: Branch, tipBefore: Option<ObjectId>, tipAfter: Option<ObjectId>,
                         loadsAsConfig: (ProjectName, ObjectId) -> bool)
    : (r: Result<Option<ReceiveCommand>, SubmitError>)
    ensures r == Success(None) <==> tipBefore == tipAfter || tipAfter.None?
    ensures r.Failure? <==> tipBefore != tipAfter && tipAfter.Some?
                            && dest.refName == RefsConfig && !loadsAsConfig(dest.project, tipAfter.value)
    ensures r.Failure? ==> r.error == InvalidProjectConfig(tipAfter.value, dest.project)
    ensures r.Success? && r.value.Some? ==>
              && tipAfter.Some? && tipBefore != tipAfter
              && r.value.value.oldId == (if tipBefore.Some? then tipBefore.value else ZeroId)
              && r.value.value.newId == tipAfter.value
              && r.value.value.refName == dest.refName
    ensures r.Success? && r.value.Some? && dest.refName == RefsConfig ==>
              loadsAsConfig(dest.project, r.value.value.newId)
  {
    if tipBefore == tipAfter || tipAfter.None? then
      Success(None)
    else
      match CheckProjectConfig(dest, tipAfter.value, loadsAsConfig)
      case Fail(e) => Failure(e)
      case Pass =>
        Success(Some(ReceiveCommand(if tipBefore.Some? then tipBefore.value else ZeroId, tipAfter.value, dest.refName)))
  }

  // ---------------------------------------------------------------------
  // Approvals: re-keying, the keyed approval map, the normaliser's result
  // ---------------------------------------------------------------------

  /**
   * `convertPatchSet(psId).apply`: the approval itself when it is already on
   * the patch set, otherwise a copy moved onto it that keeps account, label,
   * value, grant time and tag.
   */
  function ConvertPatchSet(psId: PatchSetId, a: PatchSetApproval): (r: PatchSetApproval)
    ensures r.key == ApprovalKey(psId, a.key.accountId, a.key.labelId)
    ensures r.value == a.value && r.granted == a.granted && r.tag == a.tag
    ensures a.key.patchSetId == psId ==> r == a
  {
    if a.key.patchSetId == psId then a
    else a.(key := a.key.(patchSetId := psId))
  }

  /** Re-keying is idempotent: converting twice is converting once. */
  lemma ConvertPatchSetIdempotent(psId: PatchSetId, a: PatchSetApproval)
    ensures ConvertPatchSet(psId, ConvertPatchSet(psId, a)) == ConvertPatchSet(psId, a)
  {
  }

  /** `convertPatchSet(approvals, psId)`: `Iterables.transform` with the re-keying function. */
  function ConvertAll(approvals: seq<PatchSetApproval>, psId: PatchSetId): (r: seq<PatchSetApproval>)
    ensures |r| == |approvals|
    ensures forall i :: 0 <= i < |approvals| ==> r[i] == ConvertPatchSet(psId, approvals[i])
  {
    if approvals == [] then []
    else ConvertAll(approvals[..|approvals| - 1], psId) + [ConvertPatchSet(psId, approvals[|approvals| - 1])]
  }

  /**
   * The copies written for a new patch set: every approval has exactly one
   * copy, in the same place, on the new patch set with the same account,
   * label, value and grant time, and there is nothing else.
   */
  lemma {:induction false} ConvertAllCopiesOnto(approvals: seq<PatchSetApproval>, psId: PatchSetId)
    ensures |ConvertAll(approvals, psId)| == |approvals|
    ensures forall b :: b in ConvertAll(approvals, psId) <==>
              exists a :: a in approvals && b == ConvertPatchSet(psId, a)
    ensures forall b :: b in ConvertAll(approvals, psId) ==> b.key.patchSetId == psId
  {
    if approvals != [] {
      var init := approvals[..|approvals| - 1];
      ConvertAllCopiesOnto(init, psId);
      assert approvals == init + [approvals[|approvals| - 1]];
    }
  }

  /**
   * The map `approve` fills from the stored approvals with `byKey.put`: a
   * later approval with the same key replaces an earlier one.
   */
  function Keyed(approvals: seq<PatchSetApproval>): map<ApprovalKey, PatchSetApproval>
  {
    if approvals == [] then map[]
    else
      var last := approvals[|approvals| - 1];
      Keyed(approvals[..|approvals| - 1])[last.key := last]
  }

  /** The keys of the filled map are exactly the keys of the stored approvals, each under its own key. */
  lemma {:induction false} KeyedDomain(approvals: seq<PatchSetApproval>, k: ApprovalKey)
    ensures k in Keyed(approvals) <==> exists i :: 0 <= i < |approvals| && approvals[i].key == k
    ensures k in Keyed(approvals) ==> Keyed(approvals)[k].key == k && Keyed(approvals)[k] in approvals
  {
    if approvals != [] {
      var init := approvals[..|approvals| - 1];
      KeyedDomain(init, k);
      if k in Keyed(init) {
        var i :| 0 <= i < |init| && init[i].key == k;
        assert approvals[i].key == k;
      }
      assert forall i :: 0 <= i < |init| ==> approvals[i] == init[i];
    }
  }

  /** Under each key the filled map holds the last stored approval with that key. */
  lemma {:induction false} KeyedLastWins(approvals: seq<PatchSetApproval>, i: nat)
    requires i < |approvals|
    requires forall j :: i < j < |approvals| ==> approvals[j].key != approvals[i].key
    ensures approvals[i].key in Keyed(approvals) && Keyed(approvals)[approvals[i].key] == approvals[i]
  {
    if i < |approvals| - 1 {
      var init := approvals[..|approvals| - 1];
      KeyedLastWins(init, i);
    }
  }

  /** The synthetic SUBMIT=1 approval `approve` creates for the user on the patch set. */
  function SubmitApproval(psId: PatchSetId, user: AccountId, when: Timestamp): (r: PatchSetApproval)
    ensures r.key.patchSetId == psId && r.key.accountId == user && r.IsSubmit()
    ensures r.value == 1 && r.granted == when
  {
    PatchSetApproval(ApprovalKey(psId, user, Submit), 1, when, None)
  }

  /**
   * The map handed to the normaliser: the stored approvals by key, with the
   * submitter's approval put last so that it replaces any stored vote with
   * its key and leaves every other key as stored.
   */
  function ApprovalMap(stored: seq<PatchSetApproval>, submitter: PatchSetApproval)
    : (m: map<ApprovalKey, PatchSetApproval>)
    ensures submitter.key in m && m[submitter.key] == submitter
    ensures forall k :: k != submitter.key ==>
              (k in m <==> k in Keyed(stored)) && (k in m ==> m[k] == Keyed(stored)[k])
  {
    Keyed(stored)[submitter.key := submitter]
  }

  /** `LabelNormalizer.Result`: the approvals split by what normalisation did to them. */
  datatype NormalizerResult = NormalizerResult(
    normalized: seq<PatchSetApproval>,
    updated: seq<PatchSetApproval>,
    deleted: seq<PatchSetApproval>,
    unchangedApprovals: seq<PatchSetApproval>)  // `unchanged()`

  // ---------------------------------------------------------------------
  // saveApprovals: database writes and note-database events
  // ---------------------------------------------------------------------

  /** A write to the review database. */
  datatype DbWrite =
    | Upsert(approvals: seq<PatchSetApproval>)
    | Delete(approvals: seq<PatchSetApproval>)
    | InsertMessage(message: ChangeMessage)

  /** `ReviewerStateInternal`. */
  datatype ReviewerState = Reviewer | Cc | Removed

  /** One call on a `ChangeUpdate` of the note database. */
  datatype NoteOp =
    | PutReviewer(account: AccountId, state: ReviewerState)
    | PutApproval(account: AccountId, labelId: LabelId, value: int16)
    | RemoveApproval(account: AccountId, labelId: LabelId)
    | MergeSubmitRecords(records: seq<SubmitRecord>)
    | SetChangeMessage(message: string)

  /** A call on the `ChangeUpdate` of one patch set. */
  datatype NoteEvent = NoteEvent(patchSetId: PatchSetId, op: NoteOp)

  /** `update.putApprovalFor(psa.getAccountId(), psa.getLabel(), psa.getValue())`. */
  function PutFor(psId: PatchSetId, a: PatchSetApproval): NoteEvent
  {
    NoteEvent(psId, PutApproval(a.key.accountId, a.key.labelId, a.value))
  }

  /** `update.removeApprovalFor(psa.getAccountId(), psa.getLabel())`. */
  function RemoveFor(psId: PatchSetId, a: PatchSetApproval): NoteEvent
  {
    NoteEvent(psId, RemoveApproval(a.key.accountId, a.key.labelId))
  }

  /** The loop over `updated`: one put per approval, in order. */
  function PutsFor(psId: PatchSetId, approvals: seq<PatchSetApproval>): (r: seq<NoteEvent>)
    ensures |r| == |approvals|
    ensures forall i :: 0 <= i < |approvals| ==> r[i] == PutFor(psId, approvals[i])
  {
    if approvals == [] then []
    else PutsFor(psId, approvals[..|approvals| - 1]) + [PutFor(psId, approvals[|approvals| - 1])]
  }

  /** The loop over `deleted`: one removal per approval, in order. */
  function RemovesFor(psId: PatchSetId, approvals: seq<PatchSetApproval>): (r: seq<NoteEvent>)
    ensures |r| == |approvals|
    ensures forall i :: 0 <= i < |approvals| ==> r[i] == RemoveFor(psId, approvals[i])
  {
    if approvals == [] then []
    else RemovesFor(psId, approvals[..|approvals| - 1]) + [RemoveFor(psId, approvals[|approvals| - 1])]
  }

  /** The loop over `unchanged`: a put for the approvals that are submit votes or when unchanged ones are included. */
  function UnchangedPuts(psId: PatchSetId, approvals: seq<PatchSetApproval>, includeUnchanged: bool)
    : (r: seq<NoteEvent>)
    ensures |r| <= |approvals|
    ensures includeUnchanged ==> |r| == |approvals|
    ensures forall i :: 0 <= i < |r| ==> r[i].patchSetId == psId && r[i].op.PutApproval?
  {
    if approvals == [] then []
    else
      var last := approvals[|approvals| - 1];
      UnchangedPuts(psId, approvals[..|approvals| - 1], includeUnchanged)
        + (if includeUnchanged || last.IsSubmit() then [PutFor(psId, last)] else [])
  }

  /**
   * An unchanged approval is recorded exactly when unchanged approvals are
   * included or it is a submit vote; every recorded put comes from such an
   * approval.
   */
  lemma {:induction false} UnchangedPutsExactly(psId: PatchSetId, approvals: seq<PatchSetApproval>,
                                                includeUnchanged: bool)
    ensures forall a :: a in approvals ==>
              (PutFor(psId, a) in UnchangedPuts(psId, approvals, includeUnchanged)
               <==> includeUnchanged || a.IsSubmit())
    ensures forall e :: e in UnchangedPuts(psId, approvals, includeUnchanged) ==>
              exists a :: a in approvals && (includeUnchanged || a.IsSubmit()) && e == PutFor(psId, a)
  {
    if approvals != [] {
      var init := approvals[..|approvals| - 1];
      var last := approvals[|approvals| - 1];
      UnchangedPutsExactly(psId, init, includeUnchanged);
      assert approvals == init + [last];
      forall e | e in UnchangedPuts(psId, approvals, includeUnchanged)
        ensures exists a :: a in approvals && (includeUnchanged || a.IsSubmit()) && e == PutFor(psId, a)
      {
        if e !in UnchangedPuts(psId, init, includeUnchanged) {
          assert e == PutFor(psId, last) && (includeUnchanged || last.IsSubmit());
        }
      }
    }
  }

  /** The note events of `saveApprovals`: updated puts, then deleted removals, then the unchanged puts it keeps. */
  function SaveApprovalsNotes(psId: PatchSetId, n: NormalizerResult, includeUnchanged: bool): seq<NoteEvent>
  {
    PutsFor(psId, n.updated) + RemovesFor(psId, n.deleted) + UnchangedPuts(psId, n.unchangedApprovals, includeUnchanged)
  }

  /** The database writes of `saveApprovals`: upsert the normalised and delete the deleted, both moved onto the patch set. */
  function SaveApprovalsWrites(n: NormalizerResult, psId: PatchSetId): seq<DbWrite>
  {
    [Upsert(ConvertAll(n.normalized, psId)), Delete(ConvertAll(n.deleted, psId))]
  }

  /**
   * `saveApprovals` writes two batches, an upsert of every normalised vote
   * then a delete of every deleted vote, and every approval written is on
   * the target patch set; each of its note events goes to that patch set's
   * update, one per updated and deleted vote and at most one per unchanged vote.
   */
  lemma SaveApprovalsOnPatchSet(psId: PatchSetId, n: NormalizerResult, includeUnchanged: bool)
    ensures var ws := SaveApprovalsWrites(n, psId);
            && |ws| == 2 && ws[0].Upsert? && ws[1].Delete?
            && |ws[0].approvals| == |n.normalized| && |ws[1].approvals| == |n.deleted|
            && (forall i, j :: 0 <= i < 2 && 0 <= j < |ws[i].approvals| ==> ws[i].approvals[j].key.patchSetId == psId)
    ensures var notes := SaveApprovalsNotes(psId, n, includeUnchanged);
            && |n.updated| + |n.deleted| <= |notes| <= |n.updated| + |n.deleted| + |n.unchangedApprovals|
            && (forall i :: 0 <= i < |notes| ==> notes[i].patchSetId == psId)
  {
    var notes := SaveApprovalsNotes(psId, n, includeUnchanged);
    var ups, rms := PutsFor(psId, n.updated), RemovesFor(psId, n.deleted);
    forall i | 0 <= i < |notes| ensures notes[i].patchSetId == psId {
      if i >= |ups| + |rms| {
        assert notes[i] == UnchangedPuts(psId, n.unchangedApprovals, includeUnchanged)[i - |ups| - |rms|];
      }
    }
  }

  /**
   * What `saveApprovals` records on a patch set's update: a put for every
   * updated vote, a removal for every deleted vote, and a put for an
   * unchanged vote exactly when unchanged votes are included or it is the
   * submit vote.
   */
  lemma SaveApprovalsRecords(psId: PatchSetId, n: NormalizerResult, includeUnchanged: bool)
    ensures forall a :: a in n.updated ==> PutFor(psId, a) in SaveApprovalsNotes(psId, n, includeUnchanged)
    ensures forall a :: a in n.deleted ==> RemoveFor(psId, a) in SaveApprovalsNotes(psId, n, includeUnchanged)
    ensures forall a :: a in n.unchangedApprovals && (includeUnchanged || a.IsSubmit()) ==>
              PutFor(psId, a) in SaveApprovalsNotes(psId, n, includeUnchanged)
    ensures forall e :: e in SaveApprovalsNotes(psId, n, includeUnchanged) ==>
              || (exists a :: a in n.updated && e == PutFor(psId, a))
              || (exists a :: a in n.deleted && e == RemoveFor(psId, a))
              || (exists a :: a in n.unchangedApprovals && (includeUnchanged || a.IsSubmit()) && e == PutFor(psId, a))
  {
    UnchangedPutsExactly(psId, n.unchangedApprovals, includeUnchanged);
    var ups, rms, uns := PutsFor(psId, n.updated), RemovesFor(psId, n.deleted), UnchangedPuts(psId, n.unchangedApprovals, includeUnchanged);
    forall a | a in n.updated ensures PutFor(psId, a) in ups + rms + uns {
      var i :| 0 <= i < |n.updated| && n.updated[i] == a;
      assert ups[i] == PutFor(psId, a);
    }
    forall a | a in n.deleted ensures RemoveFor(psId, a) in ups + rms + uns {
      var i :| 0 <= i < |n.deleted| && n.deleted[i] == a;
      assert rms[i] == RemoveFor(psId, a);
    }
    forall e | e in ups + rms + uns
      ensures || (exists a :: a in n.updated && e == PutFor(psId, a))
              || (exists a :: a in n.deleted && e == RemoveFor(psId, a))
              || (exists a :: a in n.unchangedApprovals && (includeUnchanged || a.IsSubmit()) && e == PutFor(psId, a))
    {
      if e in ups {
        var i :| 0 <= i < |ups| && ups[i] == e;
        assert n.updated[i] in n.updated;
      } else if e in rms {
        var i :| 0 <= i < |rms| && rms[i] == e;
        assert n.deleted[i] in n.deleted;
      }
    }
  }

  /**
   * The database writes of `setApproval`: the votes saved on the original
   * patch set and, when the strategy created a new patch set, saved again
   * moved onto it.
   */
  function SetApprovalWrites(n: NormalizerResult, oldPsId: PatchSetId, newPsId: PatchSetId): seq<DbWrite>
  {
    if newPsId != oldPsId then SaveApprovalsWrites(n, oldPsId) + SaveApprovalsWrites(n, newPsId)
    else SaveApprovalsWrites(n, oldPsId)
  }

  /** The first two events of `setApproval` on the original patch set: the caller as reviewer, then the submit vote. */
  function ReviewerAndSubmit(caller: AccountId, user: AccountId, psId: PatchSetId): (r: seq<NoteEvent>)
    ensures |r| == 2 && r[0].patchSetId == psId && r[1].patchSetId == psId
    ensures r[0].op == PutReviewer(caller, Reviewer) && r[1].op == PutApproval(user, Submit, 1)
  {
    [NoteEvent(psId, PutReviewer(caller, Reviewer)), NoteEvent(psId, PutApproval(user, Submit, 1))]
  }

  /**
   * The note events of `setApproval`: the caller added as reviewer and the
   * submit vote put on the original patch set, its saved votes without the
   * unchanged non-submit ones, the submit records merged into the new patch
   * set's update and, for a new patch set, every vote saved there too.
   */
  function SetApprovalNotes(caller: AccountId, user: AccountId, records: seq<SubmitRecord>, n: NormalizerResult,
                            oldPsId: PatchSetId, newPsId: PatchSetId): seq<NoteEvent>
  {
    var onOriginal := ReviewerAndSubmit(caller, user, oldPsId)
                      + SaveApprovalsNotes(oldPsId, n, false)
                      + [NoteEvent(newPsId, MergeSubmitRecords(records))];
    if newPsId != oldPsId then onOriginal + SaveApprovalsNotes(newPsId, n, true) else onOriginal
  }

  /**
   * `setApproval` saves the votes on the original patch set first and, only
   * for a new patch set, a second time on it; its note events start with the
   * reviewer and the submit vote on the original patch set, put the submit
   * records right after the original patch set's saved votes, and go only to
   * the original or the new patch set's update.
   */
  lemma SetApprovalLayout(caller: AccountId, user: AccountId, records: seq<SubmitRecord>, n: NormalizerResult,
                          oldPsId: PatchSetId, newPsId: PatchSetId)
    ensures var ws := SetApprovalWrites(n, oldPsId, newPsId);
            && |ws| == (if newPsId != oldPsId then 4 else 2)
            && ws[..2] == SaveApprovalsWrites(n, oldPsId)
            && (newPsId != oldPsId ==> ws[2..] == SaveApprovalsWrites(n, newPsId))
    ensures var notes := SetApprovalNotes(caller, user, records, n, oldPsId, newPsId);
            var k := 2 + |SaveApprovalsNotes(oldPsId, n, false)|;
            && k < |notes| && notes[..2] == ReviewerAndSubmit(caller, user, oldPsId)
            && notes[k] == NoteEvent(newPsId, MergeSubmitRecords(records))
            && (newPsId == oldPsId ==> |notes| == k + 1)
            && (forall i :: 0 <= i < |notes| ==> notes[i].patchSetId == oldPsId || notes[i].patchSetId == newPsId)
  {
    SaveApprovalsOnPatchSet(oldPsId, n, false);
    SaveApprovalsOnPatchSet(newPsId, n, true);
    var head, saved := ReviewerAndSubmit(caller, user, oldPsId), SaveApprovalsNotes(oldPsId, n, false);
    var merge := [NoteEvent(newPsId, MergeSubmitRecords(records))];
    var notes := SetApprovalNotes(caller, user, records, n, oldPsId, newPsId);
    forall i | 0 <= i < |notes| ensures notes[i].patchSetId == oldPsId || notes[i].patchSetId == newPsId {
      if 2 <= i < 2 + |saved| {
        assert notes[i] == saved[i - 2];
      } else if i > 2 + |saved| {
        assert notes[i] == SaveApprovalsNotes(newPsId, n, true)[i - 3 - |saved|];
      }
    }
  }

  /**
   * When the strategy created a new patch set, every normalised vote is
   * upserted again as a copy on the new patch set with the same account,
   * label, value and grant time, and every updated and every unchanged vote
   * is recorded on the new patch set's update; with no new patch set nothing
   * is written twice.
   */
  lemma {:induction false} ApprovalsCopiedToNewPatchSet(caller: AccountId, user: AccountId, records: seq<SubmitRecord>,
                                                        n: NormalizerResult, oldPsId: PatchSetId, newPsId: PatchSetId)
    ensures newPsId == oldPsId ==> SetApprovalWrites(n, oldPsId, newPsId) == SaveApprovalsWrites(n, oldPsId)
    ensures newPsId != oldPsId ==>
              && Upsert(ConvertAll(n.normalized, newPsId)) in SetApprovalWrites(n, oldPsId, newPsId)
              && (forall a :: a in n.normalized ==>
                    exists b :: b in ConvertAll(n.normalized, newPsId) && b.key == a.key.(patchSetId := newPsId)
                                && b.value == a.value && b.granted == a.granted)
              && (forall a :: a in n.updated || a in n.unchangedApprovals ==>
                    PutFor(newPsId, a) in SetApprovalNotes(caller, user, records, n, oldPsId, newPsId))
  {
    if newPsId != oldPsId {
      ConvertAllCopiesOnto(n.normalized, newPsId);
      SaveApprovalsRecords(newPsId, n, true);
      assert SetApprovalWrites(n, oldPsId, newPsId)[2] == Upsert(ConvertAll(n.normalized, newPsId));
      forall a | a in n.normalized
        ensures exists b :: b in ConvertAll(n.normalized, newPsId) && b.key == a.key.(patchSetId := newPsId)
                            && b.value == a.value && b.granted == a.granted
      {
        var b := ConvertPatchSet(newPsId, a);
        assert b in ConvertAll(n.normalized, newPsId);
      }
      var tail := SaveApprovalsNotes(newPsId, n, true);
      var all := SetApprovalNotes(caller, user, records, n, oldPsId, newPsId);
      assert forall e :: e in tail ==> e in all;
    }
  }

  /** The effect of a database write on a table of approvals keyed like the review database. */
  function ApplyWrite(table: map<ApprovalKey, PatchSetApproval>, w: DbWrite): map<ApprovalKey, PatchSetApproval>
  {
    match w
    case Upsert(s) => table + Keyed(s)
    case Delete(s) => table - Keyed(s).Keys
    case InsertMessage(_) => table
  }

  /** The effect of a sequence of database writes, in order. */
  function ApplyWrites(table: map<ApprovalKey, PatchSetApproval>, ws: seq<DbWrite>): map<ApprovalKey, PatchSetApproval>
    decreases ws
  {
    if ws == [] then table else ApplyWrites(ApplyWrite(table, ws[0]), ws[1..])
  }

  /**
   * Saving the same normaliser result twice leaves the approvals table as
   * saving it once does.
   */
  lemma SaveApprovalsIdempotent(table: map<ApprovalKey, PatchSetApproval>, n: NormalizerResult, psId: PatchSetId)
    ensures var ws := SaveApprovalsWrites(n, psId);
            ApplyWrites(ApplyWrites(table, ws), ws) == ApplyWrites(table, ws)
  {
    var up, del := Keyed(ConvertAll(n.normalized, psId)), Keyed(ConvertAll(n.deleted, psId)).Keys;
    var ws := SaveApprovalsWrites(n, psId);
    forall t: map<ApprovalKey, PatchSetApproval> ensures ApplyWrites(t, ws) == t + up - del {
      assert ApplyWrites(t, ws) == ApplyWrites(t + up, ws[1..]);
      assert ApplyWrites(t + up, ws[1..]) == ApplyWrites(t + up - del, []);
    }
    var once := table + up - del;
    assert once + up - del == once;
  }

  /** The approval keys a database write touches. */
  function WriteKeys(w: DbWrite): set<ApprovalKey>
  {
    match w
    case Upsert(s) => Keyed(s).Keys
    case Delete(s) => Keyed(s).Keys
    case InsertMessage(_) => {}
  }

  /** The approval keys a sequence of database writes touches. */
  function WritesKeys(ws: seq<DbWrite>): set<ApprovalKey>
    decreases ws
  {
    if ws == [] then {} else WriteKeys(ws[0]) + WritesKeys(ws[1..])
  }

  /** Regrouping a table with keys removed, then added, then removed again. */
  lemma RemoveAddRemove(t: map<ApprovalKey, PatchSetApproval>, k1: set<ApprovalKey>, a: map<ApprovalKey, PatchSetApproval>,
                        k2: set<ApprovalKey>, e: map<ApprovalKey, PatchSetApproval>)
    ensures (t - k1) + a - k2 + e == (t - (k1 + k2)) + (a - k2) + e
  {
  }

  /** One write touches only its own keys, and what it leaves there does not depend on the table. */
  lemma ApplyWriteSplit(table: map<ApprovalKey, PatchSetApproval>, w: DbWrite)
    ensures ApplyWrite(table, w) == (table - WriteKeys(w)) + ApplyWrite(map[], w)
    ensures ApplyWrite(map[], w).Keys <= WriteKeys(w)
  {
  }

  /** The writes add no key they do not touch. */
  lemma {:induction false} ApplyWritesKeys(table: map<ApprovalKey, PatchSetApproval>, ws: seq<DbWrite>)
    ensures ApplyWrites(table, ws).Keys <= table.Keys + WritesKeys(ws)
    decreases ws
  {
    if ws != [] {
      ApplyWriteSplit(table, ws[0]);
      ApplyWritesKeys(ApplyWrite(table, ws[0]), ws[1..]);
    }
  }

  /**
   * Writes only touch their own keys: every other key keeps the table's
   * entry, and under every touched key the result is what the writes give
   * an empty table, whatever the table held.
   */
  lemma {:induction false} ApplyWritesSplit(table: map<ApprovalKey, PatchSetApproval>, ws: seq<DbWrite>)
    ensures ApplyWrites(table, ws) == (table - WritesKeys(ws)) + ApplyWrites(map[], ws)
    decreases ws
  {
    if ws != [] {
      var w, rest := ws[0], ws[1..];
      var one := ApplyWrite(map[], w);
      ApplyWriteSplit(table, w);
      ApplyWritesSplit(ApplyWrite(table, w), rest);
      ApplyWritesSplit(one, rest);
      RemoveAddRemove(table, WriteKeys(w), one, WritesKeys(rest), ApplyWrites(map[], rest));
    }
  }

  /** Replaying any sequence of approval writes leaves the table as applying it once does. */
  lemma ApprovalWritesIdempotent(table: map<ApprovalKey, PatchSetApproval>, ws: seq<DbWrite>)
    ensures ApplyWrites(ApplyWrites(table, ws), ws) == ApplyWrites(table, ws)
  {
    var once := ApplyWrites(table, ws);
    ApplyWritesSplit(table, ws);
    ApplyWritesSplit(once, ws);
    ApplyWritesKeys(map[], ws);
    assert once - WritesKeys(ws) == table - WritesKeys(ws);
  }

  /**
   * Reconciling the approvals again, on the original patch set and, for a
   * rebase or cherry-pick, on the new one, leaves the approvals table as
   * reconciling them once does.
   */
  lemma SetApprovalIdempotent(table: map<ApprovalKey, PatchSetApproval>, n: NormalizerResult,
                              oldPsId: PatchSetId, newPsId: PatchSetId)
    ensures var ws := SetApprovalWrites(n, oldPsId, newPsId);
            ApplyWrites(ApplyWrites(table, ws), ws) == ApplyWrites(table, ws)
  {
    ApprovalWritesIdempotent(table, SetApprovalWrites(n, oldPsId, newPsId));
  }

  // ---------------------------------------------------------------------
  // The history message
  // ---------------------------------------------------------------------

  /**
   * `getByAccountName`: " by " and the submitter's full name when the account
   * is known and has one, otherwise the empty string.
   */
  function ByAccountName(account: Option<Account>): (r: string)
    ensures r == "" <==> account.None? || account.value.fullName.None?
    ensures r != "" ==> |r| >= 4 && r[..4] == " by " && r[4..] == account.value.fullName.value
  {
    if account.Some? && account.value.fullName.Some? then " by " + account.value.fullName.value else ""
  }

  /**
   * The message body `updateChange` chooses by merge status: the status text
   * and the submitter for a clean merge, the text, " as " and the new
   * commit's name and the submitter for a rebase or cherry-pick, no
   * message for an already merged change, and an illegal-state error for
   * any other status.
   */
  function MessageBody(s: CommitMergeStatus, change: ChangeId, txt: string, commitName: string, byName: string)
    : (r: Result<Option<string>, SubmitError>)
    ensures r.Failure? <==> s.Unhandled?
    ensures r.Failure? ==> r.error == UnexpectedStatus(s, change)
    ensures r == Success(None) <==> s == AlreadyMerged
    ensures s == CleanMerge ==> r == Success(Some(txt + byName))
    ensures s == CleanRebase || s == CleanPick ==> r == Success(Some(txt + " as " + commitName + byName))
  {
    match s
    case CleanMerge => Success(Some(txt + byName))
    case CleanRebase => Success(Some(txt + " as " + commitName + byName))
    case CleanPick => Success(Some(txt + " as " + commitName + byName))
    case AlreadyMerged => Success(None)
    case Unhandled(_) => Failure(UnexpectedStatus(s, change))
  }

  /**
   * A message body starts with the status text and ends with the submitter
   * part; after a rebase or cherry-pick the new commit's name follows " as "
   * directly after the text.
   */
  lemma MessageBodyShape(s: CommitMergeStatus, change: ChangeId, txt: string, commitName: string, byName: string)
    requires MessageBody(s, change, txt, commitName, byName).Success?
    requires MessageBody(s, change, txt, commitName, byName).value.Some?
    ensures var body := MessageBody(s, change, txt, commitName, byName).value.value;
            && |txt| + |byName| <= |body|
            && body[..|txt|] == txt
            && body[|body| - |byName|..] == byName
            && (s != CleanMerge ==> body[|txt|..|txt| + 4 + |commitName|] == " as " + commitName)
  {
  }

  /**
   * `message`: no message when the uuid generator fails, otherwise a fresh
   * message for the patch set's change with the body, the update's time,
   * no author and the patch set.
   */
  function Message(uuid: Option<string>, when: Timestamp, psId: PatchSetId, body: string): (m: Option<ChangeMessage>)
    ensures m.None? <==> uuid.None?
    ensures m.Some? ==> && m.value.key == ChangeMessageKey(psId.changeId, uuid.value)
                        && m.value.message == body && m.value.patchSetId == psId
                        && m.value.author.None? && m.value.writtenOn == when
  {
    if uuid.None? then None
    else Some(ChangeMessage(ChangeMessageKey(psId.changeId, uuid.value), None, when, psId, body))
  }

  /**
   * The status `updateChange` reads for the change, as the code is written:
   * the commit's name is evaluated for the debug log before the state check,
   * so a missing commit is a null dereference rather than the check's error.
   */
  function StatusOfAsWritten(commit: Option<CodeReviewCommit>, change: ChangeId): (r: Result<CommitMergeStatus, SubmitError>)
    ensures commit.None? ==> r == Failure(NullPointer)
    ensures commit.Some? ==> (r.Success? <==> commit.value.statusCode.Some?)
    ensures commit.Some? && commit.value.statusCode.None? ==> r == Failure(StatusNotSet(change))
    ensures r.Success? ==> commit.Some? && commit.value.statusCode == Some(r.value)
  {
    if commit.None? then Failure(NullPointer)
    else if commit.value.statusCode.None? then Failure(StatusNotSet(change))
    else Success(commit.value.statusCode.value)
  }

  /**
   * The status `updateChange` reads for the change, as intended: a missing
   * commit and a missing status both fail the state check.
   */
  function StatusOf(commit: Option<CodeReviewCommit>, change: ChangeId): (r: Result<CommitMergeStatus, SubmitError>)
    ensures r.Failure? <==> commit.None? || commit.value.statusCode.None?
    ensures r.Failure? ==> r.error == StatusNotSet(change)
    ensures r.Success? ==> commit.Some? && commit.value.statusCode == Some(r.value)
  {
    if commit.None? || commit.value.statusCode.None? then Failure(StatusNotSet(change))
    else Success(commit.value.statusCode.value)
  }

  /** A change with no commit in the batch escapes the state check as written and fails it as intended. */
  lemma MissingCommitEscapesStateCheck(change: ChangeId)
    ensures StatusOfAsWritten(None, change) == Failure(NullPointer)
    ensures StatusOf(None, change) == Failure(StatusNotSet(change))
  {
  }

  // ---------------------------------------------------------------------
  // postUpdate: the effects after both transactions committed
  // ---------------------------------------------------------------------

  /** A side effect of `postUpdate`. */
  datatype PostUpdateEffect =
    | UpdateFastForward(project: ProjectName, refName: string, oldId: ObjectId, newId: ObjectId)
    | ReloadProjectConfig(project: ProjectName)
    | ChangeMergedHook(change: Option<ChangeId>, submitter: Option<Account>, patchSet: Option<PatchSet>, rev: string)

  predicate HasFastForward(effects: seq<PostUpdateEffect>)
  {
    exists i :: 0 <= i < |effects| && effects[i].UpdateFastForward?
  }

  predicate HasConfigReload(effects: seq<PostUpdateEffect>)
  {
    exists i :: 0 <= i < |effects| && effects[i].ReloadProjectConfig?
  }

  predicate HasMergedHook(effects: seq<PostUpdateEffect>)
  {
    exists i :: 0 <= i < |effects| && effects[i].ChangeMergedHook?
  }

  /**
   * The effects of `postUpdate`, in order: the fast-forward cache refresh
   * with the staged command's ref and ids when a command was staged, the
   * project configuration reload when that command was for the
   * configuration ref, and the change-merged hook with the merge result
   * when there is one.
   */
  function PostUpdateEffects(command: Option<ReceiveCommand>, dest: Branch, mergeResultRev: Option<ObjectId>,
                             change: Option<ChangeId>, submitter: Option<Account>, patchSet: Option<PatchSet>)
    : (r: seq<PostUpdateEffect>)
    ensures HasFastForward(r) <==> command.Some?
    ensures command.Some? ==>
              r[0] == UpdateFastForward(dest.project, command.value.refName, command.value.oldId, command.value.newId)
    ensures HasConfigReload(r) <==> command.Some? && dest.refName == RefsConfig
    ensures HasMergedHook(r) <==> mergeResultRev.Some?
    ensures mergeResultRev.Some? ==>
              r[|r| - 1] == ChangeMergedHook(change, submitter, patchSet, mergeResultRev.value.name)
  {
    var caches :=
      if command.Some? then
        [UpdateFastForward(dest.project, command.value.refName, command.value.oldId, command.value.newId)]
          + (if dest.refName == RefsConfig then [ReloadProjectConfig(dest.project)] else [])
      else [];
    var hook := if mergeResultRev.Some? then [ChangeMergedHook(change, submitter, patchSet, mergeResultRev.value.name)] else [];
    var r := caches + hook;
    assert command.Some? ==> r[0].UpdateFastForward?;
    assert command.Some? && dest.refName == RefsConfig ==> r[1].ReloadProjectConfig?;
    assert mergeResultRev.Some? ==> r[|r| - 1].ChangeMergedHook?;
    r
  }
}
