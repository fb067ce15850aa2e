/**
 * The value types of Gerrit's review database client and of JGit that the
 * submit operation and the revision-note data holder work with. Each Java
 * key class with an `equals` over its parts becomes a datatype; Java's
 * 32- and 16-bit integers become bounded newtypes.
 */
module ReviewDbClient {
  import opened Wrappers

  newtype int32 = x: int | -0x8000_0000 <= x < 0x8000_0000
  newtype int16 = x: int | -0x8000 <= x < 0x8000

  /** `java.sql.Timestamp`, used only as an opaque value that is copied around. */
  datatype Timestamp = Timestamp(instant: int)

  /** `Account.Id`. */
  datatype AccountId = AccountId(id: int32)

  /** `Account`, as far as the submit operation reads it: the full name may be null. */
  datatype Account = Account(id: AccountId, fullName: Option<string>)

  /** `Change.Id`. */
  datatype ChangeId = ChangeId(id: int32)
  {
    /** The id in decimal, as it appears in messages. */
    function ToString(): string
    {
      if id < 0 then "-" + Decimal(-(id as int)) else Decimal(id as int)
    }
  }

  /** The decimal digits of a natural number. */
  function Decimal(n: nat): string
  {
    if n < 10 then ["0123456789"[n]] else Decimal(n / 10) + ["0123456789"[n % 10]]
  }

  /** `PatchSet.Id`: its parent key is the change. */
  datatype PatchSetId = PatchSetId(changeId: ChangeId, patchSetNum: int32)

  /** `PatchSet`, as stored in the review database. */
  datatype PatchSet = PatchSet(id: PatchSetId, revision: string)

  /** `Project.NameKey`. */
  datatype ProjectName = ProjectName(name: string)

  /** `Branch.NameKey`: a ref name inside a project. */
  datatype Branch = Branch(project: ProjectName, refName: string)

  /** `RefNames.REFS_CONFIG`, the ref that holds a project's configuration. */
  const RefsConfig: string := "refs/meta/config"

  /** A JGit `ObjectId`, identified by its hexadecimal name. */
  datatype ObjectId = ObjectId(name: string)

  /** `ObjectId.zeroId()`: the all-zero id, the old value of a ref being created. */
  const ZeroId: ObjectId := ObjectId("0000000000000000000000000000000000000000")

  /** JGit's `ReceiveCommand`: a compare-and-swap update of one ref. */
  datatype ReceiveCommand = ReceiveCommand(oldId: ObjectId, newId: ObjectId, refName: string)

  /** `LabelId`. */
  datatype LabelId = LabelId(id: string)

  /** `LabelId.SUBMIT`, the label of the approval that records who submitted. */
  const Submit: LabelId := LabelId("SUBM")

  /** `PatchSetApproval.Key`: one vote slot is a patch set, an account and a label. */
  datatype ApprovalKey = ApprovalKey(patchSetId: PatchSetId, accountId: AccountId, labelId: LabelId)

  /** `PatchSetApproval`: a vote with its value and the time it was granted. */
  datatype PatchSetApproval = PatchSetApproval(key: ApprovalKey, value: int16, granted: Timestamp, tag: Option<string>)
  {
    /** `PatchSetApproval.isSubmit`. */
    predicate IsSubmit() { key.labelId == Submit }
  }

  /** `Change.Status`. */
  datatype ChangeStatus = New | Draft | Merged | Abandoned

  /** `ChangeMessage.Key`: the change and a generated uuid. */
  datatype ChangeMessageKey = ChangeMessageKey(changeId: ChangeId, uuid: string)

  /** `ChangeMessage`: a history entry of a change, attached to a patch set. */
  datatype ChangeMessage = ChangeMessage(
    key: ChangeMessageKey,
    author: Option<AccountId>,
    writtenOn: Timestamp,
    patchSetId: PatchSetId,
    message: string)

  /** `Patch.Key`: a file of a patch set. */
  datatype PatchKey = PatchKey(patchSetId: PatchSetId, fileName: string)

  /** `PatchLineComment.Key`: a comment uuid on a file of a patch set. */
  datatype CommentKey = CommentKey(patchKey: PatchKey, uuid: string)

  /** `com.google.gerrit.reviewdb.client.CommentRange`. */
  datatype CommentRange = CommentRange(startLine: int32, startCharacter: int32, endLine: int32, endCharacter: int32)

  /** `RevId`: the commit a comment was written against. */
  datatype RevId = RevId(id: string)

  /** `PatchLineComment.Status`. */
  datatype CommentStatus = DraftComment | PublishedComment

  /** `PatchLineComment`, with the fields that the revision note stores. */
  datatype PatchLineComment = PatchLineComment(
    key: CommentKey,
    lineNbr: int32,
    author: AccountId,
    parentUuid: Option<string>,
    writtenOn: Timestamp,
    side: int16,
    message: Option<string>,
    range: Option<CommentRange>,
    tag: Option<string>,
    revId: RevId,
    status: CommentStatus)
  {
    /** The change a comment belongs to, read off its key. */
    function ChangeOf(): ChangeId { key.patchKey.patchSetId.changeId }
  }
}
