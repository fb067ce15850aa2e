/**
 * The raw data of a revision note: flat holders for a comment and its
 * parts, each built from a review-database object and exported back to
 * one. The holders are intended for JSON (de)serialisation only, so
 * everything here is a value; a holder's "constructor" is the function
 * named after it, whose contract is the round trip through `Export`.
 */
module RevisionNoteData {
  import opened Wrappers
  import opened ReviewDbClient

  /** `RevisionNoteData.Identity`: an account id as a bare int. */
  datatype Identity = Identity(id: int32)
  {
    /** `Identity.export`. */
    function Export(): (a: AccountId)
      ensures a.id == id
    {
      AccountId(id)
    }
  }

  /** `new Identity(id)`: exporting it gives the same account id back. */
  function IdentityOf(a: AccountId): (r: Identity)
    ensures r.id == a.id
    ensures r.Export() == a
  {
    Identity(a.id)
  }

  /** `RevisionNoteData.CommentKey`: a comment key without its change id. */
  datatype NoteCommentKey = NoteCommentKey(uuid: string, filename: string, patchSetId: int32)
  {
    /** `CommentKey.export`: the change id is supplied by the caller. */
    function Export(changeId: ChangeId): (k: CommentKey)
      ensures k.uuid == uuid && k.patchKey.fileName == filename
      ensures k.patchKey.patchSetId == PatchSetId(changeId, patchSetId)
    {
      CommentKey(PatchKey(PatchSetId(changeId, patchSetId), filename), uuid)
    }
  }

  /** `new CommentKey(k)`: exporting with the key's own change id rebuilds the key. */
  function NoteCommentKeyOf(k: CommentKey): (r: NoteCommentKey)
    ensures r.uuid == k.uuid && r.filename == k.patchKey.fileName
    ensures r.patchSetId == k.patchKey.patchSetId.patchSetNum
    ensures r.Export(k.patchKey.patchSetId.changeId) == k
  {
    NoteCommentKey(k.uuid, k.patchKey.fileName, k.patchKey.patchSetId.patchSetNum)
  }

  /** `RevisionNoteData.CommentRange`: the four coordinates of a range. */
  datatype NoteCommentRange = NoteCommentRange(startLine: int32, startChar: int32, endLine: int32, endChar: int32)
  {
    /** `CommentRange.export`. */
    function Export(): (cr: CommentRange)
      ensures cr.startLine == startLine && cr.startCharacter == startChar
      ensures cr.endLine == endLine && cr.endCharacter == endChar
    {
      CommentRange(startLine, startChar, endLine, endChar)
    }
  }

  /** `new CommentRange(cr)`: all four coordinates survive the round trip. */
  function NoteCommentRangeOf(cr: CommentRange): (r: NoteCommentRange)
    ensures r.startLine == cr.startLine && r.startChar == cr.startCharacter
    ensures r.endLine == cr.endLine && r.endChar == cr.endCharacter
    ensures r.Export() == cr
  {
    NoteCommentRange(cr.startLine, cr.startCharacter, cr.endLine, cr.endCharacter)
  }

  /** `RevisionNoteData.Comment`: a line comment in flat form, with the server it came from. */
  datatype NoteComment = NoteComment(
    key: NoteCommentKey,
    lineNbr: int32,
    author: Identity,
    writtenOn: Timestamp,
    side: int16,
    message: Option<string>,
    parentUuid: Option<string>,
    range: Option<NoteCommentRange>,
    tag: Option<string>,
    revId: string,
    serverId: string)
  {
    /**
     * `Comment.export`: a fresh comment for the given change, carrying every
     * stored field and the given status; the range is set only when one
     * is stored, so an absent range stays absent.
     */
    function Export(changeId: ChangeId, status: CommentStatus): (plc: PatchLineComment)
      ensures plc.key == key.Export(changeId)
      ensures plc.lineNbr == lineNbr && plc.author == author.Export()
      ensures plc.parentUuid == parentUuid && plc.writtenOn == writtenOn
      ensures plc.side == side && plc.message == message && plc.tag == tag
      ensures plc.revId == RevId(revId) && plc.status == status
      ensures plc.range.None? <==> range.None?
      ensures range.Some? ==> plc.range == Some(range.value.Export())
    {
      var exportedRange := if range.Some? then Some(range.value.Export()) else None;
      PatchLineComment(key.Export(changeId), lineNbr, author.Export(), parentUuid, writtenOn,
                       side, message, exportedRange, tag, RevId(revId), status)
    }
  }

  /**
   * `new Comment(plc, serverId)`: exporting the holder with the comment's own
   * change and status rebuilds the comment, range included.
   */
  function NoteCommentOf(plc: PatchLineComment, serverId: string): (r: NoteComment)
    ensures r.serverId == serverId
    ensures r.range.None? <==> plc.range.None?
    ensures r.Export(plc.ChangeOf(), plc.status) == plc
  {
    NoteComment(
      NoteCommentKeyOf(plc.key), plc.lineNbr, IdentityOf(plc.author), plc.writtenOn, plc.side,
      plc.message, plc.parentUuid,
      if plc.range.Some? then Some(NoteCommentRangeOf(plc.range.value)) else None,
      plc.tag, plc.revId.id, serverId)
  }

  /** `RevisionNoteData`: the push certificate and the comments of a revision. */
  datatype NoteData = NoteData(pushCert: Option<string>, comments: seq<NoteComment>)
  {
    /** `exportComments`: one exported comment per stored comment, in the stored order. */
    function ExportComments(changeId: ChangeId, status: CommentStatus): (r: seq<PatchLineComment>)
      ensures |r| == |comments|
      ensures forall i :: 0 <= i < |comments| ==> r[i] == comments[i].Export(changeId, status)
    {
      seq(|comments|, i requires 0 <= i < |comments| => comments[i].Export(changeId, status))
    }
  }

  /**
   * Comments of one change, all with one status, come back unchanged and in
   * order when stored (all from one server) and exported again.
   */
  lemma ExportCommentsRoundTrip(plcs: seq<PatchLineComment>, serverId: string, pushCert: Option<string>,
                                changeId: ChangeId, status: CommentStatus)
    requires forall i :: 0 <= i < |plcs| ==> plcs[i].ChangeOf() == changeId && plcs[i].status == status
    ensures NoteData(pushCert, seq(|plcs|, i requires 0 <= i < |plcs| => NoteCommentOf(plcs[i], serverId)))
              .ExportComments(changeId, status) == plcs
  {
  }
}
