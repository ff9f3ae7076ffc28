/**
 * A commit seen by the merge machinery, extended with review metadata: its
 * patch set, the change notes, a merge status with message, and what is known
 * about merge conflicts in it.
 */
module CodeReviewCommits {
  import opened Common

  datatype ObjectId = ObjectId(name: string)
  datatype PatchSetId = PatchSetId(changeId: int, psNum: int)
  /** The change notes handle; its contents are not part of this model. */
  datatype ChangeNotes = ChangeNotes(changeId: int)

  /** The merge statuses the modelled code sets; the enum's other values are not part of this model. */
  datatype CommitMergeStatus = CLEAN_MERGE | PATH_CONFLICT | MANUAL_RECURSIVE_MERGE

  /** The no-base reasons the modelled code records. */
  datatype NoMergeBaseReason = NO_COMMON_ANCESTOR | COMPUTED_BASE | ONE_SIDED_MERGE_STRATEGY
                             | NO_MERGE_PERFORMED

  /** `PatchSet.Conflicts`. */
  datatype Conflicts = Conflicts(
    base: Option<ObjectId>,
    ours: Option<ObjectId>,
    theirs: Option<ObjectId>,
    mergeStrategy: Option<string>,
    noBaseReason: Option<NoMergeBaseReason>,
    containsConflicts: bool)

  /** A file set passed to the conflict setters that actually names files. */
  predicate HasFiles(files: Option<set<string>>) {
    files.Some? && files.value != {}
  }

  /** What `setConflicts` records for a merge with a base. */
  function MergeConflicts(base: ObjectId, ours: ObjectId, theirs: ObjectId, strategy: string,
                          files: Option<set<string>>): (c: Conflicts)
    ensures c.base == Some(base) && c.ours == Some(ours) && c.theirs == Some(theirs)
    ensures c.mergeStrategy == Some(strategy) && c.noBaseReason.None?
    ensures c.containsConflicts <==> HasFiles(files)
  {
    Conflicts(Some(base), Some(ours), Some(theirs), Some(strategy), None, HasFiles(files))
  }

  /** What `setConflictsBaseNotAvailable` records: no base, but a reason for it. */
  function NoBaseConflicts(ours: ObjectId, theirs: ObjectId, strategy: string, reason: NoMergeBaseReason,
                           files: Option<set<string>>): (c: Conflicts)
    ensures c.base.None? && c.ours == Some(ours) && c.theirs == Some(theirs)
    ensures c.mergeStrategy == Some(strategy) && c.noBaseReason == Some(reason)
    ensures c.containsConflicts <==> HasFiles(files)
  {
    Conflicts(None, Some(ours), Some(theirs), Some(strategy), Some(reason), HasFiles(files))
  }

  /** What `setNoConflictsForNonMergeCommit` records. */
  const NON_MERGE_CONFLICTS: Conflicts := Conflicts(None, None, None, None, Some(NO_MERGE_PERFORMED), false)

  /** A base is recorded exactly when no no-base reason is. */
  lemma BaseXorReason(base: ObjectId, ours: ObjectId, theirs: ObjectId, strategy: string,
                      reason: NoMergeBaseReason, files: Option<set<string>>)
    ensures MergeConflicts(base, ours, theirs, strategy, files).base.Some? !=
            MergeConflicts(base, ours, theirs, strategy, files).noBaseReason.Some?
    ensures NoBaseConflicts(ours, theirs, strategy, reason, files).base.Some? !=
            NoBaseConflicts(ours, theirs, strategy, reason, files).noBaseReason.Some?
    ensures NON_MERGE_CONFLICTS.base.Some? != NON_MERGE_CONFLICTS.noBaseReason.Some?
  {
  }

  /** What `ORDER` throws on: `natural()` refuses a null key. */
  datatype CompareError = NullPointer

  /**
   * A commit as `ORDER` sees it: its object id and its patch set, if any. A
   * revision walk hands out one commit object per id, so two keys are the same
   * reference exactly when they are equal.
   */
  datatype OrderKey = OrderKey(id: ObjectId, patchSet: Option<PatchSetId>)

  /**
   * `ORDER`, comparing two commits, a null commit being None: the same commit
   * (or two nulls) ties before anything is read, as `nullsFirst` checks
   * `left == right` first; null commits sort first; other commits compare by
   * the change id of their patch set, and a commit without a patch set makes
   * `natural()` throw.
   */
  function OrderCompare(a: Option<OrderKey>, b: Option<OrderKey>): (r: Result<int, CompareError>)
    ensures a == b ==> r == Ok(0)
    ensures r.Err? <==> a != b && a.Some? && b.Some? && (a.value.patchSet.None? || b.value.patchSet.None?)
    ensures a != b && a.None? ==> r == Ok(-1)
    ensures a != b && b.None? ==> r == Ok(1)
    ensures r.Ok? && a != b && a.Some? && b.Some? ==>
      (r.value < 0 <==> a.value.patchSet.value.changeId < b.value.patchSet.value.changeId) &&
      (r.value == 0 <==> a.value.patchSet.value.changeId == b.value.patchSet.value.changeId)
  {
    if a == b then Ok(0)
    else if a.None? then Ok(-1)
    else if b.None? then Ok(1)
    else if a.value.patchSet.None? || b.value.patchSet.None? then Err(NullPointer)
    else
      var x, y := a.value.patchSet.value.changeId, b.value.patchSet.value.changeId;
      Ok(if x < y then -1 else if x == y then 0 else 1)
  }

  /**
   * `ORDER` is reflexive on every commit, and where it does not throw it is a
   * comparator: antisymmetric and transitive, tying the same commit or two
   * commits of one change.
   */
  lemma OrderIsStrictWeak(a: Option<OrderKey>, b: Option<OrderKey>, c: Option<OrderKey>)
    ensures OrderCompare(a, a) == Ok(0)
    ensures OrderCompare(a, b).Ok? ==> OrderCompare(b, a) == Ok(-OrderCompare(a, b).value)
    ensures OrderCompare(a, b).Ok? && OrderCompare(b, c).Ok? && OrderCompare(a, b).value < 0 && OrderCompare(b, c).value < 0 ==>
      OrderCompare(a, c).Ok? && OrderCompare(a, c).value < 0
    ensures OrderCompare(a, b) == Ok(0) <==>
      a == b || (a.Some? && b.Some? && a.value.patchSet.Some? && b.value.patchSet.Some? &&
                 a.value.patchSet.value.changeId == b.value.patchSet.value.changeId)
  {
  }

  /** What `writeObject` throws on: `writeUTF` of a text over 65535 encoded bytes. */
  datatype WriteError = UTFDataFormatException

  const MAX_UTF_BYTES: nat := 65535

  /**
   * The bytes `writeUTF` spends on one character in Java's modified UTF-8: one
   * for U+0001 to U+007F, two for U+0000 and up to U+07FF, three for the rest of
   * the basic plane, and six for a character outside it (two UTF-16 surrogates of
   * three bytes each).
   */
  function ModifiedUtf8Bytes(c: char): nat {
    var n := c as int;
    if 1 <= n <= 0x7F then 1 else if n <= 0x7FF then 2 else if n <= 0xFFFF then 3 else 6
  }

  function ModifiedUtf8Length(s: string): nat {
    if |s| == 0 then 0 else ModifiedUtf8Length(s[..|s| - 1]) + ModifiedUtf8Bytes(s[|s| - 1])
  }

  /**
   * The custom serialised form of `statusMessage` (`writeObject`): one UTF record
   * after the default fields when present, none otherwise; a message too long
   * for `writeUTF` fails the write.
   */
  function WriteStatusMessage(statusMessage: Option<string>): (r: Result<seq<string>, WriteError>)
    ensures r.Err? <==> statusMessage.Some? && ModifiedUtf8Length(statusMessage.value) > MAX_UTF_BYTES
    ensures r.Ok? ==> |r.value| == (if statusMessage.Some? then 1 else 0)
  {
    if statusMessage.None? then Ok([])
    else if ModifiedUtf8Length(statusMessage.value) > MAX_UTF_BYTES then Err(UTFDataFormatException)
    else Ok([statusMessage.value])
  }

  /** `readObject`: read a record when one is available. */
  function ReadStatusMessage(records: seq<string>): Option<string> {
    if |records| > 0 then Some(records[0]) else None
  }

  /** Whatever `writeObject` manages to write, `readObject` reads back as the same message. */
  lemma StatusMessageSerialisationRoundTrip(statusMessage: Option<string>)
    requires WriteStatusMessage(statusMessage).Ok?
    ensures ReadStatusMessage(WriteStatusMessage(statusMessage).value) == statusMessage
  {
  }

  /** Every character takes one to six bytes, so short texts always fit and very long ones never do. */
  lemma {:induction false} ModifiedUtf8Bounds(s: string)
    ensures |s| <= ModifiedUtf8Length(s) <= 6 * |s|
    ensures 6 * |s| <= MAX_UTF_BYTES ==> WriteStatusMessage(Some(s)).Ok?
    ensures |s| > MAX_UTF_BYTES ==> WriteStatusMessage(Some(s)).Err?
  {
    if |s| > 0 {
      ModifiedUtf8Bounds(s[..|s| - 1]);
    }
  }

  class CodeReviewCommit {
    const id: ObjectId
    var patchsetId: Option<PatchSetId>
    var notes: Option<ChangeNotes>
    var statusCode: Option<CommitMergeStatus>
    var statusMessage: Option<string>
    var conflicts: Option<Conflicts>
    var filesWithGitConflicts: Option<set<string>>

    /** Recorded conflicts always come with files that have conflict markers. */
    ghost predicate Valid()
      reads this
    {
      conflicts.Some? && conflicts.value.containsConflicts ==> HasFiles(filesWithGitConflicts)
    }

    constructor(id: ObjectId)
      ensures this.id == id
      ensures patchsetId.None? && notes.None? && statusCode.None? && statusMessage.None?
      ensures conflicts.None? && filesWithGitConflicts.None?
      ensures Valid()
    {
      this.id := id;
      patchsetId := None;
      notes := None;
      statusCode := None;
      statusMessage := None;
      conflicts := None;
      filesWithGitConflicts := None;
    }

    method SetStatusCode(code: Option<CommitMergeStatus>)
      requires Valid()
      modifies this
      ensures Valid() && statusCode == code
      ensures patchsetId == old(patchsetId) && notes == old(notes) && statusMessage == old(statusMessage)
      ensures conflicts == old(conflicts) && filesWithGitConflicts == old(filesWithGitConflicts)
    {
      statusCode := code;
    }

    /** `setStatusMessage(m)`: `Optional.ofNullable(m)`. */
    method SetStatusMessage(m: Option<string>)
      requires Valid()
      modifies this
      ensures Valid() && statusMessage == m
      ensures patchsetId == old(patchsetId) && notes == old(notes) && statusCode == old(statusCode)
      ensures conflicts == old(conflicts) && filesWithGitConflicts == old(filesWithGitConflicts)
    {
      statusMessage := m;
    }

    method SetNoConflictsForNonMergeCommit()
      requires Valid()
      modifies this
      ensures Valid() && conflicts == Some(NON_MERGE_CONFLICTS)
      ensures patchsetId == old(patchsetId) && notes == old(notes) && statusCode == old(statusCode)
      ensures statusMessage == old(statusMessage) && filesWithGitConflicts == old(filesWithGitConflicts)
    {
      conflicts := Some(NON_MERGE_CONFLICTS);
    }

    /** `setConflicts`: the file set is replaced only by a non-empty one. */
    method SetConflicts(base: ObjectId, ours: ObjectId, theirs: ObjectId, strategy: string,
                        files: Option<set<string>>)
      requires Valid()
      modifies this
      ensures Valid()
      ensures conflicts == Some(MergeConflicts(base, ours, theirs, strategy, files))
      ensures filesWithGitConflicts == if HasFiles(files) then files else old(filesWithGitConflicts)
      ensures patchsetId == old(patchsetId) && notes == old(notes) && statusCode == old(statusCode)
      ensures statusMessage == old(statusMessage)
    {
      conflicts := Some(MergeConflicts(base, ours, theirs, strategy, files));
      if HasFiles(files) {
        filesWithGitConflicts := files;
      }
    }

    /** `setConflictsBaseNotAvailable`: as `setConflicts`, without a base. */
    method SetConflictsBaseNotAvailable(ours: ObjectId, theirs: ObjectId, strategy: string,
                                        reason: NoMergeBaseReason, files: Option<set<string>>)
      requires Valid()
      modifies this
      ensures Valid()
      ensures conflicts == Some(NoBaseConflicts(ours, theirs, strategy, reason, files))
      ensures filesWithGitConflicts == if HasFiles(files) then files else old(filesWithGitConflicts)
      ensures patchsetId == old(patchsetId) && notes == old(notes) && statusCode == old(statusCode)
      ensures statusMessage == old(statusMessage)
    {
      conflicts := Some(NoBaseConflicts(ours, theirs, strategy, reason, files));
      if HasFiles(files) {
        filesWithGitConflicts := files;
      }
    }

    /** `getFilesWithGitConflicts`: the stored set, empty while unset. */
    function GetFilesWithGitConflicts(): (files: set<string>)
      reads this
      ensures filesWithGitConflicts.None? ==> files == {}
      ensures filesWithGitConflicts.Some? ==> files == filesWithGitConflicts.value
    {
      if filesWithGitConflicts.Some? then filesWithGitConflicts.value else {}
    }

    /** Whenever conflicts are recorded as present, some file carries conflict markers. */
    lemma ConflictsHaveFiles()
      requires Valid()
      ensures conflicts.Some? && conflicts.value.containsConflicts ==> GetFilesWithGitConflicts() != {}
    {
    }

    method SetPatchsetId(ps: Option<PatchSetId>)
      requires Valid()
      modifies this
      ensures Valid() && patchsetId == ps
      ensures notes == old(notes) && statusCode == old(statusCode) && statusMessage == old(statusMessage)
      ensures conflicts == old(conflicts) && filesWithGitConflicts == old(filesWithGitConflicts)
    {
      patchsetId := ps;
    }

    method SetNotes(n: Option<ChangeNotes>)
      requires Valid()
      modifies this
      ensures Valid() && notes == n
      ensures patchsetId == old(patchsetId) && statusCode == old(statusCode)
      ensures statusMessage == old(statusMessage)
      ensures conflicts == old(conflicts) && filesWithGitConflicts == old(filesWithGitConflicts)
    {
      notes := n;
    }

    /** `copyFrom(src)`: notes, patch set and status code, and nothing else. */
    method CopyFrom(src: CodeReviewCommit)
      requires Valid()
      modifies this
      ensures Valid()
      ensures notes == old(src.notes) && patchsetId == old(src.patchsetId) && statusCode == old(src.statusCode)
      ensures statusMessage == old(statusMessage) && conflicts == old(conflicts)
      ensures filesWithGitConflicts == old(filesWithGitConflicts)
    {
      notes := src.notes;
      patchsetId := src.patchsetId;
      statusCode := src.statusCode;
    }
  }
}
