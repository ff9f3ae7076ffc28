/** The conversion of a patch set to and from its protocol-buffer form: fields that every patch set
    has are always written, optional ones keep their presence, an empty group list is not written,
    and a proto missing a field the entity needs reads back with a sentinel in its place. */
module PatchSetProtos {
  import opened Common
  import Change
  import DiffOperations

  type ObjectId = DiffOperations.ObjectId

  /** `Instant`, as nanoseconds since the epoch. */
  type Instant = int

  const NANOS_PER_MILLI: nat := 1_000_000

  /** `Instant.toEpochMilli`: the milliseconds rounded down. */
  function ToEpochMilli(t: Instant): int {
    t / NANOS_PER_MILLI
  }

  /** `Instant.ofEpochMilli`. */
  function OfEpochMilli(ms: int): Instant {
    ms * NANOS_PER_MILLI
  }

  /** `Instant.EPOCH`. */
  const EPOCH: Instant := 0

  /** `Account.id(0)`, the uploader of a proto that names none. */
  const NO_ACCOUNT: int := 0

  /** The group list is stored as one comma-separated string. */
  const GROUP_SEPARATOR: char := ','

  /** `PatchSet.Conflicts`: the two sides of a conflicting rebase or merge and whether it left
      conflicts. */
  datatype Conflicts = Conflicts(ours: Option<ObjectId>, theirs: Option<ObjectId>, containsConflicts: bool)

  /** `PatchSet`. */
  datatype PatchSet = PatchSet(
    id: Change.PatchSetId,
    commitId: ObjectId,
    uploader: int,
    realUploader: int,
    createdOn: Instant,
    branch: Option<string>,
    groups: seq<string>,
    pushCertificate: Option<string>,
    description: Option<string>,
    conflicts: Option<Conflicts>)

  /** `Entities.PatchSet`: every field may be absent. */
  datatype PatchSetProto = PatchSetProto(
    id: Option<Change.PatchSetId>,
    commitId: Option<ObjectId>,
    uploaderAccountId: Option<int>,
    realUploaderAccountId: Option<int>,
    createdOn: Option<int>,
    branch: Option<string>,
    groups: Option<string>,
    pushCertificate: Option<string>,
    description: Option<string>,
    conflicts: Option<Conflicts>)

  /** The id read from a proto without one: its default instance, change 0 and patch set 0. */
  const DEFAULT_ID := Change.PatchSetId(0, 0)

  /** `PatchSet.joinGroups`, which is not part of this model: taken to join the groups with commas.
      Groups holding a comma are kept out of the round trip by its precondition. */
  function JoinGroups(groups: seq<string>): string {
    Join(groups, [GROUP_SEPARATOR])
  }

  /** `PatchSet.splitGroups`, which is not part of this model: taken to split at every comma. */
  function SplitGroups(joined: string): seq<string> {
    SplitOn(joined, GROUP_SEPARATOR)
  }

  function ToProto(ps: PatchSet): (r: PatchSetProto)
    ensures r.id == Some(ps.id) && r.commitId == Some(ps.commitId)
    ensures r.uploaderAccountId == Some(ps.uploader) && r.realUploaderAccountId == Some(ps.realUploader)
    ensures r.createdOn == Some(ToEpochMilli(ps.createdOn))
    ensures r.groups.None? <==> ps.groups == []
    ensures r.branch == ps.branch && r.pushCertificate == ps.pushCertificate
    ensures r.description == ps.description && r.conflicts == ps.conflicts
  {
    PatchSetProto(
      Some(ps.id), Some(ps.commitId), Some(ps.uploader), Some(ps.realUploader),
      Some(ToEpochMilli(ps.createdOn)), ps.branch,
      if ps.groups != [] then Some(JoinGroups(ps.groups)) else None,
      ps.pushCertificate, ps.description, ps.conflicts)
  }

  function FromProto(p: PatchSetProto): (r: PatchSet)
    ensures r.uploader == (if p.uploaderAccountId.Some? then p.uploaderAccountId.value else NO_ACCOUNT)
    ensures r.realUploader == (if p.realUploaderAccountId.Some? then p.realUploaderAccountId.value else r.uploader)
    ensures r.commitId == (if p.commitId.Some? then p.commitId.value else DiffOperations.ZERO_ID)
    ensures r.createdOn == (if p.createdOn.Some? then OfEpochMilli(p.createdOn.value) else EPOCH)
    ensures r.groups == [] <==> p.groups.None?
    ensures r.branch == p.branch && r.pushCertificate == p.pushCertificate
    ensures r.description == p.description && r.conflicts == p.conflicts
  {
    var uploader := if p.uploaderAccountId.Some? then p.uploaderAccountId.value else NO_ACCOUNT;
    PatchSet(
      if p.id.Some? then p.id.value else DEFAULT_ID,
      if p.commitId.Some? then p.commitId.value else DiffOperations.ZERO_ID,
      uploader,
      if p.realUploaderAccountId.Some? then p.realUploaderAccountId.value else uploader,
      if p.createdOn.Some? then OfEpochMilli(p.createdOn.value) else EPOCH,
      p.branch,
      if p.groups.Some? then SplitGroups(p.groups.value) else [],
      p.pushCertificate, p.description, p.conflicts)
  }

  /** A patch set survives the round trip through its proto when its creation time is a whole number
      of milliseconds and none of its groups holds a comma. */
  lemma RoundTrip(ps: PatchSet)
    requires ps.createdOn % NANOS_PER_MILLI == 0
    requires forall i :: 0 <= i < |ps.groups| ==> GROUP_SEPARATOR !in ps.groups[i]
    ensures FromProto(ToProto(ps)) == ps
  {
    if ps.groups != [] {
      SplitJoin(ps.groups, GROUP_SEPARATOR);
    }
  }

  /** A creation time finer than a millisecond is lost in the proto: one nanosecond after the epoch
      reads back as the epoch. */
  lemma RoundTripLosses()
    ensures var ps := PatchSet(DEFAULT_ID, DiffOperations.ZERO_ID, 1, 1, 1, None, [], None, None, None);
      FromProto(ToProto(ps)).createdOn == EPOCH
  {
  }

  /** A proto that holds every field a patch set always has survives the trip through the entity;
      present groups are written back exactly as they were read. */
  lemma ProtoRoundTrip(p: PatchSetProto)
    requires p.id.Some? && p.commitId.Some? && p.uploaderAccountId.Some?
    requires p.realUploaderAccountId.Some? && p.createdOn.Some?
    ensures ToProto(FromProto(p)) == p
  {
    if p.groups.Some? {
      JoinSplitOn(p.groups.value, GROUP_SEPARATOR);
    }
  }

  /** A proto holding only an id reads back with every sentinel in place. */
  lemma Sentinels(id: Change.PatchSetId)
    ensures var ps := FromProto(PatchSetProto(Some(id), None, None, None, None, None, None, None, None, None));
      ps == PatchSet(id, DiffOperations.ZERO_ID, NO_ACCOUNT, NO_ACCOUNT, EPOCH, None, [], None, None, None)
  {
  }
}
