/** Access control for one user looking at one change: visibility (with the extra rules for private
    changes), the change permissions derived from ref, project and owner rights, and the per-change
    permission backend that checks, tests and caches label ranges. */
module ChangeControls {
  import opened Common

  /** The kinds of `CurrentUser` this class tells apart. */
  datatype User = IdentifiedUser(accountId: int) | InternalUser | OtherUser

  /** The ref permissions asked of `refControl.asForRef().testOrFalse`. */
  datatype RefPermission = READ | CREATE_CHANGE

  /** The access-section permission names asked of `refControl.canPerform`. */
  datatype Permission =
    | ABANDON | EDIT_TOPIC_NAME | EDIT_HASHTAGS | VIEW_PRIVATE_CHANGES
    | TOGGLE_WORK_IN_PROGRESS_STATE | REMOVE_REVIEWER | SUBMIT_AS

  datatype ChangePermission =
    | READ | ABANDON | DELETE | ADD_PATCH_SET | EDIT_DESCRIPTION | EDIT_HASHTAGS
    | EDIT_CUSTOM_KEYED_VALUES | EDIT_TOPIC_NAME | REBASE | REBASE_ON_BEHALF_OF_UPLOADER
    | RESTORE | REVERT | SUBMIT | TOGGLE_WORK_IN_PROGRESS_STATE | REMOVE_REVIEWER | SUBMIT_AS

  /** A label vote range; `0..0` counts as empty. */
  datatype PermissionRange = PermissionRange(min: int, max: int) {
    predicate IsEmpty() {
      min == 0 && max == 0
    }
    predicate Contains(value: int) {
      min <= value <= max
    }
  }

  datatype ForUser = SELF | ON_BEHALF_OF

  /** What `check`/`test` accept: a change permission, a label permission, or a label permission with a
      vote value. `name` is the label permission's name as `labelPermissionName` gives it. */
  datatype ChangePermissionOrLabel =
    | Change(perm: ChangePermission)
    | Label(name: string, forUser: ForUser)
    | LabelWithValue(name: string, forUser: ForUser, value: int)

  /** The answers of the ref control (and of its project control) this class consults. */
  datatype RefControl = RefControl(
    user: User,
    isOwner: bool,
    projectIsOwner: bool,
    projectIsAdmin: bool,
    canPerform: Permission -> bool,
    testOrFalse: RefPermission -> bool,
    canSubmit: bool -> bool,
    canRebase: bool,
    canRevert: bool,
    canAddPatchSet: bool,
    canForceEditTopicName: bool -> bool,
    canDeleteChanges: bool -> bool,
    getRange: (string, bool) -> PermissionRange)

  /** What the change data answers: owner, status, privacy and the reviewers. */
  datatype ChangeFacts = ChangeFacts(owner: int, isNew: bool, isPrivate: bool, reviewers: set<int>)

  datatype ChangeControl = ChangeControl(ref: RefControl, change: ChangeFacts)

  // ---------------------------------------------------------------------------
  // The predicates of `ChangeControl`

  /** `isOwner`: only an identified user whose account owns the change. */
  predicate IsOwner(c: ChangeControl)
  {
    c.ref.user.IdentifiedUser? && c.ref.user.accountId == c.change.owner
  }

  lemma OnlyIdentifiedOwnerIsOwner(c: ChangeControl)
    ensures IsOwner(c) <==> exists id :: c.ref.user == IdentifiedUser(id) && id == c.change.owner
  {
    if IsOwner(c) {
      assert c.ref.user == IdentifiedUser(c.change.owner);
    }
  }

  predicate IsReviewer(c: ChangeControl) {
    c.ref.user.IdentifiedUser? && c.ref.user.accountId in c.change.reviewers
  }

  /** `isPrivateVisible`: the first applicable reason wins. */
  predicate IsPrivateVisible(c: ChangeControl) {
    if c.ref.projectIsAdmin then true
    else if IsOwner(c) then true
    else if IsReviewer(c) then true
    else if c.ref.canPerform(Permission.VIEW_PRIVATE_CHANGES) then true
    else c.ref.user.InternalUser?
  }

  predicate IsVisible(c: ChangeControl) {
    if c.change.isPrivate && !IsPrivateVisible(c) then false
    else c.ref.testOrFalse(RefPermission.READ)
  }

  predicate CanAbandon(c: ChangeControl) {
    || IsOwner(c)
    || c.ref.isOwner
    || c.ref.projectIsOwner
    || c.ref.canPerform(Permission.ABANDON)
    || c.ref.projectIsAdmin
  }

  predicate CanRebaseOnBehalfOfUploader(c: ChangeControl) {
    IsOwner(c) || c.ref.canSubmit(IsOwner(c)) || c.ref.canRebase
  }

  predicate CanRebase(c: ChangeControl) {
    CanRebaseOnBehalfOfUploader(c) && c.ref.testOrFalse(RefPermission.CREATE_CHANGE)
  }

  predicate CanRestore(c: ChangeControl) {
    CanAbandon(c) && c.ref.testOrFalse(RefPermission.CREATE_CHANGE)
  }

  predicate CanRevert(c: ChangeControl) {
    c.ref.canRevert && c.ref.testOrFalse(RefPermission.CREATE_CHANGE)
  }

  predicate CanAddPatchSet(c: ChangeControl) {
    if !c.ref.testOrFalse(RefPermission.CREATE_CHANGE) then false
    else if IsOwner(c) then true
    else c.ref.canAddPatchSet
  }

  predicate CanEditTopicName(c: ChangeControl) {
    if c.change.isNew then
      || IsOwner(c)
      || c.ref.isOwner
      || c.ref.projectIsOwner
      || c.ref.canPerform(Permission.EDIT_TOPIC_NAME)
      || c.ref.projectIsAdmin
    else
      c.ref.canForceEditTopicName(IsOwner(c))
  }

  predicate CanToggleWorkInProgressState(c: ChangeControl) {
    || IsOwner(c)
    || c.ref.projectIsOwner
    || c.ref.canPerform(Permission.TOGGLE_WORK_IN_PROGRESS_STATE)
    || c.ref.projectIsAdmin
  }

  predicate CanEditDescription(c: ChangeControl) {
    if c.change.isNew then
      IsOwner(c) || c.ref.isOwner || c.ref.projectIsOwner || c.ref.projectIsAdmin
    else
      false
  }

  predicate CanEditHashtags(c: ChangeControl) {
    || IsOwner(c)
    || c.ref.isOwner
    || c.ref.projectIsOwner
    || c.ref.canPerform(Permission.EDIT_HASHTAGS)
    || c.ref.projectIsAdmin
  }

  predicate CanEditCustomKeyedValues(c: ChangeControl) {
    IsOwner(c) || c.ref.projectIsAdmin
  }

  /** `ForChangeImpl.can(ChangePermission)`. */
  predicate CanChange(c: ChangeControl, p: ChangePermission) {
    match p
    case READ => IsVisible(c)
    case ABANDON => CanAbandon(c)
    case DELETE => c.ref.projectIsAdmin || c.ref.canDeleteChanges(IsOwner(c))
    case ADD_PATCH_SET => CanAddPatchSet(c)
    case EDIT_DESCRIPTION => CanEditDescription(c)
    case EDIT_HASHTAGS => CanEditHashtags(c)
    case EDIT_CUSTOM_KEYED_VALUES => CanEditCustomKeyedValues(c)
    case EDIT_TOPIC_NAME => CanEditTopicName(c)
    case REBASE => CanRebase(c)
    case REBASE_ON_BEHALF_OF_UPLOADER => CanRebaseOnBehalfOfUploader(c)
    case RESTORE => CanRestore(c)
    case REVERT => CanRevert(c)
    case SUBMIT => c.ref.canSubmit(IsOwner(c))
    case TOGGLE_WORK_IN_PROGRESS_STATE => CanToggleWorkInProgressState(c)
    case REMOVE_REVIEWER => c.ref.canPerform(Permission.REMOVE_REVIEWER)
    case SUBMIT_AS => c.ref.canPerform(Permission.SUBMIT_AS)
  }

  /** The range `getRange` gives a label permission for this user. */
  function Range(c: ChangeControl, permission: string): PermissionRange {
    c.ref.getRange(permission, IsOwner(c))
  }

  /** `ForChangeImpl.can` for any permission or label, with the label range taken from `getRange`. */
  predicate Can(c: ChangeControl, p: ChangePermissionOrLabel) {
    match p
    case Change(perm) => CanChange(c, perm)
    case Label(name, _) => !Range(c, name).IsEmpty()
    case LabelWithValue(name, forUser, value) =>
      if forUser == ON_BEHALF_OF && Range(c, name).IsEmpty() then false
      else Range(c, name).Contains(value)
  }

  // ---------------------------------------------------------------------------
  // What the predicates promise

  /** Whoever may restore may abandon, and also has CREATE_CHANGE on the ref. */
  lemma RestoreImpliesAbandon(c: ChangeControl)
    ensures CanChange(c, ChangePermission.RESTORE) <==>
      CanChange(c, ChangePermission.ABANDON) && c.ref.testOrFalse(RefPermission.CREATE_CHANGE)
  {
  }

  /** Adding a patch set needs CREATE_CHANGE even for the owner, and the owner needs nothing more. */
  lemma AddPatchSetNeedsCreateChange(c: ChangeControl)
    ensures CanChange(c, ChangePermission.ADD_PATCH_SET) ==> c.ref.testOrFalse(RefPermission.CREATE_CHANGE)
    ensures IsOwner(c) ==>
      (CanChange(c, ChangePermission.ADD_PATCH_SET) <==> c.ref.testOrFalse(RefPermission.CREATE_CHANGE))
    ensures !IsOwner(c) ==>
      (CanChange(c, ChangePermission.ADD_PATCH_SET) <==>
        c.ref.testOrFalse(RefPermission.CREATE_CHANGE) && c.ref.canAddPatchSet)
  {
  }

  /** Users that are not identified never own the change, so owner-only rights never reach them. */
  lemma NonIdentifiedNeverOwner(c: ChangeControl)
    requires !c.ref.user.IdentifiedUser?
    ensures !IsOwner(c)
    ensures CanEditCustomKeyedValues(c) <==> c.ref.projectIsAdmin
    ensures CanAddPatchSet(c) <==> c.ref.testOrFalse(RefPermission.CREATE_CHANGE) && c.ref.canAddPatchSet
  {
  }

  /** On a closed change nobody edits the description, and topic editing is only the forced kind. */
  lemma ClosedChangeEditing(c: ChangeControl)
    requires !c.change.isNew
    ensures !CanChange(c, ChangePermission.EDIT_DESCRIPTION)
    ensures CanChange(c, ChangePermission.EDIT_TOPIC_NAME) <==> c.ref.canForceEditTopicName(IsOwner(c))
  {
  }

  /** Visibility is READ on the ref, and for a private change additionally one of the listed reasons. */
  lemma VisibilityRules(c: ChangeControl)
    ensures !c.change.isPrivate ==> (CanChange(c, ChangePermission.READ) <==> c.ref.testOrFalse(RefPermission.READ))
    ensures c.change.isPrivate ==>
      (CanChange(c, ChangePermission.READ) <==>
        c.ref.testOrFalse(RefPermission.READ)
        && (|| c.ref.projectIsAdmin
            || IsOwner(c)
            || IsReviewer(c)
            || c.ref.canPerform(Permission.VIEW_PRIVATE_CHANGES)
            || c.ref.user.InternalUser?))
  {
  }

  /** On behalf of someone an empty range refuses every value; for oneself it is the plain range test,
      so a `0..0` range accepts the value 0. */
  lemma LabelValueRule(c: ChangeControl, name: string, value: int)
    ensures !Can(c, LabelWithValue(name, ON_BEHALF_OF, value)) <==>
      Range(c, name).IsEmpty() || !Range(c, name).Contains(value)
    ensures Can(c, LabelWithValue(name, SELF, value)) <==> Range(c, name).Contains(value)
    ensures Range(c, name).IsEmpty() ==> Can(c, LabelWithValue(name, SELF, 0)) && !Can(c, LabelWithValue(name, ON_BEHALF_OF, 0))
  {
  }

  // ---------------------------------------------------------------------------
  // The permission backend for one change

  function NotPermittedMessage(description: string, hint: Option<string>): string {
    description + " not permitted" + (if hint.Some? then " (" + hint.value + ")" else "")
  }

  /** The label permission names among `perms`. */
  function LabelNames(perms: seq<ChangePermissionOrLabel>): set<string> {
    set i | 0 <= i < |perms| && !perms[i].Change? :: perms[i].name
  }

  /** The members of `perms` that `Can` accepts. */
  function Accepted(c: ChangeControl, perms: seq<ChangePermissionOrLabel>): set<ChangePermissionOrLabel> {
    set i | 0 <= i < |perms| && Can(c, perms[i]) :: perms[i]
  }

  lemma AcceptedMembers(c: ChangeControl, perms: seq<ChangePermissionOrLabel>, p: ChangePermissionOrLabel)
    ensures p in Accepted(c, perms) <==> p in perms && Can(c, p)
  {
    if p in perms && Can(c, p) {
      var i :| 0 <= i < |perms| && perms[i] == p;
      assert p in Accepted(c, perms);
    }
  }

  lemma AcceptedStep(c: ChangeControl, perms: seq<ChangePermissionOrLabel>, i: nat)
    requires i < |perms|
    ensures Accepted(c, perms[..i + 1]) == Accepted(c, perms[..i]) + (if Can(c, perms[i]) then {perms[i]} else {})
    ensures LabelNames(perms[..i + 1]) == LabelNames(perms[..i]) + (if perms[i].Change? then {} else {perms[i].name})
  {
    var pre := perms[..i];
    var cur := perms[..i + 1];
    assert forall k :: 0 <= k < i ==> cur[k] == pre[k];
    assert cur[i] == perms[i];
  }

  /** `ForChangeImpl`: the permission backend of one change, caching label ranges by permission name. */
  class ForChange {
    const control: ChangeControl
    var labels: map<string, PermissionRange>

    /** Every cached range is the one `getRange` gives. */
    ghost predicate Valid()
      reads this
    {
      forall k :: k in labels ==> labels[k] == Range(control, k)
    }

    constructor (control: ChangeControl)
      ensures this.control == control && labels == map[]
      ensures Valid()
    {
      this.control := control;
      labels := map[];
    }

    /** `label`: the cached range for `permission`, computed and cached on first use. */
    method Label(permission: string) returns (r: PermissionRange)
      requires Valid()
      modifies this
      ensures Valid()
      ensures r == Range(control, permission)
      ensures labels == old(labels)[permission := r]
    {
      if permission in labels {
        r := labels[permission];
      } else {
        r := control.ref.getRange(permission, IsOwner(control));
        labels := labels[permission := r];
      }
    }

    /** `can`: the answer of `Can`, caching the range of a label permission. */
    method CanDo(p: ChangePermissionOrLabel) returns (b: bool)
      requires Valid()
      modifies this
      ensures Valid()
      ensures b == Can(control, p)
      ensures p.Change? ==> labels == old(labels)
      ensures !p.Change? ==> labels.Keys == old(labels).Keys + {p.name}
    {
      match p {
        case Change(perm) =>
          b := CanChange(control, perm);
        case Label(name, _) =>
          var r := Label(name);
          b := !r.IsEmpty();
        case LabelWithValue(name, forUser, value) =>
          var r := Label(name);
          if forUser == ON_BEHALF_OF && r.IsEmpty() {
            b := false;
          } else {
            b := r.Contains(value);
          }
      }
    }

    /** `check`: refuses exactly what `can` refuses, naming the permission and its hint. */
    method Check(p: ChangePermissionOrLabel, description: string, hint: Option<string>) returns (r: Result<(), string>)
      requires Valid()
      modifies this
      ensures Valid()
      ensures r.Ok? <==> Can(control, p)
      ensures r.Err? ==> r.error == NotPermittedMessage(description, hint)
      ensures p.Change? ==> labels == old(labels)
      ensures !p.Change? ==> labels.Keys == old(labels).Keys + {p.name}
    {
      var ok := CanDo(p);
      if !ok {
        return Err(NotPermittedMessage(description, hint));
      }
      return Ok(());
    }

    /** `test`: the subset of `perms` that `can` accepts. */
    method Test(perms: seq<ChangePermissionOrLabel>) returns (ok: set<ChangePermissionOrLabel>)
      requires Valid()
      modifies this
      ensures Valid()
      ensures ok == Accepted(control, perms)
      ensures forall p :: p in ok <==> p in perms && Can(control, p)
      ensures labels.Keys == old(labels).Keys + LabelNames(perms)
    {
      ok := {};
      for i := 0 to |perms|
        invariant Valid()
        invariant ok == Accepted(control, perms[..i])
        invariant labels.Keys == old(labels).Keys + LabelNames(perms[..i])
      {
        AcceptedStep(control, perms, i);
        var b := CanDo(perms[i]);
        if b {
          ok := ok + {perms[i]};
        }
      }
      assert perms[..|perms|] == perms;
      forall p
        ensures p in ok <==> p in perms && Can(control, p)
      {
        AcceptedMembers(control, perms, p);
      }
    }
  }
}
