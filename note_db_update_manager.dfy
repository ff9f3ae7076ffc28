/**
 * A one-time-use manager of NoteDb updates: change updates, draft updates,
 * history rewriters and change deletions are collected per ref, checked for
 * conflicts, and staged into ref commands of the change repository when the
 * manager is executed.
 */
module NoteDbUpdates {
  import opened Common
  import Change
  import CodeReviewCommits

  type ObjectId = CodeReviewCommits.ObjectId

  /** `ObjectId.zeroId()`. */
  const ZERO_ID: ObjectId := CodeReviewCommits.ObjectId("0000000000000000000000000000000000000000")

  const ALREADY_EXECUTED: string := "update has already been executed"
  const REPO_ALREADY_INITIALIZED: string := "change repo already initialized"
  const CANNOT_REWRITE_HISTORY: string := "Cannot rewrite commit history"

  function OtherProjectMessage(updateProject: string, projectName: string): string {
    "update for project " + updateProject + " cannot be added to manager for project " + projectName
  }

  function UpdateAndRewriteMessage(ref: string): string {
    "cannot update & rewrite ref " + ref + " in one BatchUpdate"
  }

  function RewriteTwiceMessage(ref: string): string {
    "cannot rewrite the same ref " + ref + " in one BatchUpdate"
  }

  function EmptyRefMessage(ref: string): string {
    "Ref " + ref + " is empty"
  }

  /** The exceptions the manager throws: `checkState`, `checkArgument` and `StorageException`. */
  datatype Failure = IllegalState(message: string) | IllegalArgument(message: string) | Storage(message: string)

  /** `RefNames.changeMetaRef`: the meta ref of a change. */
  function ChangeMetaRef(id: int): string {
    Change.ToRefPrefix(id) + "meta"
  }

  // ---- Ref commands ----------------------------------------------------------

  datatype ReceiveCommand = ReceiveCommand(oldId: ObjectId, newId: ObjectId, refName: string)

  /** The commands of an open repository: the ref values read from it and the commands queued so far. */
  datatype Commands = Commands(refs: map<string, ObjectId>, queued: seq<ReceiveCommand>)

  /** The newest queued command for a ref. */
  function LastCommandFor(queued: seq<ReceiveCommand>, ref: string): (r: Option<ReceiveCommand>)
    ensures r.Some? ==> r.value in queued && r.value.refName == ref
    ensures r.None? <==> forall i :: 0 <= i < |queued| ==> queued[i].refName != ref
    decreases |queued|
  {
    if queued == [] then None
    else if queued[|queued| - 1].refName == ref then Some(queued[|queued| - 1])
    else LastCommandFor(queued[..|queued| - 1], ref)
  }

  /** `cmds.get(ref)`: the value the ref will have, by its newest command or else by the repository. */
  function Get(c: Commands, ref: string): Option<ObjectId> {
    match LastCommandFor(c.queued, ref)
    case Some(cmd) => if cmd.newId == ZERO_ID then None else Some(cmd.newId)
    case None => if ref in c.refs then Some(c.refs[ref]) else None
  }

  /** `cmds.add(cmd)`. */
  function Queue(c: Commands, cmd: ReceiveCommand): (r: Commands)
    ensures r.refs == c.refs && r.queued == c.queued + [cmd]
  {
    c.(queued := c.queued + [cmd])
  }

  /** After queueing, `get` answers with the new command for its ref and as before for the others. */
  lemma GetAfterQueue(c: Commands, cmd: ReceiveCommand, ref: string)
    ensures ref == cmd.refName ==>
      Get(Queue(c, cmd), ref) == if cmd.newId == ZERO_ID then None else Some(cmd.newId)
    ensures ref != cmd.refName ==> Get(Queue(c, cmd), ref) == Get(c, ref)
  {
    assert Queue(c, cmd).queued[..|Queue(c, cmd).queued| - 1] == c.queued;
  }

  /** `hasCommands`: an open repository with queued commands. */
  predicate HasCommands(repo: Option<Commands>) {
    repo.Some? && repo.value.queued != []
  }

  // ---- Updates and rewriters ---------------------------------------------------

  datatype DraftUpdate = DraftUpdate(storageKey: string, id: nat)

  /** A history rewriter for a ref; `id` tells rewriters for the same ref apart. */
  datatype Rewriter = Rewriter(refName: string, id: nat)

  /** A change update with what it carries: a draft update and the two kinds of delete rewriters. */
  datatype ChangeUpdate = ChangeUpdate(projectName: string, refName: string, id: nat,
                                       draftUpdate: Option<DraftUpdate>,
                                       deleteCommentRewriter: Option<Rewriter>,
                                       deleteChangeMessageRewriter: Option<Rewriter>)

  /** `rewriteCommitHistory`: a new tip, `null` to keep the tip, or a `ConfigInvalidException`. */
  datatype RewriteStep = NewTip(tip: ObjectId) | KeepTip | ConfigInvalid

  /** `multimap.put(k, v)`: append to the values of `k`. */
  function Put<V>(m: map<string, seq<V>>, k: string, v: V): (r: map<string, seq<V>>)
    ensures r.Keys == m.Keys + {k}
    ensures r[k] == (if k in m then m[k] else []) + [v]
    ensures forall k' :: k' in m && k' != k ==> r[k'] == m[k']
  {
    m[k := (if k in m then m[k] else []) + [v]]
  }

  /** The draft executor: the draft updates queued on it and the changes whose drafts it deletes. */
  datatype DraftExecutor = DraftExecutor(updates: map<string, seq<DraftUpdate>>, deletions: seq<int>)

  const NEW_DRAFT_EXECUTOR: DraftExecutor := DraftExecutor(map[], [])

  /** The state of a manager. */
  datatype State = State(
    changeUpdates: map<string, seq<ChangeUpdate>>,
    draftUpdates: map<string, seq<DraftUpdate>>,
    rewriters: map<string, seq<Rewriter>>,
    changesToDelete: set<int>,
    changeRepo: Option<Commands>,
    executed: bool,
    draftExecutor: Option<DraftExecutor>)

  /** `isEmpty`: nothing to update, rewrite, delete or execute. */
  predicate IsEmptyState(s: State) {
    s.changeUpdates == map[] && s.draftUpdates == map[] && s.rewriters == map[] &&
    s.changesToDelete == {} && !HasCommands(s.changeRepo) &&
    (s.draftExecutor.None? || (s.draftExecutor.value.updates == map[] && s.draftExecutor.value.deletions == []))
  }

  /** `allowNonFastForwards`: draft refs and rewritten histories are not fast-forwards. */
  predicate AllowNonFastForwardsState(s: State) {
    s.draftUpdates != map[] || s.rewriters != map[]
  }

  /**
   * What `add` keeps true of the refs: no multimap holds a key without
   * values, every rewritten ref has a single rewriter, and a ref both updated
   * and rewritten has a single update, the one that brought the rewriter.
   */
  predicate RefsValid(s: State) {
    (forall r :: r in s.changeUpdates ==> s.changeUpdates[r] != []) &&
    (forall r :: r in s.draftUpdates ==> s.draftUpdates[r] != []) &&
    (forall r :: r in s.rewriters ==> |s.rewriters[r]| == 1) &&
    (forall r :: r in s.changeUpdates && r in s.rewriters ==> |s.changeUpdates[r]| == 1)
  }

  // ---- add, deleteChange, setChangeRepo on values ---------------------------------

  /** The checks and the `put` of one delete rewriter of `add`. */
  function AddRewriter(s: State, rw: Option<Rewriter>): (State, Option<Failure>) {
    if rw.None? then (s, None)
    else if rw.value.refName in s.changeUpdates then (s, Some(IllegalArgument(UpdateAndRewriteMessage(rw.value.refName))))
    else if rw.value.refName in s.rewriters then (s, Some(IllegalArgument(RewriteTwiceMessage(rw.value.refName))))
    else (s.(rewriters := Put(s.rewriters, rw.value.refName, rw.value)), None)
  }

  /** The draft update an `add` records before its rewriters are checked. */
  function WithDraft(s: State, du: Option<DraftUpdate>): State {
    if du.Some? then s.(draftUpdates := Put(s.draftUpdates, du.value.storageKey, du.value)) else s
  }

  /**
   * `add(ChangeUpdate)`. The draft update and the first rewriter are
   * recorded before the second rewriter is checked, so a failure there
   * leaves them in place, as the exception does in the source.
   */
  function AddChangeUpdate(s: State, projectName: string, u: ChangeUpdate): (State, Option<Failure>) {
    if s.executed then (s, Some(IllegalState(ALREADY_EXECUTED)))
    else if u.projectName != projectName then (s, Some(IllegalArgument(OtherProjectMessage(u.projectName, projectName))))
    else if u.refName in s.rewriters then (s, Some(IllegalArgument(UpdateAndRewriteMessage(u.refName))))
    else
      var (s1, f1) := AddRewriter(WithDraft(s, u.draftUpdate), u.deleteCommentRewriter);
      if f1.Some? then (s1, f1)
      else
        var (s2, f2) := AddRewriter(s1, u.deleteChangeMessageRewriter);
        if f2.Some? then (s2, f2)
        else (s2.(changeUpdates := Put(s2.changeUpdates, u.refName, u)), None)
  }

  /** `add(ChangeDraftUpdate)`. */
  function AddDraftUpdate(s: State, du: DraftUpdate): (State, Option<Failure>) {
    if s.executed then (s, Some(IllegalState(ALREADY_EXECUTED)))
    else (s.(draftUpdates := Put(s.draftUpdates, du.storageKey, du)), None)
  }

  /** `deleteChange`. */
  function DeleteChangeOn(s: State, id: int): (State, Option<Failure>) {
    if s.executed then (s, Some(IllegalState(ALREADY_EXECUTED)))
    else (s.(changesToDelete := s.changesToDelete + {id}), None)
  }

  /** `setChangeRepo`: only while no repository is open. */
  function SetChangeRepoOn(s: State, repo: Commands): (State, Option<Failure>) {
    if s.changeRepo.Some? then (s, Some(IllegalState(REPO_ALREADY_INITIALIZED)))
    else (s.(changeRepo := Some(repo)), None)
  }

  /** Once executed, `add`, `add` of a draft and `deleteChange` fail and change nothing. */
  lemma ExecutedRejects(s: State, projectName: string, u: ChangeUpdate, du: DraftUpdate, id: int)
    requires s.executed
    ensures AddChangeUpdate(s, projectName, u) == (s, Some(IllegalState(ALREADY_EXECUTED)))
    ensures AddDraftUpdate(s, du) == (s, Some(IllegalState(ALREADY_EXECUTED)))
    ensures DeleteChangeOn(s, id) == (s, Some(IllegalState(ALREADY_EXECUTED)))
  {
  }

  /** An update for another project is rejected and changes nothing. */
  lemma OtherProjectRejected(s: State, projectName: string, u: ChangeUpdate)
    requires !s.executed && u.projectName != projectName
    ensures AddChangeUpdate(s, projectName, u) ==
      (s, Some(IllegalArgument(OtherProjectMessage(u.projectName, projectName))))
  {
  }

  /** A second repository is refused, whatever the first was. */
  lemma SetChangeRepoOnce(s: State, first: Commands, second: Commands)
    requires SetChangeRepoOn(s, first).1.None?
    ensures SetChangeRepoOn(s, first).0.changeRepo == Some(first)
    ensures SetChangeRepoOn(SetChangeRepoOn(s, first).0, second).1 == Some(IllegalState(REPO_ALREADY_INITIALIZED))
  {
  }

  lemma AddRewriterKeepsValid(s: State, rw: Option<Rewriter>)
    requires RefsValid(s)
    ensures RefsValid(AddRewriter(s, rw).0)
    ensures AddRewriter(s, rw).0.changeUpdates == s.changeUpdates
    ensures AddRewriter(s, rw).1.None? && rw.Some? ==>
      rw.value.refName !in s.changeUpdates && rw.value.refName !in s.rewriters &&
      AddRewriter(s, rw).0.rewriters.Keys == s.rewriters.Keys + {rw.value.refName}
    ensures AddRewriter(s, rw).1.Some? || rw.None? ==> AddRewriter(s, rw).0.rewriters == s.rewriters
  {
  }

  /** Recording an update keeps the ref discipline when its ref has no rewriter or no update yet. */
  lemma PutUpdateKeepsValid(s: State, u: ChangeUpdate)
    requires RefsValid(s)
    requires u.refName in s.rewriters ==> u.refName !in s.changeUpdates
    ensures RefsValid(s.(changeUpdates := Put(s.changeUpdates, u.refName, u)))
  {
  }

  /** `add` keeps the ref discipline, whether it succeeds or fails part-way. */
  lemma AddKeepsRefsValid(s: State, projectName: string, u: ChangeUpdate)
    requires RefsValid(s)
    ensures RefsValid(AddChangeUpdate(s, projectName, u).0)
  {
    if !s.executed && u.projectName == projectName && u.refName !in s.rewriters {
      var s0 := WithDraft(s, u.draftUpdate);
      assert RefsValid(s0);
      AddRewriterKeepsValid(s0, u.deleteCommentRewriter);
      var (s1, f1) := AddRewriter(s0, u.deleteCommentRewriter);
      if f1.None? {
        AddRewriterKeepsValid(s1, u.deleteChangeMessageRewriter);
        var (s2, f2) := AddRewriter(s1, u.deleteChangeMessageRewriter);
        if f2.None? {
          assert u.refName in s2.rewriters ==> u.refName !in s2.changeUpdates;
          PutUpdateKeepsValid(s2, u);
        }
      }
    }
  }

  /**
   * A successful `add` found neither an earlier rewriter for the update's
   * ref nor an earlier update or rewriter for the refs of its rewriters.
   */
  lemma AddRejectsBothOrders(s: State, projectName: string, u: ChangeUpdate)
    requires AddChangeUpdate(s, projectName, u).1.None?
    ensures u.refName !in s.rewriters
    ensures u.deleteCommentRewriter.Some? ==>
      u.deleteCommentRewriter.value.refName !in s.changeUpdates &&
      u.deleteCommentRewriter.value.refName !in s.rewriters
    ensures u.deleteChangeMessageRewriter.Some? ==>
      u.deleteChangeMessageRewriter.value.refName !in s.changeUpdates &&
      u.deleteChangeMessageRewriter.value.refName !in s.rewriters
  {
    var s0 := WithDraft(s, u.draftUpdate);
    assert s0.changeUpdates == s.changeUpdates && s0.rewriters == s.rewriters;
    var (s1, f1) := AddRewriter(s0, u.deleteCommentRewriter);
    assert s1.changeUpdates == s.changeUpdates;
    assert s.rewriters.Keys <= s1.rewriters.Keys;
  }

  /** A manager with only an open, commandless repository is empty; any recorded work makes it non-empty. */
  lemma EmptyOnlyWithoutWork(s: State)
    ensures IsEmptyState(s) ==> !AllowNonFastForwardsState(s)
    ensures s.changesToDelete != {} ==> !IsEmptyState(s)
    ensures s.changeUpdates != map[] ==> !IsEmptyState(s)
  {
  }

  // ---- addRewrites ---------------------------------------------------------------

  /** The rewriters of one ref applied left to right; `None` once one throws. */
  function RewriteTips(rewrite: (Rewriter, ObjectId) -> RewriteStep, rs: seq<Rewriter>, tip: ObjectId): Option<ObjectId>
    decreases |rs|
  {
    if rs == [] then Some(tip)
    else match RewriteTips(rewrite, rs[..|rs| - 1], tip)
      case None => None
      case Some(t) =>
        match rewrite(rs[|rs| - 1], t)
        case NewTip(next) => Some(next)
        case KeepTip => Some(t)
        case ConfigInvalid => None
  }

  /** The first rewriter runs on the old tip and the rest on what it returns: the order is left to right. */
  lemma {:induction false} RewriteTipsFirst(rewrite: (Rewriter, ObjectId) -> RewriteStep, r: Rewriter,
                                            rs: seq<Rewriter>, tip: ObjectId)
    ensures RewriteTips(rewrite, [r] + rs, tip) ==
      match rewrite(r, tip)
      case NewTip(next) => RewriteTips(rewrite, rs, next)
      case KeepTip => RewriteTips(rewrite, rs, tip)
      case ConfigInvalid => None
    decreases |rs|
  {
    if rs == [] {
      assert ([r] + rs)[..0] == [];
    } else {
      var init := rs[..|rs| - 1];
      assert ([r] + rs)[..|[r] + rs| - 1] == [r] + init;
      RewriteTipsFirst(rewrite, r, init, tip);
    }
  }

  /** Rewriters that all return `null` keep the tip. */
  lemma {:induction false} RewriteTipsAllKeep(rewrite: (Rewriter, ObjectId) -> RewriteStep, rs: seq<Rewriter>,
                                              tip: ObjectId)
    requires forall i, t :: 0 <= i < |rs| ==> rewrite(rs[i], t) == KeepTip
    ensures RewriteTips(rewrite, rs, tip) == Some(tip)
    decreases |rs|
  {
    if rs != [] {
      var init := rs[..|rs| - 1];
      forall i, t | 0 <= i < |init| ensures rewrite(init[i], t) == KeepTip {
        assert init[i] == rs[i];
      }
      RewriteTipsAllKeep(rewrite, init, tip);
    }
  }

  /** One entry of `addRewrites`: the ref must have a value; a command is queued only if the tip moved. */
  function RewriteRef(rewrite: (Rewriter, ObjectId) -> RewriteStep, ref: string, rs: seq<Rewriter>, c: Commands)
    : (r: Result<Commands, Failure>)
    ensures (Get(c, ref).None? || Get(c, ref) == Some(ZERO_ID)) ==> r == Err(Storage(EmptyRefMessage(ref)))
  {
    var oldTip := if Get(c, ref).Some? then Get(c, ref).value else ZERO_ID;
    if oldTip == ZERO_ID then Err(Storage(EmptyRefMessage(ref)))
    else match RewriteTips(rewrite, rs, oldTip)
      case None => Err(Storage(CANNOT_REWRITE_HISTORY))
      case Some(t) => Ok(if t != oldTip then Queue(c, ReceiveCommand(oldTip, t, ref)) else c)
  }

  /** A successful rewrite queues exactly one command, from the old tip to the new, when the tip moved, and none otherwise. */
  lemma RewriteRefCommand(rewrite: (Rewriter, ObjectId) -> RewriteStep, ref: string, rs: seq<Rewriter>, c: Commands)
    requires RewriteRef(rewrite, ref, rs, c).Ok?
    ensures Get(c, ref).Some? && Get(c, ref).value != ZERO_ID
    ensures RewriteTips(rewrite, rs, Get(c, ref).value).Some?
    ensures var oldTip, newTip := Get(c, ref).value, RewriteTips(rewrite, rs, Get(c, ref).value).value;
      RewriteRef(rewrite, ref, rs, c).value ==
        if newTip != oldTip then Queue(c, ReceiveCommand(oldTip, newTip, ref)) else c
  {
  }

  /** `addRewrites` over the refs in the order given. */
  function RewriteAll(rewrite: (Rewriter, ObjectId) -> RewriteStep, rewriters: map<string, seq<Rewriter>>,
                      order: seq<string>, c: Commands): Result<Commands, Failure>
    requires forall i :: 0 <= i < |order| ==> order[i] in rewriters
    decreases |order|
  {
    if order == [] then Ok(c)
    else match RewriteAll(rewrite, rewriters, order[..|order| - 1], c)
      case Err(f) => Err(f)
      case Ok(c1) => RewriteRef(rewrite, order[|order| - 1], rewriters[order[|order| - 1]], c1)
  }

  /** Some order of a finite set. */
  ghost function SomeOrder<K(!new)>(s: set<K>): (r: seq<K>)
    ensures Enumerates(r, s)
    decreases |s|
  {
    if s == {} then []
    else
      var k :| k in s;
      var rest := SomeOrder(s - {k});
      assert forall i :: 0 <= i < |rest| ==> rest[i] != k;
      rest + [k]
  }

  lemma EnumeratesAppend<K(!new)>(done: seq<K>, rest: seq<K>, remaining: set<K>, keys: set<K>)
    requires (forall i, j :: 0 <= i < j < |done| ==> done[i] != done[j])
    requires forall k :: k in keys <==> k in done || k in remaining
    requires forall k :: k in remaining ==> k !in done
    requires Enumerates(rest, remaining)
    ensures Enumerates(done + rest, keys)
  {
    var all := done + rest;
    forall i, j | 0 <= i < j < |all| ensures all[i] != all[j] {
      if j >= |done| && i < |done| {
        assert all[j] in rest;
      }
    }
  }

  /** `addRewrites`: each ref of the multimap, in the map's iteration order. */
  method AddRewrites(rewriters: map<string, seq<Rewriter>>, repo: Commands,
                     rewrite: (Rewriter, ObjectId) -> RewriteStep)
    returns (r: Result<Commands, Failure>, ghost order: seq<string>)
    ensures Enumerates(order, rewriters.Keys)
    ensures r == RewriteAll(rewrite, rewriters, order, repo)
  {
    var remaining := rewriters.Keys;
    order := [];
    var cmds := repo;
    while remaining != {}
      invariant forall i, j :: 0 <= i < j < |order| ==> order[i] != order[j]
      invariant forall k :: k in rewriters.Keys <==> k in order || k in remaining
      invariant forall k :: k in remaining ==> k !in order
      invariant RewriteAll(rewrite, rewriters, order, repo) == Ok(cmds)
      decreases |remaining|
    {
      var ref :| ref in remaining;
      var next := RewriteRef(rewrite, ref, rewriters[ref], cmds);
      assert (order + [ref])[..|order|] == order;
      order := order + [ref];
      remaining := remaining - {ref};
      if next.Err? {
        ghost var done := order;
        order := order + SomeOrder(remaining);
        EnumeratesAppend(done, SomeOrder(remaining), remaining, rewriters.Keys);
        RewriteAllFailed(rewrite, rewriters, order, |done|, repo);
        return next, order;
      }
      cmds := next.value;
    }
    return Ok(cmds), order;
  }

  /** A failure at some ref is the result of the whole of `addRewrites`. */
  lemma {:induction false} RewriteAllFailed(rewrite: (Rewriter, ObjectId) -> RewriteStep,
                                            rewriters: map<string, seq<Rewriter>>, order: seq<string>, n: nat,
                                            c: Commands)
    requires n <= |order| && forall i :: 0 <= i < |order| ==> order[i] in rewriters
    requires RewriteAll(rewrite, rewriters, order[..n], c).Err?
    ensures RewriteAll(rewrite, rewriters, order, c) == RewriteAll(rewrite, rewriters, order[..n], c)
    decreases |order| - n
  {
    if n < |order| {
      assert order[..n + 1][..n] == order[..n];
      RewriteAllFailed(rewrite, rewriters, order, n + 1, c);
    } else {
      assert order[..n] == order;
    }
  }

  // ---- doDelete --------------------------------------------------------------------

  /** `doDelete`: a delete command only when the meta ref has a value; the drafts are always queued for deletion. */
  function DeleteOne(id: int, c: Commands, drafts: DraftExecutor): (r: (Commands, DraftExecutor))
    ensures Get(c, ChangeMetaRef(id)).None? ==> r.0 == c
    ensures Get(c, ChangeMetaRef(id)).Some? ==>
      r.0 == Queue(c, ReceiveCommand(Get(c, ChangeMetaRef(id)).value, ZERO_ID, ChangeMetaRef(id)))
    ensures r.1.updates == drafts.updates && r.1.deletions == drafts.deletions + [id]
  {
    var metaRef := ChangeMetaRef(id);
    var c' := match Get(c, metaRef)
      case Some(tip) => Queue(c, ReceiveCommand(tip, ZERO_ID, metaRef))
      case None => c;
    (c', drafts.(deletions := drafts.deletions + [id]))
  }

  /** A deleted meta ref reads as absent afterwards. */
  lemma DeletedMetaRefAbsent(id: int, c: Commands, drafts: DraftExecutor)
    ensures Get(DeleteOne(id, c, drafts).0, ChangeMetaRef(id)).None?
  {
    if Get(c, ChangeMetaRef(id)).Some? {
      GetAfterQueue(c, ReceiveCommand(Get(c, ChangeMetaRef(id)).value, ZERO_ID, ChangeMetaRef(id)), ChangeMetaRef(id));
    }
  }

  /** The deletion loop of `addCommands`, in the given order. */
  function DeleteAll(order: seq<int>, c: Commands, drafts: DraftExecutor): (Commands, DraftExecutor)
    decreases |order|
  {
    if order == [] then (c, drafts)
    else
      var (c1, d1) := DeleteAll(order[..|order| - 1], c, drafts);
      DeleteOne(order[|order| - 1], c1, d1)
  }

  lemma Pick<K>(s: set<K>) returns (k: K)
    requires |s| > 0
    ensures k in s
  {
    k :| k in s;
  }

  /** `for (Change.Id id : changesToDelete) doDelete(id)`, in the set's iteration order. */
  method DeleteChanges(ids: set<int>, repo: Commands, drafts: DraftExecutor)
    returns (repo': Commands, drafts': DraftExecutor, ghost order: seq<int>)
    ensures Enumerates(order, ids)
    ensures (repo', drafts') == DeleteAll(order, repo, drafts)
  {
    var remaining := ids;
    order := [];
    repo', drafts' := repo, drafts;
    while |remaining| > 0
      invariant forall i, j :: 0 <= i < j < |order| ==> order[i] != order[j]
      invariant forall k :: k in ids <==> k in order || k in remaining
      invariant forall k :: k in remaining ==> k !in order
      invariant DeleteAll(order, repo, drafts) == (repo', drafts')
      decreases |remaining|
    {
      ghost var someId := Pick(remaining);
      var id :| id in remaining;
      assert (order + [id])[..|order|] == order;
      repo', drafts' := DeleteOne(id, repo', drafts').0, DeleteOne(id, repo', drafts').1;
      order := order + [id];
      remaining := remaining - {id};
    }
  }

  // ---- The manager -------------------------------------------------------------------

  /** What `execute` returns: nothing for an empty manager, or the staged work handed to the executors. */
  datatype Staged = Staged(commands: Commands, allowNonFastForwards: bool, drafts: Option<DraftExecutor>)

  /** `stage` up to the commands, after the repository is open and the draft executor chosen. */
  function StageCommands(s: State, repo: Commands, drafts: Option<DraftExecutor>,
                         addUpdates: (Commands, map<string, seq<ChangeUpdate>>) -> Result<Commands, string>,
                         rewrite: (Rewriter, ObjectId) -> RewriteStep, rewriteOrder: seq<string>,
                         deleteOrder: seq<int>): (Result<Staged, Failure>, Option<DraftExecutor>)
    requires forall i :: 0 <= i < |rewriteOrder| ==> rewriteOrder[i] in s.rewriters
    requires Enumerates(deleteOrder, s.changesToDelete)
    requires (s.draftUpdates != map[] || s.changesToDelete != {}) ==> drafts.Some?
  {
    match addUpdates(repo, s.changeUpdates)
    case Err(m) => (Err(Storage(m)), drafts)
    case Ok(c1) =>
      var d1 := if s.draftUpdates != map[] then Some(drafts.value.(updates := s.draftUpdates)) else drafts;
      var rewritten := if s.rewriters != map[] then RewriteAll(rewrite, s.rewriters, rewriteOrder, c1) else Ok(c1);
      match rewritten
      case Err(f) => (Err(f), d1)
      case Ok(c2) =>
        if deleteOrder == [] then (Ok(Staged(c2, AllowNonFastForwardsState(s), d1)), d1)
        else
          assert deleteOrder[0] in s.changesToDelete;
          var (c3, d3) := DeleteAll(deleteOrder, c2, d1.value);
          (Ok(Staged(c3, AllowNonFastForwardsState(s), Some(d3))), Some(d3))
  }

  /**
   * `execute` of a manager that is not yet executed and not empty: open the
   * repository if needed, choose the draft executor, stage, and close the
   * repository whatever happens; only a successful staging marks the manager
   * executed.
   */
  function ExecuteNonEmpty(s: State, openRepo: Commands,
                           addUpdates: (Commands, map<string, seq<ChangeUpdate>>) -> Result<Commands, string>,
                           rewrite: (Rewriter, ObjectId) -> RewriteStep, rewriteOrder: seq<string>,
                           deleteOrder: seq<int>): (Result<Staged, Failure>, State)
    requires forall i :: 0 <= i < |rewriteOrder| ==> rewriteOrder[i] in s.rewriters
    requires Enumerates(deleteOrder, s.changesToDelete)
  {
    var repo := if s.changeRepo.Some? then s.changeRepo.value else openRepo;
    var drafts := if s.draftUpdates != map[] || s.changesToDelete != {} then Some(NEW_DRAFT_EXECUTOR) else s.draftExecutor;
    var (r, d) := StageCommands(s, repo, drafts, addUpdates, rewrite, rewriteOrder, deleteOrder);
    (r, s.(changeRepo := None, draftExecutor := d, executed := r.Ok?))
  }

  /** Once the rewriters are staged, the batch allows non-fast-forwards. */
  lemma RewritesAllowNonFastForward(s: State, openRepo: Commands,
                                    addUpdates: (Commands, map<string, seq<ChangeUpdate>>) -> Result<Commands, string>,
                                    rewrite: (Rewriter, ObjectId) -> RewriteStep, rewriteOrder: seq<string>,
                                    deleteOrder: seq<int>)
    requires forall i :: 0 <= i < |rewriteOrder| ==> rewriteOrder[i] in s.rewriters
    requires Enumerates(deleteOrder, s.changesToDelete)
    requires s.rewriters != map[] || s.draftUpdates != map[]
    requires ExecuteNonEmpty(s, openRepo, addUpdates, rewrite, rewriteOrder, deleteOrder).0.Ok?
    ensures ExecuteNonEmpty(s, openRepo, addUpdates, rewrite, rewriteOrder, deleteOrder).0.value.allowNonFastForwards
    ensures ExecuteNonEmpty(s, openRepo, addUpdates, rewrite, rewriteOrder, deleteOrder).1.executed
    ensures ExecuteNonEmpty(s, openRepo, addUpdates, rewrite, rewriteOrder, deleteOrder).1.changeRepo.None?
  {
  }

  class NoteDbUpdateManager {
    const projectName: string
    var changeUpdates: map<string, seq<ChangeUpdate>>
    var draftUpdates: map<string, seq<DraftUpdate>>
    var rewriters: map<string, seq<Rewriter>>
    var changesToDelete: set<int>
    var changeRepo: Option<Commands>
    var executed: bool
    var draftExecutor: Option<DraftExecutor>

    function Snapshot(): State
      reads this
    {
      State(changeUpdates, draftUpdates, rewriters, changesToDelete, changeRepo, executed, draftExecutor)
    }

    ghost predicate Valid()
      reads this
    {
      RefsValid(Snapshot())
    }

    constructor(projectName: string)
      ensures this.projectName == projectName
      ensures Snapshot() == State(map[], map[], map[], {}, None, false, None)
      ensures Valid()
    {
      this.projectName := projectName;
      changeUpdates, draftUpdates, rewriters := map[], map[], map[];
      changesToDelete := {};
      changeRepo := None;
      executed := false;
      draftExecutor := None;
    }

    function IsEmpty(): (r: bool)
      reads this
      ensures r == IsEmptyState(Snapshot())
    {
      changeUpdates == map[] && draftUpdates == map[] && rewriters == map[] && changesToDelete == {} &&
      !HasCommands(changeRepo) &&
      (draftExecutor.None? || (draftExecutor.value.updates == map[] && draftExecutor.value.deletions == []))
    }

    function AllowNonFastForwards(): (r: bool)
      reads this
      ensures r == AllowNonFastForwardsState(Snapshot())
    {
      draftUpdates != map[] || rewriters != map[]
    }

    method SetChangeRepo(repo: Commands) returns (failure: Option<Failure>)
      modifies this
      ensures (Snapshot(), failure) == SetChangeRepoOn(old(Snapshot()), repo)
    {
      if changeRepo.Some? {
        return Some(IllegalState(REPO_ALREADY_INITIALIZED));
      }
      changeRepo := Some(repo);
      return None;
    }

    /** `add(ChangeUpdate)`: the checks in the source's order, each throwing where it stands. */
    method Add(update: ChangeUpdate) returns (failure: Option<Failure>)
      requires Valid()
      modifies this
      ensures Valid()
      ensures (Snapshot(), failure) == AddChangeUpdate(old(Snapshot()), projectName, update)
    {
      AddKeepsRefsValid(Snapshot(), projectName, update);
      if executed {
        return Some(IllegalState(ALREADY_EXECUTED));
      }
      if update.projectName != projectName {
        return Some(IllegalArgument(OtherProjectMessage(update.projectName, projectName)));
      }
      if update.refName in rewriters {
        return Some(IllegalArgument(UpdateAndRewriteMessage(update.refName)));
      }
      if update.draftUpdate.Some? {
        draftUpdates := Put(draftUpdates, update.draftUpdate.value.storageKey, update.draftUpdate.value);
      }
      failure := PutRewriter(update.deleteCommentRewriter);
      if failure.Some? {
        return;
      }
      failure := PutRewriter(update.deleteChangeMessageRewriter);
      if failure.Some? {
        return;
      }
      changeUpdates := Put(changeUpdates, update.refName, update);
    }

    /** The checks and `put` of one delete rewriter. */
    method PutRewriter(rw: Option<Rewriter>) returns (failure: Option<Failure>)
      modifies this
      ensures (Snapshot(), failure) == AddRewriter(old(Snapshot()), rw)
    {
      if rw.None? {
        return None;
      }
      var ref := rw.value.refName;
      if ref in changeUpdates {
        return Some(IllegalArgument(UpdateAndRewriteMessage(ref)));
      }
      if ref in rewriters {
        return Some(IllegalArgument(RewriteTwiceMessage(ref)));
      }
      rewriters := Put(rewriters, ref, rw.value);
      return None;
    }

    method AddDraft(du: DraftUpdate) returns (failure: Option<Failure>)
      requires Valid()
      modifies this
      ensures Valid()
      ensures (Snapshot(), failure) == AddDraftUpdate(old(Snapshot()), du)
    {
      if executed {
        return Some(IllegalState(ALREADY_EXECUTED));
      }
      draftUpdates := Put(draftUpdates, du.storageKey, du);
      return None;
    }

    method DeleteChange(id: int) returns (failure: Option<Failure>)
      requires Valid()
      modifies this
      ensures Valid()
      ensures (Snapshot(), failure) == DeleteChangeOn(old(Snapshot()), id)
    {
      if executed {
        return Some(IllegalState(ALREADY_EXECUTED));
      }
      changesToDelete := changesToDelete + {id};
      return None;
    }

    /**
     * `execute`: fails once executed; an empty manager becomes executed with
     * an empty result; otherwise the work is staged.
     */
    method Execute(openRepo: Commands,
                   addUpdates: (Commands, map<string, seq<ChangeUpdate>>) -> Result<Commands, string>,
                   rewrite: (Rewriter, ObjectId) -> RewriteStep)
      returns (r: Result<Option<Staged>, Failure>, ghost rewriteOrder: seq<string>, ghost deleteOrder: seq<int>)
      modifies this
      ensures old(executed) ==> r == Err(IllegalState(ALREADY_EXECUTED)) && Snapshot() == old(Snapshot())
      ensures !old(executed) && old(IsEmpty()) ==> r == Ok(None) && Snapshot() == old(Snapshot()).(executed := true)
      ensures !old(executed) && !old(IsEmpty()) ==>
        Enumerates(rewriteOrder, old(rewriters).Keys) && Enumerates(deleteOrder, old(changesToDelete)) &&
        var (staged, s) := ExecuteNonEmpty(old(Snapshot()), openRepo, addUpdates, rewrite, rewriteOrder, deleteOrder);
        Snapshot() == s && r == (if staged.Ok? then Ok(Some(staged.value)) else Err(staged.error))
    {
      rewriteOrder, deleteOrder := [], [];
      if executed {
        return Err(IllegalState(ALREADY_EXECUTED)), rewriteOrder, deleteOrder;
      }
      if IsEmpty() {
        executed := true;
        return Ok(None), rewriteOrder, deleteOrder;
      }
      ghost var s := Snapshot();
      var repo := if changeRepo.Some? then changeRepo.value else openRepo;
      if draftUpdates != map[] || changesToDelete != {} {
        draftExecutor := Some(NEW_DRAFT_EXECUTOR);
      }
      ghost var drafts := draftExecutor;
      var staged;
      staged, rewriteOrder, deleteOrder := Stage(repo, addUpdates, rewrite);
      assert staged == StageCommands(s, repo, drafts, addUpdates, rewrite, rewriteOrder, deleteOrder).0;
      changeRepo := None;
      if staged.Err? {
        return Err(staged.error), rewriteOrder, deleteOrder;
      }
      executed := true;
      return Ok(Some(staged.value)), rewriteOrder, deleteOrder;
    }

    /** `addCommands` on the open repository, updating the draft executor. */
    method Stage(repo: Commands,
                 addUpdates: (Commands, map<string, seq<ChangeUpdate>>) -> Result<Commands, string>,
                 rewrite: (Rewriter, ObjectId) -> RewriteStep)
      returns (staged: Result<Staged, Failure>, ghost rewriteOrder: seq<string>, ghost deleteOrder: seq<int>)
      requires (draftUpdates != map[] || changesToDelete != {}) ==> draftExecutor.Some?
      modifies this
      ensures Enumerates(rewriteOrder, rewriters.Keys) && Enumerates(deleteOrder, changesToDelete)
      ensures changeUpdates == old(changeUpdates) && draftUpdates == old(draftUpdates)
      ensures rewriters == old(rewriters) && changesToDelete == old(changesToDelete)
      ensures changeRepo == old(changeRepo) && executed == old(executed)
      ensures (staged, draftExecutor) ==
        StageCommands(old(Snapshot()), repo, old(draftExecutor), addUpdates, rewrite, rewriteOrder, deleteOrder)
    {
      rewriteOrder := SomeOrder(rewriters.Keys);
      deleteOrder := SomeOrder(changesToDelete);
      var added := addUpdates(repo, changeUpdates);
      if added.Err? {
        return Err(Storage(added.error)), rewriteOrder, deleteOrder;
      }
      var cmds := added.value;
      var d := draftExecutor;
      if draftUpdates != map[] {
        d := Some(d.value.(updates := draftUpdates));
      }
      if rewriters != map[] {
        var rewritten;
        rewritten, rewriteOrder := AddRewrites(rewriters, cmds, rewrite);
        if rewritten.Err? {
          draftExecutor := d;
          return Err(rewritten.error), rewriteOrder, deleteOrder;
        }
        cmds := rewritten.value;
      }
      if changesToDelete != {} {
        var d3;
        cmds, d3, deleteOrder := DeleteChanges(changesToDelete, cmds, d.value);
        d := Some(d3);
      }
      draftExecutor := d;
      return Ok(Staged(cmds, AllowNonFastForwards(), d)), rewriteOrder, deleteOrder;
    }
  }
}
