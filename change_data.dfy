/** The data holder a change query hands around: which storage may be read on demand, and the
    lazily cached changed-line counts, attention set, patch sets, parent count and the accounts
    that reviewed the change since its owner last spoke. */
module ChangeQuery {
  import opened Common
  import Change

  /** Where a `ChangeData` may take its values from, in ordinal order. */
  datatype StorageConstraint = INDEX_ONLY | INDEX_PRIMARY_NOTEDB_SECONDARY | NOTEDB_ONLY

  function Ordinal(c: StorageConstraint): nat {
    match c
    case INDEX_ONLY => 0
    case INDEX_PRIMARY_NOTEDB_SECONDARY => 1
    case NOTEDB_ONLY => 2
  }

  /** `lazyload`: NoteDb may be read on demand unless the data must come from the index alone. */
  function Lazyload(c: StorageConstraint): (b: bool)
    ensures b <==> c != INDEX_ONLY
  {
    Ordinal(c) >= Ordinal(INDEX_PRIMARY_NOTEDB_SECONDARY)
  }

  /** A lazily filled field; `NotLoaded` is the Java `null`. */
  datatype Cached<T> = NotLoaded | Loaded(value: T)

  datatype ChangedLines = ChangedLines(insertions: int, deletions: int)

  // ---------------------------------------------------------------------------
  // Changed lines

  /** The counts known in `c`, if any (`changedLines != null && changedLines.isPresent()`). */
  predicate Known(c: Cached<Option<ChangedLines>>) {
    c.Loaded? && c.value.Some?
  }

  /** `setLinesInserted`: the new insertion count beside the known deletions, or -1. */
  function WithInsertions(c: Cached<Option<ChangedLines>>, insertions: int): (r: Cached<Option<ChangedLines>>)
    ensures Known(r) && r.value.value.insertions == insertions
  {
    Loaded(Some(ChangedLines(insertions, if Known(c) then c.value.value.deletions else -1)))
  }

  /** `setLinesDeleted`: the new deletion count beside the known insertions, or -1. */
  function WithDeletions(c: Cached<Option<ChangedLines>>, deletions: int): (r: Cached<Option<ChangedLines>>)
    ensures Known(r) && r.value.value.deletions == deletions
  {
    Loaded(Some(ChangedLines(if Known(c) then c.value.value.insertions else -1, deletions)))
  }

  /** Setting one count keeps the other one when it is known, and leaves -1 when it is not. */
  lemma SetterKeepsOtherCount(c: Cached<Option<ChangedLines>>, n: int)
    ensures Known(c) ==> WithInsertions(c, n) == Loaded(Some(c.value.value.(insertions := n)))
    ensures Known(c) ==> WithDeletions(c, n) == Loaded(Some(c.value.value.(deletions := n)))
    ensures !Known(c) ==> WithInsertions(c, n).value.value.deletions == -1
    ensures !Known(c) ==> WithDeletions(c, n).value.value.insertions == -1
  {
  }

  /** Setting both counts, in either order and from any prior state, is `setChangedLines`. */
  lemma SettersCompose(c: Cached<Option<ChangedLines>>, insertions: int, deletions: int)
    ensures WithDeletions(WithInsertions(c, insertions), deletions) == Loaded(Some(ChangedLines(insertions, deletions)))
    ensures WithInsertions(WithDeletions(c, deletions), insertions) == Loaded(Some(ChangedLines(insertions, deletions)))
  {
  }

  // ---------------------------------------------------------------------------
  // Attention set

  datatype AttentionOperation = ADD | REMOVE

  /** One attention-set entry; `timestamp` is the instant of the update, as a count since the epoch. */
  datatype AttentionSetUpdate = AttentionSetUpdate(account: int, timestamp: int, operation: AttentionOperation, reason: string)

  function Accounts(updates: set<AttentionSetUpdate>): set<int> {
    set u | u in updates :: u.account
  }

  /** No two entries name the same account. */
  predicate DistinctAccounts(updates: set<AttentionSetUpdate>) {
    forall u, v :: u in updates && v in updates && u.account == v.account ==> u == v
  }

  lemma {:induction false} AccountsAtMostUpdates(updates: set<AttentionSetUpdate>)
    ensures |Accounts(updates)| <= |updates|
    decreases |updates|
  {
    if updates != {} {
      var u :| u in updates;
      var rest := updates - {u};
      AccountsAtMostUpdates(rest);
      assert Accounts(updates) == Accounts(rest) + {u.account};
      assert updates == rest + {u};
    }
  }

  /** The distinct-count test of `setAttentionSet` holds exactly when no account appears twice. */
  lemma AccountCountIffDistinct(updates: set<AttentionSetUpdate>)
    ensures |Accounts(updates)| == |updates| <==> DistinctAccounts(updates)
  {
    if DistinctAccounts(updates) {
      DistinctCount(updates);
    } else {
      DuplicateCount(updates);
    }
  }

  lemma {:induction false} DistinctCount(updates: set<AttentionSetUpdate>)
    requires DistinctAccounts(updates)
    ensures |Accounts(updates)| == |updates|
    decreases |updates|
  {
    if updates == {} {
      assert Accounts(updates) == {};
    } else {
      var u :| u in updates;
      var rest := updates - {u};
      assert DistinctAccounts(rest);
      DistinctCount(rest);
      assert u.account !in Accounts(rest);
      assert Accounts(updates) == Accounts(rest) + {u.account};
      assert updates == rest + {u};
    }
  }

  lemma DuplicateCount(updates: set<AttentionSetUpdate>)
    requires !DistinctAccounts(updates)
    ensures |Accounts(updates)| < |updates|
  {
    var u, v :| u in updates && v in updates && u.account == v.account && u != v;
    var rest := updates - {u};
    assert v in rest;
    assert Accounts(updates) == Accounts(rest);
    AccountsAtMostUpdates(rest);
    assert updates == rest + {u};
  }

  /** The two exceptions the getters and setters throw, with their messages. */
  datatype DataError = StorageException(message: string) | IllegalStateException(message: string)

  /** What `notes()` throws when it would have to read NoteDb but may not. */
  const NOTES_UNAVAILABLE: string := "ChangeNotes not available, lazyLoad = false"

  function DuplicateUpdateMessage(changeId: int): string {
    "Stored attention set for change " + IntToString(changeId) + " contains duplicate update"
  }

  // ---------------------------------------------------------------------------
  // Patch sets

  datatype PatchSet = PatchSet(id: Change.PatchSetId, commitId: string)

  /** The first patch set with id `id`, scanning in order. */
  function FindPatchSet(ps: seq<PatchSet>, id: Change.PatchSetId): (r: Option<PatchSet>)
    ensures r.None? <==> forall i :: 0 <= i < |ps| ==> ps[i].id != id
    ensures r.Some? ==>
      exists i ::
        0 <= i < |ps| && ps[i] == r.value && r.value.id == id && forall j :: 0 <= j < i ==> ps[j].id != id
  {
    if |ps| == 0 then None
    else if ps[0].id == id then Some(ps[0])
    else
      var r := FindPatchSet(ps[1..], id);
      assert forall i :: 1 <= i < |ps| ==> ps[i] == ps[1..][i - 1];
      r
  }

  predicate UniqueIds(ps: seq<PatchSet>) {
    forall i, j :: 0 <= i < |ps| && 0 <= j < |ps| && ps[i].id == ps[j].id ==> i == j
  }

  /** When ids are unique, looking up a member's id finds that member. */
  lemma CachedPatchSetIsFound(ps: seq<PatchSet>, p: PatchSet)
    requires p in ps && UniqueIds(ps)
    ensures FindPatchSet(ps, p.id) == Some(p)
  {
    var k :| 0 <= k < |ps| && ps[k] == p;
    var r := FindPatchSet(ps, p.id);
    var i :| 0 <= i < |ps| && ps[i] == r.value && r.value.id == p.id && forall j :: 0 <= j < i ==> ps[j].id != p.id;
    assert ps[i].id == ps[k].id;
  }

  /** The loop over `patchSets()` in `patchSet` and `currentPatchSet`. */
  method ScanPatchSets(ps: seq<PatchSet>, id: Change.PatchSetId) returns (r: Option<PatchSet>)
    ensures r == FindPatchSet(ps, id)
  {
    for i := 0 to |ps|
      invariant FindPatchSet(ps[i..], id) == FindPatchSet(ps, id)
    {
      assert ps[i..][1..] == ps[i + 1..];
      if ps[i].id == id {
        return Some(ps[i]);
      }
    }
    assert ps[|ps|..] == [];
    return None;
  }

  // ---------------------------------------------------------------------------
  // Reviewed-by

  /** A change message; only its author matters here. */
  datatype ChangeMessage = ChangeMessage(author: Option<int>, message: string)

  predicate Distinct(s: seq<int>) {
    forall i, j :: 0 <= i < j < |s| ==> s[i] != s[j]
  }

  /** The authors of the authored messages, oldest first. */
  function AuthorsOf(msgs: seq<ChangeMessage>): (r: seq<int>)
    ensures |r| <= |msgs|
  {
    if |msgs| == 0 then []
    else
      var m := msgs[|msgs| - 1];
      AuthorsOf(msgs[..|msgs| - 1]) + (if m.author.Some? then [m.author.value] else [])
  }

  /** `Lists.reverse`. */
  function Reverse(s: seq<int>): (r: seq<int>)
    ensures |r| == |s|
    ensures forall i :: 0 <= i < |s| ==> r[i] == s[|s| - 1 - i]
  {
    if |s| == 0 then [] else [s[|s| - 1]] + Reverse(s[..|s| - 1])
  }

  /** The events before the first one by `owner`. */
  function TakeUntil(es: seq<int>, owner: int): (r: seq<int>)
    ensures owner !in r
    ensures |r| <= |es| && r == es[..|r|]
  {
    if |es| == 0 || es[0] == owner then [] else [es[0]] + TakeUntil(es[1..], owner)
  }

  /** The elements of `es` once each, in order of first occurrence: a `LinkedHashSet` filled from `es`. */
  function InsertionOrdered(es: seq<int>): (r: seq<int>)
    ensures Distinct(r)
    ensures forall x :: x in r <==> x in es
  {
    if |es| == 0 then []
    else
      var acc := InsertionOrdered(es[..|es| - 1]);
      var x := es[|es| - 1];
      assert forall y :: y in es <==> y in es[..|es| - 1] || y == x by {
        assert es == es[..|es| - 1] + [x];
      }
      if x in acc then acc else acc + [x]
  }

  /** The accounts that reviewed the change: the authors of messages newer than the owner's newest one,
      newest first and each once. */
  function ReviewedByOf(msgs: seq<ChangeMessage>, owner: int): seq<int> {
    InsertionOrdered(TakeUntil(Reverse(AuthorsOf(msgs)), owner))
  }

  /** No message at or after index `i` is by `owner`. */
  predicate NoOwnerFrom(msgs: seq<ChangeMessage>, owner: int, i: nat) {
    forall j :: i <= j < |msgs| ==> msgs[j].author != Some(owner)
  }

  /** `x` wrote a message that no later message by the owner follows. */
  predicate ReviewedAfterOwner(msgs: seq<ChangeMessage>, owner: int, x: int) {
    exists i: nat :: i < |msgs| && msgs[i].author == Some(x) && NoOwnerFrom(msgs, owner, i)
  }

  lemma ReverseSnoc(s: seq<int>, a: int)
    ensures Reverse(s + [a]) == [a] + Reverse(s)
  {
    assert (s + [a])[..|s|] == s;
  }

  /** A newest message by somebody other than the owner adds its author and keeps the earlier reviewers. */
  lemma ReviewedAfterNonOwner(msgs: seq<ChangeMessage>, owner: int, x: int)
    requires |msgs| > 0 && msgs[|msgs| - 1].author != Some(owner)
    ensures ReviewedAfterOwner(msgs, owner, x) <==>
      ReviewedAfterOwner(msgs[..|msgs| - 1], owner, x) || msgs[|msgs| - 1].author == Some(x)
  {
    var n := |msgs| - 1;
    var pre := msgs[..n];
    if ReviewedAfterOwner(msgs, owner, x) && msgs[n].author != Some(x) {
      var i: nat :| i < |msgs| && msgs[i].author == Some(x) && NoOwnerFrom(msgs, owner, i);
      assert pre[i].author == Some(x) && NoOwnerFrom(pre, owner, i);
    }
    if ReviewedAfterOwner(pre, owner, x) {
      var i: nat :| i < |pre| && pre[i].author == Some(x) && NoOwnerFrom(pre, owner, i);
      assert msgs[i].author == Some(x) && NoOwnerFrom(msgs, owner, i);
    }
    if msgs[n].author == Some(x) {
      assert NoOwnerFrom(msgs, owner, n);
    }
  }

  /** A newest message by the owner leaves nobody reviewed. */
  lemma NoneReviewedAfterOwnerSpoke(msgs: seq<ChangeMessage>, owner: int, x: int)
    requires |msgs| > 0 && msgs[|msgs| - 1].author == Some(owner)
    ensures !ReviewedAfterOwner(msgs, owner, x)
  {
    forall i: nat | i < |msgs|
      ensures !NoOwnerFrom(msgs, owner, i)
    {
      var j := |msgs| - 1;
      assert i <= j && msgs[j].author == Some(owner);
    }
  }

  lemma {:induction false} TakeUntilMembers(msgs: seq<ChangeMessage>, owner: int, x: int)
    ensures x in TakeUntil(Reverse(AuthorsOf(msgs)), owner) <==> ReviewedAfterOwner(msgs, owner, x)
    decreases |msgs|
  {
    if |msgs| == 0 {
      return;
    }
    var n := |msgs| - 1;
    var pre := msgs[..n];
    var m := msgs[n];
    TakeUntilMembers(pre, owner, x);
    var prior := Reverse(AuthorsOf(pre));
    if m.author.None? {
      assert AuthorsOf(msgs) == AuthorsOf(pre);
      ReviewedAfterNonOwner(msgs, owner, x);
    } else {
      var a := m.author.value;
      assert AuthorsOf(msgs) == AuthorsOf(pre) + [a];
      ReverseSnoc(AuthorsOf(pre), a);
      if a == owner {
        NoneReviewedAfterOwnerSpoke(msgs, owner, x);
      } else {
        assert ([a] + prior)[1..] == prior;
        ReviewedAfterNonOwner(msgs, owner, x);
      }
    }
  }

  /** An account reviewed the change exactly when it wrote a message after the owner's newest message;
      the owner is never among them and nobody is listed twice. */
  lemma ReviewedByMembers(msgs: seq<ChangeMessage>, owner: int, x: int)
    ensures x in ReviewedByOf(msgs, owner) <==> ReviewedAfterOwner(msgs, owner, x)
    ensures owner !in ReviewedByOf(msgs, owner)
    ensures Distinct(ReviewedByOf(msgs, owner))
  {
    TakeUntilMembers(msgs, owner, x);
  }

  /** The loop that stops at the owner's event takes exactly `TakeUntil`. */
  lemma {:induction false} TakeUntilAt(es: seq<int>, owner: int, k: nat)
    requires k <= |es| && owner !in es[..k]
    requires k == |es| || es[k] == owner
    ensures TakeUntil(es, owner) == es[..k]
    decreases k
  {
    if k > 0 {
      assert es[0] == es[..k][0];
      assert es[1..][..k - 1] == es[..k][1..];
      TakeUntilAt(es[1..], owner, k - 1);
    }
  }

  /** The first loop of `reviewedBy()`: the authors of the authored messages, in message order. */
  method CollectAuthors(messages: seq<ChangeMessage>) returns (events: seq<int>)
    ensures events == AuthorsOf(messages)
  {
    events := [];
    for i := 0 to |messages|
      invariant events == AuthorsOf(messages[..i])
    {
      assert messages[..i + 1][..i] == messages[..i];
      if messages[i].author.Some? {
        events := events + [messages[i].author.value];
      }
    }
    assert messages[..|messages|] == messages;
  }

  /** The second loop of `reviewedBy()`: adds each event's author to a `LinkedHashSet`, stopping at the
      owner's first event. */
  method CollectUntil(events: seq<int>, owner: int) returns (collected: seq<int>)
    ensures collected == InsertionOrdered(TakeUntil(events, owner))
  {
    collected := [];
    var k := 0;
    while k < |events| && events[k] != owner
      invariant 0 <= k <= |events|
      invariant owner !in events[..k]
      invariant collected == InsertionOrdered(events[..k])
    {
      assert events[..k + 1][..k] == events[..k];
      if events[k] !in collected {
        collected := collected + [events[k]];
      }
      k := k + 1;
    }
    TakeUntilAt(events, owner, k);
  }

  // ---------------------------------------------------------------------------
  // The data holder

  /** The cached fields of a `ChangeData`. */
  datatype Fields = Fields(
    storageConstraint: StorageConstraint,
    notesLoaded: bool,
    changedLines: Cached<Option<ChangedLines>>,
    attentionSet: Cached<set<AttentionSetUpdate>>,
    patchSets: Cached<seq<PatchSet>>,
    currentPatchSet: Option<PatchSet>,
    parentCount: Option<int>,
    reviewedBy: Cached<seq<int>>)

  /** What `reviewedBy()` returns from fields `f`, given the messages and the change owner (`None` when
      the change cannot be loaded). */
  function ReviewedByResult(f: Fields, messages: seq<ChangeMessage>, owner: Option<int>): seq<int> {
    if f.reviewedBy.Loaded? then f.reviewedBy.value
    else if !Lazyload(f.storageConstraint) || owner.None? then []
    else ReviewedByOf(messages, owner.value)
  }

  /** The patch sets `patchSets()` sees: the cached ones, or those read from storage. */
  function LoadedPatchSets(c: Cached<seq<PatchSet>>, stored: seq<PatchSet>): seq<PatchSet> {
    if c.Loaded? then c.value else stored
  }

  /** The fields after `notes()` succeeds: the first load calls `setPatchSets(null)`, which drops the
      cached patch sets and the cached current patch set; later calls change nothing. */
  function AfterNotes(f: Fields): (g: Fields)
    requires f.notesLoaded || Lazyload(f.storageConstraint)
    ensures g.notesLoaded
    ensures f.notesLoaded ==> g == f
    ensures !f.notesLoaded ==> g.patchSets.NotLoaded? && g.currentPatchSet.None?
    ensures g.(patchSets := f.patchSets, currentPatchSet := f.currentPatchSet, notesLoaded := f.notesLoaded) == f
  {
    if f.notesLoaded then f else f.(notesLoaded := true, patchSets := NotLoaded, currentPatchSet := None)
  }

  /** `patchSets()` can answer: from its cache, or through `notes()`, which throws only when the notes
      were never loaded and NoteDb may not be read. */
  predicate PatchSetsAvailable(f: Fields) {
    f.patchSets.Loaded? || f.notesLoaded || Lazyload(f.storageConstraint)
  }

  /** The fields after a successful `patchSets()`: unchanged when they were cached, otherwise the notes
      loaded and the stored ones cached. */
  function WithPatchSets(f: Fields, stored: seq<PatchSet>): (g: Fields)
    requires PatchSetsAvailable(f)
    ensures g.patchSets == Loaded(LoadedPatchSets(f.patchSets, stored))
    ensures f.patchSets.Loaded? ==> g == f
  {
    if f.patchSets.Loaded? then f else AfterNotes(f).(patchSets := Loaded(stored))
  }

  /** A second `notes()` changes nothing, and once `patchSets()` has answered it keeps answering with
      what it cached, whatever storage would now return. */
  lemma NotesLoadIsIdempotent(f: Fields, first: seq<PatchSet>, later: seq<PatchSet>)
    requires PatchSetsAvailable(f)
    ensures f.notesLoaded || Lazyload(f.storageConstraint) ==> AfterNotes(AfterNotes(f)) == AfterNotes(f)
    ensures PatchSetsAvailable(WithPatchSets(f, first))
    ensures WithPatchSets(WithPatchSets(f, first), later) == WithPatchSets(f, first)
    ensures LoadedPatchSets(WithPatchSets(f, first).patchSets, later) == LoadedPatchSets(f.patchSets, first)
  {
  }

  /** Under `INDEX_ONLY`, with neither the notes nor the patch sets loaded, `patchSets()` throws; whatever
      the constraint, it never throws once the patch sets are cached. */
  lemma PatchSetsFailOnlyIndexOnly(f: Fields)
    ensures !PatchSetsAvailable(f) <==>
      f.patchSets.NotLoaded? && !f.notesLoaded && f.storageConstraint == INDEX_ONLY
  {
  }

  class ChangeData {
    const changeId: int
    var storageConstraint: StorageConstraint
    var notesLoaded: bool
    var changedLines: Cached<Option<ChangedLines>>
    var attentionSet: Cached<set<AttentionSetUpdate>>
    var patchSets: Cached<seq<PatchSet>>
    var currentPatchSet: Option<PatchSet>
    var parentCount: Option<int>
    var reviewedBy: Cached<seq<int>>

    function Snapshot(): Fields
      reads this
    {
      Fields(storageConstraint, notesLoaded, changedLines, attentionSet, patchSets, currentPatchSet, parentCount, reviewedBy)
    }

    /** The cached current patch set is one of the cached patch sets, and the reviewers are listed once each. */
    ghost predicate Valid()
      reads this
    {
      && (currentPatchSet.Some? ==> patchSets.Loaded? && currentPatchSet.value in patchSets.value)
      && (reviewedBy.Loaded? ==> Distinct(reviewedBy.value))
    }

    /** A fresh holder: everything unloaded, NoteDb readable. */
    constructor (changeId: int)
      ensures this.changeId == changeId
      ensures Snapshot() == Fields(NOTEDB_ONLY, false, NotLoaded, NotLoaded, NotLoaded, None, None, NotLoaded)
      ensures Valid()
    {
      this.changeId := changeId;
      storageConstraint := NOTEDB_ONLY;
      notesLoaded := false;
      changedLines := NotLoaded;
      attentionSet := NotLoaded;
      patchSets := NotLoaded;
      currentPatchSet := None;
      parentCount := None;
      reviewedBy := NotLoaded;
    }

    method SetStorageConstraint(c: StorageConstraint)
      modifies this
      ensures Snapshot() == old(Snapshot()).(storageConstraint := c)
      ensures old(Valid()) ==> Valid()
    {
      storageConstraint := c;
    }

    method IsLazyload() returns (b: bool)
      ensures b <==> storageConstraint != INDEX_ONLY
    {
      b := Lazyload(storageConstraint);
    }

    /** `changedLines()`: the cached counts; on first use, when NoteDb may be read, the counts of the diff
        summary (`None` when there is none), which are then cached. */
    method GetChangedLines(diffSummary: Option<ChangedLines>) returns (r: Option<ChangedLines>)
      modifies this
      ensures old(changedLines).Loaded? ==> r == old(changedLines).value && Snapshot() == old(Snapshot())
      ensures old(changedLines).NotLoaded? && !Lazyload(storageConstraint) ==> r == None && Snapshot() == old(Snapshot())
      ensures old(changedLines).NotLoaded? && Lazyload(storageConstraint) ==>
        r == diffSummary && Snapshot() == old(Snapshot()).(changedLines := Loaded(diffSummary))
      ensures old(Valid()) ==> Valid()
    {
      if changedLines.NotLoaded? {
        if !Lazyload(storageConstraint) {
          return None;
        }
        changedLines := Loaded(diffSummary);
      }
      r := changedLines.value;
    }

    method SetChangedLines(insertions: int, deletions: int)
      modifies this
      ensures Snapshot() == old(Snapshot()).(changedLines := Loaded(Some(ChangedLines(insertions, deletions))))
      ensures old(Valid()) ==> Valid()
    {
      changedLines := Loaded(Some(ChangedLines(insertions, deletions)));
    }

    method SetLinesInserted(insertions: int)
      modifies this
      ensures Snapshot() == old(Snapshot()).(changedLines := WithInsertions(old(changedLines), insertions))
      ensures old(Valid()) ==> Valid()
    {
      var deletions := if changedLines.Loaded? && changedLines.value.Some? then changedLines.value.value.deletions else -1;
      changedLines := Loaded(Some(ChangedLines(insertions, deletions)));
    }

    method SetLinesDeleted(deletions: int)
      modifies this
      ensures Snapshot() == old(Snapshot()).(changedLines := WithDeletions(old(changedLines), deletions))
      ensures old(Valid()) ==> Valid()
    {
      var insertions := if changedLines.Loaded? && changedLines.value.Some? then changedLines.value.value.insertions else -1;
      changedLines := Loaded(Some(ChangedLines(insertions, deletions)));
    }

    method SetNoChangedLines()
      modifies this
      ensures Snapshot() == old(Snapshot()).(changedLines := Loaded(None))
      ensures old(Valid()) ==> Valid()
    {
      changedLines := Loaded(None);
    }

    /** `notes()`: on first use reads the notes, which throws when NoteDb may not be read and otherwise
        drops the cached patch sets and current patch set (`setPatchSets(null)`). */
    method Notes() returns (r: Result<(), DataError>)
      modifies this
      ensures r.Ok? <==> old(notesLoaded) || Lazyload(old(storageConstraint))
      ensures r.Ok? ==> Snapshot() == AfterNotes(old(Snapshot()))
      ensures r.Err? ==> r.error == StorageException(NOTES_UNAVAILABLE) && Snapshot() == old(Snapshot())
      ensures old(Valid()) ==> Valid()
    {
      if !notesLoaded {
        if !Lazyload(storageConstraint) {
          return Err(StorageException(NOTES_UNAVAILABLE));
        }
        notesLoaded := true;
        currentPatchSet := None;
        patchSets := NotLoaded;
      }
      return Ok(());
    }

    /** `attentionSet()`: the cached set; on first use, when NoteDb may be read, the one the notes store,
        read through `notes()`. */
    method GetAttentionSet(stored: set<AttentionSetUpdate>) returns (r: set<AttentionSetUpdate>)
      modifies this
      ensures old(attentionSet).Loaded? ==> r == old(attentionSet).value && Snapshot() == old(Snapshot())
      ensures old(attentionSet).NotLoaded? && !Lazyload(old(storageConstraint)) ==> r == {} && Snapshot() == old(Snapshot())
      ensures old(attentionSet).NotLoaded? && Lazyload(old(storageConstraint)) ==>
        r == stored && Snapshot() == AfterNotes(old(Snapshot())).(attentionSet := Loaded(stored))
      ensures old(Valid()) ==> Valid()
    {
      if attentionSet.NotLoaded? {
        if !Lazyload(storageConstraint) {
          return {};
        }
        var _ := Notes();
        attentionSet := Loaded(stored);
      }
      r := attentionSet.value;
    }

    /** `setAttentionSet`: throws, leaving the field as it was, on a set in which two entries name one account. */
    method SetAttentionSet(updates: set<AttentionSetUpdate>) returns (r: Result<(), DataError>)
      modifies this
      ensures r.Ok? <==> DistinctAccounts(updates)
      ensures r.Ok? ==> Snapshot() == old(Snapshot()).(attentionSet := Loaded(updates))
      ensures r.Err? ==> r.error == IllegalStateException(DuplicateUpdateMessage(changeId)) && Snapshot() == old(Snapshot())
      ensures old(Valid()) ==> Valid()
    {
      var accounts := Accounts(updates);
      AccountCountIffDistinct(updates);
      if |accounts| != |updates| {
        return Err(IllegalStateException(DuplicateUpdateMessage(changeId)));
      }
      attentionSet := Loaded(updates);
      return Ok(());
    }

    /** `patchSets()`: the cached patch sets; on first use, those read from storage through `notes()`,
        then cached. Throws when `notes()` does. */
    method GetPatchSets(stored: seq<PatchSet>) returns (r: Result<seq<PatchSet>, DataError>)
      modifies this
      ensures r.Ok? <==> PatchSetsAvailable(old(Snapshot()))
      ensures r.Ok? ==>
        r.value == LoadedPatchSets(old(patchSets), stored) && Snapshot() == WithPatchSets(old(Snapshot()), stored)
      ensures r.Err? ==> r.error == StorageException(NOTES_UNAVAILABLE) && Snapshot() == old(Snapshot())
      ensures old(Valid()) ==> Valid()
    {
      if patchSets.NotLoaded? {
        var n := Notes();
        if n.Err? {
          return Err(n.error);
        }
        patchSets := Loaded(stored);
      }
      r := Ok(patchSets.value);
    }

    /** `setPatchSets`: replaces the patch sets and drops the cached current one, which restores `Valid`
        whatever the new patch sets are. */
    method SetPatchSets(ps: seq<PatchSet>)
      modifies this
      ensures Snapshot() == old(Snapshot()).(patchSets := Loaded(ps), currentPatchSet := None)
      ensures old(reviewedBy.Loaded? ==> Distinct(reviewedBy.value)) ==> Valid()
    {
      currentPatchSet := None;
      patchSets := Loaded(ps);
    }

    /** `currentPatchSet()`: the cached one; otherwise, when the change is known, the patch set that has its
        current id, which is then cached. `currentId` is the change's current patch set id, `None` when the
        change cannot be loaded. Throws when `patchSets()` does. */
    method GetCurrentPatchSet(currentId: Option<Change.PatchSetId>, stored: seq<PatchSet>)
      returns (r: Result<Option<PatchSet>, DataError>)
      modifies this
      ensures old(currentPatchSet).Some? ==> r == Ok(old(currentPatchSet)) && Snapshot() == old(Snapshot())
      ensures old(currentPatchSet).None? && currentId.None? ==> r == Ok(None) && Snapshot() == old(Snapshot())
      ensures old(currentPatchSet).None? && currentId.Some? && !PatchSetsAvailable(old(Snapshot())) ==>
        r == Err(StorageException(NOTES_UNAVAILABLE)) && Snapshot() == old(Snapshot())
      ensures old(currentPatchSet).None? && currentId.Some? && PatchSetsAvailable(old(Snapshot())) ==>
        && r == Ok(FindPatchSet(LoadedPatchSets(old(patchSets), stored), currentId.value))
        && Snapshot() == WithPatchSets(old(Snapshot()), stored).(currentPatchSet := r.value)
      ensures r.Ok? && r.value.Some? && currentId.Some? && old(currentPatchSet).None? ==>
        r.value.value.id == currentId.value
      ensures old(Valid()) ==> Valid()
    {
      if currentPatchSet.Some? {
        return Ok(currentPatchSet);
      }
      if currentId.None? {
        return Ok(None);
      }
      var all := GetPatchSets(stored);
      if all.Err? {
        return Err(all.error);
      }
      var found := ScanPatchSets(all.value, currentId.value);
      currentPatchSet := found;
      r := Ok(found);
    }

    /** `patchSet(psId)`: the cached current patch set when it has that id, else the first loaded patch set
        with it, else `None`; throws when `patchSets()` does. With unique ids the shortcut through the
        cache gives the same answer as the scan. */
    method PatchSetById(psId: Change.PatchSetId, stored: seq<PatchSet>) returns (r: Result<Option<PatchSet>, DataError>)
      modifies this
      ensures old(currentPatchSet).Some? && old(currentPatchSet).value.id == psId ==>
        r == Ok(old(currentPatchSet)) && Snapshot() == old(Snapshot())
      ensures !(old(currentPatchSet).Some? && old(currentPatchSet).value.id == psId) && !PatchSetsAvailable(old(Snapshot())) ==>
        r == Err(StorageException(NOTES_UNAVAILABLE)) && Snapshot() == old(Snapshot())
      ensures !(old(currentPatchSet).Some? && old(currentPatchSet).value.id == psId) && PatchSetsAvailable(old(Snapshot())) ==>
        && r == Ok(FindPatchSet(LoadedPatchSets(old(patchSets), stored), psId))
        && Snapshot() == WithPatchSets(old(Snapshot()), stored)
      ensures r.Ok? && r.value.Some? ==> r.value.value.id == psId
      ensures old(Valid()) && PatchSetsAvailable(old(Snapshot())) && UniqueIds(LoadedPatchSets(old(patchSets), stored)) ==>
        r == Ok(FindPatchSet(LoadedPatchSets(old(patchSets), stored), psId))
      ensures old(Valid()) ==> Valid()
    {
      if currentPatchSet.Some? && currentPatchSet.value.id == psId {
        if Valid() && UniqueIds(LoadedPatchSets(patchSets, stored)) {
          CachedPatchSetIsFound(patchSets.value, currentPatchSet.value);
        }
        return Ok(currentPatchSet);
      }
      var all := GetPatchSets(stored);
      if all.Err? {
        return Err(all.error);
      }
      var found := ScanPatchSets(all.value, psId);
      r := Ok(found);
    }

    /** `isMerge()`: whether the current patch set's commit has more than one parent. `commitParents` is the
        parent count `loadCommitData` would read, `None` when there is no current patch set; the count is
        cached once read. */
    method IsMerge(commitParents: Option<nat>) returns (r: Option<bool>)
      modifies this
      ensures r.Some? <==> old(parentCount).Some? || commitParents.Some?
      ensures old(parentCount).Some? ==> Snapshot() == old(Snapshot())
      ensures old(parentCount).None? && commitParents.None? ==> Snapshot() == old(Snapshot())
      ensures old(parentCount).None? && commitParents.Some? ==> Snapshot() == old(Snapshot()).(parentCount := commitParents)
      ensures r.Some? ==> parentCount.Some? && (r.value <==> parentCount.value > 1)
      ensures old(Valid()) ==> Valid()
    {
      if parentCount.None? {
        if commitParents.None? {
          return None;
        }
        parentCount := Some(commitParents.value);
      }
      return Some(parentCount.value > 1);
    }

    /** `reviewedBy()`: the cached reviewers; otherwise, when NoteDb may be read and the change (with owner
        `owner`) is known, the authors of the messages since the owner's newest one, newest first, cached. */
    method GetReviewedBy(messages: seq<ChangeMessage>, owner: Option<int>) returns (r: seq<int>)
      modifies this
      ensures r == ReviewedByResult(old(Snapshot()), messages, owner)
      ensures old(reviewedBy).NotLoaded? && Lazyload(old(storageConstraint)) && owner.Some? ==>
        Snapshot() == AfterNotes(old(Snapshot())).(reviewedBy := Loaded(r))
      ensures !(old(reviewedBy).NotLoaded? && Lazyload(old(storageConstraint)) && owner.Some?) ==>
        Snapshot() == old(Snapshot())
      ensures old(Valid()) ==> Valid()
    {
      if reviewedBy.Loaded? {
        return reviewedBy.value;
      }
      if !Lazyload(storageConstraint) || owner.None? {
        return [];
      }
      var _ := Notes();
      var events := CollectAuthors(messages);
      events := Reverse(events);
      var collected := CollectUntil(events, owner.value);
      reviewedBy := Loaded(collected);
      r := collected;
    }

    /** `isReviewedBy`: membership in what `reviewedBy()` returns. */
    method IsReviewedBy(accountId: int, messages: seq<ChangeMessage>, owner: Option<int>) returns (b: bool)
      modifies this
      ensures b <==> accountId in ReviewedByResult(old(Snapshot()), messages, owner)
      ensures old(Valid()) ==> Valid()
    {
      var ids := GetReviewedBy(messages, owner);
      b := accountId in ids;
    }

    /** `setReviewedBy`: the reviewers as read from the index; a `Set`, so without repeats. */
    method SetReviewedBy(ids: seq<int>)
      requires Distinct(ids)
      modifies this
      ensures Snapshot() == old(Snapshot()).(reviewedBy := Loaded(ids))
      ensures old(Valid()) ==> Valid()
    {
      reviewedBy := Loaded(ids);
    }
  }
}
