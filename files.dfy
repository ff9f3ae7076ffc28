/** The REST view listing a revision's files: at most one of a base revision, a parent number, the
    reviewed flag and a path query may be given; the reviewed flag, then the query, then the base,
    then a non-zero parent decides which listing is produced. */
module ChangeFiles {
  import opened Common
  import Change

  type ObjectId = string

  const COMBINE_MESSAGE: string := "cannot combine base, parent, reviewed, query"
  const AUTH_MESSAGE: string := "Authentication required"
  const MAX_QUERY_PATHS: nat := 20

  function InvalidParentMessage(parentNum: int): string {
    "invalid parent number: " + IntToString(parentNum)
  }

  /** The four options of `ListFiles`. */
  datatype Options = Options(base: Option<string>, parentNum: int, reviewed: bool, query: Option<string>)

  /** At least two of the options are given; a parent number counts only when it is positive. */
  predicate OptionsConflict(o: Options) {
    var hasParent := o.parentNum > 0;
    (o.base.Some? && (hasParent || o.reviewed || o.query.Some?))
    || (hasParent && (o.reviewed || o.query.Some?))
    || (o.reviewed && o.query.Some?)
  }

  /** What `apply` answers with. */
  datatype Listing =
    | ReviewedFiles
    | QueryPaths(query: string)
    | AgainstBase(base: string)
    | AgainstParent(parentNum: int)
    | AgainstCurrentBase

  /** `apply`'s choice of listing, `parents` being the revision's number of parents. */
  function Dispatch(o: Options, parents: nat): (r: Result<Listing, string>)
    ensures OptionsConflict(o) ==> r == Err(COMBINE_MESSAGE)
    ensures r.Ok? && r.value.AgainstParent? ==> 1 <= r.value.parentNum <= parents
  {
    if OptionsConflict(o) then Err(COMBINE_MESSAGE)
    else if o.reviewed then Ok(ReviewedFiles)
    else if o.query.Some? then Ok(QueryPaths(o.query.value))
    else if o.base.Some? then Ok(AgainstBase(o.base.value))
    else if o.parentNum != 0 then
      if o.parentNum < 0 || o.parentNum > parents then Err(InvalidParentMessage(o.parentNum))
      else Ok(AgainstParent(o.parentNum))
    else Ok(AgainstCurrentBase)
  }

  /** The listing chosen for options without a conflict: reviewed first, then the query, then the base,
      then a non-zero parent in range, else the files against the revision's own base. */
  lemma DispatchPrecedence(o: Options, parents: nat)
    requires !OptionsConflict(o)
    ensures o.reviewed ==> Dispatch(o, parents) == Ok(ReviewedFiles)
    ensures !o.reviewed && o.query.Some? ==> Dispatch(o, parents) == Ok(QueryPaths(o.query.value))
    ensures o.query.None? && o.base.Some? ==> Dispatch(o, parents) == Ok(AgainstBase(o.base.value))
    ensures !o.reviewed && o.query.None? && o.base.None? && o.parentNum == 0 ==>
      Dispatch(o, parents) == Ok(AgainstCurrentBase)
    ensures !o.reviewed && o.query.None? && o.base.None? && o.parentNum != 0 ==>
      Dispatch(o, parents) == (if 1 <= o.parentNum <= parents then Ok(AgainstParent(o.parentNum))
                               else Err(InvalidParentMessage(o.parentNum)))
  {
  }

  /** A negative parent number is not counted by the option check, so it may come with another option,
      which then wins; alone it is refused as an invalid parent number. */
  lemma NegativeParent(o: Options, parents: nat)
    requires o.parentNum < 0
    ensures OptionsConflict(o) <==> OptionsConflict(o.(parentNum := 0))
    ensures o.base.None? && !o.reviewed && o.query.None? ==>
      Dispatch(o, parents) == Err(InvalidParentMessage(o.parentNum))
    ensures o.reviewed && o.base.None? && o.query.None? ==> Dispatch(o, parents) == Ok(ReviewedFiles)
  {
  }

  // ---------------------------------------------------------------------------
  // The query

  /** The walked paths that contain `q`, in walk order. */
  function Matching(walk: seq<string>, q: string): (r: seq<string>)
    ensures |r| <= |walk|
    ensures forall i :: 0 <= i < |r| ==> Contains(r[i], q) && r[i] in walk
    ensures forall p :: p in walk && Contains(p, q) ==> p in r
  {
    if |walk| == 0 then []
    else
      var pre := Matching(walk[..|walk| - 1], q);
      var p := walk[|walk| - 1];
      if Contains(p, q) then pre + [p] else pre
  }

  /** `query`: the first twenty matching paths of the tree walk. */
  function QueryResult(walk: seq<string>, q: string): (r: seq<string>)
    ensures |r| <= MAX_QUERY_PATHS
    ensures forall i :: 0 <= i < |r| ==> Contains(r[i], q)
    ensures |Matching(walk, q)| <= MAX_QUERY_PATHS ==> r == Matching(walk, q)
    ensures r <= Matching(walk, q)
    ensures |Matching(walk, q)| > MAX_QUERY_PATHS ==> |r| == MAX_QUERY_PATHS
  {
    var m := Matching(walk, q);
    if |m| <= MAX_QUERY_PATHS then m else m[..MAX_QUERY_PATHS]
  }

  /** The paths matched in a prefix of the walk start the paths matched in the whole walk. */
  lemma {:induction false} MatchingPrefix(walk: seq<string>, q: string, i: nat)
    requires i <= |walk|
    ensures Matching(walk[..i], q) <= Matching(walk, q)
  {
    if i < |walk| {
      MatchingPrefix(walk[..|walk| - 1], q, i);
      assert walk[..|walk| - 1][..i] == walk[..i];
    } else {
      assert walk[..i] == walk;
    }
  }

  /** The walk's loop, stopping once twenty paths were collected. */
  method Query(walk: seq<string>, q: string) returns (paths: seq<string>)
    ensures paths == QueryResult(walk, q)
  {
    paths := [];
    var i := 0;
    while i < |walk| && |paths| < MAX_QUERY_PATHS
      invariant 0 <= i <= |walk|
      invariant paths == Matching(walk[..i], q)
      invariant |paths| <= MAX_QUERY_PATHS
    {
      assert walk[..i + 1][..i] == walk[..i];
      var s := walk[i];
      if Contains(s, q) {
        paths := paths + [s];
      }
      i := i + 1;
    }
    if i == |walk| {
      assert walk[..i] == walk;
    } else {
      MatchingPrefix(walk, q, i);
    }
  }

  // ---------------------------------------------------------------------------
  // The reviewed files

  /** One step of the tree walk in `copy`: the file's id in the previously reviewed patch set, in the
      current one, and in the first parent of each, absent where the tree holds no such file. */
  datatype TreeEntry = TreeEntry(path: string, previous: Option<ObjectId>, cur: Option<ObjectId>,
                                 previousParent: Option<ObjectId>, curParent: Option<ObjectId>)

  /** The walk over both patch sets, and whether each has a parent tree in the walk. */
  datatype CopyWalk = CopyWalk(entries: seq<TreeEntry>, hasPreviousParent: bool, hasCurParent: bool)

  /** A reviewed file carries over when it is in both patch sets with the same content, or deleted from
      both while identical in their parents. */
  predicate CarriesOver(e: TreeEntry, paths: set<string>, w: CopyWalk) {
    e.path in paths &&
    ((e.previous.Some? && e.cur.Some? && e.previous == e.cur)
     || (w.hasPreviousParent && w.hasCurParent && e.previous.None? && e.cur.None?
         && e.previousParent.Some? && e.curParent.Some? && e.previousParent == e.curParent))
  }

  function CarriedOver(entries: seq<TreeEntry>, paths: set<string>, w: CopyWalk): (r: seq<string>)
    ensures forall p :: p in r <==> exists i :: 0 <= i < |entries| && entries[i].path == p && CarriesOver(entries[i], paths, w)
  {
    if |entries| == 0 then []
    else
      var pre := CarriedOver(entries[..|entries| - 1], paths, w);
      var e := entries[|entries| - 1];
      assert forall i :: 0 <= i < |entries| - 1 ==> entries[..|entries| - 1][i] == entries[i];
      if CarriesOver(e, paths, w) then pre + [e.path] else pre
  }

  /** The loop of `copy`. */
  method Copy(paths: set<string>, w: CopyWalk) returns (pathList: seq<string>)
    ensures pathList == CarriedOver(w.entries, paths, w)
  {
    pathList := [];
    for i := 0 to |w.entries|
      invariant pathList == CarriedOver(w.entries[..i], paths, w)
    {
      assert w.entries[..i + 1][..i] == w.entries[..i];
      var e := w.entries[i];
      if CarriesOver(e, paths, w) {
        pathList := pathList + [e.path];
      }
    }
    assert w.entries[..|w.entries|] == w.entries;
  }

  /** Only files marked reviewed before carry over. */
  lemma CopyKeepsReviewedOnly(paths: set<string>, w: CopyWalk)
    ensures forall p :: p in CarriedOver(w.entries, paths, w) ==> p in paths
  {
  }

  /** What the review store holds for the user: files marked reviewed in some patch set. */
  datatype ReviewedRecord = ReviewedRecord(patchSetId: Change.PatchSetId, files: set<string>)

  /** `reviewed`: refused for an anonymous user; the stored files when they were marked in this patch
      set; otherwise the files that carry over from the patch set they were marked in, or none when
      that patch set or its diff cannot be loaded (`copyWalk` is None). */
  function Reviewed(identified: bool, current: Change.PatchSetId, stored: Option<ReviewedRecord>,
                    copyWalk: Option<CopyWalk>): (r: Result<set<string>, string>)
    ensures r.Err? <==> !identified
    ensures r.Err? ==> r.error == AUTH_MESSAGE
    ensures r.Ok? && stored.None? ==> r.value == {}
    ensures r.Ok? && stored.Some? ==> r.value <= stored.value.files
    ensures r.Ok? && stored.Some? && stored.value.patchSetId == current ==> r.value == stored.value.files
    ensures r.Ok? && stored.Some? && stored.value.patchSetId != current && copyWalk.None? ==> r.value == {}
    ensures r.Ok? && stored.Some? && stored.value.patchSetId != current && copyWalk.Some? ==>
      forall p :: p in r.value <==>
        exists i :: 0 <= i < |copyWalk.value.entries| && copyWalk.value.entries[i].path == p
                    && CarriesOver(copyWalk.value.entries[i], stored.value.files, copyWalk.value)
  {
    if !identified then Err(AUTH_MESSAGE)
    else if stored.None? then Ok({})
    else if stored.value.patchSetId == current then Ok(stored.value.files)
    else if copyWalk.None? then Ok({})
    else
      CopyKeepsReviewedOnly(stored.value.files, copyWalk.value);
      var carried := CarriedOver(copyWalk.value.entries, stored.value.files, copyWalk.value);
      var files := set i | 0 <= i < |carried| :: carried[i];
      assert forall p :: p in files <==> p in carried by {
        forall p | p in carried ensures p in files {
          var i :| 0 <= i < |carried| && carried[i] == p;
        }
      }
      Ok(files)
  }

  // ---------------------------------------------------------------------------
  // The view

  class ListFiles {
    var base: Option<string>
    var parentNum: int
    var reviewed: bool
    var query: Option<string>

    function Opts(): Options
      reads this
    {
      Options(base, parentNum, reviewed, query)
    }

    constructor()
      ensures Opts() == Options(None, 0, false, None)
    {
      base := None;
      parentNum := 0;
      reviewed := false;
      query := None;
    }

    /** `setReviewed`. */
    method SetReviewed(r: bool)
      modifies this
      ensures Opts() == old(Opts()).(reviewed := r)
    {
      reviewed := r;
    }

    /** `checkOptions`: counts the options given and refuses more than one. */
    method CheckOptions() returns (r: Option<string>)
      ensures r.Some? <==> OptionsConflict(Opts())
      ensures r.Some? ==> r.value == COMBINE_MESSAGE
    {
      var supplied := 0;
      if base.Some? {
        supplied := supplied + 1;
      }
      if parentNum > 0 {
        supplied := supplied + 1;
      }
      if reviewed {
        supplied := supplied + 1;
      }
      if query.Some? {
        supplied := supplied + 1;
      }
      if supplied > 1 {
        return Some(COMBINE_MESSAGE);
      }
      return None;
    }

    /** `apply`'s choice of listing. */
    method Apply(parents: nat) returns (r: Result<Listing, string>)
      ensures r == Dispatch(Opts(), parents)
    {
      var bad := CheckOptions();
      if bad.Some? {
        return Err(bad.value);
      }
      if reviewed {
        return Ok(ReviewedFiles);
      } else if query.Some? {
        return Ok(QueryPaths(query.value));
      }
      if base.Some? {
        r := Ok(AgainstBase(base.value));
      } else if parentNum != 0 {
        if parentNum < 0 || parentNum > parents {
          return Err(InvalidParentMessage(parentNum));
        }
        r := Ok(AgainstParent(parentNum));
      } else {
        r := Ok(AgainstCurrentBase);
      }
    }
  }
}
