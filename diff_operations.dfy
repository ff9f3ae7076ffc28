/** File diff operations over the diff caches: choosing the base of a diff, the list of file-diff cache
    keys a listing requests, the retry of negative cache results with the fallback algorithm, and the
    map of results by file path. The caches, the repository and the commit graph are parameters. */
module DiffOperations {
  import opened Common

  type ObjectId = string

  /** `ObjectId.zeroId()`, the base of a diff against the root. */
  const ZERO_ID: ObjectId := "0000000000000000000000000000000000000000"

  const RENAME_SCORE: int := 60

  /** The magic paths of the commit message and of the merge list. */
  const COMMIT_MSG: string := "/COMMIT_MSG"
  const MERGE_LIST: string := "/MERGE_LIST"

  datatype DiffAlgorithm = HISTOGRAM_WITH_FALLBACK_MYERS | HISTOGRAM_NO_FALLBACK

  const DEFAULT_DIFF_ALGORITHM: DiffAlgorithm := HISTOGRAM_WITH_FALLBACK_MYERS

  datatype Whitespace = IGNORE_NONE | IGNORE_TRAILING | IGNORE_LEADING_AND_TRAILING | IGNORE_ALL

  const DEFAULT_WHITESPACE: Whitespace := IGNORE_NONE

  /** What a diff compares against. */
  datatype ComparisonType = AgainstOtherPatchSet | AgainstParent(parentNum: int) | AgainstAutoMerge | AgainstRoot

  datatype DiffParameters = DiffParameters(
    project: string,
    newCommit: ObjectId,
    baseCommit: ObjectId,
    comparisonType: ComparisonType,
    parent: Option<int>,
    skipFiles: Option<bool>)

  const NO_BASE_COMMIT: string := "base commit not available"

  /** `computeDiffParameters`. `numParents` is the parent count of the new commit and `baseOf(p)` the
      base commit `getBaseCommit` resolves for parent number `p` (`None` for the auto-merge), absent when
      it cannot be resolved. Only for an explicit parent does an unresolved base fall back to the root;
      elsewhere the builder refuses it. */
  function ComputeDiffParameters(
    project: string, newCommit: ObjectId, parent: int, numParents: nat,
    baseOf: Option<int> -> Option<ObjectId>): Result<DiffParameters, string>
  {
    var result := DiffParameters(project, newCommit, ZERO_ID, AgainstRoot, Some(parent), None);
    if parent > 0 then
      match baseOf(Some(parent))
      case None => Ok(result)
      case Some(base) => Ok(result.(baseCommit := base, comparisonType := AgainstParent(parent)))
    else if numParents == 0 then
      Ok(result)
    else if numParents == 1 then
      match baseOf(Some(parent))
      case None => Err(NO_BASE_COMMIT)
      case Some(base) => Ok(result.(baseCommit := base, comparisonType := AgainstParent(1)))
    else if numParents > 2 then
      match baseOf(Some(1))
      case None => Err(NO_BASE_COMMIT)
      case Some(base) => Ok(result.(baseCommit := base, comparisonType := AgainstParent(1), skipFiles := Some(true)))
    else
      match baseOf(None)
      case None => Err(NO_BASE_COMMIT)
      case Some(base) => Ok(result.(baseCommit := base, comparisonType := AgainstAutoMerge))
  }

  /** The base chosen for each case: an explicit parent, or the root when it cannot be resolved; without
      one, the root for a root commit, the first parent for a single parent, the auto-merge for two, and
      the first parent with files skipped for more. Only the last case skips files. */
  lemma DiffBaseSelection(
    project: string, newCommit: ObjectId, parent: int, numParents: nat,
    baseOf: Option<int> -> Option<ObjectId>)
    ensures var r := ComputeDiffParameters(project, newCommit, parent, numParents, baseOf);
      && (r.Ok? ==> r.value.newCommit == newCommit && r.value.parent == Some(parent) && r.value.project == project)
      && (parent > 0 ==>
            r.Ok? &&
            (if baseOf(Some(parent)).None? then r.value.baseCommit == ZERO_ID && r.value.comparisonType == AgainstRoot
             else r.value.baseCommit == baseOf(Some(parent)).value && r.value.comparisonType == AgainstParent(parent)))
      && (parent <= 0 && numParents == 0 ==> r.Ok? && r.value.baseCommit == ZERO_ID && r.value.comparisonType == AgainstRoot)
      && (parent <= 0 && numParents == 1 && r.Ok? ==> r.value.comparisonType == AgainstParent(1))
      && (parent <= 0 && numParents == 2 && r.Ok? ==> r.value.comparisonType == AgainstAutoMerge && r.value.baseCommit == baseOf(None).value)
      && (parent <= 0 && numParents > 2 && r.Ok? ==> r.value.comparisonType == AgainstParent(1) && r.value.baseCommit == baseOf(Some(1)).value)
      && (r.Ok? ==> (r.value.skipFiles == Some(true) <==> parent <= 0 && numParents > 2))
      && (r.Ok? ==> r.value.skipFiles != Some(false))
      && (r.Err? <==>
            (parent <= 0 && numParents > 0
             && baseOf(if numParents == 1 then Some(parent) else if numParents == 2 then None else Some(1)).None?))
  {
  }

  // ---------------------------------------------------------------------------
  // Cache keys

  datatype FileDiffCacheKey = FileDiffCacheKey(
    project: string,
    oldCommit: ObjectId,
    newCommit: ObjectId,
    newFilePath: string,
    renameScore: int,
    diffAlgorithm: DiffAlgorithm,
    whitespace: Whitespace,
    useTimeout: bool)

  /** `createFileDiffCacheKey`: an unset whitespace setting defaults to ignoring none. */
  function CreateFileDiffCacheKey(
    project: string, a: ObjectId, b: ObjectId, newPath: string, algorithm: DiffAlgorithm,
    useTimeout: bool, whitespace: Option<Whitespace>): FileDiffCacheKey
  {
    var ws := if whitespace.None? then DEFAULT_WHITESPACE else whitespace.value;
    FileDiffCacheKey(project, a, b, newPath, RENAME_SCORE, algorithm, ws, useTimeout)
  }

  /** A key keeps everything it is given, uses the rename score of 60, and ignores no whitespace unless
      told otherwise. */
  lemma CacheKeyDefaults(
    project: string, a: ObjectId, b: ObjectId, newPath: string, algorithm: DiffAlgorithm,
    useTimeout: bool, whitespace: Option<Whitespace>)
    ensures var k := CreateFileDiffCacheKey(project, a, b, newPath, algorithm, useTimeout, whitespace);
      && k.project == project && k.oldCommit == a && k.newCommit == b && k.newFilePath == newPath
      && k.diffAlgorithm == algorithm && k.useTimeout == useTimeout && k.renameScore == 60
      && (whitespace.None? ==> k.whitespace == IGNORE_NONE)
      && (whitespace.Some? ==> k.whitespace == whitespace.value)
  {
  }

  /** An entry of the modified-files cache; at least one of the paths is present. */
  datatype ModifiedFile = ModifiedFile(oldPath: Option<string>, newPath: Option<string>)

  predicate HasPath(f: ModifiedFile) {
    f.newPath.Some? || f.oldPath.Some?
  }

  /** The path a file's diff is requested under: the new path, or the old one for a deletion. */
  function RequestedPath(f: ModifiedFile): string
    requires HasPath(f)
  {
    if f.newPath.Some? then f.newPath.value else f.oldPath.value
  }

  function DefaultKey(p: DiffParameters, path: string): FileDiffCacheKey {
    CreateFileDiffCacheKey(p.project, p.baseCommit, p.newCommit, path, DEFAULT_DIFF_ALGORITHM, true, None)
  }

  /** `isMergeAgainstParent`: a comparison against a parent of a commit with several parents. */
  predicate IsMergeAgainstParent(cmp: ComparisonType, numParents: nat) {
    cmp.AgainstParent? && numParents > 1
  }

  /** The keys `getModifiedFiles` requests: the commit message, the merge list for merges, and every
      modified file unless files are skipped. */
  function KeysFor(p: DiffParameters, files: seq<ModifiedFile>, numParents: nat): seq<FileDiffCacheKey>
    requires forall i :: 0 <= i < |files| ==> HasPath(files[i])
  {
    [DefaultKey(p, COMMIT_MSG)]
    + (if p.comparisonType.AgainstAutoMerge? || IsMergeAgainstParent(p.comparisonType, numParents)
       then [DefaultKey(p, MERGE_LIST)] else [])
    + (if p.skipFiles.None? then seq(|files|, i requires 0 <= i < |files| => DefaultKey(p, RequestedPath(files[i]))) else [])
  }

  /** The commit message comes first; the merge list comes second exactly for merges; then one key per
      file, in order, unless files are skipped; every key uses the default algorithm with a timeout and
      ignores no whitespace. */
  lemma KeysShape(p: DiffParameters, files: seq<ModifiedFile>, numParents: nat)
    requires forall i :: 0 <= i < |files| ==> HasPath(files[i])
    ensures var keys := KeysFor(p, files, numParents);
      var merge := p.comparisonType.AgainstAutoMerge? || IsMergeAgainstParent(p.comparisonType, numParents);
      var m := if merge then 1 else 0;
      && |keys| == 1 + m + (if p.skipFiles.None? then |files| else 0)
      && keys[0].newFilePath == COMMIT_MSG
      && (merge ==> keys[1].newFilePath == MERGE_LIST)
      && (p.skipFiles.None? ==> forall i :: 0 <= i < |files| ==> keys[1 + m + i].newFilePath == RequestedPath(files[i]))
      && (forall k :: k in keys ==>
            k.diffAlgorithm == DEFAULT_DIFF_ALGORITHM && k.useTimeout && k.whitespace == IGNORE_NONE
            && k.oldCommit == p.baseCommit && k.newCommit == p.newCommit)
  {
  }

  /** The key list of `getModifiedFiles`, built by appending. */
  method GetModifiedFilesKeys(p: DiffParameters, files: seq<ModifiedFile>, numParents: nat) returns (keys: seq<FileDiffCacheKey>)
    requires forall i :: 0 <= i < |files| ==> HasPath(files[i])
    ensures keys == KeysFor(p, files, numParents)
  {
    keys := [DefaultKey(p, COMMIT_MSG)];
    if p.comparisonType.AgainstAutoMerge? || IsMergeAgainstParent(p.comparisonType, numParents) {
      keys := keys + [DefaultKey(p, MERGE_LIST)];
    }
    ghost var head := keys;
    if p.skipFiles.None? {
      for i := 0 to |files|
        invariant keys == head + seq(i, j requires 0 <= j < i => DefaultKey(p, RequestedPath(files[j])))
      {
        keys := keys + [DefaultKey(p, RequestedPath(files[i]))];
      }
    }
  }

  // ---------------------------------------------------------------------------
  // Looking up diffs, with the fallback algorithm

  datatype ChangeType = ADDED | MODIFIED | DELETED | RENAMED | COPIED | REWRITE

  /** A cached file diff: its paths, change type, whether it is empty, whether the cache reports a
      negative result, and whether all its edits are due to a rebase. */
  datatype FileDiffOutput = FileDiffOutput(
    oldPath: Option<string>,
    newPath: Option<string>,
    changeType: ChangeType,
    empty: bool,
    negative: bool,
    allEditsDueToRebase: bool)

  datatype DiffOptions = DiffOptions(skipFilesWithAllEditsDueToRebase: bool)

  /** The key a negative result is requested again under: the fallback algorithm without a timeout. */
  function FallbackKey(k: FileDiffCacheKey): FileDiffCacheKey {
    CreateFileDiffCacheKey(k.project, k.oldCommit, k.newCommit, k.newFilePath, HISTOGRAM_NO_FALLBACK, false, Some(k.whitespace))
  }

  /** The fallback key differs from the original only in its algorithm and its timeout. */
  lemma FallbackKeyShape(k: FileDiffCacheKey)
    requires k.renameScore == RENAME_SCORE
    ensures FallbackKey(k) == k.(diffAlgorithm := HISTOGRAM_NO_FALLBACK, useTimeout := false)
  {
  }

  /** The results of the first lookup that are not negative, in key order. */
  function Kept(keys: seq<FileDiffCacheKey>, getAll: FileDiffCacheKey -> FileDiffOutput): (r: seq<FileDiffOutput>)
    ensures forall o :: o in r ==> !o.negative && exists k :: k in keys && getAll(k) == o
  {
    if |keys| == 0 then []
    else
      var rest := Kept(keys[..|keys| - 1], getAll);
      var k := keys[|keys| - 1];
      assert forall j :: j in keys[..|keys| - 1] ==> j in keys;
      if getAll(k).negative then rest else rest + [getAll(k)]
  }

  /** The fallback keys of the negative results, in key order. */
  function Retried(keys: seq<FileDiffCacheKey>, getAll: FileDiffCacheKey -> FileDiffOutput): (r: seq<FileDiffCacheKey>)
    ensures |Kept(keys, getAll)| + |r| == |keys|
    ensures forall f :: f in r ==> exists k :: k in keys && getAll(k).negative && f == FallbackKey(k)
  {
    if |keys| == 0 then []
    else
      var rest := Retried(keys[..|keys| - 1], getAll);
      var k := keys[|keys| - 1];
      assert forall j :: j in keys[..|keys| - 1] ==> j in keys;
      if getAll(k).negative then rest + [FallbackKey(k)] else rest
  }

  /** All results: the kept ones, then those of the fallback lookup, which are not retried again. */
  function WithFallback(keys: seq<FileDiffCacheKey>, getAll: FileDiffCacheKey -> FileDiffOutput): seq<FileDiffOutput> {
    var retried := Retried(keys, getAll);
    Kept(keys, getAll) + seq(|retried|, i requires 0 <= i < |retried| => getAll(retried[i]))
  }

  /** Each key contributes exactly one result: a non-negative first result, or the result of its fallback
      key, whatever that is. */
  lemma FallbackOnce(keys: seq<FileDiffCacheKey>, getAll: FileDiffCacheKey -> FileDiffOutput)
    ensures |WithFallback(keys, getAll)| == |keys|
    ensures forall o :: o in WithFallback(keys, getAll) ==>
      exists k :: k in keys && if getAll(k).negative then o == getAll(FallbackKey(k)) else o == getAll(k)
    ensures forall k :: k in keys && !getAll(k).negative ==> getAll(k) in WithFallback(keys, getAll)
  {
    var w := WithFallback(keys, getAll);
    var kept := Kept(keys, getAll);
    var retried := Retried(keys, getAll);
    forall o | o in w
      ensures exists k :: k in keys && if getAll(k).negative then o == getAll(FallbackKey(k)) else o == getAll(k)
    {
      if o in kept {
        var k :| k in keys && getAll(k) == o;
        assert !getAll(k).negative;
      } else {
        var j :| 0 <= j < |w| && w[j] == o;
        assert forall t :: 0 <= t < |kept| ==> w[t] == kept[t];
        var i := j - |kept|;
        assert w[j] == getAll(retried[i]);
        assert retried[i] in retried;
        var k :| k in keys && getAll(k).negative && retried[i] == FallbackKey(k);
      }
    }
    forall k | k in keys && !getAll(k).negative
      ensures getAll(k) in w
    {
      KeptContains(keys, getAll, k);
    }
  }

  lemma {:induction false} KeptContains(keys: seq<FileDiffCacheKey>, getAll: FileDiffCacheKey -> FileDiffOutput, k: FileDiffCacheKey)
    requires k in keys && !getAll(k).negative
    ensures getAll(k) in Kept(keys, getAll)
  {
    var n := |keys| - 1;
    if keys[n] != k {
      assert k in keys[..n] by {
        var i :| 0 <= i < |keys| && keys[i] == k;
        assert i < n && keys[..n][i] == k;
      }
      KeptContains(keys[..n], getAll, k);
    }
  }

  // ---------------------------------------------------------------------------
  // Results by path

  /** `allDueToRebase`: never for a rename or a copy. */
  predicate AllDueToRebase(o: FileDiffOutput) {
    o.allEditsDueToRebase && !(o.changeType == RENAMED || o.changeType == COPIED)
  }

  /** `mapByFilePath`'s filter: empty outputs are dropped, and so are those whose edits are all due to a
      rebase when the options ask for it. */
  predicate Included(o: FileDiffOutput, opts: DiffOptions) {
    !(o.empty || (opts.skipFilesWithAllEditsDueToRebase && AllDueToRebase(o)))
  }

  /** The key of an output: its old path for a deletion, else its new path. */
  function PathOf(o: FileDiffOutput): Option<string> {
    if o.changeType == DELETED then o.oldPath else o.newPath
  }

  const MISSING_PATH: string := "No value present"
  const DUPLICATE_PATH: string := "multiple entries with same key"

  /** The entries put into the map builder, or `None` when an included output lacks the path it is keyed
      by. */
  function Entries(outs: seq<FileDiffOutput>, opts: DiffOptions): (r: Option<seq<(string, FileDiffOutput)>>)
    ensures r.None? <==> exists i :: 0 <= i < |outs| && Included(outs[i], opts) && PathOf(outs[i]).None?
    ensures r.Some? ==> forall e :: e in r.value ==> e.1 in outs && Included(e.1, opts) && PathOf(e.1) == Some(e.0)
    ensures r.Some? ==> forall o :: o in outs && Included(o, opts) ==> (PathOf(o).value, o) in r.value
  {
    if |outs| == 0 then Some([])
    else
      var n := |outs| - 1;
      var rest := Entries(outs[..n], opts);
      var o := outs[n];
      assert outs == outs[..n] + [o];
      assert forall i :: 0 <= i < n ==> outs[..n][i] == outs[i];
      if rest.None? then None
      else if !Included(o, opts) then rest
      else if PathOf(o).None? then None
      else Some(rest.value + [(PathOf(o).value, o)])
  }

  predicate DistinctKeys(entries: seq<(string, FileDiffOutput)>) {
    forall i, j :: 0 <= i < j < |entries| ==> entries[i].0 != entries[j].0
  }

  /** `ImmutableMap.Builder.build()`: refuses two entries with the same key. */
  function BuildMap(entries: seq<(string, FileDiffOutput)>): (r: Result<map<string, FileDiffOutput>, string>)
    ensures r.Err? ==> r == Err(DUPLICATE_PATH)
    ensures r.Ok? ==> forall k :: k in r.value <==> exists i :: 0 <= i < |entries| && entries[i].0 == k
    ensures r.Ok? ==> forall i :: 0 <= i < |entries| ==> r.value[entries[i].0] == entries[i].1
  {
    if |entries| == 0 then Ok(map[])
    else
      var n := |entries| - 1;
      var rest := BuildMap(entries[..n]);
      var e := entries[n];
      assert forall i :: 0 <= i < n ==> entries[..n][i] == entries[i];
      if rest.Err? then rest
      else if e.0 in rest.value then Err(DUPLICATE_PATH)
      else Ok(rest.value[e.0 := e.1])
  }

  lemma DistinctKeysSnoc(pre: seq<(string, FileDiffOutput)>, e: (string, FileDiffOutput))
    requires DistinctKeys(pre) && forall i :: 0 <= i < |pre| ==> pre[i].0 != e.0
    ensures DistinctKeys(pre + [e])
  {
  }

  lemma NotDistinctSnoc(pre: seq<(string, FileDiffOutput)>, e: (string, FileDiffOutput))
    requires !DistinctKeys(pre) || exists i :: 0 <= i < |pre| && pre[i].0 == e.0
    ensures !DistinctKeys(pre + [e])
  {
    var s := pre + [e];
    if !DistinctKeys(pre) {
      var i, j :| 0 <= i < j < |pre| && pre[i].0 == pre[j].0;
      assert s[i].0 == s[j].0;
    } else {
      var i :| 0 <= i < |pre| && pre[i].0 == e.0;
      assert s[i].0 == s[|pre|].0;
    }
  }

  /** The map is refused exactly when two entries share a key. */
  lemma {:induction false} BuildMapRefusesDuplicates(entries: seq<(string, FileDiffOutput)>)
    ensures BuildMap(entries).Err? <==> !DistinctKeys(entries)
  {
    if |entries| > 0 {
      var n := |entries| - 1;
      var pre := entries[..n];
      var e := entries[n];
      BuildMapRefusesDuplicates(pre);
      assert entries == pre + [e];
      var r := BuildMap(pre);
      if r.Err? {
        NotDistinctSnoc(pre, e);
      } else if e.0 in r.value {
        NotDistinctSnoc(pre, e);
      } else {
        DistinctKeysSnoc(pre, e);
      }
    }
  }

  /** `mapByFilePath`. */
  function MapByFilePath(outs: seq<FileDiffOutput>, opts: DiffOptions): Result<map<string, FileDiffOutput>, string> {
    var entries := Entries(outs, opts);
    if entries.None? then Err(MISSING_PATH) else BuildMap(entries.value)
  }

  /** When the map is built, it holds exactly the included outputs, each under its path. */
  lemma MapByFilePathContents(outs: seq<FileDiffOutput>, opts: DiffOptions)
    ensures var r := MapByFilePath(outs, opts);
      r.Ok? ==>
        && (forall o :: o in outs && Included(o, opts) ==> PathOf(o).Some? && PathOf(o).value in r.value && r.value[PathOf(o).value] == o)
        && (forall k :: k in r.value ==> r.value[k] in outs && Included(r.value[k], opts) && PathOf(r.value[k]) == Some(k))
  {
    var r := MapByFilePath(outs, opts);
    if r.Ok? {
      var entries := Entries(outs, opts).value;
      forall o | o in outs && Included(o, opts)
        ensures PathOf(o).Some? && PathOf(o).value in r.value && r.value[PathOf(o).value] == o
      {
        var i :| 0 <= i < |outs| && outs[i] == o;
        assert PathOf(outs[i]).Some?;
        var j :| 0 <= j < |entries| && entries[j] == (PathOf(o).value, o);
      }
      forall k | k in r.value
        ensures r.value[k] in outs && Included(r.value[k], opts) && PathOf(r.value[k]) == Some(k)
      {
        var i :| 0 <= i < |entries| && entries[i].0 == k;
        assert entries[i] in entries;
      }
    }
  }

  /** A deleted file is keyed by its old path and any other by its new path; an empty output never
      appears. */
  lemma MapByFilePathKeys(outs: seq<FileDiffOutput>, opts: DiffOptions, k: string)
    requires MapByFilePath(outs, opts).Ok? && k in MapByFilePath(outs, opts).value
    ensures var o := MapByFilePath(outs, opts).value[k];
      !o.empty && (if o.changeType == DELETED then o.oldPath == Some(k) else o.newPath == Some(k))
  {
    MapByFilePathContents(outs, opts);
  }

  /** The builder loop of `mapByFilePath`. */
  method CollectEntries(outs: seq<FileDiffOutput>, opts: DiffOptions) returns (r: Option<seq<(string, FileDiffOutput)>>)
    ensures r == Entries(outs, opts)
  {
    var entries: seq<(string, FileDiffOutput)> := [];
    for i := 0 to |outs|
      invariant Entries(outs[..i], opts) == Some(entries)
    {
      var o := outs[i];
      assert outs[..i + 1][..i] == outs[..i];
      if o.empty || (opts.skipFilesWithAllEditsDueToRebase && AllDueToRebase(o)) {
        continue;
      }
      if PathOf(o).None? {
        NoPathStaysMissing(outs, opts, i);
        return None;
      }
      entries := entries + [(PathOf(o).value, o)];
    }
    assert outs[..|outs|] == outs;
    return Some(entries);
  }

  lemma NoPathStaysMissing(outs: seq<FileDiffOutput>, opts: DiffOptions, i: nat)
    requires i < |outs| && Included(outs[i], opts) && PathOf(outs[i]).None?
    ensures Entries(outs, opts).None?
  {
  }

  method BuildMapOf(entries: seq<(string, FileDiffOutput)>) returns (r: Result<map<string, FileDiffOutput>, string>)
    ensures r == BuildMap(entries)
  {
    var m: map<string, FileDiffOutput> := map[];
    for i := 0 to |entries|
      invariant BuildMap(entries[..i]) == Ok(m)
    {
      assert entries[..i + 1][..i] == entries[..i];
      if entries[i].0 in m {
        DuplicateStays(entries, i);
        return Err(DUPLICATE_PATH);
      }
      m := m[entries[i].0 := entries[i].1];
    }
    assert entries[..|entries|] == entries;
    return Ok(m);
  }

  lemma DuplicateStays(entries: seq<(string, FileDiffOutput)>, i: nat)
    requires i < |entries| && BuildMap(entries[..i]).Ok? && entries[i].0 in BuildMap(entries[..i]).value
    ensures BuildMap(entries) == Err(DUPLICATE_PATH)
  {
    var j :| 0 <= j < i && entries[..i][j].0 == entries[i].0;
    assert entries[j].0 == entries[i].0;
    BuildMapRefusesDuplicates(entries);
  }

  /** `getModifiedFilesForKeys`: one lookup of all keys, negative results retried once with their
      fallback keys, then the results mapped by path. */
  method GetModifiedFilesForKeys(keys: seq<FileDiffCacheKey>, getAll: FileDiffCacheKey -> FileDiffOutput, opts: DiffOptions)
    returns (r: Result<map<string, FileDiffOutput>, string>)
    ensures r == MapByFilePath(WithFallback(keys, getAll), opts)
  {
    var result: seq<FileDiffOutput> := [];
    var fallbackKeys: seq<FileDiffCacheKey> := [];
    for i := 0 to |keys|
      invariant result == Kept(keys[..i], getAll) && fallbackKeys == Retried(keys[..i], getAll)
    {
      assert keys[..i + 1][..i] == keys[..i];
      var diff := getAll(keys[i]);
      if diff.negative {
        fallbackKeys := fallbackKeys + [FallbackKey(keys[i])];
      } else {
        result := result + [diff];
      }
    }
    assert keys[..|keys|] == keys;
    result := result + seq(|fallbackKeys|, i requires 0 <= i < |fallbackKeys| => getAll(fallbackKeys[i]));
    var entries := CollectEntries(result, opts);
    if entries.None? {
      return Err(MISSING_PATH);
    }
    r := BuildMapOf(entries.value);
  }

  // ---------------------------------------------------------------------------
  // The operations

  /** `getModifiedFiles`. `modifiedFiles` is what the modified-files cache holds for the two commits and
      `numParents` the new commit's parent count. */
  method GetModifiedFiles(
    p: DiffParameters, opts: DiffOptions, modifiedFiles: seq<ModifiedFile>, numParents: nat,
    getAll: FileDiffCacheKey -> FileDiffOutput)
    returns (r: Result<map<string, FileDiffOutput>, string>)
    requires forall i :: 0 <= i < |modifiedFiles| ==> HasPath(modifiedFiles[i])
    ensures r == MapByFilePath(WithFallback(KeysFor(p, modifiedFiles, numParents), getAll), opts)
  {
    var keys := GetModifiedFilesKeys(p, modifiedFiles, numParents);
    r := GetModifiedFilesForKeys(keys, getAll, opts);
  }

  /** `listModifiedFilesAgainstParent`: the base chosen, then the files listed against it;
      `modifiedFilesOf` is the modified-files cache. */
  method ListModifiedFilesAgainstParent(
    project: string, newCommit: ObjectId, parent: int, opts: DiffOptions, numParents: nat,
    baseOf: Option<int> -> Option<ObjectId>, modifiedFilesOf: (ObjectId, ObjectId) -> seq<ModifiedFile>,
    getAll: FileDiffCacheKey -> FileDiffOutput)
    returns (r: Result<map<string, FileDiffOutput>, string>)
    requires forall a, b, i :: 0 <= i < |modifiedFilesOf(a, b)| ==> HasPath(modifiedFilesOf(a, b)[i])
    ensures var params := ComputeDiffParameters(project, newCommit, parent, numParents, baseOf);
      if params.Err? then r == Err(params.error)
      else r == MapByFilePath(WithFallback(KeysFor(params.value, modifiedFilesOf(params.value.baseCommit, newCommit), numParents), getAll), opts)
  {
    var params := ComputeDiffParameters(project, newCommit, parent, numParents, baseOf);
    if params.Err? {
      return Err(params.error);
    }
    r := GetModifiedFiles(params.value, opts, modifiedFilesOf(params.value.baseCommit, newCommit), numParents, getAll);
  }

  /** `listModifiedFiles`: between two given commits, as against another patch set. */
  method ListModifiedFiles(
    project: string, oldCommit: ObjectId, newCommit: ObjectId, opts: DiffOptions, numParents: nat,
    modifiedFiles: seq<ModifiedFile>, getAll: FileDiffCacheKey -> FileDiffOutput)
    returns (r: Result<map<string, FileDiffOutput>, string>)
    requires forall i :: 0 <= i < |modifiedFiles| ==> HasPath(modifiedFiles[i])
    ensures r == MapByFilePath(WithFallback(KeysFor(
      DiffParameters(project, newCommit, oldCommit, AgainstOtherPatchSet, None, None), modifiedFiles, numParents), getAll), opts)
  {
    var params := DiffParameters(project, newCommit, oldCommit, AgainstOtherPatchSet, None, None);
    r := GetModifiedFiles(params, opts, modifiedFiles, numParents, getAll);
  }

  /** The result of looking up one file: its diff, or the empty diff of its path. */
  datatype FileResult = Found(output: FileDiffOutput) | EmptyDiff(path: string, oldCommit: ObjectId, newCommit: ObjectId)

  /** `getModifiedFileForKey`, with the default options `defaults`. */
  method GetModifiedFileForKey(key: FileDiffCacheKey, getAll: FileDiffCacheKey -> FileDiffOutput, defaults: DiffOptions)
    returns (r: Result<FileResult, string>)
    ensures var m := MapByFilePath(WithFallback([key], getAll), defaults);
      if m.Err? then r == Err(m.error)
      else if key.newFilePath in m.value then r == Ok(Found(m.value[key.newFilePath]))
      else r == Ok(EmptyDiff(key.newFilePath, key.oldCommit, key.newCommit))
  {
    var m := GetModifiedFilesForKeys([key], getAll, defaults);
    if m.Err? {
      return Err(m.error);
    }
    if key.newFilePath in m.value {
      return Ok(Found(m.value[key.newFilePath]));
    }
    return Ok(EmptyDiff(key.newFilePath, key.oldCommit, key.newCommit));
  }

  /** A single-file lookup retries a negative result once and falls back to the empty diff when the diff
      is dropped or keyed under another path. */
  lemma SingleFileLookup(key: FileDiffCacheKey, getAll: FileDiffCacheKey -> FileDiffOutput, defaults: DiffOptions)
    ensures var o := if getAll(key).negative then getAll(FallbackKey(key)) else getAll(key);
      && WithFallback([key], getAll) == [o]
      && (Included(o, defaults) && PathOf(o).Some? ==> MapByFilePath([o], defaults) == Ok(map[PathOf(o).value := o]))
      && (!Included(o, defaults) ==> MapByFilePath([o], defaults) == Ok(map[]))
  {
    assert [key][..0] == [];
    MapOfOne(if getAll(key).negative then getAll(FallbackKey(key)) else getAll(key), defaults);
  }

  lemma MapOfOne(o: FileDiffOutput, opts: DiffOptions)
    ensures Included(o, opts) && PathOf(o).Some? ==> MapByFilePath([o], opts) == Ok(map[PathOf(o).value := o])
    ensures !Included(o, opts) ==> MapByFilePath([o], opts) == Ok(map[])
  {
    assert [o][..0] == [];
    if Included(o, opts) && PathOf(o).Some? {
      var e := (PathOf(o).value, o);
      var es: seq<(string, FileDiffOutput)> := [e];
      var none: seq<(string, FileDiffOutput)> := [];
      var noOutputs: seq<FileDiffOutput> := [];
      assert [o][..0] == noOutputs;
      assert Entries(noOutputs, opts) == Some(none);
      assert none + [e] == es;
      assert Entries([o], opts) == Some(es);
      var empty: map<string, FileDiffOutput> := map[];
      assert es[..0] == none;
      assert BuildMap(es) == Ok(empty[e.0 := e.1]);
    }
  }

  /** `getModifiedFile` and `getModifiedFileAgainstParent`: one file between the base and the new commit,
      with the caller's whitespace setting. */
  method GetModifiedFile(
    project: string, oldCommit: ObjectId, newCommit: ObjectId, fileName: string,
    whitespace: Option<Whitespace>, getAll: FileDiffCacheKey -> FileDiffOutput, defaults: DiffOptions)
    returns (r: Result<FileResult, string>)
    ensures var key := CreateFileDiffCacheKey(project, oldCommit, newCommit, fileName, DEFAULT_DIFF_ALGORITHM, true, whitespace);
      var m := MapByFilePath(WithFallback([key], getAll), defaults);
      if m.Err? then r == Err(m.error)
      else if fileName in m.value then r == Ok(Found(m.value[fileName]))
      else r == Ok(EmptyDiff(fileName, oldCommit, newCommit))
  {
    var key := CreateFileDiffCacheKey(project, oldCommit, newCommit, fileName, DEFAULT_DIFF_ALGORITHM, true, whitespace);
    r := GetModifiedFileForKey(key, getAll, defaults);
  }

  method GetModifiedFileAgainstParent(
    project: string, newCommit: ObjectId, parent: int, fileName: string, whitespace: Option<Whitespace>,
    numParents: nat, baseOf: Option<int> -> Option<ObjectId>, getAll: FileDiffCacheKey -> FileDiffOutput,
    defaults: DiffOptions)
    returns (r: Result<FileResult, string>)
    ensures var params := ComputeDiffParameters(project, newCommit, parent, numParents, baseOf);
      params.Err? ==> r == Err(params.error)
    ensures var params := ComputeDiffParameters(project, newCommit, parent, numParents, baseOf);
      params.Ok? ==>
        var key := CreateFileDiffCacheKey(project, params.value.baseCommit, newCommit, fileName, DEFAULT_DIFF_ALGORITHM, true, whitespace);
        var m := MapByFilePath(WithFallback([key], getAll), defaults);
        if m.Err? then r == Err(m.error)
        else if fileName in m.value then r == Ok(Found(m.value[fileName]))
        else r == Ok(EmptyDiff(fileName, params.value.baseCommit, newCommit))
  {
    var params := ComputeDiffParameters(project, newCommit, parent, numParents, baseOf);
    if params.Err? {
      return Err(params.error);
    }
    r := GetModifiedFile(project, params.value.baseCommit, newCommit, fileName, whitespace, getAll, defaults);
  }
}
