/**
 * The file list of a change: the line and size totals of a patch set, which
 * diffs are expanded, how many rows are shown, and the reviewed toggles.
 * Rendering, the cursor and diff loading are not part of this model.
 */
module FileList {
  import opened Common

  const DEFAULT_NUM_FILES_SHOWN: nat := 200

  /** The status letter of an unmodified file; any other letter (or none) is a change. */
  const UNMODIFIED: char := 'U'

  /**
   * A normalised file entry. Counts the server leaves out are `None`; line
   * counts are never negative, the size delta may be.
   */
  datatype FileInfo = FileInfo(
    path: string,
    status: Option<char>,
    oldPath: Option<string>,
    linesInserted: Option<nat>,
    linesDeleted: Option<nat>,
    size: Option<nat>,
    sizeDelta: Option<int>,
    binary: bool)

  /** The file a diff is expanded for. */
  datatype PatchSetFile = PatchSetFile(path: string, basePath: Option<string>)

  datatype PatchChange = PatchChange(
    inserted: int, deleted: int, sizeDeltaInserted: int, sizeDeltaDeleted: int, totalSize: int)

  const ZERO_CHANGE: PatchChange := PatchChange(0, 0, 0, 0, 0)

  /** A JavaScript number used as a condition: absent and 0 are false. */
  function OrZero(n: Option<int>): int {
    if n.Some? then n.value else 0
  }

  /** `obj.size && obj.binary ? obj.size : 0`. */
  function SizeOf(f: FileInfo): nat {
    if f.size.Some? && f.size.value != 0 && f.binary then f.size.value else 0
  }

  /** The size delta of a binary file when it grows, else 0. */
  function DeltaInserted(f: FileInfo): (d: int)
    ensures d >= 0
  {
    if f.binary && OrZero(f.sizeDelta) > 0 then OrZero(f.sizeDelta) else 0
  }

  /** The size delta of a binary file when it shrinks, else 0. */
  function DeltaDeleted(f: FileInfo): (d: int)
    ensures d <= 0
  {
    if f.binary && OrZero(f.sizeDelta) < 0 then OrZero(f.sizeDelta) else 0
  }

  /** What one file adds to the totals. */
  function Contribution(f: FileInfo): PatchChange {
    PatchChange(OrZero(Nat(f.linesInserted)), OrZero(Nat(f.linesDeleted)),
                DeltaInserted(f), DeltaDeleted(f), SizeOf(f))
  }

  /** Only binary files have sizes, and their delta splits into a growth and a shrink part. */
  lemma ContributionSizes(f: FileInfo)
    ensures !f.binary ==> Contribution(f).sizeDeltaInserted == 0 && Contribution(f).sizeDeltaDeleted == 0
    ensures !f.binary ==> Contribution(f).totalSize == 0
    ensures f.binary ==> Contribution(f).sizeDeltaInserted + Contribution(f).sizeDeltaDeleted == OrZero(f.sizeDelta)
  {
  }

  function Plus(a: PatchChange, b: PatchChange): PatchChange {
    PatchChange(a.inserted + b.inserted, a.deleted + b.deleted,
                a.sizeDeltaInserted + b.sizeDeltaInserted, a.sizeDeltaDeleted + b.sizeDeltaDeleted,
                a.totalSize + b.totalSize)
  }

  lemma PlusZero(c: PatchChange)
    ensures Plus(ZERO_CHANGE, c) == c
  {
  }

  lemma PlusAssoc(x: PatchChange, y: PatchChange, z: PatchChange)
    ensures Plus(Plus(x, y), z) == Plus(x, Plus(y, z))
  {
  }

  /** The `reduce` over the files, from the left. */
  function Total(files: seq<FileInfo>): PatchChange {
    if |files| == 0 then ZERO_CHANGE
    else Plus(Total(files[..|files| - 1]), Contribution(files[|files| - 1]))
  }

  /** The files that are not magic paths (commit message, merge list). */
  function NonMagic(files: seq<FileInfo>, isMagicPath: string -> bool): (r: seq<FileInfo>)
    ensures |r| <= |files|
  {
    if |files| == 0 then []
    else (if isMagicPath(files[0].path) then [] else [files[0]]) + NonMagic(files[1..], isMagicPath)
  }

  /** `calculatePatchChange`. */
  function CalculatePatchChange(files: seq<FileInfo>, isMagicPath: string -> bool): PatchChange {
    Total(NonMagic(files, isMagicPath))
  }

  /** The totals of a concatenation are the sums of the totals: the fold order does not matter. */
  lemma {:induction false} TotalAppend(a: seq<FileInfo>, b: seq<FileInfo>)
    ensures Total(a + b) == Plus(Total(a), Total(b))
    decreases |b|
  {
    if |b| == 0 {
      assert a + b == a;
    } else {
      var b' := b[..|b| - 1];
      assert (a + b)[..|a + b| - 1] == a + b';
      assert (a + b)[|a + b| - 1] == b[|b| - 1];
      TotalAppend(a, b');
      PlusAssoc(Total(a), Total(b'), Contribution(b[|b| - 1]));
    }
  }

  lemma TotalOne(f: FileInfo)
    ensures Total([f]) == Contribution(f)
  {
    assert [f][..0] == [];
    PlusZero(Contribution(f));
  }

  /** The totals as a sum of the first file and the rest. */
  lemma TotalCons(f: FileInfo, rest: seq<FileInfo>)
    ensures Total([f] + rest) == Plus(Contribution(f), Total(rest))
  {
    TotalAppend([f], rest);
    TotalOne(f);
  }

  /** Inserted size deltas are never negative and deleted ones never positive; line totals are never negative. */
  lemma {:induction false} TotalSigns(files: seq<FileInfo>)
    ensures Total(files).sizeDeltaInserted >= 0 && Total(files).sizeDeltaDeleted <= 0
    ensures Total(files).inserted >= 0 && Total(files).deleted >= 0 && Total(files).totalSize >= 0
  {
    if |files| > 0 {
      TotalSigns(files[..|files| - 1]);
    }
  }

  /** Line counts of every counted file are zero or absent. */
  predicate NoLineChanges(files: seq<FileInfo>) {
    forall k :: 0 <= k < |files| ==> OrZero(Nat(files[k].linesInserted)) == 0 && OrZero(Nat(files[k].linesDeleted)) == 0
  }

  /** Size deltas of every counted binary file are zero or absent. */
  predicate NoBinaryChanges(files: seq<FileInfo>) {
    forall k :: 0 <= k < |files| ==> files[k].binary ==> OrZero(files[k].sizeDelta) == 0
  }

  function Nat(n: Option<nat>): Option<int> {
    if n.Some? then Some(n.value as int) else None
  }

  /** `shouldHideChangeTotals`. */
  predicate ShouldHideChangeTotals(pc: PatchChange) {
    pc.inserted == 0 && pc.deleted == 0
  }

  /** `shouldHideBinaryChangeTotals`. */
  predicate ShouldHideBinaryChangeTotals(pc: PatchChange) {
    pc.sizeDeltaInserted == 0 && pc.sizeDeltaDeleted == 0
  }

  lemma {:induction false} HideTotalsOfSeq(files: seq<FileInfo>)
    ensures ShouldHideChangeTotals(Total(files)) <==> NoLineChanges(files)
    ensures ShouldHideBinaryChangeTotals(Total(files)) <==> NoBinaryChanges(files)
  {
    if |files| > 0 {
      var init := files[..|files| - 1];
      HideTotalsOfSeq(init);
      TotalSigns(init);
      assert forall k :: 0 <= k < |init| ==> init[k] == files[k];
    }
  }

  /**
   * The line totals row is hidden exactly when no counted file inserts or
   * deletes a line, and the binary row exactly when no counted binary file
   * changes size.
   */
  lemma HideTotals(files: seq<FileInfo>, isMagicPath: string -> bool)
    ensures ShouldHideChangeTotals(CalculatePatchChange(files, isMagicPath))
        <==> NoLineChanges(NonMagic(files, isMagicPath))
    ensures ShouldHideBinaryChangeTotals(CalculatePatchChange(files, isMagicPath))
        <==> NoBinaryChanges(NonMagic(files, isMagicPath))
  {
    HideTotalsOfSeq(NonMagic(files, isMagicPath));
  }

  /** Magic paths never count: the totals are those of the other files alone. */
  lemma {:induction false} MagicPathsIgnored(files: seq<FileInfo>, isMagicPath: string -> bool, f: FileInfo)
    requires isMagicPath(f.path)
    ensures CalculatePatchChange([f] + files, isMagicPath) == CalculatePatchChange(files, isMagicPath)
  {
    assert ([f] + files)[1..] == files;
    assert NonMagic([f] + files, isMagicPath) == NonMagic(files, isMagicPath);
  }

  lemma BinaryOnlySizes(files: seq<FileInfo>, isMagicPath: string -> bool)
    ensures CalculatePatchChange(files, isMagicPath).sizeDeltaInserted >= 0
    ensures CalculatePatchChange(files, isMagicPath).sizeDeltaDeleted <= 0
  {
    TotalSigns(NonMagic(files, isMagicPath));
  }

  // ---------------------------------------------------------------------------
  // Modified files first

  function Modified(files: seq<FileInfo>): (r: seq<FileInfo>)
    ensures |r| <= |files|
  {
    if |files| == 0 then []
    else (if files[0].status != Some(UNMODIFIED) then [files[0]] else []) + Modified(files[1..])
  }

  function Unmodified(files: seq<FileInfo>): (r: seq<FileInfo>)
    ensures |r| <= |files|
  {
    if |files| == 0 then []
    else (if files[0].status == Some(UNMODIFIED) then [files[0]] else []) + Unmodified(files[1..])
  }

  lemma {:induction false} SplitIsPermutation(files: seq<FileInfo>)
    ensures multiset(Modified(files) + Unmodified(files)) == multiset(files)
  {
    if |files| > 0 {
      var rest := files[1..];
      SplitIsPermutation(rest);
      assert files == [files[0]] + rest;
      if files[0].status == Some(UNMODIFIED) {
        assert Modified(files) == Modified(rest);
        assert Unmodified(files) == [files[0]] + Unmodified(rest);
      } else {
        assert Modified(files) == [files[0]] + Modified(rest);
        assert Unmodified(files) == Unmodified(rest);
      }
    }
  }

  lemma {:induction false} ModifiedOfModified(files: seq<FileInfo>)
    ensures Modified(Modified(files)) == Modified(files)
    ensures Unmodified(Modified(files)) == []
    ensures Modified(Unmodified(files)) == []
    ensures Unmodified(Unmodified(files)) == Unmodified(files)
  {
    if |files| > 0 {
      ModifiedOfModified(files[1..]);
      var h := if files[0].status != Some(UNMODIFIED) then [files[0]] else [];
      var u := if files[0].status == Some(UNMODIFIED) then [files[0]] else [];
      FilterAppend(h, Modified(files[1..]));
      FilterAppend(u, Unmodified(files[1..]));
    }
  }

  lemma FilterAppend(a: seq<FileInfo>, b: seq<FileInfo>)
    ensures Modified(a + b) == Modified(a) + Modified(b)
    ensures Unmodified(a + b) == Unmodified(a) + Unmodified(b)
  {
    ModifiedAppend(a, b);
    UnmodifiedAppend(a, b);
  }

  lemma {:induction false} ModifiedAppend(a: seq<FileInfo>, b: seq<FileInfo>)
    ensures Modified(a + b) == Modified(a) + Modified(b)
  {
    if |a| > 0 {
      ModifiedAppend(a[1..], b);
      assert (a + b)[0] == a[0];
      assert (a + b)[1..] == a[1..] + b;
      var h := if a[0].status != Some(UNMODIFIED) then [a[0]] else [];
      assert Modified(a + b) == h + (Modified(a[1..]) + Modified(b));
      assert h + (Modified(a[1..]) + Modified(b)) == (h + Modified(a[1..])) + Modified(b);
    } else {
      assert a + b == b;
    }
  }

  lemma {:induction false} UnmodifiedAppend(a: seq<FileInfo>, b: seq<FileInfo>)
    ensures Unmodified(a + b) == Unmodified(a) + Unmodified(b)
  {
    if |a| > 0 {
      UnmodifiedAppend(a[1..], b);
      assert (a + b)[0] == a[0];
      assert (a + b)[1..] == a[1..] + b;
      var h := if a[0].status == Some(UNMODIFIED) then [a[0]] else [];
      assert Unmodified(a + b) == h + (Unmodified(a[1..]) + Unmodified(b));
      assert h + (Unmodified(a[1..]) + Unmodified(b)) == (h + Unmodified(a[1..])) + Unmodified(b);
    } else {
      assert a + b == b;
    }
  }

  lemma {:induction false} FilterStatus(files: seq<FileInfo>)
    ensures forall k :: 0 <= k < |Modified(files)| ==> Modified(files)[k].status != Some(UNMODIFIED)
    ensures forall k :: 0 <= k < |Unmodified(files)| ==> Unmodified(files)[k].status == Some(UNMODIFIED)
  {
    if |files| > 0 {
      FilterStatus(files[1..]);
      var m := Modified(files[1..]);
      var u := Unmodified(files[1..]);
      var h := if files[0].status != Some(UNMODIFIED) then [files[0]] else [];
      var g := if files[0].status == Some(UNMODIFIED) then [files[0]] else [];
      assert forall k :: 0 <= k < |m| ==> (h + m)[|h| + k] == m[k];
      assert forall k :: 0 <= k < |u| ==> (g + u)[|g| + k] == u[k];
    }
  }

  /**
   * The shown list is a permutation of what the model delivered, the changed
   * files before the unchanged ones, each group in delivery order.
   */
  lemma ModifiedFirst(files: seq<FileInfo>)
    ensures multiset(Modified(files) + Unmodified(files)) == multiset(files)
    ensures Modified(Modified(files) + Unmodified(files)) == Modified(files)
    ensures Unmodified(Modified(files) + Unmodified(files)) == Unmodified(files)
    ensures forall k :: 0 <= k < |Modified(files)| ==> Modified(files)[k].status != Some(UNMODIFIED)
    ensures forall k :: 0 <= k < |Unmodified(files)| ==> Unmodified(files)[k].status == Some(UNMODIFIED)
  {
    FilterStatus(files);
    SplitIsPermutation(files);
    ModifiedOfModified(files);
    FilterAppend(Modified(files), Unmodified(files));
  }

  // ---------------------------------------------------------------------------
  // Expanded diffs

  /** `computePatchSetFile`: the path, and the old path when there is a non-empty one. */
  function PatchSetFileOf(f: FileInfo): (p: PatchSetFile)
    ensures p.path == f.path
    ensures p.basePath.Some? <==> f.oldPath.Some? && f.oldPath.value != ""
  {
    PatchSetFile(f.path, if f.oldPath.Some? && f.oldPath.value != "" then f.oldPath else None)
  }

  /** `findIndex(f => f.path === path)`. */
  function IndexOfPath(files: seq<PatchSetFile>, path: string): (i: int)
    ensures -1 <= i < |files|
    ensures i == -1 <==> forall k :: 0 <= k < |files| ==> files[k].path != path
    ensures i >= 0 ==> files[i].path == path && forall k :: 0 <= k < i ==> files[k].path != path
  {
    if |files| == 0 then -1
    else if files[0].path == path then 0
    else
      var j := IndexOfPath(files[1..], path);
      if j == -1 then -1 else j + 1
  }

  predicate HasPath(files: seq<PatchSetFile>, path: string) {
    exists k :: 0 <= k < |files| && files[k].path == path
  }

  /** No path is expanded twice. */
  predicate UniquePaths(files: seq<PatchSetFile>) {
    forall i, j :: 0 <= i < j < |files| ==> files[i].path != files[j].path
  }

  predicate UniqueFilePaths(files: seq<FileInfo>) {
    forall i, j :: 0 <= i < j < |files| ==> files[i].path != files[j].path
  }

  function PathsOf(files: seq<PatchSetFile>): set<string> {
    set k | 0 <= k < |files| :: files[k].path
  }

  /** The new expanded list after `toggleFileExpanded(file)`: appended when absent, the first match removed otherwise. */
  function Toggled(expanded: seq<PatchSetFile>, file: PatchSetFile): (r: seq<PatchSetFile>)
    ensures !HasPath(expanded, file.path) ==> r == expanded + [file]
    ensures HasPath(expanded, file.path) ==> |r| == |expanded| - 1
  {
    var i := IndexOfPath(expanded, file.path);
    if i == -1 then expanded + [file] else RemoveAt(expanded, i)
  }

  /** Toggling a collapsed file expands it, and never expands a path twice. */
  lemma ToggleExpands(expanded: seq<PatchSetFile>, file: PatchSetFile)
    requires UniquePaths(expanded) && !HasPath(expanded, file.path)
    ensures HasPath(Toggled(expanded, file), file.path)
    ensures UniquePaths(Toggled(expanded, file))
  {
    var r := expanded + [file];
    forall a, b | 0 <= a < b < |r| ensures r[a].path != r[b].path {
      if b == |expanded| { assert r[a] == expanded[a]; }
      else { assert r[a] == expanded[a] && r[b] == expanded[b]; }
    }
    assert r[|expanded|] == file;
  }

  /** Toggling an expanded file collapses it, when no path was expanded twice. */
  lemma ToggleCollapses(expanded: seq<PatchSetFile>, file: PatchSetFile)
    requires UniquePaths(expanded) && HasPath(expanded, file.path)
    ensures !HasPath(Toggled(expanded, file), file.path)
    ensures UniquePaths(Toggled(expanded, file))
  {
    var i := IndexOfPath(expanded, file.path);
    var r := RemoveAt(expanded, i);
    forall k | 0 <= k < |r| ensures r[k].path != file.path {
      if k >= i { assert r[k] == expanded[k + 1]; assert expanded[i].path != expanded[k + 1].path; }
      else { assert r[k] == expanded[k]; }
    }
    forall a, b | 0 <= a < b < |r| ensures r[a].path != r[b].path {
      var a' := if a < i then a else a + 1;
      var b' := if b < i then b else b + 1;
      assert r[a] == expanded[a'] && r[b] == expanded[b'];
    }
  }

  /** Expanding a collapsed file and collapsing it again restores the list. */
  lemma ToggleTwiceWhenCollapsed(expanded: seq<PatchSetFile>, file: PatchSetFile)
    requires !HasPath(expanded, file.path)
    ensures Toggled(Toggled(expanded, file), file) == expanded
  {
    var once := expanded + [file];
    forall k | 0 <= k < |expanded| ensures once[k].path != file.path {
      assert once[k] == expanded[k];
    }
    assert once[|expanded|].path == file.path;
    assert IndexOfPath(once, file.path) == |expanded|;
    assert RemoveAt(once, |expanded|) == expanded;
  }

  /** Collapsing an expanded file and expanding it again leaves the same paths expanded. */
  lemma ToggleTwiceWhenExpanded(expanded: seq<PatchSetFile>, file: PatchSetFile)
    requires UniquePaths(expanded) && HasPath(expanded, file.path)
    ensures PathsOf(Toggled(Toggled(expanded, file), file)) == PathsOf(expanded)
  {
    var i := IndexOfPath(expanded, file.path);
    var once := RemoveAt(expanded, i);
    assert !HasPath(once, file.path);
    var twice := once + [file];
    forall p | p in PathsOf(twice) ensures p in PathsOf(expanded) {
      var k :| 0 <= k < |twice| && twice[k].path == p;
      if k == |once| { assert expanded[i].path == p; }
      else if k < i { assert expanded[k].path == p; }
      else { assert expanded[k + 1].path == p; }
    }
    forall p | p in PathsOf(expanded) ensures p in PathsOf(twice) {
      var k :| 0 <= k < |expanded| && expanded[k].path == p;
      if k == i { assert twice[|once|].path == p; }
      else if k < i { assert twice[k].path == p; }
      else { assert twice[k - 1].path == p; }
    }
  }

  /** The files among the first `n` shown whose diff is not expanded yet, as expanded files. */
  function NotYetExpanded(shown: seq<FileInfo>, expanded: seq<PatchSetFile>): (r: seq<PatchSetFile>)
    ensures |r| <= |shown|
  {
    if |shown| == 0 then []
    else (if HasPath(expanded, shown[0].path) then [] else [PatchSetFileOf(shown[0])])
         + NotYetExpanded(shown[1..], expanded)
  }

  /** The shown files as expanded files, in order. */
  function AsPatchSetFiles(shown: seq<FileInfo>): (r: seq<PatchSetFile>)
    ensures |r| == |shown|
    ensures forall i :: 0 <= i < |shown| ==> r[i] == PatchSetFileOf(shown[i])
  {
    seq(|shown|, i requires 0 <= i < |shown| => PatchSetFileOf(shown[i]))
  }

  /** Each new entry is a shown file that was not expanded, and each such file gets one. */
  lemma NotYetExpandedFacts(shown: seq<FileInfo>, expanded: seq<PatchSetFile>)
    ensures forall k :: 0 <= k < |NotYetExpanded(shown, expanded)| ==> !HasPath(expanded, NotYetExpanded(shown, expanded)[k].path)
    ensures forall k :: 0 <= k < |NotYetExpanded(shown, expanded)| ==>
      NotYetExpanded(shown, expanded)[k] in AsPatchSetFiles(shown)
    ensures forall m :: 0 <= m < |shown| && !HasPath(expanded, shown[m].path) ==>
      PatchSetFileOf(shown[m]) in NotYetExpanded(shown, expanded)
  {
    NotYetExpandedFresh(shown, expanded);
    NotYetExpandedFromShown(shown, expanded);
    NotYetExpandedComplete(shown, expanded);
  }

  lemma {:induction false} NotYetExpandedFresh(shown: seq<FileInfo>, expanded: seq<PatchSetFile>)
    ensures forall k :: 0 <= k < |NotYetExpanded(shown, expanded)| ==> !HasPath(expanded, NotYetExpanded(shown, expanded)[k].path)
  {
    if |shown| > 0 {
      NotYetExpandedFresh(shown[1..], expanded);
      var rest := NotYetExpanded(shown[1..], expanded);
      if !HasPath(expanded, shown[0].path) {
        var r := [PatchSetFileOf(shown[0])] + rest;
        assert NotYetExpanded(shown, expanded) == r;
        assert forall k :: 1 <= k < |r| ==> r[k] == rest[k - 1];
      }
    }
  }

  lemma {:induction false} NotYetExpandedFromShown(shown: seq<FileInfo>, expanded: seq<PatchSetFile>)
    ensures forall k :: 0 <= k < |NotYetExpanded(shown, expanded)| ==>
      NotYetExpanded(shown, expanded)[k] in AsPatchSetFiles(shown)
  {
    if |shown| > 0 {
      var tail := shown[1..];
      NotYetExpandedFromShown(tail, expanded);
      var rest := NotYetExpanded(tail, expanded);
      assert AsPatchSetFiles(shown) == [PatchSetFileOf(shown[0])] + AsPatchSetFiles(tail);
      if !HasPath(expanded, shown[0].path) {
        assert NotYetExpanded(shown, expanded) == [PatchSetFileOf(shown[0])] + rest;
      }
    }
  }

  lemma {:induction false} NotYetExpandedComplete(shown: seq<FileInfo>, expanded: seq<PatchSetFile>)
    ensures forall m :: 0 <= m < |shown| && !HasPath(expanded, shown[m].path) ==>
      PatchSetFileOf(shown[m]) in NotYetExpanded(shown, expanded)
  {
    if |shown| > 0 {
      NotYetExpandedComplete(shown[1..], expanded);
      var rest := NotYetExpanded(shown[1..], expanded);
      var h := if HasPath(expanded, shown[0].path) then [] else [PatchSetFileOf(shown[0])];
      var r := h + rest;
      forall m | 0 <= m < |shown| && !HasPath(expanded, shown[m].path) ensures PatchSetFileOf(shown[m]) in r {
        if m > 0 {
          assert shown[m] == shown[1..][m - 1];
        }
      }
    }
  }

  /** `files.slice(0, n)` for a non-negative `n`. */
  function Shown(files: seq<FileInfo>, n: nat): seq<FileInfo> {
    if n <= |files| then files[..n] else files
  }

  /** The expanded list after `expandAllDiffs`. */
  function ExpandedAll(files: seq<FileInfo>, n: nat, expanded: seq<PatchSetFile>): seq<PatchSetFile> {
    NotYetExpanded(Shown(files, n), expanded) + expanded
  }

  lemma {:induction false} NotYetExpandedUnique(shown: seq<FileInfo>, expanded: seq<PatchSetFile>)
    requires UniqueFilePaths(shown)
    ensures UniquePaths(NotYetExpanded(shown, expanded))
  {
    if |shown| > 0 {
      var tail := shown[1..];
      assert UniqueFilePaths(tail) by {
        forall i, j | 0 <= i < j < |tail| ensures tail[i].path != tail[j].path {
          assert tail[i] == shown[i + 1] && tail[j] == shown[j + 1];
        }
      }
      NotYetExpandedUnique(tail, expanded);
      NotYetExpandedFacts(tail, expanded);
      var rest := NotYetExpanded(tail, expanded);
      forall k | 0 <= k < |rest| ensures rest[k].path != shown[0].path {
        var m :| 0 <= m < |tail| && AsPatchSetFiles(tail)[m] == rest[k];
        assert tail[m] == shown[m + 1];
      }
      var h := if HasPath(expanded, shown[0].path) then [] else [PatchSetFileOf(shown[0])];
      var r := h + rest;
      forall i, j | 0 <= i < j < |r| ensures r[i].path != r[j].path {
        if i < |h| { assert r[j] == rest[j - 1]; }
        else { assert r[i] == rest[i - |h|] && r[j] == rest[j - |h|]; }
      }
    }
  }

  /**
   * After expanding all, every shown file is expanded, the earlier expansions
   * follow the new ones in their old order, and no path is expanded twice.
   */
  lemma ExpandAllProperties(files: seq<FileInfo>, n: nat, expanded: seq<PatchSetFile>)
    requires UniqueFilePaths(files) && UniquePaths(expanded)
    ensures var r := ExpandedAll(files, n, expanded);
      UniquePaths(r) && r[|r| - |expanded|..] == expanded &&
      forall m :: 0 <= m < |Shown(files, n)| ==> HasPath(r, Shown(files, n)[m].path)
  {
    var shown := Shown(files, n);
    assert UniqueFilePaths(shown) by {
      forall i, j | 0 <= i < j < |shown| ensures shown[i].path != shown[j].path {
        assert shown[i] == files[i] && shown[j] == files[j];
      }
    }
    var added := NotYetExpanded(shown, expanded);
    NotYetExpandedUnique(shown, expanded);
    NotYetExpandedFacts(shown, expanded);
    var r := added + expanded;
    forall i, j | 0 <= i < j < |r| ensures r[i].path != r[j].path {
      if j < |added| {
        assert r[i] == added[i] && r[j] == added[j];
      } else if i >= |added| {
        assert r[i] == expanded[i - |added|] && r[j] == expanded[j - |added|];
      } else {
        assert r[i] == added[i] && r[j] == expanded[j - |added|];
        assert !HasPath(expanded, added[i].path);
      }
    }
    assert r[|r| - |expanded|..] == expanded;
    forall m | 0 <= m < |shown| ensures HasPath(r, shown[m].path) {
      var f := shown[m];
      if HasPath(expanded, f.path) {
        var k :| 0 <= k < |expanded| && expanded[k].path == f.path;
        assert r[|added| + k] == expanded[k];
      } else {
        var k :| 0 <= k < |added| && added[k] == PatchSetFileOf(f);
        assert r[k] == added[k];
      }
    }
  }

  datatype FilesExpandedState = NONE | SOME | ALL

  /** `computeExpandedFiles`. */
  function ComputeExpandedFiles(expandedCount: nat, fileCount: nat): (s: FilesExpandedState)
    ensures s == NONE <==> expandedCount == 0
    ensures s == ALL <==> expandedCount != 0 && expandedCount == fileCount
    ensures s == SOME <==> expandedCount != 0 && expandedCount != fileCount
  {
    if expandedCount == 0 then NONE
    else if expandedCount == fileCount then ALL
    else SOME
  }

  /** `incrementNumFilesShown` as a value: add the increment, never past the end of the list. */
  function Incremented(shown: nat, increment: nat, fileCount: nat): (n: nat)
    ensures n <= fileCount || n == shown + increment
    ensures n == if shown + increment > fileCount then fileCount else shown + increment
  {
    if shown + increment > fileCount then fileCount else shown + increment
  }

  /** A request to `_saveReviewedState`. */
  datatype ReviewRequest = ReviewRequest(path: string, reviewed: bool)

  class GrFileList {
    var files: seq<FileInfo>
    var modifiedFiles: seq<FileInfo>
    var unmodifiedFiles: seq<FileInfo>
    var expandedFiles: seq<PatchSetFile>
    var numFilesShown: nat
    var fileListIncrement: nat
    var selectedIndex: nat
    var editMode: bool
    var reviewed: seq<string>

    constructor()
      ensures files == [] && modifiedFiles == [] && unmodifiedFiles == [] && expandedFiles == []
      ensures numFilesShown == 0 && fileListIncrement == DEFAULT_NUM_FILES_SHOWN && selectedIndex == 0
      ensures !editMode && reviewed == []
    {
      files := [];
      modifiedFiles := [];
      unmodifiedFiles := [];
      expandedFiles := [];
      numFilesShown := 0;
      fileListIncrement := DEFAULT_NUM_FILES_SHOWN;
      selectedIndex := 0;
      editMode := false;
      reviewed := [];
    }

    /** The `filesIncludingUnmodified$` subscription: changed files first. */
    method SetFilesIncludingUnmodified(all: seq<FileInfo>)
      modifies this
      ensures modifiedFiles == Modified(all) && unmodifiedFiles == Unmodified(all)
      ensures files == Modified(all) + Unmodified(all)
      ensures expandedFiles == old(expandedFiles) && numFilesShown == old(numFilesShown)
      ensures fileListIncrement == old(fileListIncrement) && selectedIndex == old(selectedIndex)
      ensures editMode == old(editMode) && reviewed == old(reviewed)
    {
      modifiedFiles := Modified(all);
      unmodifiedFiles := Unmodified(all);
      files := modifiedFiles + unmodifiedFiles;
    }

    /** A new file list: diffs collapse and the default page is shown. */
    method OnFilesChanged()
      modifies this
      ensures expandedFiles == []
      ensures numFilesShown == if |files| < DEFAULT_NUM_FILES_SHOWN then |files| else DEFAULT_NUM_FILES_SHOWN
      ensures numFilesShown <= |files|
      ensures files == old(files) && modifiedFiles == old(modifiedFiles) && unmodifiedFiles == old(unmodifiedFiles)
      ensures fileListIncrement == old(fileListIncrement) && selectedIndex == old(selectedIndex)
      ensures editMode == old(editMode) && reviewed == old(reviewed)
    {
      if |expandedFiles| > 0 {
        expandedFiles := [];
      }
      numFilesShown := if |files| < DEFAULT_NUM_FILES_SHOWN then |files| else DEFAULT_NUM_FILES_SHOWN;
    }

    /** A new patch range: `resetFileState` followed by `collapseAllDiffs`. */
    method OnPatchRangeChanged()
      modifies this
      ensures numFilesShown == DEFAULT_NUM_FILES_SHOWN && selectedIndex == 0 && expandedFiles == []
      ensures files == old(files) && modifiedFiles == old(modifiedFiles) && unmodifiedFiles == old(unmodifiedFiles)
      ensures fileListIncrement == old(fileListIncrement)
      ensures editMode == old(editMode) && reviewed == old(reviewed)
    {
      numFilesShown := DEFAULT_NUM_FILES_SHOWN;
      selectedIndex := 0;
      CollapseAllDiffs();
    }

    method ToggleFileExpanded(file: PatchSetFile)
      modifies this
      ensures expandedFiles == Toggled(old(expandedFiles), file)
      ensures files == old(files) && modifiedFiles == old(modifiedFiles) && unmodifiedFiles == old(unmodifiedFiles)
      ensures numFilesShown == old(numFilesShown) && fileListIncrement == old(fileListIncrement)
      ensures selectedIndex == old(selectedIndex) && editMode == old(editMode) && reviewed == old(reviewed)
    {
      var indexInExpanded := IndexOfPath(expandedFiles, file.path);
      if indexInExpanded == -1 {
        expandedFiles := expandedFiles + [file];
      } else {
        expandedFiles := RemoveAt(expandedFiles, indexInExpanded);
      }
    }

    method ExpandAllDiffs()
      modifies this
      ensures expandedFiles == ExpandedAll(files, numFilesShown, old(expandedFiles))
      ensures files == old(files) && modifiedFiles == old(modifiedFiles) && unmodifiedFiles == old(unmodifiedFiles)
      ensures numFilesShown == old(numFilesShown) && fileListIncrement == old(fileListIncrement)
      ensures selectedIndex == old(selectedIndex) && editMode == old(editMode) && reviewed == old(reviewed)
    {
      var newFiles := NotYetExpanded(Shown(files, numFilesShown), expandedFiles);
      expandedFiles := newFiles + expandedFiles;
    }

    method CollapseAllDiffs()
      modifies this
      ensures expandedFiles == []
      ensures files == old(files) && modifiedFiles == old(modifiedFiles) && unmodifiedFiles == old(unmodifiedFiles)
      ensures numFilesShown == old(numFilesShown) && fileListIncrement == old(fileListIncrement)
      ensures selectedIndex == old(selectedIndex) && editMode == old(editMode) && reviewed == old(reviewed)
    {
      expandedFiles := [];
    }

    function FilesExpanded(): (s: FilesExpandedState)
      reads this
      ensures s == ComputeExpandedFiles(|expandedFiles|, |files|)
      ensures s == NONE <==> expandedFiles == []
    {
      ComputeExpandedFiles(|expandedFiles|, |files|)
    }

    method IncrementNumFilesShown()
      modifies this
      ensures numFilesShown == Incremented(old(numFilesShown), fileListIncrement, |files|)
      ensures old(numFilesShown) <= |files| ==> numFilesShown <= |files|
      ensures files == old(files) && modifiedFiles == old(modifiedFiles) && unmodifiedFiles == old(unmodifiedFiles)
      ensures expandedFiles == old(expandedFiles) && fileListIncrement == old(fileListIncrement)
      ensures selectedIndex == old(selectedIndex) && editMode == old(editMode) && reviewed == old(reviewed)
    {
      numFilesShown := numFilesShown + fileListIncrement;
      if numFilesShown > |files| {
        numFilesShown := |files|;
      }
    }

    method ShowAllFiles()
      modifies this
      ensures numFilesShown == |files|
      ensures files == old(files) && modifiedFiles == old(modifiedFiles) && unmodifiedFiles == old(unmodifiedFiles)
      ensures expandedFiles == old(expandedFiles) && fileListIncrement == old(fileListIncrement)
      ensures selectedIndex == old(selectedIndex) && editMode == old(editMode) && reviewed == old(reviewed)
    {
      numFilesShown := |files|;
    }

    /**
     * `reviewFile`: nothing in edit mode; otherwise the explicit flag, or the
     * opposite of the current reviewed state.
     */
    function ReviewFile(path: string, flag: Option<bool>): (r: Option<ReviewRequest>)
      reads this
      ensures editMode <==> r.None?
      ensures r.Some? ==> r.value.path == path
      ensures r.Some? && flag.Some? ==> r.value.reviewed == flag.value
      ensures r.Some? && flag.None? ==> (r.value.reviewed <==> path !in reviewed)
    {
      if editMode then None
      else Some(ReviewRequest(path, if flag.Some? then flag.value else path !in reviewed))
    }
  }
}
