/**
 * The text and index rules of the merge helper: the conflict message of a
 * failed merge, the merge strategy name, the conflict-marker labels, how a
 * conflicted index collapses to one entry per path, and the message of a
 * merge commit. The JGit merge itself is not part of this model.
 */
module MergeUtil {
  import opened Common
  import Change
  import CodeReviewCommits

  // ---------------------------------------------------------------------------
  // createConflictMessage

  const CONFLICT_HEADER: string := "merge conflict(s)"

  /** The joined form the `StringJoiner("\n* ", ":\n* ", "\n")` produces. */
  function ConflictMessage(files: seq<string>): string {
    if |files| == 0 then CONFLICT_HEADER
    else CONFLICT_HEADER + ":\n* " + Join(files, "\n* ") + "\n"
  }

  /** One bullet line per file. */
  function Bullets(files: seq<string>): string {
    if |files| == 0 then "" else "* " + files[0] + "\n" + Bullets(files[1..])
  }

  lemma {:induction false} JoinBullets(files: seq<string>)
    requires |files| > 0
    ensures "* " + Join(files, "\n* ") + "\n" == Bullets(files)
  {
    if |files| == 1 {
      assert Bullets(files[1..]) == "";
    } else {
      JoinBullets(files[1..]);
      assert Join(files, "\n* ") == files[0] + "\n* " + Join(files[1..], "\n* ");
    }
  }

  /**
   * No files: exactly the header. Otherwise the header, a colon, and one
   * `* <file>` line per file in input order.
   */
  lemma ConflictMessageShape(files: seq<string>)
    ensures |files| == 0 ==> ConflictMessage(files) == CONFLICT_HEADER
    ensures |files| > 0 ==> ConflictMessage(files) == CONFLICT_HEADER + ":\n" + Bullets(files)
  {
    if |files| > 0 {
      JoinBullets(files);
      assert ":\n* " == ":\n" + "* ";
      Regroup(CONFLICT_HEADER, ":\n", "* ", Join(files, "\n* "), "\n");
    }
  }

  lemma Regroup(h: string, a: string, b: string, j: string, n: string)
    ensures h + (a + b) + j + n == h + a + (b + j + n)
  {
  }

  /** `createConflictMessage`, appending to the builder file by file. */
  method CreateConflictMessage(files: seq<string>) returns (msg: string)
    ensures msg == ConflictMessage(files)
  {
    msg := CONFLICT_HEADER;
    if |files| == 0 {
      return;
    }
    var joined := ":\n* " + files[0];
    var i := 1;
    while i < |files|
      invariant 1 <= i <= |files|
      invariant joined == ":\n* " + Join(files[..i], "\n* ")
    {
      JoinAppend(files[..i], files[i], "\n* ");
      assert files[..i + 1] == files[..i] + [files[i]];
      joined := joined + "\n* " + files[i];
      i := i + 1;
    }
    assert files[..i] == files;
    msg := msg + joined + "\n";
  }

  // ---------------------------------------------------------------------------
  // Strategy and status

  const STRATEGY_RECURSIVE: string := "recursive"
  const STRATEGY_RESOLVE: string := "resolve"
  const STRATEGY_SIMPLE_TWO_WAY_IN_CORE: string := "simple-two-way-in-core"

  function MergeStrategyName(useContentMerge: bool, useRecursiveMerge: bool): (name: string)
    ensures name == STRATEGY_SIMPLE_TWO_WAY_IN_CORE <==> !useContentMerge
    ensures name == STRATEGY_RECURSIVE <==> useContentMerge && useRecursiveMerge
    ensures name == STRATEGY_RESOLVE <==> useContentMerge && !useRecursiveMerge
  {
    if useContentMerge then
      if useRecursiveMerge then STRATEGY_RECURSIVE else STRATEGY_RESOLVE
    else STRATEGY_SIMPLE_TWO_WAY_IN_CORE
  }

  datatype MergeBaseFailureReason =
    | MULTIPLE_MERGE_BASES_NOT_SUPPORTED
    | TOO_MANY_MERGE_BASES
    | CONFLICTS_DURING_MERGE_BASE_CALCULATION

  function GetCommitMergeStatus(reason: MergeBaseFailureReason): (s: CodeReviewCommits.CommitMergeStatus)
    ensures s == CodeReviewCommits.PATH_CONFLICT <==> reason == CONFLICTS_DURING_MERGE_BASE_CALCULATION
    ensures s != CodeReviewCommits.PATH_CONFLICT ==> s == CodeReviewCommits.MANUAL_RECURSIVE_MERGE
  {
    match reason
    case CONFLICTS_DURING_MERGE_BASE_CALCULATION => CodeReviewCommits.PATH_CONFLICT
    case _ => CodeReviewCommits.MANUAL_RECURSIVE_MERGE
  }

  // ---------------------------------------------------------------------------
  // Conflict-marker labels of mergeWithConflicts

  const SUBJECT_LIMIT: nat := 60

  /** `msg.substring(0, Math.min(msg.length(), 60))`. */
  function Truncate(msg: string): (r: string)
    ensures |r| <= SUBJECT_LIMIT && r <= msg
    ensures |msg| <= SUBJECT_LIMIT ==> r == msg
  {
    if |msg| <= SUBJECT_LIMIT then msg else msg[..SUBJECT_LIMIT]
  }

  function Spaces(n: nat): (s: string)
    ensures |s| == n && forall i :: 0 <= i < n ==> s[i] == ' '
  {
    if n == 0 then "" else " " + Spaces(n - 1)
  }

  /** `%-<width>s`: left-justified, padded with spaces on the right to `width`. */
  function PadRight(s: string, width: nat): (r: string)
    ensures |r| == if |s| >= width then |s| else width
    ensures s <= r
    ensures forall i :: |s| <= i < |r| ==> r[i] == ' '
  {
    if |s| >= width then s else s + Spaces(width - |s|)
  }

  /** A commit as the labels need it: its name (hex id) and subject line. */
  datatype CommitText = CommitText(name: string, shortMessage: string)

  /** `MergeBase`: a base commit, or the reason there is none. */
  datatype MergeBase =
    | BaseCommit(commit: CommitText)
    | NoBase(reason: CodeReviewCommits.NoMergeBaseReason)

  /** The three labels written after the `<<<<<<<`, `|||||||` and `>>>>>>>` markers. */
  datatype MarkerLabels = MarkerLabels(base: string, ours: string, theirs: string)

  function Max3(a: nat, b: nat, c: nat): (m: nat)
    ensures m >= a && m >= b && m >= c && (m == a || m == b || m == c)
  {
    if a >= b && a >= c then a else if b >= c then b else c
  }

  /**
   * The labels `mergeWithConflicts` formats. With every name empty the width is
   * 0 and `%-0s` is no valid format: None. `describe` is
   * `NoMergeBaseReason.getDescription`.
   */
  function Labels(baseName: string, base: MergeBase, oursName: string, ours: CommitText,
                  theirsName: string, theirs: CommitText,
                  describe: CodeReviewCommits.NoMergeBaseReason -> string): Option<MarkerLabels>
  {
    var nameLength := Max3(|oursName|, |theirsName|, |baseName|);
    if nameLength == 0 then None
    else
      var baseDescription :=
        match base
        case BaseCommit(c) => c.name + " " + Truncate(c.shortMessage)
        case NoBase(reason) => describe(reason);
      Some(MarkerLabels(
        PadRight(baseName, nameLength) + " (" + baseDescription + ")",
        PadRight(oursName, nameLength) + " (" + ours.name + " " + Truncate(ours.shortMessage) + ")",
        PadRight(theirsName, nameLength) + " (" + theirs.name + " " + Truncate(theirs.shortMessage) + ")"))
  }

  /**
   * All three labels start with their name padded to the longest name, so the
   * parenthesised descriptions line up; quoted subjects are cut to 60 characters.
   */
  lemma LabelsAligned(baseName: string, base: MergeBase, oursName: string, ours: CommitText,
                      theirsName: string, theirs: CommitText,
                      describe: CodeReviewCommits.NoMergeBaseReason -> string)
    requires baseName != "" || oursName != "" || theirsName != ""
    ensures Labels(baseName, base, oursName, ours, theirsName, theirs, describe).Some?
    ensures var l := Labels(baseName, base, oursName, ours, theirsName, theirs, describe).value;
            var w := Max3(|oursName|, |theirsName|, |baseName|);
            |l.base| > w + 1 && |l.ours| > w + 1 && |l.theirs| > w + 1 &&
            l.base[..w] == PadRight(baseName, w) && l.ours[..w] == PadRight(oursName, w) &&
            l.theirs[..w] == PadRight(theirsName, w) &&
            l.base[w..w + 2] == " (" && l.ours[w..w + 2] == " (" && l.theirs[w..w + 2] == " ("
    ensures var l := Labels(baseName, base, oursName, ours, theirsName, theirs, describe).value;
            var w := Max3(|oursName|, |theirsName|, |baseName|);
            l.ours == PadRight(oursName, w) + " (" + ours.name + " " + Truncate(ours.shortMessage) + ")"
  {
    BaseLabelAligned(baseName, base, oursName, ours, theirsName, theirs, describe);
    OursLabelAligned(baseName, base, oursName, ours, theirsName, theirs, describe);
    TheirsLabelAligned(baseName, base, oursName, ours, theirsName, theirs, describe);
  }

  lemma BaseLabelAligned(baseName: string, base: MergeBase, oursName: string, ours: CommitText,
                         theirsName: string, theirs: CommitText,
                         describe: CodeReviewCommits.NoMergeBaseReason -> string)
    requires baseName != "" || oursName != "" || theirsName != ""
    ensures var l := Labels(baseName, base, oursName, ours, theirsName, theirs, describe).value;
            var w := Max3(|oursName|, |theirsName|, |baseName|);
            |l.base| > w + 1 && l.base[..w] == PadRight(baseName, w) && l.base[w..w + 2] == " ("
  {
    var w := Max3(|oursName|, |theirsName|, |baseName|);
    var baseDescription :=
      match base
      case BaseCommit(c) => c.name + " " + Truncate(c.shortMessage)
      case NoBase(reason) => describe(reason);
    LabelShape(baseName, w, baseDescription);
  }

  lemma OursLabelAligned(baseName: string, base: MergeBase, oursName: string, ours: CommitText,
                         theirsName: string, theirs: CommitText,
                         describe: CodeReviewCommits.NoMergeBaseReason -> string)
    requires baseName != "" || oursName != "" || theirsName != ""
    ensures var l := Labels(baseName, base, oursName, ours, theirsName, theirs, describe).value;
            var w := Max3(|oursName|, |theirsName|, |baseName|);
            |l.ours| > w + 1 && l.ours[..w] == PadRight(oursName, w) && l.ours[w..w + 2] == " ("
  {
    var w := Max3(|oursName|, |theirsName|, |baseName|);
    LabelShape(oursName, w, ours.name + " " + Truncate(ours.shortMessage));
  }

  lemma TheirsLabelAligned(baseName: string, base: MergeBase, oursName: string, ours: CommitText,
                           theirsName: string, theirs: CommitText,
                           describe: CodeReviewCommits.NoMergeBaseReason -> string)
    requires baseName != "" || oursName != "" || theirsName != ""
    ensures var l := Labels(baseName, base, oursName, ours, theirsName, theirs, describe).value;
            var w := Max3(|oursName|, |theirsName|, |baseName|);
            |l.theirs| > w + 1 && l.theirs[..w] == PadRight(theirsName, w) && l.theirs[w..w + 2] == " ("
  {
    var w := Max3(|oursName|, |theirsName|, |baseName|);
    LabelShape(theirsName, w, theirs.name + " " + Truncate(theirs.shortMessage));
  }

  /** One label: the padded name, then the parenthesised description. */
  lemma LabelShape(name: string, w: nat, description: string)
    requires |name| <= w
    ensures var l := PadRight(name, w) + " (" + description + ")";
      |l| > w + 1 && l[..w] == PadRight(name, w) && l[w..w + 2] == " ("
  {
    var p := PadRight(name, w);
    var l := p + " (" + description + ")";
    assert l == p + (" (" + description + ")");
    assert l[..w] == p;
    assert l[w..w + 2] == (" (" + description + ")")[..2];
  }

  // ---------------------------------------------------------------------------
  // Stage collapse: one stage-0 entry per path

  datatype DirEntry = DirEntry(path: string, stage: nat, mode: int, objectId: CodeReviewCommits.ObjectId)

  /**
   * `DirCache.nextEntry(i)`: the first index after `i` whose path differs from the
   * path at `i` (the index keeps the stages of one path next to each other).
   */
  function NextEntry(entries: seq<DirEntry>, i: nat): (n: nat)
    requires i < |entries|
    ensures i < n <= |entries|
    ensures forall k :: i <= k < n ==> entries[k].path == entries[i].path
    ensures n < |entries| ==> entries[n].path != entries[i].path
    decreases |entries| - i
  {
    if i + 1 < |entries| && entries[i + 1].path == entries[i].path then NextEntry(entries, i + 1)
    else i + 1
  }

  /**
   * The single entry that replaces the conflicted group `entries[i..next]`:
   * the merged blob when one was produced, the higher stage of a two-stage
   * group, and the first stage otherwise.
   */
  function Collapsed(entries: seq<DirEntry>, i: nat, next: nat, resolved: map<string, CodeReviewCommits.ObjectId>)
    : (e: DirEntry)
    requires i < next <= |entries|
    ensures e.path == entries[i].path && e.stage == 0
  {
    var entry := entries[i];
    var path := entry.path;
    if path in resolved then DirEntry(path, 0, entry.mode, resolved[path])
    else if next == i + 1 then DirEntry(path, 0, entry.mode, entry.objectId)
    else if next == i + 2 then DirEntry(path, 0, entries[i + 1].mode, entries[i + 1].objectId)
    else DirEntry(path, 0, entry.mode, entry.objectId)
  }

  /** The index the builder produces from position `i` on. */
  function CollapseFrom(entries: seq<DirEntry>, resolved: map<string, CodeReviewCommits.ObjectId>, i: nat)
    : seq<DirEntry>
    requires i <= |entries|
    decreases |entries| - i
  {
    if i == |entries| then []
    else if entries[i].stage == 0 then [entries[i]] + CollapseFrom(entries, resolved, i + 1)
    else
      var next := NextEntry(entries, i);
      [Collapsed(entries, i, next, resolved)] + CollapseFrom(entries, resolved, next)
  }

  /** Only stage 0 comes out: every conflict is replaced by a single merged entry. */
  lemma {:induction false} CollapseOnlyStageZero(entries: seq<DirEntry>, resolved: map<string, CodeReviewCommits.ObjectId>,
                                                 i: nat)
    requires i <= |entries|
    ensures forall k :: 0 <= k < |CollapseFrom(entries, resolved, i)| ==>
      CollapseFrom(entries, resolved, i)[k].stage == 0
    ensures |CollapseFrom(entries, resolved, i)| <= |entries| - i
    decreases |entries| - i
  {
    if i < |entries| {
      var rest := if entries[i].stage == 0 then i + 1 else NextEntry(entries, i);
      CollapseOnlyStageZero(entries, resolved, rest);
    }
  }

  /** An index without conflicts is copied unchanged. */
  lemma {:induction false} CollapseOfClean(entries: seq<DirEntry>, resolved: map<string, CodeReviewCommits.ObjectId>,
                                           i: nat)
    requires i <= |entries|
    requires forall k :: 0 <= k < |entries| ==> entries[k].stage == 0
    ensures CollapseFrom(entries, resolved, i) == entries[i..]
    decreases |entries| - i
  {
    if i < |entries| {
      CollapseOfClean(entries, resolved, i + 1);
      assert entries[i..] == [entries[i]] + entries[i + 1..];
    }
  }

  /**
   * A conflicted path group followed by the rest of the index collapses to its
   * one merged entry followed by the collapse of the rest.
   */
  lemma CollapseGroup(entries: seq<DirEntry>, resolved: map<string, CodeReviewCommits.ObjectId>, i: nat)
    requires i < |entries| && entries[i].stage != 0
    ensures CollapseFrom(entries, resolved, i)
         == [Collapsed(entries, i, NextEntry(entries, i), resolved)] + CollapseFrom(entries, resolved, NextEntry(entries, i))
    ensures var e := Collapsed(entries, i, NextEntry(entries, i), resolved);
            (entries[i].path in resolved ==> e.objectId == resolved[entries[i].path]) &&
            (entries[i].path !in resolved && NextEntry(entries, i) == i + 2 ==> e.objectId == entries[i + 1].objectId) &&
            (entries[i].path !in resolved && NextEntry(entries, i) != i + 2 ==> e.objectId == entries[i].objectId)
  {
  }

  /** Appending one element to the built prefix keeps the whole unchanged. */
  lemma ShiftOne<T>(built: seq<T>, x: T, rest: seq<T>, whole: seq<T>)
    requires built + ([x] + rest) == whole
    ensures (built + [x]) + rest == whole
  {
    assert (built + [x]) + rest == built + ([x] + rest);
  }

  /** The builder loop of `mergeWithConflicts`. */
  method CollapseStages(entries: seq<DirEntry>, resolved: map<string, CodeReviewCommits.ObjectId>)
    returns (built: seq<DirEntry>)
    ensures built == CollapseFrom(entries, resolved, 0)
  {
    built := [];
    var cnt := |entries|;
    var i := 0;
    while i < cnt
      invariant 0 <= i <= cnt
      invariant built + CollapseFrom(entries, resolved, i) == CollapseFrom(entries, resolved, 0)
      decreases cnt - i
    {
      var entry := entries[i];
      if entry.stage == 0 {
        ShiftOne(built, entry, CollapseFrom(entries, resolved, i + 1), CollapseFrom(entries, resolved, 0));
        built := built + [entry];
        i := i + 1;
        continue;
      }
      var next := NextEntry(entries, i);
      var path := entry.path;
      var res: DirEntry;
      if path in resolved {
        res := DirEntry(path, 0, entry.mode, resolved[path]);
      } else if next == i + 1 {
        res := DirEntry(path, 0, entry.mode, entry.objectId);
      } else if next == i + 2 {
        entry := entries[i + 1];
        res := DirEntry(path, 0, entry.mode, entry.objectId);
      } else {
        res := DirEntry(path, 0, entry.mode, entry.objectId);
      }
      assert res == Collapsed(entries, i, next, resolved);
      ShiftOne(built, res, CollapseFrom(entries, resolved, next), CollapseFrom(entries, resolved, 0));
      built := built + [res];
      i := next;
    }
  }

  // ---------------------------------------------------------------------------
  // Merge commit message

  const R_HEADS: string := "refs/heads/"
  const R_HEADS_MASTER: string := "refs/heads/master"

  /** A merged commit as the message needs it. */
  datatype MergedCommit = MergedCommit(shortMessage: string, topic: Option<string>, changeKey: string)

  /** The quoted non-empty topics, each once (a repeated topic is kept at its last occurrence). */
  function QuotedTopics(merged: seq<MergedCommit>): (ts: seq<string>)
    ensures forall t :: t in ts <==>
      (exists i :: 0 <= i < |merged| && merged[i].topic.Some? && merged[i].topic.value != "" &&
                   t == "\"" + merged[i].topic.value + "\"")
  {
    if |merged| == 0 then []
    else
      var rest := QuotedTopics(merged[1..]);
      var head := merged[0].topic;
      if head.Some? && head.value != "" && ("\"" + head.value + "\"") !in rest then
        ["\"" + head.value + "\""] + rest
      else if head.Some? && head.value != "" then rest
      else
        assert forall i :: 1 <= i < |merged| ==> merged[i] == merged[1..][i - 1];
        rest
  }

  /** The topics once each, in natural order: `toImmutableSortedSet(naturalOrder())`. */
  function SortedTopics(merged: seq<MergedCommit>): seq<string> {
    SortStrings(QuotedTopics(merged))
  }

  function FirstKeys(merged: seq<MergedCommit>, n: nat): (keys: seq<string>)
    ensures |keys| == if |merged| < n then |merged| else n
    ensures forall i :: 0 <= i < |keys| ==> keys[i] == Change.Abbreviate(merged[i].changeKey)
  {
    if |merged| == 0 || n == 0 then []
    else [Change.Abbreviate(merged[0].changeKey)] + FirstKeys(merged[1..], n - 1)
  }

  /** `summarize`. */
  function Summarize(merged: seq<MergedCommit>): string {
    if |merged| == 1 then "Merge \"" + merged[0].shortMessage + "\""
    else
      var topics := SortedTopics(merged);
      if |topics| > 0 then
        "Merge changes from topic" + (if |topics| > 1 then "s" else "") + " " + Join(topics, ", ")
      else
        "Merge changes " + Join(FirstKeys(merged, 5), ",") + (if |merged| > 5 then ", ..." else "")
  }

  /** One commit: its subject, quoted. */
  lemma SummarizeOne(c: MergedCommit)
    ensures Summarize([c]) == "Merge \"" + c.shortMessage + "\""
  {
  }

  /** With topics, the summary names them sorted, and says `topics` only for several. */
  lemma SummarizeTopics(merged: seq<MergedCommit>)
    requires |merged| != 1
    requires exists i :: 0 <= i < |merged| && merged[i].topic.Some? && merged[i].topic.value != ""
    ensures var ts := SortedTopics(merged);
            |ts| > 0 && SortedStrings(ts) &&
            Summarize(merged) == "Merge changes from topic" + (if |ts| > 1 then "s" else "") + " " + Join(ts, ", ")
  {
    var i :| 0 <= i < |merged| && merged[i].topic.Some? && merged[i].topic.value != "";
    var q := QuotedTopics(merged);
    assert "\"" + merged[i].topic.value + "\"" in q;
    SortStringsSorted(q);
    assert |SortStrings(q)| == |q| by {
      assert |multiset(SortStrings(q))| == |multiset(q)|;
    }
  }

  /** The topic list does not depend on the order the commits were merged in. */
  lemma TopicsOrderFree(a: seq<MergedCommit>, b: seq<MergedCommit>)
    requires multiset(QuotedTopics(a)) == multiset(QuotedTopics(b))
    ensures SortedTopics(a) == SortedTopics(b)
  {
    SortPermutationInvariant(QuotedTopics(a), QuotedTopics(b));
  }

  /** Without topics, at most five abbreviated keys, and `, ...` beyond five. */
  lemma SummarizeKeys(merged: seq<MergedCommit>)
    requires |merged| != 1
    requires forall i :: 0 <= i < |merged| ==> merged[i].topic.None? || merged[i].topic.value == ""
    ensures Summarize(merged) == "Merge changes " + Join(FirstKeys(merged, 5), ",") + (if |merged| > 5 then ", ..." else "")
    ensures |FirstKeys(merged, 5)| <= 5
  {
    NoTopics(merged);
    assert SortStrings([]) == [] by {
      assert multiset(SortStrings([])) == multiset{};
    }
  }

  lemma {:induction false} NoTopics(merged: seq<MergedCommit>)
    requires forall i :: 0 <= i < |merged| ==> merged[i].topic.None? || merged[i].topic.value == ""
    ensures QuotedTopics(merged) == []
  {
    if |merged| > 0 {
      assert forall i :: 0 <= i < |merged[1..]| ==> merged[1..][i] == merged[i + 1];
      NoTopics(merged[1..]);
    }
  }

  /** `BranchNameKey.shortName()` of a branch under `refs/heads/`, otherwise the full name. */
  function ShortName(branch: string): string {
    if StartsWith(branch, R_HEADS) then branch[|R_HEADS|..] else branch
  }

  function ChangeLines(merged: seq<MergedCommit>): string {
    if |merged| == 0 then "" else "  " + merged[0].shortMessage + "\n" + ChangeLines(merged[1..])
  }

  /** The message `writeMergeCommit` builds. */
  function MergeMessage(merged: seq<MergedCommit>, destBranch: string): string {
    Summarize(merged) + IntoPart(destBranch) + ChangesPart(merged)
  }

  /** ` into <branch>` unless the destination is master. */
  function IntoPart(destBranch: string): string {
    if destBranch != R_HEADS_MASTER then " into " + ShortName(destBranch) else ""
  }

  /** The change list, written only when more than one change is merged. */
  function ChangesPart(merged: seq<MergedCommit>): string {
    if |merged| > 1 then "\n\n* changes:\n" + ChangeLines(merged) else ""
  }

  /** The master branch gets no ` into`, and a single merged change gets no change list. */
  lemma MergeMessageRules(merged: seq<MergedCommit>, destBranch: string)
    ensures destBranch == R_HEADS_MASTER && |merged| <= 1 ==> MergeMessage(merged, destBranch) == Summarize(merged)
    ensures destBranch != R_HEADS_MASTER && |merged| <= 1 ==>
      MergeMessage(merged, destBranch) == Summarize(merged) + " into " + ShortName(destBranch)
  {
  }

  /** A commit of the walk; only the ones with a patch set are merged changes. */
  datatype WalkedCommit = WalkedCommit(hasPatchSet: bool, commit: MergedCommit)

  function MergedOf(walk: seq<WalkedCommit>): (merged: seq<MergedCommit>)
    ensures |merged| <= |walk|
  {
    if |walk| == 0 then []
    else (if walk[0].hasPatchSet then [walk[0].commit] else []) + MergedOf(walk[1..])
  }

  lemma {:induction false} MergedOfAppend(walk: seq<WalkedCommit>, w: WalkedCommit)
    ensures MergedOf(walk + [w]) == MergedOf(walk) + (if w.hasPatchSet then [w.commit] else [])
  {
    var tail := if w.hasPatchSet then [w.commit] else [];
    if |walk| == 0 {
      assert walk + [w] == [w];
      assert MergedOf([w]) == tail + MergedOf([]);
    } else {
      var head := if walk[0].hasPatchSet then [walk[0].commit] else [];
      assert (walk + [w])[0] == walk[0];
      assert (walk + [w])[1..] == walk[1..] + [w];
      MergedOfAppend(walk[1..], w);
      calc {
        MergedOf(walk + [w]);
        head + MergedOf(walk[1..] + [w]);
        head + (MergedOf(walk[1..]) + tail);
        (head + MergedOf(walk[1..])) + tail;
      }
    }
  }

  lemma {:induction false} ChangeLinesAppend(merged: seq<MergedCommit>, c: MergedCommit)
    ensures ChangeLines(merged + [c]) == ChangeLines(merged) + "  " + c.shortMessage + "\n"
  {
    if |merged| == 0 {
      assert merged + [c] == [c];
    } else {
      assert (merged + [c])[1..] == merged[1..] + [c];
      ChangeLinesAppend(merged[1..], c);
    }
  }

  /** The walk in `writeMergeCommit` keeping the commits that have a patch set. */
  method CollectMerged(walk: seq<WalkedCommit>) returns (merged: seq<MergedCommit>)
    ensures merged == MergedOf(walk)
  {
    merged := [];
    var k := 0;
    while k < |walk|
      invariant 0 <= k <= |walk|
      invariant merged == MergedOf(walk[..k])
    {
      MergedOfAppend(walk[..k], walk[k]);
      assert walk[..k + 1] == walk[..k] + [walk[k]];
      if walk[k].hasPatchSet {
        merged := merged + [walk[k].commit];
      }
      k := k + 1;
    }
    assert walk[..k] == walk;
  }

  /** The `* changes:` list, one indented subject per line. */
  method AppendChangeLines(merged: seq<MergedCommit>) returns (lines: string)
    ensures lines == ChangeLines(merged)
  {
    lines := "";
    var i := 0;
    while i < |merged|
      invariant 0 <= i <= |merged|
      invariant lines == ChangeLines(merged[..i])
    {
      ChangeLinesAppend(merged[..i], merged[i]);
      assert merged[..i + 1] == merged[..i] + [merged[i]];
      lines := lines + "  " + merged[i].shortMessage + "\n";
      i := i + 1;
    }
    assert merged[..i] == merged;
  }

  /** The message part of `writeMergeCommit`: collect the merged commits, then build the text. */
  method WriteMergeMessage(walk: seq<WalkedCommit>, destBranch: string) returns (msg: string)
    ensures msg == MergeMessage(MergedOf(walk), destBranch)
  {
    var merged := CollectMerged(walk);
    var summary := Summarize(merged);
    var into := "";
    if destBranch != R_HEADS_MASTER {
      into := " into " + ShortName(destBranch);
    }
    var changes := "";
    if |merged| > 1 {
      var lines := AppendChangeLines(merged);
      changes := "\n\n* changes:\n" + lines;
    }
    msg := summary + into + changes;
  }
}
