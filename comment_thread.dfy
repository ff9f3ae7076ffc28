/**
 * A thread of review comments in the web UI: finding a comment in it, which
 * comments start collapsed, quoting a message in a reply, and the drafts and
 * replies it creates. Rendering, keyboard handling and saving are not part of
 * this model.
 */
module CommentThread {
  import opened Common

  const UNRESOLVED_EXPAND_COUNT: nat := 5
  /** The pseudo path of patch-set level comments. */
  const PATCHSET_LEVEL_COMMENTS: string := "/PATCHSET_LEVEL"
  const PLEASE_FIX: string := "Please fix."

  datatype CommentRange = CommentRange(startLine: int, startCharacter: int, endLine: int, endCharacter: int)

  /**
   * A comment object. A key the object does not have is `None`; the seven
   * location keys of a reply are copied from its root.
   */
  datatype Comment = Comment(
    id: Option<string>,
    draftId: Option<string>,
    isDraft: bool,
    message: Option<string>,
    robotId: Option<string>,
    unresolved: Option<bool>,
    collapsed: Option<bool>,
    inReplyTo: Option<string>,
    editing: bool,
    otherEditing: bool,
    path: Option<string>,
    patchNum: Option<string>,
    side: Option<string>,
    commentSide: Option<string>,
    line: Option<int>,
    range: Option<CommentRange>,
    parent: Option<int>)

  /** A string used as a condition: absent and empty are false. */
  predicate TruthyString(s: Option<string>) {
    s.Some? && s.value != ""
  }

  predicate TruthyInt(n: Option<int>) {
    n.Some? && n.value != 0
  }

  /** Two comment objects are the same comment when their draft ids or their ids match. */
  predicate SameComment(c: Comment, comment: Comment) {
    (c.draftId.Some? && c.draftId == comment.draftId) || (c.id.Some? && c.id == comment.id)
  }

  /** `_indexOf`: the first position holding the comment, or -1. */
  method IndexOfComment(comment: Comment, arr: seq<Comment>) returns (r: int)
    ensures -1 <= r < |arr|
    ensures r == -1 <==> forall k :: 0 <= k < |arr| ==> !SameComment(arr[k], comment)
    ensures r >= 0 ==> SameComment(arr[r], comment) && forall k :: 0 <= k < r ==> !SameComment(arr[k], comment)
  {
    var i := 0;
    while i < |arr|
      invariant 0 <= i <= |arr|
      invariant forall k :: 0 <= k < i ==> !SameComment(arr[k], comment)
    {
      if SameComment(arr[i], comment) {
        return i;
      }
      i := i + 1;
    }
    return -1;
  }

  // ---------------------------------------------------------------------------
  // Initial expanded state

  /**
   * Whether comment `i` of `n` counts as part of a resolved thread: the whole
   * thread is, or the comment is not among the last few of an unresolved one.
   */
  predicate ResolvedAt(unresolved: Option<bool>, n: nat, i: nat) {
    !(unresolved == Some(true)) || n - i - 1 >= UNRESOLVED_EXPAND_COUNT as int
  }

  /** The comment after `_setInitialExpandedState`, for position `i` of `n`. */
  function InitiallyExpanded(c: Comment, unresolved: Option<bool>, n: nat, i: nat): Comment {
    if c.collapsed.None? then c.(collapsed := Some(!TruthyString(c.robotId) && ResolvedAt(unresolved, n, i)))
    else c
  }

  /** The whole ordered list after `_setInitialExpandedState`. */
  predicate InitialStateOf(ordered: seq<Comment>, before: seq<Comment>, unresolved: Option<bool>) {
    |ordered| == |before| &&
    forall k :: 0 <= k < |before| ==> ordered[k] == InitiallyExpanded(before[k], unresolved, |before|, k)
  }

  /**
   * Only an unset `collapsed` is decided; robot comments stay open; in an
   * unresolved thread the last five stay open; in a resolved thread every
   * other comment is collapsed. Nothing but `collapsed` changes.
   */
  lemma InitialStateRules(before: seq<Comment>, after: seq<Comment>, unresolved: Option<bool>, k: nat)
    requires InitialStateOf(after, before, unresolved) && k < |before|
    ensures before[k].collapsed.Some? ==> after[k] == before[k]
    ensures after[k].(collapsed := before[k].collapsed) == before[k]
    ensures after[k].collapsed.Some?
    ensures before[k].collapsed.None? && TruthyString(before[k].robotId) ==> after[k].collapsed == Some(false)
    ensures before[k].collapsed.None? && unresolved == Some(true) && |before| - k <= UNRESOLVED_EXPAND_COUNT ==>
      after[k].collapsed == Some(false)
    ensures before[k].collapsed.None? && unresolved != Some(true) && !TruthyString(before[k].robotId) ==>
      after[k].collapsed == Some(true)
    ensures (before[k].collapsed.None? && unresolved == Some(true) && |before| - k > UNRESOLVED_EXPAND_COUNT &&
             !TruthyString(before[k].robotId)) ==> after[k].collapsed == Some(true)
  {
  }

  /** Applying the initial state twice changes nothing more. */
  lemma InitialStateIdempotent(before: seq<Comment>, once: seq<Comment>, twice: seq<Comment>, unresolved: Option<bool>)
    requires InitialStateOf(once, before, unresolved) && InitialStateOf(twice, once, unresolved)
    ensures twice == once
  {
    assert forall k :: 0 <= k < |once| ==> twice[k] == once[k];
  }

  // ---------------------------------------------------------------------------
  // Quoting

  /** `msg.replace(/\n/g, '\n> ')`. */
  function QuoteNewlines(msg: string): (r: string)
    ensures |r| >= |msg|
  {
    if |msg| == 0 then ""
    else (if msg[0] == '\n' then "\n> " else [msg[0]]) + QuoteNewlines(msg[1..])
  }

  /** The quoted form of a message a reply starts with. */
  function Quote(msg: string): string {
    "> " + QuoteNewlines(msg) + "\n\n"
  }

  /** The reply of `_handleCommentFix`. */
  function FixReply(msg: string): string {
    Quote(msg) + PLEASE_FIX
  }

  /** Undo the line prefixes: `\n> ` back to `\n`. */
  function UnquoteNewlines(s: string): string
    decreases |s|
  {
    if |s| == 0 then ""
    else if |s| >= 3 && s[..3] == "\n> " then "\n" + UnquoteNewlines(s[3..])
    else [s[0]] + UnquoteNewlines(s[1..])
  }

  /** Quoting loses nothing: every prefix added after a newline can be taken off again. */
  lemma {:induction false} QuoteRoundTrip(msg: string)
    ensures UnquoteNewlines(QuoteNewlines(msg)) == msg
  {
    if |msg| > 0 {
      QuoteRoundTrip(msg[1..]);
      var rest := QuoteNewlines(msg[1..]);
      if msg[0] == '\n' {
        var q := "\n> " + rest;
        assert q[..3] == "\n> " && q[3..] == rest;
      } else {
        var q := [msg[0]] + rest;
        assert q[1..] == rest;
        assert !(|q| >= 3 && q[..3] == "\n> ") by {
          if |q| >= 3 { assert q[0] == msg[0]; }
        }
      }
      assert msg == [msg[0]] + msg[1..];
    }
  }

  /** The number of newlines in a text. */
  function Newlines(s: string): nat {
    if |s| == 0 then 0 else (if s[0] == '\n' then 1 else 0) + Newlines(s[1..])
  }

  /** Every newline grows the text by the two characters of `> `, and every line of the quote starts with it. */
  lemma {:induction false} QuoteLength(msg: string)
    ensures |QuoteNewlines(msg)| == |msg| + 2 * Newlines(msg)
    ensures Newlines(QuoteNewlines(msg)) == Newlines(msg)
  {
    if |msg| > 0 {
      QuoteLength(msg[1..]);
      var h := if msg[0] == '\n' then "\n> " else [msg[0]];
      NewlinesAppend(h, QuoteNewlines(msg[1..]));
      if msg[0] == '\n' {
        assert h[1..] == "> " && h[1..][1..] == " " && h[1..][1..][1..] == "";
        assert Newlines(" ") == 0 && Newlines("> ") == 0;
        assert Newlines(h) == 1;
      }
    }
  }

  lemma {:induction false} NewlinesAppend(a: string, b: string)
    ensures Newlines(a + b) == Newlines(a) + Newlines(b)
  {
    if |a| == 0 {
      assert a + b == b;
    } else {
      assert (a + b)[1..] == a[1..] + b;
      NewlinesAppend(a[1..], b);
    }
  }

  /** After a newline in the quoted text comes the `> ` prefix. */
  lemma {:induction false} QuotedLinesPrefixed(msg: string, i: nat)
    requires i < |QuoteNewlines(msg)| && QuoteNewlines(msg)[i] == '\n'
    ensures i + 2 < |QuoteNewlines(msg)| && QuoteNewlines(msg)[i + 1] == '>' && QuoteNewlines(msg)[i + 2] == ' '
  {
    var h := if msg[0] == '\n' then "\n> " else [msg[0]];
    var rest := QuoteNewlines(msg[1..]);
    assert QuoteNewlines(msg) == h + rest;
    if i >= |h| {
      assert rest[i - |h|] == '\n';
      QuotedLinesPrefixed(msg[1..], i - |h|);
    }
  }

  // ---------------------------------------------------------------------------
  // Display and identity

  /** `_getSide`. */
  function GetSide(isOnParent: bool): (s: string)
    ensures s == "PARENT" <==> isOnParent
  {
    if isOnParent then "PARENT" else "REVISION"
  }

  /** `_computeDisplayLine`. */
  function ComputeDisplayLine(lineNum: Option<int>, range: Option<CommentRange>, path: Option<string>): (s: string)
    ensures TruthyInt(lineNum) ==> s == "#" + IntToString(lineNum.value)
    ensures !TruthyInt(lineNum) && range.None? && path == Some(PATCHSET_LEVEL_COMMENTS) ==> s == ""
    ensures !TruthyInt(lineNum) && range.None? && path != Some(PATCHSET_LEVEL_COMMENTS) ==> s == "FILE"
    ensures !TruthyInt(lineNum) && range.Some? ==> s == "#" + IntToString(range.value.endLine)
  {
    if TruthyInt(lineNum) then "#" + IntToString(lineNum.value)
    else if range.None? then (if path == Some(PATCHSET_LEVEL_COMMENTS) then "" else "FILE")
    else "#" + IntToString(range.value.endLine)
  }

  /** A display line that is not a marker names a line: `#` and a number. */
  lemma DisplayLineKinds(lineNum: Option<int>, range: Option<CommentRange>, path: Option<string>)
    ensures var s := ComputeDisplayLine(lineNum, range, path);
      s == "" || s == "FILE" || (|s| > 1 && s[0] == '#' && s[1..] == IntToString(
        if TruthyInt(lineNum) then lineNum.value else range.value.endLine))
  {
  }

  /** `_computeRootId`: the root's id, else its draft id; the previous one for an empty thread. */
  function ComputeRootId(comments: seq<Comment>, previous: Option<string>): (r: Option<string>)
    ensures |comments| == 0 ==> r == previous
    ensures |comments| > 0 && TruthyString(comments[0].id) ==> r == comments[0].id
    ensures |comments| > 0 && !TruthyString(comments[0].id) ==> r == comments[0].draftId
  {
    if |comments| == 0 then previous
    else if TruthyString(comments[0].id) then comments[0].id
    else comments[0].draftId
  }

  // ---------------------------------------------------------------------------
  // Drafts and replies

  /** The properties of the thread element a root draft takes its location from. */
  datatype ThreadLocation = ThreadLocation(
    path: Option<string>,
    patchNum: Option<string>,
    commentSide: Option<string>,
    isOnParent: bool,
    parentIndex: Option<int>)

  /** A fresh draft, with nothing but its draft id set. */
  function EmptyDraft(draftId: string): Comment {
    Comment(None, Some(draftId), true, None, None, None, None, None, false, false,
            None, None, None, None, None, None, None)
  }

  /** `_newDraft`: a reply copies the root's location keys, a root draft takes the thread's. */
  function NewDraft(comments: seq<Comment>, loc: ThreadLocation, draftId: string,
                    lineNum: Option<int>, range: Option<CommentRange>): (d: Comment)
    ensures d.isDraft && d.draftId == Some(draftId) && d.id.None? && d.message.None?
    ensures d.unresolved.None? && d.inReplyTo.None? && d.collapsed.None? && d.robotId.None?
    ensures |comments| > 0 ==>
      d.path == comments[0].path && d.patchNum == comments[0].patchNum && d.side == comments[0].side &&
      d.commentSide == comments[0].commentSide && d.line == comments[0].line &&
      d.range == comments[0].range && d.parent == comments[0].parent
    ensures |comments| == 0 ==>
      d.path == loc.path && d.patchNum == loc.patchNum && d.side == Some(GetSide(loc.isOnParent)) &&
      d.commentSide == loc.commentSide &&
      (d.line.Some? <==> TruthyInt(lineNum)) && (d.line.Some? ==> d.line == lineNum) &&
      (d.range.Some? <==> range.Some?) && (d.range.Some? ==> d.range == range) &&
      (d.parent.Some? <==> TruthyInt(loc.parentIndex)) && (d.parent.Some? ==> d.parent == loc.parentIndex)
  {
    var d := EmptyDraft(draftId);
    if |comments| >= 1 then
      var root := comments[0];
      d.(path := root.path, patchNum := root.patchNum, side := root.side, commentSide := root.commentSide,
         line := root.line, range := root.range, parent := root.parent)
    else
      d.(path := loc.path, patchNum := loc.patchNum, side := Some(GetSide(loc.isOnParent)),
         commentSide := loc.commentSide,
         line := if TruthyInt(lineNum) then lineNum else None,
         range := range,
         parent := if TruthyInt(loc.parentIndex) then loc.parentIndex else None)
  }

  /** `_newReply`. */
  function NewReply(comments: seq<Comment>, loc: ThreadLocation, draftId: string, inReplyTo: Option<string>,
                    message: Option<string>, unresolved: Option<bool>): (d: Comment)
    ensures d.isDraft && d.draftId == Some(draftId) && d.inReplyTo == inReplyTo
    ensures d.message == message && d.unresolved == unresolved
  {
    NewDraft(comments, loc, draftId, None, None).(inReplyTo := inReplyTo, message := message, unresolved := unresolved)
  }

  /** `unresolved === false ? false : true`. */
  function DraftUnresolved(unresolved: Option<bool>): (b: bool)
    ensures !b <==> unresolved == Some(false)
  {
    unresolved != Some(false)
  }

  predicate AnyEditing(comments: seq<Comment>) {
    exists k :: 0 <= k < |comments| && comments[k].editing
  }

  /** The outcome of `addOrEditDraft`: the last draft is reopened, or a new one added. */
  datatype DraftAction = EditExisting(commentId: Option<string>) | AddedDraft

  /** The outcome of `_handleCommentDiscard`. */
  datatype DiscardOutcome = NotInThread | Discarded(threadEmpty: bool)

  /**
   * The thread element. `sortComments` is the ordering the view uses; every
   * change to `comments` re-sorts and updates the derived properties, as the
   * element's observers do. The comment objects are values here: setting
   * `collapsed` changes the ordered list only.
   */
  class GrCommentThread {
    const loc: ThreadLocation
    const sortComments: seq<Comment> -> seq<Comment>
    var comments: seq<Comment>
    var orderedComments: seq<Comment>
    var rootId: Option<string>
    var lastComment: Option<Comment>
    var unresolved: Option<bool>
    var hasDraft: bool
    var isRobotComment: bool

    constructor(loc: ThreadLocation, sortComments: seq<Comment> -> seq<Comment>)
      ensures this.loc == loc && this.sortComments == sortComments
      ensures comments == [] && orderedComments == [] && rootId.None? && lastComment.None?
      ensures unresolved.None? && !hasDraft && !isRobotComment
    {
      this.loc := loc;
      this.sortComments := sortComments;
      comments := [];
      orderedComments := [];
      rootId := None;
      lastComment := None;
      unresolved := None;
      hasDraft := false;
      isRobotComment := false;
    }

    /** The derived properties, as one value. */
    function Properties(): (Option<Comment>, Option<bool>, bool, bool)
      reads this
    {
      (lastComment, unresolved, hasDraft, isRobotComment)
    }

    /** The derived properties describe the last ordered comment, when there is one. */
    predicate FollowsLastOrdered()
      reads this
    {
      |orderedComments| > 0 ==>
        var last := orderedComments[|orderedComments| - 1];
        lastComment == Some(last) && unresolved == last.unresolved && hasDraft == last.isDraft &&
        isRobotComment == TruthyString(last.robotId)
    }

    /**
     * The state the observers of `comments` leave: the ordered list is the
     * sorted comments, the root id is recomputed (kept for an empty thread),
     * and the derived properties follow the last ordered comment or, for an
     * empty ordered list, keep their values.
     */
    twostate predicate Refreshed()
      reads this
    {
      orderedComments == sortComments(comments) && rootId == ComputeRootId(comments, old(rootId)) &&
      FollowsLastOrdered() && (|orderedComments| == 0 ==> Properties() == old(Properties()))
    }

    /** `updateThreadProperties`: the last ordered comment decides; an empty list changes nothing. */
    method UpdateThreadProperties()
      modifies this
      ensures FollowsLastOrdered()
      ensures |orderedComments| == 0 ==> Properties() == old(Properties())
      ensures comments == old(comments) && orderedComments == old(orderedComments) && rootId == old(rootId)
    {
      if |orderedComments| > 0 {
        var last := orderedComments[|orderedComments| - 1];
        lastComment := Some(last);
        unresolved := last.unresolved;
        hasDraft := last.isDraft;
        isRobotComment := TruthyString(last.robotId);
      }
    }

    /** The observers of `comments`: re-sort, update the derived properties and the root id. */
    method CommentsChanged()
      modifies this
      ensures comments == old(comments) && Refreshed()
    {
      rootId := ComputeRootId(comments, rootId);
      orderedComments := sortComments(comments);
      UpdateThreadProperties();
    }

    /** `_setInitialExpandedState`, position by position over the ordered list. */
    method SetInitialExpandedState()
      modifies this
      ensures InitialStateOf(orderedComments, old(orderedComments), unresolved)
      ensures comments == old(comments) && rootId == old(rootId) && Properties() == old(Properties())
    {
      var n := |orderedComments|;
      var i := 0;
      while i < n
        invariant 0 <= i <= n && |orderedComments| == n
        invariant forall k :: 0 <= k < i ==>
          orderedComments[k] == InitiallyExpanded(old(orderedComments)[k], unresolved, n, k)
        invariant forall k :: i <= k < n ==> orderedComments[k] == old(orderedComments)[k]
        invariant comments == old(comments) && rootId == old(rootId) && Properties() == old(Properties())
      {
        var comment := orderedComments[i];
        var isRobot := TruthyString(comment.robotId);
        var resolvedThread := !(unresolved == Some(true)) || n - i - 1 >= UNRESOLVED_EXPAND_COUNT as int;
        if comment.collapsed.None? {
          orderedComments := orderedComments[i := comment.(collapsed := Some(!isRobot && resolvedThread))];
        }
        i := i + 1;
      }
    }

    /** `addDraft`: a new draft in editing state, unresolved unless told otherwise. */
    method AddDraft(draftId: string, lineNum: Option<int>, range: Option<CommentRange>, unresolvedFlag: Option<bool>)
      modifies this
      ensures comments == old(comments) + [NewDraft(old(comments), loc, draftId, lineNum, range)
        .(editing := true, unresolved := Some(DraftUnresolved(unresolvedFlag)))]
      ensures Refreshed()
    {
      var draft := NewDraft(comments, loc, draftId, lineNum, range);
      draft := draft.(editing := true, unresolved := Some(DraftUnresolved(unresolvedFlag)));
      comments := comments + [draft];
      CommentsChanged();
    }

    /**
     * `addOrEditDraft`: reopen the last comment when it is a draft, otherwise
     * add a draft with the given range (or the last comment's) and the last
     * comment's resolved state.
     */
    method AddOrEditDraft(draftId: string, lineNum: Option<int>, range: Option<CommentRange>)
      returns (action: DraftAction)
      modifies this
      ensures |old(comments)| > 0 && old(comments)[|old(comments)| - 1].isDraft ==>
        var last := old(comments)[|old(comments)| - 1];
        action == EditExisting(if TruthyString(last.id) then last.id else last.draftId) && unchanged(this)
      ensures !(|old(comments)| > 0 && old(comments)[|old(comments)| - 1].isDraft) ==>
        var n := |old(comments)|;
        action == AddedDraft && Refreshed() &&
        comments == old(comments) + [NewDraft(old(comments), loc, draftId, lineNum,
            if range.Some? then range else if n > 0 then old(comments)[n - 1].range else None)
          .(editing := true, unresolved := Some(DraftUnresolved(if n > 0 then old(comments)[n - 1].unresolved else None)))]
      ensures (|old(comments)| > 0 && !old(comments)[|old(comments)| - 1].isDraft) ==>
        comments[|old(comments)|].range == old(comments)[0].range &&
        comments[|old(comments)|].unresolved == Some(DraftUnresolved(old(comments)[|old(comments)| - 1].unresolved))
      ensures |old(comments)| == 0 ==>
        comments[0].range == range && comments[0].unresolved == Some(true) && comments[0].editing
    {
      if |comments| > 0 && comments[|comments| - 1].isDraft {
        var last := comments[|comments| - 1];
        return EditExisting(if TruthyString(last.id) then last.id else last.draftId);
      }
      var r := if range.Some? then range
               else if |comments| > 0 then comments[|comments| - 1].range
               else None;
      var u := if |comments| > 0 then comments[|comments| - 1].unresolved else None;
      AddDraft(draftId, lineNum, r, u);
      action := AddedDraft;
    }

    /**
     * `_createReplyComment`: a reply to the last ordered comment, marked when
     * another comment is being edited. With no ordered comment the element
     * throws before changing anything, which is `created == false`. Saving a
     * non-editing reply is left to the comment element.
     */
    method CreateReplyComment(draftId: string, content: Option<string>, isEditing: bool, unresolvedFlag: Option<bool>)
      returns (created: bool)
      modifies this
      ensures created <==> |old(orderedComments)| > 0
      ensures !created ==> unchanged(this)
      ensures created ==>
        var reply := NewReply(old(comments), loc, draftId, old(orderedComments)[|old(orderedComments)| - 1].id,
                              content, unresolvedFlag);
        comments == old(comments) + [reply.(otherEditing := AnyEditing(old(comments)), editing := isEditing)] &&
        Refreshed()
    {
      if |orderedComments| == 0 {
        return false;
      }
      var reply := NewReply(comments, loc, draftId, orderedComments[|orderedComments| - 1].id, content, unresolvedFlag);
      var i := 0;
      while i < |comments|
        invariant 0 <= i <= |comments|
        invariant !reply.otherEditing
        invariant forall k :: 0 <= k < i ==> !comments[k].editing
      {
        if comments[i].editing {
          reply := reply.(otherEditing := true);
          break;
        }
        i := i + 1;
      }
      if isEditing {
        reply := reply.(editing := true);
      }
      comments := comments + [reply];
      CommentsChanged();
      created := true;
    }

    /**
     * `_processCommentReply`: a reply in editing state to the last comment,
     * starting with its quoted message when asked to quote. Reading a missing
     * last comment or quoting a missing message throws, and so does an empty
     * ordered list; nothing changes then.
     */
    method ProcessCommentReply(draftId: string, quote: bool) returns (created: bool)
      modifies this
      ensures created <==> old(lastComment).Some? && (quote ==> old(lastComment).value.message.Some?) &&
                           |old(orderedComments)| > 0
      ensures !created ==> unchanged(this)
      ensures created ==>
        var last := old(lastComment).value;
        var reply := NewReply(old(comments), loc, draftId, old(orderedComments)[|old(orderedComments)| - 1].id,
                              if quote then Some(Quote(last.message.value)) else None, last.unresolved);
        comments == old(comments) + [reply.(otherEditing := AnyEditing(old(comments)), editing := true)] &&
        Refreshed()
    {
      if lastComment.None? || (quote && lastComment.value.message.None?) {
        return false;
      }
      var comment := lastComment.value;
      var quoteStr := if quote then Some(Quote(comment.message.value)) else None;
      created := CreateReplyComment(draftId, quoteStr, true, comment.unresolved);
    }

    /**
     * `_handleCommentFix`: quote the comment and ask for a fix, leaving the
     * thread unresolved. A comment without a message throws; nothing changes.
     */
    method HandleCommentFix(draftId: string, comment: Comment) returns (created: bool)
      modifies this
      ensures created <==> comment.message.Some? && |old(orderedComments)| > 0
      ensures !created ==> unchanged(this)
      ensures created ==>
        var reply := NewReply(old(comments), loc, draftId, old(orderedComments)[|old(orderedComments)| - 1].id,
                              Some(FixReply(comment.message.value)), Some(true));
        comments == old(comments) + [reply.(otherEditing := AnyEditing(old(comments)), editing := false)] &&
        Refreshed()
    {
      if comment.message.None? {
        return false;
      }
      created := CreateReplyComment(draftId, Some(FixReply(comment.message.value)), false, Some(true));
    }

    /** `_handleCommentAck` and `_handleCommentDone`: a resolving reply with a fixed text. */
    method HandleCommentAckOrDone(draftId: string, done: bool) returns (created: bool)
      modifies this
      ensures created <==> |old(orderedComments)| > 0
      ensures !created ==> unchanged(this)
      ensures created ==>
        var reply := NewReply(old(comments), loc, draftId, old(orderedComments)[|old(orderedComments)| - 1].id,
                              Some(if done then "Done" else "Ack"), Some(false));
        comments == old(comments) + [reply.(otherEditing := AnyEditing(old(comments)), editing := false)] &&
        Refreshed()
    {
      created := CreateReplyComment(draftId, Some(if done then "Done" else "Ack"), false, Some(false));
    }

    /** `_handleCommentDiscard`: remove the first comment that is the same comment; an empty thread asks to be removed under its old root id. */
    method HandleCommentDiscard(comment: Comment) returns (outcome: DiscardOutcome)
      modifies this
      ensures (forall k :: 0 <= k < |old(comments)| ==> !SameComment(old(comments)[k], comment)) <==>
        outcome == NotInThread
      ensures outcome == NotInThread ==> unchanged(this)
      ensures outcome.Discarded? ==>
        |comments| == |old(comments)| - 1 && outcome.threadEmpty == (comments == []) &&
        (exists idx :: 0 <= idx < |old(comments)| && SameComment(old(comments)[idx], comment) &&
                       (forall k :: 0 <= k < idx ==> !SameComment(old(comments)[k], comment)) &&
                       comments == RemoveAt(old(comments), idx))
      ensures outcome.Discarded? ==> Refreshed()
    {
      var idx := IndexOfComment(comment, comments);
      if idx == -1 {
        return NotInThread;
      }
      comments := RemoveAt(comments, idx);
      CommentsChanged();
      outcome := Discarded(comments == []);
    }

    /**
     * `_handleCommentUpdate`: replace the first comment that is the same
     * comment. Setting the entry notifies the observers of `comments`, so the
     * thread is re-sorted and the derived properties follow the updated list;
     * the explicit property update after it changes nothing more.
     */
    method HandleCommentUpdate(comment: Comment) returns (found: bool)
      modifies this
      ensures found <==> exists k :: 0 <= k < |old(comments)| && SameComment(old(comments)[k], comment)
      ensures !found ==> unchanged(this)
      ensures found ==> exists idx :: (0 <= idx < |old(comments)| && SameComment(old(comments)[idx], comment) &&
                                       (forall k :: 0 <= k < idx ==> !SameComment(old(comments)[k], comment)) &&
                                       comments == old(comments)[idx := comment])
      ensures found ==> Refreshed()
    {
      var index := IndexOfComment(comment, comments);
      if index == -1 {
        return false;
      }
      comments := comments[index := comment];
      CommentsChanged();
      UpdateThreadProperties();
      found := true;
    }
  }

  /** Discarding the last comment of a thread keeps its root id, so the thread can still be found. */
  lemma DiscardLastKeepsRootId(comments: seq<Comment>, previous: Option<string>)
    requires |comments| == 1
    ensures ComputeRootId(RemoveAt(comments, 0), ComputeRootId(comments, previous)) == ComputeRootId(comments, previous)
  {
  }
}
