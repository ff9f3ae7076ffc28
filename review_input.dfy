/**
 * The input of a review request (`POST /changes/{id}/revisions/{id}/review`)
 * and its builder methods. A label map keeps its insertion order: re-labelling
 * keeps a name's position and replaces its vote.
 */
module ReviewInputs {
  import opened Common

  const SHORT_MIN: int := -32768
  const SHORT_MAX: int := 32767
  const CODE_REVIEW: string := "Code-Review"
  const PATCHSET_LEVEL: string := "/PATCHSET_LEVEL"

  predicate IsShort(v: int) {
    SHORT_MIN <= v <= SHORT_MAX
  }

  datatype ReviewerState = REVIEWER | CC | REMOVED
  datatype ReviewerInput = ReviewerInput(reviewer: string, state: ReviewerState, confirmed: bool)
  datatype AttentionSetInput = AttentionSetInput(user: string, reason: string)
  datatype CommentInput = CommentInput(message: string)

  /** A label vote in an insertion-ordered map. */
  datatype Vote = Vote(name: string, value: int)

  predicate DistinctNames(votes: seq<Vote>) {
    forall i, j :: 0 <= i < j < |votes| ==> votes[i].name != votes[j].name
  }

  /** The vote recorded for `name`, if any. */
  function VoteOf(votes: seq<Vote>, name: string): Option<int> {
    if |votes| == 0 then None
    else if votes[0].name == name then Some(votes[0].value)
    else VoteOf(votes[1..], name)
  }

  /** `LinkedHashMap.put`: replace the vote in place, or append a new one. */
  function Put(votes: seq<Vote>, name: string, value: int): (r: seq<Vote>)
    ensures |r| == |votes| || |r| == |votes| + 1
    ensures forall i :: 0 <= i < |votes| ==> r[i].name == votes[i].name
  {
    if |votes| == 0 then [Vote(name, value)]
    else if votes[0].name == name then [Vote(name, value)] + votes[1..]
    else [votes[0]] + Put(votes[1..], name, value)
  }

  /** After `put`, `name` reads back `value` and every other name is unchanged. */
  lemma {:induction false} PutLookup(votes: seq<Vote>, name: string, value: int, other: string)
    ensures VoteOf(Put(votes, name, value), name) == Some(value)
    ensures other != name ==> VoteOf(Put(votes, name, value), other) == VoteOf(votes, other)
  {
    if |votes| > 0 && votes[0].name != name {
      PutLookup(votes[1..], name, value, other);
    }
  }

  /** `put` keeps names distinct, and appends only a name not yet present. */
  lemma {:induction false} PutDistinct(votes: seq<Vote>, name: string, value: int)
    requires DistinctNames(votes)
    ensures DistinctNames(Put(votes, name, value))
    ensures |Put(votes, name, value)| == |votes| + (if VoteOf(votes, name).None? then 1 else 0)
  {
    if |votes| > 0 && votes[0].name != name {
      PutDistinct(votes[1..], name, value);
      var r := Put(votes, name, value);
      var t := Put(votes[1..], name, value);
      assert r == [votes[0]] + t;
      forall j | 0 < j < |r| ensures r[j].name != votes[0].name {
        NameInPut(votes[1..], name, value, j - 1);
      }
    }
  }

  lemma {:induction false} NameInPut(votes: seq<Vote>, name: string, value: int, j: nat)
    requires j < |Put(votes, name, value)|
    ensures Put(votes, name, value)[j].name == name ||
            (j < |votes| && Put(votes, name, value)[j].name == votes[j].name)
  {
    if |votes| > 0 && votes[0].name != name && j > 0 {
      NameInPut(votes[1..], name, value, j - 1);
    }
  }

  /** `message(msg)`: an empty or absent message is stored as null. */
  function StoredMessage(msg: Option<string>): (m: Option<string>)
    ensures m.None? <==> msg.None? || msg.value == ""
    ensures m.Some? ==> m == msg
  {
    if msg.Some? && msg.value != "" then msg else None
  }

  class ReviewInput {
    var message: Option<string>
    var labels: Option<seq<Vote>>
    var comments: Option<map<string, seq<CommentInput>>>
    var reviewers: Option<seq<ReviewerInput>>
    var workInProgress: bool
    var ready: bool
    var addToAttentionSet: Option<seq<AttentionSetInput>>
    var removeFromAttentionSet: Option<seq<AttentionSetInput>>
    var ignoreAutomaticAttentionSetRules: bool

    /** Labels are distinct votes of Java `short` range, and the change is never both WIP and ready. */
    ghost predicate Valid()
      reads this
    {
      (labels.Some? ==>
         DistinctNames(labels.value) && forall i :: 0 <= i < |labels.value| ==> IsShort(labels.value[i].value)) &&
      !(workInProgress && ready)
    }

    /** `create()` and `new ReviewInput()`: every field unset. */
    constructor()
      ensures message.None? && labels.None? && comments.None? && reviewers.None?
      ensures !workInProgress && !ready && !ignoreAutomaticAttentionSetRules
      ensures addToAttentionSet.None? && removeFromAttentionSet.None?
      ensures Valid()
    {
      message := None;
      labels := None;
      comments := None;
      reviewers := None;
      workInProgress := false;
      ready := false;
      addToAttentionSet := None;
      removeFromAttentionSet := None;
      ignoreAutomaticAttentionSetRules := false;
    }

    method Message(msg: Option<string>)
      modifies this
      ensures message == StoredMessage(msg)
      ensures labels == old(labels) && reviewers == old(reviewers) && comments == old(comments)
      ensures workInProgress == old(workInProgress) && ready == old(ready)
      ensures addToAttentionSet == old(addToAttentionSet) && removeFromAttentionSet == old(removeFromAttentionSet)
      ensures ignoreAutomaticAttentionSetRules == old(ignoreAutomaticAttentionSetRules)
    {
      message := StoredMessage(msg);
    }

    /** `patchSetLevelComment(message)`: the comments become one patch-set-level comment. */
    method PatchSetLevelComment(msg: string)
      modifies this
      ensures comments == Some(map[PATCHSET_LEVEL := [CommentInput(msg)]])
      ensures message == old(message) && labels == old(labels) && reviewers == old(reviewers)
      ensures workInProgress == old(workInProgress) && ready == old(ready)
      ensures addToAttentionSet == old(addToAttentionSet) && removeFromAttentionSet == old(removeFromAttentionSet)
      ensures ignoreAutomaticAttentionSetRules == old(ignoreAutomaticAttentionSetRules)
    {
      comments := Some(map[PATCHSET_LEVEL := [CommentInput(msg)]]);
    }

    /**
     * `label(name, short value)`: false (IllegalArgumentException, nothing
     * changed) for an absent or empty name; otherwise the vote is put.
     */
    method LabelShort(name: Option<string>, value: int) returns (ok: bool)
      requires Valid() && IsShort(value)
      modifies this
      ensures Valid()
      ensures ok <==> name.Some? && name.value != ""
      ensures !ok ==> labels == old(labels)
      ensures ok ==> labels == Some(Put(if old(labels).Some? then old(labels).value else [], name.value, value))
      ensures message == old(message) && reviewers == old(reviewers) && comments == old(comments)
      ensures workInProgress == old(workInProgress) && ready == old(ready)
      ensures addToAttentionSet == old(addToAttentionSet) && removeFromAttentionSet == old(removeFromAttentionSet)
      ensures ignoreAutomaticAttentionSetRules == old(ignoreAutomaticAttentionSetRules)
    {
      if name.None? || name.value == "" {
        return false;
      }
      var current := if labels.Some? then labels.value else [];
      PutDistinct(current, name.value, value);
      PutValues(current, name.value, value);
      labels := Some(Put(current, name.value, value));
      return true;
    }

    /** `label(name, int value)`: additionally rejects values outside the `short` range. */
    method Label(name: Option<string>, value: int) returns (ok: bool)
      requires Valid()
      modifies this
      ensures Valid()
      ensures ok <==> IsShort(value) && name.Some? && name.value != ""
      ensures !ok ==> labels == old(labels)
      ensures ok ==> labels == Some(Put(if old(labels).Some? then old(labels).value else [], name.value, value))
      ensures message == old(message) && reviewers == old(reviewers) && comments == old(comments)
      ensures workInProgress == old(workInProgress) && ready == old(ready)
      ensures addToAttentionSet == old(addToAttentionSet) && removeFromAttentionSet == old(removeFromAttentionSet)
      ensures ignoreAutomaticAttentionSetRules == old(ignoreAutomaticAttentionSetRules)
    {
      if value < SHORT_MIN || value > SHORT_MAX {
        return false;
      }
      ok := LabelShort(name, value);
    }

    /** `label(name)`: a +1 vote. */
    method LabelOne(name: Option<string>) returns (ok: bool)
      requires Valid()
      modifies this
      ensures Valid()
      ensures ok <==> name.Some? && name.value != ""
      ensures !ok ==> labels == old(labels)
      ensures ok ==> labels == Some(Put(if old(labels).Some? then old(labels).value else [], name.value, 1))
      ensures message == old(message) && reviewers == old(reviewers) && comments == old(comments)
      ensures workInProgress == old(workInProgress) && ready == old(ready)
      ensures addToAttentionSet == old(addToAttentionSet) && removeFromAttentionSet == old(removeFromAttentionSet)
      ensures ignoreAutomaticAttentionSetRules == old(ignoreAutomaticAttentionSetRules)
    {
      ok := LabelShort(name, 1);
    }

    /** `reviewer(reviewer, state, confirmed)`: appends exactly that entry. */
    method Reviewer(reviewer: string, state: ReviewerState, confirmed: bool)
      requires Valid()
      modifies this
      ensures Valid()
      ensures reviewers == Some((if old(reviewers).Some? then old(reviewers).value else []) +
                                [ReviewerInput(reviewer, state, confirmed)])
      ensures message == old(message) && labels == old(labels) && comments == old(comments)
      ensures workInProgress == old(workInProgress) && ready == old(ready)
      ensures addToAttentionSet == old(addToAttentionSet) && removeFromAttentionSet == old(removeFromAttentionSet)
      ensures ignoreAutomaticAttentionSetRules == old(ignoreAutomaticAttentionSetRules)
    {
      var current := if reviewers.Some? then reviewers.value else [];
      reviewers := Some(current + [ReviewerInput(reviewer, state, confirmed)]);
    }

    /** `reviewer(r)`: an unconfirmed REVIEWER. */
    method AddReviewer(reviewer: string)
      requires Valid()
      modifies this
      ensures Valid()
      ensures reviewers == Some((if old(reviewers).Some? then old(reviewers).value else []) +
                                [ReviewerInput(reviewer, REVIEWER, false)])
      ensures message == old(message) && labels == old(labels) && comments == old(comments)
      ensures workInProgress == old(workInProgress) && ready == old(ready)
      ensures addToAttentionSet == old(addToAttentionSet) && removeFromAttentionSet == old(removeFromAttentionSet)
      ensures ignoreAutomaticAttentionSetRules == old(ignoreAutomaticAttentionSetRules)
    {
      Reviewer(reviewer, REVIEWER, false);
    }

    /** `cc(c)`: an unconfirmed CC. */
    method Cc(cc: string)
      requires Valid()
      modifies this
      ensures Valid()
      ensures reviewers == Some((if old(reviewers).Some? then old(reviewers).value else []) +
                                [ReviewerInput(cc, CC, false)])
      ensures message == old(message) && labels == old(labels) && comments == old(comments)
      ensures workInProgress == old(workInProgress) && ready == old(ready)
      ensures addToAttentionSet == old(addToAttentionSet) && removeFromAttentionSet == old(removeFromAttentionSet)
      ensures ignoreAutomaticAttentionSetRules == old(ignoreAutomaticAttentionSetRules)
    {
      Reviewer(cc, CC, false);
    }

    method AddUserToAttentionSet(user: string, reason: string)
      requires Valid()
      modifies this
      ensures Valid()
      ensures addToAttentionSet == Some((if old(addToAttentionSet).Some? then old(addToAttentionSet).value else []) +
                                        [AttentionSetInput(user, reason)])
      ensures message == old(message) && labels == old(labels) && comments == old(comments)
      ensures reviewers == old(reviewers) && workInProgress == old(workInProgress) && ready == old(ready)
      ensures removeFromAttentionSet == old(removeFromAttentionSet)
      ensures ignoreAutomaticAttentionSetRules == old(ignoreAutomaticAttentionSetRules)
    {
      var current := if addToAttentionSet.Some? then addToAttentionSet.value else [];
      addToAttentionSet := Some(current + [AttentionSetInput(user, reason)]);
    }

    method RemoveUserFromAttentionSet(user: string, reason: string)
      requires Valid()
      modifies this
      ensures Valid()
      ensures removeFromAttentionSet ==
        Some((if old(removeFromAttentionSet).Some? then old(removeFromAttentionSet).value else []) +
             [AttentionSetInput(user, reason)])
      ensures message == old(message) && labels == old(labels) && comments == old(comments)
      ensures reviewers == old(reviewers) && workInProgress == old(workInProgress) && ready == old(ready)
      ensures addToAttentionSet == old(addToAttentionSet)
      ensures ignoreAutomaticAttentionSetRules == old(ignoreAutomaticAttentionSetRules)
    {
      var current := if removeFromAttentionSet.Some? then removeFromAttentionSet.value else [];
      removeFromAttentionSet := Some(current + [AttentionSetInput(user, reason)]);
    }

    method BlockAutomaticAttentionSetRules()
      requires Valid()
      modifies this
      ensures Valid()
      ensures ignoreAutomaticAttentionSetRules
      ensures message == old(message) && labels == old(labels) && comments == old(comments)
      ensures reviewers == old(reviewers) && workInProgress == old(workInProgress) && ready == old(ready)
      ensures addToAttentionSet == old(addToAttentionSet) && removeFromAttentionSet == old(removeFromAttentionSet)
    {
      ignoreAutomaticAttentionSetRules := true;
    }

    /** `setWorkInProgress(b)`: WIP is `b` and ready is its negation. */
    method SetWorkInProgress(b: bool)
      requires Valid()
      modifies this
      ensures Valid()
      ensures workInProgress == b && ready == !b
      ensures message == old(message) && labels == old(labels) && comments == old(comments)
      ensures reviewers == old(reviewers)
      ensures addToAttentionSet == old(addToAttentionSet) && removeFromAttentionSet == old(removeFromAttentionSet)
      ensures ignoreAutomaticAttentionSetRules == old(ignoreAutomaticAttentionSetRules)
    {
      workInProgress := b;
      ready := !b;
    }

    /** `setReady(b)`: ready is `b` and WIP is its negation. */
    method SetReady(b: bool)
      requires Valid()
      modifies this
      ensures Valid()
      ensures ready == b && workInProgress == !b
      ensures message == old(message) && labels == old(labels) && comments == old(comments)
      ensures reviewers == old(reviewers)
      ensures addToAttentionSet == old(addToAttentionSet) && removeFromAttentionSet == old(removeFromAttentionSet)
      ensures ignoreAutomaticAttentionSetRules == old(ignoreAutomaticAttentionSetRules)
    {
      ready := b;
      workInProgress := !b;
    }

    /** The Code-Review vote this input carries, if any. */
    function CodeReviewVote(): (v: Option<int>)
      reads this
      ensures labels.None? ==> v.None?
    {
      if labels.None? then None else VoteOf(labels.value, CODE_REVIEW)
    }
  }

  lemma {:induction false} PutValues(votes: seq<Vote>, name: string, value: int)
    requires forall i :: 0 <= i < |votes| ==> IsShort(votes[i].value)
    requires IsShort(value)
    ensures forall i :: 0 <= i < |Put(votes, name, value)| ==> IsShort(Put(votes, name, value)[i].value)
  {
    if |votes| > 0 && votes[0].name != name {
      PutValues(votes[1..], name, value);
    }
  }

  /** A fresh input carrying a single Code-Review vote, as the factories build it. */
  method CodeReviewFactory(value: int) returns (r: ReviewInput)
    requires value in {1, -1, 0, 2, -2}
    ensures fresh(r) && r.Valid()
    ensures r.labels == Some([Vote(CODE_REVIEW, value)])
    ensures r.CodeReviewVote() == Some(value)
    ensures r.message.None? && r.reviewers.None? && !r.workInProgress && !r.ready
    ensures r.comments.None? && r.addToAttentionSet.None? && r.removeFromAttentionSet.None?
    ensures !r.ignoreAutomaticAttentionSetRules
  {
    r := new ReviewInput();
    var ok := r.Label(Some(CODE_REVIEW), value);
  }

  /** `recommend()`, `dislike()`, `noScore()`, `approve()` and `reject()`. */
  method Recommend() returns (r: ReviewInput)
    ensures fresh(r) && r.Valid() && r.CodeReviewVote() == Some(1)
  {
    r := CodeReviewFactory(1);
  }

  method Dislike() returns (r: ReviewInput)
    ensures fresh(r) && r.Valid() && r.CodeReviewVote() == Some(-1)
  {
    r := CodeReviewFactory(-1);
  }

  method NoScore() returns (r: ReviewInput)
    ensures fresh(r) && r.Valid() && r.CodeReviewVote() == Some(0)
  {
    r := CodeReviewFactory(0);
  }

  method Approve() returns (r: ReviewInput)
    ensures fresh(r) && r.Valid() && r.CodeReviewVote() == Some(2)
  {
    r := CodeReviewFactory(2);
  }

  method Reject() returns (r: ReviewInput)
    ensures fresh(r) && r.Valid() && r.CodeReviewVote() == Some(-2)
  {
    r := CodeReviewFactory(-2);
  }
}
